/**
 raft.cpp as it is written: an object whose handlers assign its fields and push to its outbox. Every handler is
 proved to do exactly what the step function of NodeSpec says.
 */
module RaftObject {
  import opened Proto
  import opened Quorum
  import opened QuorumIndex
  import opened RaftLogSpec
  import opened NodeSpec
  import C = Cluster
  import P = ProgressSpec
  import R = ReadOnlySpec
  import S = Storage

  /**
   The node that the constructor makes of what was stored; the process stops when the commit index is outside the log.
   */
  function Loaded(cfg: Config, stored: RLog, hs: S.HardState, applied: nat): Node {
    var prs := map p | p in cfg.peers :: P.NewProgress(0, 1);
    var n := Node(cfg, 0, 0, 0, Follower, stored, prs, map[], [], 0, 0, 0, R.EMPTY, [], false);
    if hs == S.HardState(0, 0, 0) then BecomeFollower(n.(log := Applied(stored, applied)), 0, 0)
    else if hs.commit < stored.committed || hs.commit > stored.LastIndex() then Die(n)
    else BecomeFollower(n.(term := hs.term, vote := hs.vote, log := Applied(stored.(committed := hs.commit), applied)),
      hs.term, 0)
  }

  function Applied(l: RLog, applied: nat): RLog { if applied > 0 then l.(applied := applied) else l }

  lemma LoadedIs(n: Node, stored: RLog, commit: nat)
    requires Shape(n) && stored.committed <= commit <= stored.LastIndex()
    ensures
      Reset(n.(log := stored.(committed := commit)), n.term).(role := Follower, readStates := [], fatal := false) ==
      Loaded(n.cfg, stored, S.HardState(n.term, n.vote, commit), 0).(msgs := n.msgs)
  {
    var a := Reset(n.(log := stored.(committed := commit)), n.term).(role := Follower, readStates := [],
      fatal := false);
    var b := Loaded(n.cfg, stored, S.HardState(n.term, n.vote, commit), 0).(msgs := n.msgs);
    assert a.prs == b.prs;
  }

  /** The restart event of a cluster is this constructor on what the node had saved. */
  lemma RestartIsLoad(n: Node, commit: nat)
    requires Shape(n) && C.Sane(n) && C.CanRestart(n, commit)
    ensures var s := n.log.snap;
      var stored := RLog(s.index, s.term, n.log.ents[s.index - n.log.base..], s, s.index, s.index);
      C.Restarted(n, commit) == Loaded(n.cfg, stored, S.HardState(n.term, n.vote, commit), 0).(msgs := n.msgs)
  {
    hide Loaded, Reset, Shape;
    var s := n.log.snap;
    LoadedIs(n, RLog(s.index, s.term, n.log.ents[s.index - n.log.base..], s, s.index, s.index), commit);
  }

  /** The voters of s that granted their vote. */
  function Yes(votes: map<Id, bool>, s: set<Id>): set<Id> {
    set i | i in s && i in votes && votes[i]
  }

  lemma YesGrows(votes: map<Id, bool>, s: set<Id>, i: Id)
    requires i in votes && i !in s
    ensures |Yes(votes, s + {i})| == |Yes(votes, s)| + if votes[i] then 1 else 0
  {
    assert Yes(votes, s + {i}) == Yes(votes, s) + if votes[i] then {i} else {};
  }

  /** The counting loop of poll(). */
  method CountGranted(votes: map<Id, bool>) returns (granted: nat)
    ensures granted == |GrantedBy(votes)|
  {
    granted := 0;
    var rest := votes.Keys;
    ghost var seen: set<Id> := {};
    while rest != {}
      invariant rest + seen == votes.Keys && rest !! seen
      invariant granted == |Yes(votes, seen)|
      decreases |rest|
    {
      var i :| i in rest;
      YesGrows(votes, seen, i);
      rest := rest - {i};
      seen := seen + {i};
      if votes[i] { granted := granted + 1; }
    }
    assert Yes(votes, votes.Keys) == GrantedBy(votes);
  }

  class Raft {
    const cfg: Config
    var term: nat
    var vote: Id
    var lead: Id
    var role: Role
    var log: RLog
    var prs: map<Id, P.Progress>
    var votes: map<Id, bool>
    var msgs: seq<Message>
    var transferee: Id
    var pendingConf: nat
    var uncommitted: nat
    var readOnly: R.ReadOnly
    var readStates: seq<R.ReadState>
    var fatal: bool              // LOG_FATAL was reached

    function State(): Node
      reads this
    {
      Node(cfg, term, vote, lead, role, log, prs, votes, msgs, transferee, pendingConf, uncommitted, readOnly,
        readStates, fatal)
    }

    /** Raft::Raft: an empty follower takes over what storage has. */
    constructor (cfg: Config, stored: RLog, hs: S.HardState, applied: nat)
      ensures State() == Loaded(cfg, stored, hs, applied)
    {
      this.cfg := cfg;
      term, vote, lead, role := 0, 0, 0, Follower;
      log, votes, msgs := stored, map[], [];
      prs := map p | p in cfg.peers :: P.NewProgress(0, 1);
      transferee, pendingConf, uncommitted := 0, 0, 0;
      readOnly, readStates, fatal := R.EMPTY, [], false;
      new;
      if hs != S.HardState(0, 0, 0) { LoadState(hs); }
      if fatal { return; }
      if applied > 0 { log := log.(applied := applied); }
      BecomeFollowerOf(term, 0);
    }

    method LoadState(hs: S.HardState)
      modifies this`log, this`term, this`vote, this`fatal
      ensures State() ==
        if hs.commit < old(log).committed || hs.commit > old(log).LastIndex() then Die(old(State()))
        else old(State()).(term := hs.term, vote := hs.vote, log := old(log).(committed := hs.commit))
    {
      if hs.commit < log.committed || hs.commit > log.LastIndex() { fatal := true; return; }
      log := log.(committed := hs.commit);
      term := hs.term;
      vote := hs.vote;
    }

    /** start_node on an empty log: term 1, and the configuration of the first voters as committed entries. */
    method Bootstrap(boot: seq<Entry>)
      requires boot != [] && C.IsBoot(boot)
      requires State() == Loaded(cfg, RLog(0, 0, [], Snapshot(0, 0), 0, 0), S.HardState(0, 0, 0), 0)
      modifies this
      ensures State() == C.InitialNode(cfg, boot)
    {
      BecomeFollowerOf(1, 0);
      match Append(log, boot) {
        case None => assert false;
        case Some(l) => log := l;
      }
      log := log.(committed := |boot|);
      prs := map p | p in cfg.peers :: P.NewProgress(0, log.LastIndex() + 1).(recentActive := true);
    }

    // ------------------------------------------------------------------------
    // Sending and changing role

    method SendMsg(m: Message)
      modifies this`msgs, this`fatal
      ensures State() == Send(old(State()), m)
    {
      if fatal { return; }
      var out := m.(from := cfg.id);
      if IsVoteKind(m.mtype) {
        if m.term == 0 { fatal := true; return; }
      } else {
        if m.term != 0 { fatal := true; return; }
        if m.mtype != MsgProp && m.mtype != MsgReadIndex { out := out.(term := term); }
      }
      msgs := msgs + [out];
    }

    /** The part of reset() that a new term has no use for: who leads, who voted, what was pending. */
    method ForgetTerm()
      modifies this`lead, this`transferee, this`votes, this`pendingConf, this`uncommitted, this`readOnly
      ensures lead == 0 && transferee == 0 && votes == map[] && pendingConf == 0 && uncommitted == 0
      ensures readOnly == R.EMPTY
    {
      lead, transferee, votes := 0, 0, map[];
      pendingConf, uncommitted, readOnly := 0, 0, R.EMPTY;
    }

    method ResetTo(t: nat)
      modifies this
      ensures State() == Reset(old(State()), t)
    {
      hide FreshProgress;
      prs := FreshProgress(State());
      if term != t {
        term := t;
        vote := 0;
      }
      ForgetTerm();
    }

    method BecomeFollowerOf(t: nat, leader: Id)
      modifies this
      ensures State() == BecomeFollower(old(State()), t, leader)
    {
      if fatal { return; }
      ResetTo(t);
      lead := leader;
      role := Follower;
    }

    method BecomeCandidateNow()
      modifies this
      ensures State() == BecomeCandidate(old(State()))
    {
      if fatal { return; }
      if role == Leader { fatal := true; return; }
      ResetTo(term + 1);
      vote := cfg.id;
      role := Candidate;
    }

    method BecomePreCandidateNow()
      modifies this
      ensures State() == BecomePreCandidate(old(State()))
    {
      if fatal { return; }
      if role == Leader { fatal := true; return; }
      votes := map[];
      lead := 0;
      role := PreCandidate;
    }

    // ------------------------------------------------------------------------
    // Sizes of the uncommitted tail, and committing

    /** Adds up the payloads in 32 bits, as the loop of the source does. */
    method SumPayload(es: seq<Entry>) returns (s: nat)
      ensures s == PayloadSize32(es)
    {
      s := 0;
      var i := 0;
      while i < |es|
        invariant 0 <= i <= |es| && s == PayloadSize(es[..i]) % 0x1_0000_0000
      {
        assert es[..i + 1][..i] == es[..i];
        s := (s + |es[i].data|) % 0x1_0000_0000;
        i := i + 1;
      }
      assert es[..i] == es;
    }

    method IncreaseUncommitted(es: seq<Entry>) returns (ok: bool)
      modifies this`uncommitted
      ensures ok <==> FitsUncommitted(old(State()), es)
      ensures State() == if ok then old(State()).(uncommitted := old(uncommitted) + PayloadSize32(es)) else old(State())
    {
      var s := SumPayload(es);
      if uncommitted > 0 && uncommitted + s > cfg.maxUncommitted { return false; }
      uncommitted := uncommitted + s;
      ok := true;
    }

    method ReduceUncommittedBy(es: seq<Entry>)
      modifies this`uncommitted
      ensures State() == ReduceUncommitted(old(State()), es)
    {
      if fatal || uncommitted == 0 { return; }
      var s := SumPayload(es);
      uncommitted := if s > uncommitted then 0 else uncommitted - s;
    }

    /** Fills the match buffer from the progress map, sorts it and reads the quorum position. */
    method QuorumIndexOf() returns (i: nat)
      requires cfg.peers != []
      ensures i == CommitIndex(State())
    {
      var buf := [];
      var k := 0;
      while k < |cfg.peers|
        invariant 0 <= k <= |cfg.peers| && buf == MatchBuf(prs, cfg.peers[..k])
      {
        assert cfg.peers[..k + 1][..k] == cfg.peers[..k];
        buf := buf + [if cfg.peers[k] in prs then prs[cfg.peers[k]].matched else 0];
        k := k + 1;
      }
      assert cfg.peers[..k] == cfg.peers;
      buf := Sort(buf);
      i := buf[|buf| - QuorumSize(|cfg.peers|)];
    }

    method TryCommit() returns (moved: bool)
      requires cfg.peers != []
      modifies this`log, this`fatal
      ensures State() == NodeSpec.MaybeCommit(old(State()))
      ensures !old(fatal) ==> moved == CommitsMore(old(State()))
    {
      moved := false;
      if fatal { return; }
      var mci := QuorumIndexOf();
      moved := WouldCommit(log, mci, term);
      match RaftLogSpec.MaybeCommit(log, mci, term) {
        case None => fatal := true;
        case Some(l) => log := l;
      }
    }

    /** Stamps term and index on the entries one by one. */
    method StampAll(es: seq<Entry>) returns (r: seq<Entry>)
      ensures r == Stamp(es, term, log.LastIndex())
    {
      var li := log.LastIndex();
      r := es;
      var i := 0;
      while i < |es|
        invariant 0 <= i <= |es| == |r|
        invariant r[..i] == Stamp(es, term, li)[..i] && r[i..] == es[i..]
      {
        r := r[i := r[i].(term := term, index := li + 1 + i)];
        assert r[..i + 1] == r[..i] + [r[i]];
        i := i + 1;
      }
    }

    lemma ShapeHas(n: Node)
      requires Shape(n)
      ensures n.cfg.id in n.prs && n.cfg.peers != []
    {
    }

    method AppendEntries(es: seq<Entry>)
      requires Shape(State())
      modifies this
      ensures State() == AppendEntry(old(State()), es)
    {
      hide NodeSpec.MaybeCommit, Append, FitsUncommitted, PayloadSize32, Stamp, P.MaybeUpdate;
      ShapeHas(State());
      if fatal { return; }
      var stamped := StampAll(es);
      var ok := IncreaseUncommitted(stamped);
      if !ok { return; }
      match Append(log, stamped) {
        case None =>
          fatal := true;
        case Some(l) =>
          log := l;
          prs := prs[cfg.id := P.MaybeUpdate(prs[cfg.id], log.LastIndex())];
          var moved := TryCommit();
      }
    }

    /** become_leader, before its empty entry. */
    method StartLeading()
      requires Shape(State())
      modifies this
      ensures State() == StartLeader(old(State()))
    {
      hide FreshProgress, P.BecomeReplicate;
      ResetTo(term);
      FreshKeys(old(State()));
      lead, role := cfg.id, Leader;
      prs := prs[cfg.id := P.BecomeReplicate(prs[cfg.id])];
      pendingConf := log.LastIndex();
    }

    lemma FreshKeys(n: Node)
      ensures FreshProgress(n).Keys == n.prs.Keys
    {
    }

    method BecomeLeaderNow()
      requires Shape(State())
      modifies this
      ensures State() == BecomeLeader(old(State()))
    {
      if fatal { return; }
      if role == Follower { fatal := true; return; }
      StartLeading();
      ghost var n1 := State();
      if uncommitted > 0
        && uncommitted + PayloadSize32(Stamp([EMPTY_ENTRY], term, log.LastIndex())) > cfg.maxUncommitted
      {
        assert false;   // LOG_FATAL: nothing is uncommitted after the reset
      }
      assert Shape(n1);
      AppendEntries([EMPTY_ENTRY]);
      ReduceUncommittedBy([EMPTY_ENTRY]);
    }

    // ------------------------------------------------------------------------
    // Campaigns

    /** Records a vote once, and counts the granted ones. */
    method PollVote(id: Id, v: bool) returns (granted: nat)
      modifies this`votes
      ensures State() == Poll(old(State()), id, v)
      ensures granted == Granted(State())
    {
      if !fatal && id !in votes { votes := votes[id := v]; }
      granted := CountGranted(votes);
    }

    method AskForVotes(mtype: MessageType, t: nat, ctx: seq<byte>)
      modifies this`msgs, this`fatal
      ensures State() == RequestVotes(old(State()), mtype, t, ctx, cfg.peers)
    {
      var k := 0;
      while k < |cfg.peers| && !fatal
        invariant 0 <= k <= |cfg.peers|
        invariant RequestVotes(old(State()), mtype, t, ctx, cfg.peers) ==
          RequestVotes(State(), mtype, t, ctx, cfg.peers[k..])
      {
        assert cfg.peers[k..][1..] == cfg.peers[k + 1..];
        if cfg.peers[k] != cfg.id {
          SendMsg(VoteRequest(State(), mtype, t, ctx, cfg.peers[k]));
        }
        k := k + 1;
      }
    }

    method RunElection(transfer: bool)
      requires Shape(State())
      modifies this
      ensures State() == NodeSpec.Elect(old(State()), transfer)
    {
      if fatal { return; }
      BecomeCandidateNow();
      var granted := PollVote(cfg.id, true);
      if fatal { return; }
      if NodeQuorum(State()) == granted {
        BecomeLeaderNow();
      } else {
        AskForVotes(MsgVote, term, if transfer then TRANSFER else []);
      }
    }

    method RunCampaign(t: CampaignType)
      requires Shape(State())
      modifies this
      ensures State() == Campaign(old(State()), t)
    {
      if fatal { return; }
      if t == CampaignPreElection {
        BecomePreCandidateNow();
        var granted := PollVote(cfg.id, true);
        if fatal { return; }
        if NodeQuorum(State()) == granted {
          RunElection(false);
        } else {
          AskForVotes(MsgPreVote, term + 1, []);
        }
      } else {
        RunElection(t == CampaignTransfer);
      }
    }

    method Hup()
      requires Shape(State())
      modifies this
      ensures State() == StepHup(old(State()))
    {
      if fatal || role == Leader { return; }
      if log.applied > log.committed || log.committed > log.LastIndex() { fatal := true; return; }
      match Slice(log, log.applied + 1, log.committed + 1, 0xFFFF_FFFF_FFFF_FFFF) {
        case None => fatal := true;
        case Some(es) =>
          var pending := PendingConfChange(es);
          if pending && log.committed > log.applied { return; }
          RunCampaign(if cfg.preVote then CampaignPreElection else CampaignElection);
      }
    }

    method PendingConfChange(es: seq<Entry>) returns (b: bool)
      ensures b == HasConfChange(es)
    {
      var i := 0;
      b := false;
      while i < |es|
        invariant 0 <= i <= |es| && (b <==> exists k :: 0 <= k < i && es[k].etype == EntryConfChange)
      {
        if es[i].etype == EntryConfChange { b := true; }
        i := i + 1;
      }
    }

    method HandleVote(m: Message)
      modifies this`msgs, this`fatal, this`vote
      ensures State() == StepVote(old(State()), m)
    {
      if fatal { return; }
      var canVote := vote == m.from || (vote == 0 && lead == 0) || (m.mtype == MsgPreVote && m.term > term);
      if canVote && log.IsUpToDate(m.index, m.logTerm) {
        SendMsg(Blank(RespType(m.mtype), m.from).(term := m.term));
        if !fatal && m.mtype == MsgVote { vote := m.from; }
      } else {
        SendMsg(Blank(RespType(m.mtype), m.from).(term := term, reject := true));
      }
    }

    // ------------------------------------------------------------------------
    // Replication

    method SendOneAppend(to: Id, sendIfEmpty: bool) returns (sent: bool)
      requires to in prs
      modifies this`prs, this`msgs, this`fatal
      ensures State() == MaybeSendAppend(old(State()), to, sendIfEmpty)
      ensures !old(fatal) ==> sent == SendsAppend(old(State()), to, sendIfEmpty)
      ensures prs.Keys == old(prs.Keys)
    {
      sent := false;
      if fatal { return; }
      var p := prs[to];
      if P.IsPaused(p, cfg.maxInflight) { return; }
      var next := NextEntries(State(), to);
      if next.Some? && next.value == [] && !sendIfEmpty { return; }
      if next.None? {
        if !sendIfEmpty || !p.recentActive { return; }
        sent := true;
        SendSnapshot(to);
        return;
      }
      sent := true;
      var m := AppendMessage(State(), to, next.value);
      RecordSent(to, next.value);
      SendMsg(m);
    }

    /** The follower's next entries are gone: a snapshot instead. */
    method SendSnapshot(to: Id)
      requires to in prs && !fatal
      modifies this`prs, this`msgs, this`fatal
      ensures var n := old(State());
        State() == if n.log.snap.index == 0 then Die(n)
          else Send(SetPr(n, to, P.BecomeSnapshot(n.prs[to], n.log.snap.index)),
            Blank(MsgSnap, to).(snapshot := n.log.snap))
      ensures prs.Keys == old(prs.Keys)
    {
      hide Send, P.BecomeSnapshot;
      if log.snap.index == 0 { fatal := true; return; }
      prs := prs[to := P.BecomeSnapshot(prs[to], log.snap.index)];
      SendMsg(Blank(MsgSnap, to).(snapshot := log.snap));
    }

    /** What an append with these entries does to the follower's record. */
    method RecordSent(to: Id, es: seq<Entry>)
      requires to in prs && !P.IsPaused(prs[to], cfg.maxInflight)
      modifies this`prs
      ensures prs == old(prs)[to := SentProgress(old(prs[to]), es)]
    {
      if es == [] { return; }
      var p := prs[to];
      match p.state {
        case Replicate =>
          if P.IsFull(p.inflights, cfg.maxInflight) {
            assert false;   // LOG_FATAL: a full window is paused
          }
          var last := es[|es| - 1].index;
          p := p.(next := last + 1, inflights := p.inflights + [last]);
        case Probe =>
          p := p.(paused := true);
        case Snapshotting =>
          assert false;   // LOG_FATAL: a follower that waits for a snapshot is paused
      }
      prs := prs[to := p];
    }

    method BroadcastAppend()
      requires forall p :: p in cfg.peers ==> p in prs
      modifies this`prs, this`msgs, this`fatal
      ensures State() == BcastAppend(old(State()), cfg.peers)
      ensures prs.Keys == old(prs.Keys)
    {
      var k := 0;
      while k < |cfg.peers| && !fatal
        invariant 0 <= k <= |cfg.peers| && prs.Keys == old(prs.Keys)
        invariant BcastAppend(old(State()), cfg.peers) == BcastAppend(State(), cfg.peers[k..])
      {
        assert cfg.peers[k..][1..] == cfg.peers[k + 1..];
        if cfg.peers[k] != cfg.id {
          var sent := SendOneAppend(cfg.peers[k], true);
        }
        k := k + 1;
      }
    }

    /** while (maybe_send_append(to, false)) {} */
    method SendRemaining(to: Id)
      requires Shape(State()) && to in prs
      modifies this`prs, this`msgs, this`fatal
      ensures State() == SendAll(old(State()), to)
    {
      var more := true;
      while more && !fatal
        invariant Shape(State()) && to in prs
        invariant if more then SendAll(old(State()), to) == SendAll(State(), to)
          else fatal || SendAll(old(State()), to) == State()
        invariant fatal ==> SendAll(old(State()), to) == State()
        decreases more, Backlog(State(), to), if fatal then 0 else if P.IsPaused(prs[to], cfg.maxInflight) then 1 else 2
      {
        ghost var n := State();
        if SendsAppend(n, to, false) { SendMakesProgress(n, to); }
        SendAppendKeepsShape(n, to, false);
        more := SendOneAppend(to, false);
      }
    }

    method SendHeartbeats(ctx: seq<byte>)
      requires forall p :: p in cfg.peers ==> p in prs
      modifies this`msgs, this`fatal
      ensures State() == BcastHeartbeat(old(State()), ctx, cfg.peers)
    {
      var k := 0;
      while k < |cfg.peers| && !fatal
        invariant 0 <= k <= |cfg.peers|
        invariant BcastHeartbeat(old(State()), ctx, cfg.peers) == BcastHeartbeat(State(), ctx, cfg.peers[k..])
      {
        assert cfg.peers[k..][1..] == cfg.peers[k + 1..];
        if cfg.peers[k] != cfg.id {
          SendMsg(Blank(MsgHeartbeat, cfg.peers[k]).(commit := Min(prs[cfg.peers[k]].matched, log.committed),
            context := ctx));
        }
        k := k + 1;
      }
    }

    // ------------------------------------------------------------------------
    // step_leader

    method CheckQuorumActive() returns (b: bool)
      ensures b <==> CountActive(State(), cfg.peers) >= NodeQuorum(State())
    {
      var act := 0;
      var k := 0;
      while k < |cfg.peers|
        invariant 0 <= k <= |cfg.peers|
        invariant act + CountActive(State(), cfg.peers[k..]) == CountActive(State(), cfg.peers)
      {
        assert cfg.peers[k..][1..] == cfg.peers[k + 1..];
        if cfg.peers[k] == cfg.id || (cfg.peers[k] in prs && prs[cfg.peers[k]].recentActive) { act := act + 1; }
        k := k + 1;
      }
      b := act >= QuorumSize(|cfg.peers|);
    }

    /** Replaces every configuration change but the first allowed one by an empty entry. */
    method FilterConfChanges(es: seq<Entry>) returns (r: seq<Entry>)
      modifies this`pendingConf
      ensures (r, pendingConf) == FilterProposal(es, old(pendingConf), log.applied, log.LastIndex())
    {
      r := [];
      var i := 0;
      while i < |es|
        invariant 0 <= i <= |es|
        invariant (r, pendingConf) == FilterProposal(es[..i], old(pendingConf), log.applied, log.LastIndex())
      {
        assert es[..i + 1][..i] == es[..i];
        var e := es[i];
        if e.etype == EntryConfChange {
          if pendingConf > log.applied {
            e := EMPTY_ENTRY;
          } else {
            pendingConf := log.LastIndex() + i + 1;
          }
        }
        r := r + [e];
        i := i + 1;
      }
      assert es[..i] == es;
    }

    method HandleProposal(m: Message)
      requires Shape(State())
      modifies this
      ensures State() == Propose(old(State()), m)
    {
      if fatal { return; }
      if m.entries == [] { fatal := true; return; }
      if transferee != 0 { return; }
      var es := FilterConfChanges(m.entries);
      ghost var n1 := State();
      assert n1 ==
        old(State()).(pendingConf := FilterProposal(m.entries, old(pendingConf), log.applied, log.LastIndex()).1);
      if uncommitted > 0 && uncommitted + PayloadSize32(Stamp(es, term, log.LastIndex())) > cfg.maxUncommitted {
        return;
      }
      AppendKeepsShape(n1, es);
      AppendEntries(es);
      BroadcastAppend();
    }

    method Answer(req: Message, index: nat)
      requires req.entries != []
      modifies this`readStates, this`msgs, this`fatal
      ensures State() == AnswerRead(old(State()), req, index)
    {
      if fatal { return; }
      if req.from == 0 || req.from == cfg.id {
        readStates := readStates + [R.ReadState(index, R.CtxOf(req))];
      } else {
        SendMsg(Blank(MsgReadIndexResp, req.from).(index := index, entries := req.entries));
      }
    }

    method HandleReadIndex(m: Message)
      requires Shape(State())
      modifies this
      ensures State() == LeaderReadIndex(old(State()), m)
    {
      if fatal { return; }
      if NodeQuorum(State()) > 1 {
        if log.Term(log.committed) != term { return; }
        if m.entries == [] { fatal := true; return; }
        if cfg.readOnlyOption == ReadOnlySafe {
          readOnly := R.AddRequest(readOnly, log.committed, m);
          SendHeartbeats(R.CtxOf(m));
        } else {
          Answer(m, log.committed);
        }
      } else {
        if m.entries == [] { fatal := true; return; }
        readStates := readStates + [R.ReadState(log.committed, R.CtxOf(m))];
      }
    }

    method AnswerAll(ss: seq<R.ReadIndexStatus>)
      modifies this`readStates, this`msgs, this`fatal
      ensures State() == AnswerReads(old(State()), ss)
    {
      var i := 0;
      while i < |ss| && !fatal
        invariant 0 <= i <= |ss|
        invariant AnswerReads(old(State()), ss) == AnswerReads(State(), ss[i..])
      {
        assert ss[i..][0] == ss[i] && ss[i..][1..] == ss[i + 1..];
        if ss[i].req.entries == [] { fatal := true; } else { Answer(ss[i].req, ss[i].index); }
        i := i + 1;
      }
    }

    method HandleAppResp(m: Message)
      requires Shape(State()) && m.from in prs
      modifies this
      ensures State() == AppResp(old(State()), m)
    {
      if fatal { return; }
      ghost var n := State();
      var p := prs[m.from].(recentActive := true);
      if m.reject {
        if P.Decreases(p, m.index) {
          p := P.MaybeDecreaseTo(p, m.index, m.rejectHint);
          if p.state == P.Replicate { p := P.BecomeProbe(p); }
          prs := prs[m.from := p];
          assert State() == SetPr(n, m.from, p);
          var sent := SendOneAppend(m.from, true);
        } else {
          prs := prs[m.from := p];
        }
        return;
      }
      var oldPaused := P.IsPaused(p, cfg.maxInflight);
      if !P.Updates(p, m.index) {
        prs := prs[m.from := P.MaybeUpdate(p, m.index)];
        return;
      }
      prs := prs[m.from := AcceptedProgress(p, m.index)];
      ghost var n1 := State();
      assert n1 == SetPr(n, m.from, AcceptedProgress(p, m.index));
      AfterAcceptKeepsShape(n1, m.from, oldPaused);
      AcceptedNext(m.from, oldPaused);
      SendAllKeepsShape(State(), m.from);
      SendRemaining(m.from);
      if !fatal && m.from == transferee && prs[m.from].matched == log.LastIndex() {
        SendMsg(Blank(MsgTimeoutNow, m.from));
      }
    }

    method AcceptedNext(from: Id, oldPaused: bool)
      requires Shape(State()) && from in prs
      modifies this`log, this`prs, this`msgs, this`fatal
      ensures State() == AfterAccept(old(State()), from, oldPaused)
    {
      if fatal { return; }
      ghost var n := State();
      MaybeCommitKeepsShape(n);
      var moved := TryCommit();
      if moved {
        BroadcastAppend();
      } else if oldPaused {
        assert State() == n;
        var sent := SendOneAppend(from, true);
      }
    }

    method HandleHeartbeatResp(m: Message)
      requires Shape(State()) && m.from in prs
      modifies this
      ensures State() == HeartbeatResp(old(State()), m)
    {
      if fatal { return; }
      ghost var n := State();
      var p := prs[m.from].(recentActive := true, paused := false);
      if p.state == P.Replicate && P.IsFull(p.inflights, cfg.maxInflight) {
        p := p.(inflights := P.FreeFirstOne(p.inflights));
      }
      prs := prs[m.from := p];
      assert State() == SetPr(n, m.from, HeartbeatProgress(n, n.prs[m.from]));
      if p.matched < log.LastIndex() {
        var sent := SendOneAppend(m.from, true);
      }
      ReadAcks(m);
    }

    method ReadAcks(m: Message)
      modifies this`readOnly, this`readStates, this`msgs, this`fatal
      ensures State() == HeartbeatReads(old(State()), m)
    {
      if fatal || cfg.readOnlyOption != ReadOnlySafe || m.context == [] { return; }
      var acks := R.AckCount(readOnly, m);
      readOnly := R.RecvAck(readOnly, m);
      if acks < NodeQuorum(State()) { return; }
      if R.AdvanceFails(readOnly, m.context) { fatal := true; return; }
      var ss := R.AdvanceStatuses(readOnly, m.context);
      readOnly := R.Advance(readOnly, m.context);
      AnswerAll(ss);
    }

    method HandleSnapStatus(m: Message)
      requires m.from in prs
      modifies this`prs
      ensures State() == SnapStatus(old(State()), m)
    {
      var p := prs[m.from];
      if fatal || p.state != P.Snapshotting { return; }
      if m.reject { p := p.(pendingSnapshot := 0); }
      p := P.BecomeProbe(p);
      prs := prs[m.from := p.(paused := true)];
    }

    method HandleUnreachable(m: Message)
      requires m.from in prs
      modifies this`prs
      ensures State() == Unreachable(old(State()), m)
    {
      if !fatal && prs[m.from].state == P.Replicate { prs := prs[m.from := P.BecomeProbe(prs[m.from])]; }
    }

    method HandleTransfer(m: Message)
      requires Shape(State()) && m.from in prs
      modifies this
      ensures State() == TransferLeader(old(State()), m)
    {
      if fatal || (transferee != 0 && transferee == m.from) { return; }
      if m.from == cfg.id { transferee := 0; return; }
      transferee := m.from;
      if prs[m.from].matched == log.LastIndex() {
        SendMsg(Blank(MsgTimeoutNow, m.from));
      } else {
        var sent := SendOneAppend(m.from, true);
      }
    }

    method HandleAsLeader(m: Message)
      requires Shape(State())
      modifies this
      ensures State() == StepLeader(old(State()), m)
    {
      if m.mtype == MsgBeat {
        SendHeartbeats(R.LastPendingCtx(readOnly));
      } else if m.mtype == MsgCheckQuorum {
        var active := CheckQuorumActive();
        if !fatal && !active { BecomeFollowerOf(term, 0); }
      } else if m.mtype == MsgProp {
        HandleProposal(m);
      } else if m.mtype == MsgReadIndex {
        HandleReadIndex(m);
      } else if m.from !in prs {
      } else if m.mtype == MsgAppResp {
        HandleAppResp(m);
      } else if m.mtype == MsgHeartbeatResp {
        HandleHeartbeatResp(m);
      } else if m.mtype == MsgSnapStatus {
        HandleSnapStatus(m);
      } else if m.mtype == MsgUnreachable {
        HandleUnreachable(m);
      } else if m.mtype == MsgTransferLeader {
        HandleTransfer(m);
      }
    }

    // ------------------------------------------------------------------------
    // Followers and candidates

    method AppendFromLeader(m: Message)
      modifies this`log, this`msgs, this`fatal
      ensures State() == HandleAppend(old(State()), m)
    {
      if fatal { return; }
      if m.index < log.committed {
        SendMsg(Blank(MsgAppResp, m.from).(index := log.committed));
        return;
      }
      match MaybeAppend(log, m.index, m.logTerm, m.commit, m.entries) {
        case Fatal =>
          fatal := true;
        case Accepted(l, last) =>
          log := l;
          SendMsg(Blank(MsgAppResp, m.from).(index := last));
        case Rejected =>
          SendMsg(Blank(MsgAppResp, m.from).(index := m.index, reject := true, rejectHint := log.LastIndex()));
      }
    }

    method HeartbeatFromLeader(m: Message)
      modifies this`log, this`msgs, this`fatal
      ensures State() == HandleHeartbeat(old(State()), m)
    {
      if fatal { return; }
      match CommitTo(log, m.commit) {
        case None => fatal := true;
        case Some(l) =>
          log := l;
          SendMsg(Blank(MsgHeartbeatResp, m.from));
      }
    }

    method RestoreFrom(s: Snapshot)
      requires !fatal
      modifies this`log, this`prs, this`fatal
      ensures fatal ==> State() == Die(old(State()))
      ensures !fatal ==> State() == old(State()).(log := log, prs := prs)
      ensures !fatal && s.index <= old(log).committed ==> log == old(log) && prs == old(prs)
      ensures s.index > old(log).committed && old(log).MatchTerm(s.index, s.term) ==>
        prs == old(prs) && CommitTo(old(log), s.index) == if fatal then None else Some(log)
      ensures Restores(old(State()), s) ==>
        !fatal && log == Restore(old(log), s) && prs == RestoredProgress(old(State()), s.index)
      ensures s.index <= old(log).committed ==> !fatal
    {
      if s.index <= log.committed { return; }
      if log.MatchTerm(s.index, s.term) {
        match CommitTo(log, s.index) {
          case None => fatal := true;
          case Some(l) => log := l;
        }
        return;
      }
      log := Restore(log, s);
      prs := RestoredProgress(State(), log.LastIndex());
    }

    method SnapshotFromLeader(m: Message)
      modifies this`log, this`prs, this`msgs, this`fatal
      ensures State() == HandleSnapshot(old(State()), m)
    {
      if fatal { return; }
      RestoreFrom(m.snapshot);
      if fatal { return; }
      SendMsg(Blank(MsgAppResp, m.from));
    }

    method CountVotes(granted: nat)
      requires Shape(State()) && granted == Granted(State())
      modifies this
      ensures State() == Tally(old(State()))
    {
      if fatal { return; }
      if NodeQuorum(State()) == granted {
        if role == PreCandidate {
          RunElection(false);
        } else if role != Candidate {
          fatal := true;
        } else {
          BecomeLeaderKeepsShape(State());
          BecomeLeaderNow();
          BroadcastAppend();
        }
      } else if NodeQuorum(State()) == |votes| - granted {
        BecomeFollowerOf(term, 0);
      }
    }

    method HandleAsCandidate(m: Message)
      requires Shape(State())
      modifies this
      ensures State() == StepCandidate(old(State()), m)
    {
      if m.mtype == MsgApp {
        BecomeFollowerOf(m.term, m.from);
        AppendFromLeader(m);
      } else if m.mtype == MsgHeartbeat {
        BecomeFollowerOf(m.term, m.from);
        HeartbeatFromLeader(m);
      } else if m.mtype == MsgSnap {
        BecomeFollowerOf(m.term, m.from);
        SnapshotFromLeader(m);
      } else if m.mtype == MsgVoteResp || m.mtype == MsgPreVoteResp {
        var granted := PollVote(m.from, !m.reject);
        CountVotes(granted);
      }
    }

    method ForwardToLeader(m: Message)
      modifies this`msgs, this`fatal
      ensures State() == Forward(old(State()), m)
    {
      if lead == 0 { return; }
      SendMsg(m.(to := lead));
    }

    method HandleAsFollower(m: Message)
      requires Shape(State())
      modifies this
      ensures State() == StepFollower(old(State()), m)
    {
      if fatal { return; }
      match m.mtype {
        case MsgProp => if !cfg.disableForwarding { ForwardToLeader(m); }
        case MsgApp =>
          lead := m.from;
          AppendFromLeader(m);
        case MsgHeartbeat =>
          lead := m.from;
          HeartbeatFromLeader(m);
        case MsgSnap =>
          lead := m.from;
          SnapshotFromLeader(m);
        case MsgTransferLeader => ForwardToLeader(m);
        case MsgTimeoutNow => RunCampaign(CampaignTransfer);
        case MsgReadIndex => ForwardToLeader(m);
        case MsgReadIndexResp =>
          if |m.entries| == 1 { readStates := readStates + [R.ReadState(m.index, R.CtxOf(m))]; }
        case _ =>
      }
    }

    method Handle(m: Message)
      requires Shape(State())
      modifies this
      ensures State() == Dispatch(old(State()), m)
    {
      if fatal { return; }
      if m.mtype == MsgHup {
        Hup();
      } else if m.mtype == MsgVote || m.mtype == MsgPreVote {
        HandleVote(m);
      } else {
        match role {
          case Leader => HandleAsLeader(m);
          case Follower => HandleAsFollower(m);
          case Candidate => HandleAsCandidate(m);
          case PreCandidate => HandleAsCandidate(m);
        }
      }
    }

    /** step(): terms first, then the handler of the role. lease: the election timeout has not passed. */
    method StepMsg(m: Message, lease: bool)
      requires Shape(State())
      modifies this
      ensures State() == Step(old(State()), m, lease)
    {
      if fatal { return; }
      if m.term > term {
        if InLease(State(), m, lease) { return; }
        if !(m.mtype == MsgPreVote || (m.mtype == MsgPreVoteResp && !m.reject)) {
          BecomeFollowerOf(m.term, if IsFromLeader(m.mtype) then m.from else 0);
        }
        Handle(m);
      } else if m.term != 0 && m.term < term {
        if (cfg.checkQuorum || cfg.preVote) && (m.mtype == MsgHeartbeat || m.mtype == MsgApp) {
          SendMsg(Blank(MsgAppResp, m.from));
        } else if m.mtype == MsgPreVote {
          SendMsg(Blank(MsgPreVoteResp, m.from).(reject := true, term := term));
        }
      } else {
        Handle(m);
      }
    }
  }
}
