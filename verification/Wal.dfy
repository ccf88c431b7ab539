/**
 The write-ahead log file: a stream of framed records. A reader of any torn prefix of a stream returns exactly the
 records that are whole, and leaves a file to which records can be appended again.
 */
module WalFile {
  import opened Proto

  datatype Record = Record(rtype: byte, data: seq<byte>)

  const MAX_LEN := 0xFF_FFFF
  const HEADER := 8

  /** compute_crc32: some 32-bit checksum. */
  type Checksum = seq<byte> -> nat

  function Low(n: nat): byte { (n % 256) as byte }

  /** set_WAL_Record_len: a 32-bit argument, clamped to what three bytes hold. */
  function SetLen(len: nat): (b: seq<byte>)
    ensures |b| == 3
  {
    var l := len % 0x1_0000_0000;
    var n := if l <= MAX_LEN then l else MAX_LEN;
    [Low(n), Low(n / 0x100), Low(n / 0x1_0000)]
  }

  /** WAL_Record_len. */
  function Len(b: seq<byte>): nat
    requires |b| >= 3
  {
    b[2] as nat * 0x1_0000 + b[1] as nat * 0x100 + b[0] as nat
  }

  function SetCrc(c: nat): (b: seq<byte>)
    ensures |b| == 4
  {
    [Low(c), Low(c / 0x100), Low(c / 0x1_0000), Low(c / 0x100_0000)]
  }

  function Crc(b: seq<byte>): nat
    requires |b| >= 4
  {
    b[3] as nat * 0x100_0000 + b[2] as nat * 0x1_0000 + b[1] as nat * 0x100 + b[0] as nat
  }

  lemma Digits(n: nat)
    ensures n % 256 + 256 * ((n / 0x100) % 256) + 0x1_0000 * ((n / 0x1_0000) % 256)
      + 0x100_0000 * ((n / 0x100_0000) % 256) == n % 0x1_0000_0000
  {
    var a, b, c := n / 0x100, n / 0x1_0000, n / 0x100_0000;
    assert b == a / 0x100 && c == b / 0x100;
    assert n == 0x100 * a + n % 256 && a == 0x100 * b + a % 256 && b == 0x100 * c + b % 256;
    assert c == 0x100 * (c / 0x100) + c % 256;
  }

  /** A length comes back as it was exactly when it fits into three bytes. */
  lemma LenRoundTrip(len: nat)
    ensures Len(SetLen(len)) == if len % 0x1_0000_0000 <= MAX_LEN then len % 0x1_0000_0000 else MAX_LEN
    ensures Len(SetLen(len)) == len <==> len <= MAX_LEN
  {
  }

  lemma CrcRoundTrip(c: nat)
    ensures Crc(SetCrc(c)) == c % 0x1_0000_0000
  {
    Digits(c);
  }

  function Stored(sum: Checksum, data: seq<byte>): nat { sum(data) % 0x1_0000_0000 }

  /** WAL_File::append: header and the whole of the data. */
  function Encode(sum: Checksum, r: Record): (b: seq<byte>)
    ensures |b| == HEADER + |r.data|
  {
    [r.rtype] + SetLen(|r.data|) + SetCrc(Stored(sum, r.data)) + r.data
  }

  function Stream(sum: Checksum, rs: seq<Record>): seq<byte> {
    if rs == [] then [] else Encode(sum, rs[0]) + Stream(sum, rs[1..])
  }

  /** What a reader makes of the front of a file. */
  datatype Front = Torn | Stop | Whole(rec: Record)

  function Read(sum: Checksum, b: seq<byte>): (f: Front)
    requires b != []
    ensures f.Whole? ==> HEADER + |f.rec.data| <= |b|
  {
    if |b| < HEADER then Torn
    else if b[0] == 0 then Stop
    else
      var n := Len(b[1..4]);
      if |b| - HEADER < n then Torn
      else
        var data := b[HEADER..HEADER + n];
        if Crc(b[4..8]) != 0 && Stored(sum, data) != Crc(b[4..8]) then Torn
        else Whole(Record(b[0], data))
  }

  /** The records of a file, and its length after reading: a torn tail is cut off. */
  function Parse(sum: Checksum, b: seq<byte>): (r: (seq<Record>, nat))
    ensures r.1 <= |b|
    decreases |b|
  {
    if b == [] then ([], 0)
    else
      match Read(sum, b)
      case Torn => ([], 0)
      case Stop => ([], |b|)
      case Whole(rec) =>
        var rest := Parse(sum, b[HEADER + |rec.data|..]);
        ([rec] + rest.0, HEADER + |rec.data| + rest.1)
  }

  predicate Fits(r: Record) { r.rtype != 0 && |r.data| <= MAX_LEN }

  // --------------------------------------------------------------------------
  // Round trip and torn tails

  lemma HeaderOf(sum: Checksum, r: Record, tail: seq<byte>)
    ensures var b := Encode(sum, r) + tail;
      && |b| >= HEADER && b[0] == r.rtype && b[1..4] == SetLen(|r.data|) && b[4..8] == SetCrc(Stored(sum, r.data))
      && b[HEADER..HEADER + |r.data|] == r.data && b[HEADER + |r.data|..] == tail
  {
  }

  /** A record that fits is read back from any stream it starts. */
  lemma ReadEncoded(sum: Checksum, r: Record, tail: seq<byte>)
    requires Fits(r)
    ensures Read(sum, Encode(sum, r) + tail) == Whole(r)
    ensures (Encode(sum, r) + tail)[HEADER + |r.data|..] == tail
  {
    hide Encode, SetLen, SetCrc, Len, Crc;
    HeaderOf(sum, r, tail);
    LenRoundTrip(|r.data|);
    CrcRoundTrip(Stored(sum, r.data));
  }

  /** A record cut short is torn. */
  lemma ReadTorn(sum: Checksum, r: Record, n: nat)
    requires Fits(r) && 0 < n < |Encode(sum, r)|
    ensures Read(sum, Encode(sum, r)[..n]) == Torn
  {
  }

  /** How many records lie wholly inside the first n bytes. */
  function WholeIn(sum: Checksum, rs: seq<Record>, n: nat): (k: nat)
    ensures k <= |rs|
  {
    if rs == [] || |Encode(sum, rs[0])| > n then 0 else 1 + WholeIn(sum, rs[1..], n - |Encode(sum, rs[0])|)
  }

  lemma {:induction false} WholeInIs(sum: Checksum, rs: seq<Record>, n: nat)
    requires n <= |Stream(sum, rs)|
    ensures var k := WholeIn(sum, rs, n);
      && |Stream(sum, rs[..k])| <= n && (k < |rs| ==> n < |Stream(sum, rs[..k + 1])|)
  {
    if rs != [] && |Encode(sum, rs[0])| <= n {
      WholeInIs(sum, rs[1..], n - |Encode(sum, rs[0])|);
      var k := WholeIn(sum, rs[1..], n - |Encode(sum, rs[0])|);
      assert rs[..k + 1][0] == rs[0] && rs[..k + 1][1..] == rs[1..][..k];
      if k + 1 < |rs| { assert rs[..k + 2][0] == rs[0] && rs[..k + 2][1..] == rs[1..][..k + 1]; }
    } else if rs != [] {
      assert rs[..1][0] == rs[0] && rs[..1][1..] == [];
      assert rs[..0] == [];
    }
  }

  /**
   For every prefix of a stream of records that fit: the reader returns exactly the records wholly inside it and
   cuts the file to the end of the last one, which is again a stream.
   */
  lemma {:induction false} TornTail(sum: Checksum, rs: seq<Record>, n: nat)
    requires (forall i :: 0 <= i < |rs| ==> Fits(rs[i])) && n <= |Stream(sum, rs)|
    ensures var k := WholeIn(sum, rs, n); var b := Stream(sum, rs)[..n];
      && Parse(sum, b) == (rs[..k], |Stream(sum, rs[..k])|)
      && |Stream(sum, rs[..k])| <= n && b[..|Stream(sum, rs[..k])|] == Stream(sum, rs[..k])
    decreases |rs|
  {
    hide Encode, Parse, Fits;
    var b := Stream(sum, rs)[..n];
    ParseNone(sum);
    if rs == [] || n == 0 {
      assert b == [];
      assert rs[..0] == [];
      if rs != [] { EncodeSize(sum, rs[0]); }
    } else {
      var first := Encode(sum, rs[0]);
      var tail := Stream(sum, rs[1..]);
      if n < |first| {
        assert b == first[..n];
        ParseTorn(sum, rs[0], n);
        assert rs[..0] == [];
      } else {
        var m := n - |first|;
        assert b == first + tail[..m];
        ParseStep(sum, rs[0], tail[..m]);
        TornTail(sum, rs[1..], m);
        var k := WholeIn(sum, rs[1..], m);
        assert rs[..k + 1][0] == rs[0] && rs[..k + 1][1..] == rs[1..][..k];
        assert rs[..k + 1] == [rs[0]] + rs[1..][..k];
        FrontOf(first, tail, Stream(sum, rs[1..][..k]), m);
      }
    }
  }

  lemma FrontOf(first: seq<byte>, tail: seq<byte>, p: seq<byte>, m: nat)
    requires m <= |tail| && |p| <= m && tail[..m][..|p|] == p
    ensures (first + tail[..m])[..|first + p|] == first + p
  {
  }

  lemma ParseNone(sum: Checksum)
    ensures Parse(sum, []) == ([], 0)
  {
  }

  lemma EncodeSize(sum: Checksum, r: Record)
    ensures |Encode(sum, r)| == HEADER + |r.data|
  {
  }

  lemma ParseStep(sum: Checksum, r: Record, tail: seq<byte>)
    requires Fits(r)
    ensures Parse(sum, Encode(sum, r) + tail) == ([r] + Parse(sum, tail).0, |Encode(sum, r)| + Parse(sum, tail).1)
  {
    hide Encode, Read, Fits;
    ReadEncoded(sum, r, tail);
    EncodeSize(sum, r);
    ParseIs(sum, Encode(sum, r) + tail);
  }

  lemma ParseTorn(sum: Checksum, r: Record, n: nat)
    requires Fits(r) && 0 < n < |Encode(sum, r)|
    ensures Parse(sum, Encode(sum, r)[..n]) == ([], 0)
  {
    hide Encode, Read, Fits;
    ReadTorn(sum, r, n);
    EncodeSize(sum, r);
    ParseIs(sum, Encode(sum, r)[..n]);
  }

  lemma {:induction false} WholeAll(sum: Checksum, rs: seq<Record>)
    ensures WholeIn(sum, rs, |Stream(sum, rs)|) == |rs|
  {
    if rs != [] { WholeAll(sum, rs[1..]); }
  }

  /** With no tear, everything comes back and nothing is cut. */
  lemma RoundTrip(sum: Checksum, rs: seq<Record>)
    requires forall i :: 0 <= i < |rs| ==> Fits(rs[i])
    ensures Parse(sum, Stream(sum, rs)) == (rs, |Stream(sum, rs)|)
  {
    var b := Stream(sum, rs);
    WholeAll(sum, rs);
    TornTail(sum, rs, |b|);
    assert b[..|b|] == b && rs[..|rs|] == rs;
  }

  lemma {:induction false} StreamConcat(sum: Checksum, a: seq<Record>, b: seq<Record>)
    ensures Stream(sum, a + b) == Stream(sum, a) + Stream(sum, b)
  {
    if a == [] {
      assert a + b == b;
    } else {
      assert (a + b)[0] == a[0] && (a + b)[1..] == a[1..] + b;
      StreamConcat(sum, a[1..], b);
    }
  }

  /** Appending after a torn tail was cut: old whole records and new ones are all read back. */
  lemma AppendAfterTear(sum: Checksum, rs: seq<Record>, n: nat, more: seq<Record>)
    requires (forall i :: 0 <= i < |rs| ==> Fits(rs[i])) && (forall i :: 0 <= i < |more| ==> Fits(more[i]))
    requires n <= |Stream(sum, rs)|
    ensures var b := Stream(sum, rs)[..n]; var k := WholeIn(sum, rs, n);
      Parse(sum, b[..Parse(sum, b).1] + Stream(sum, more)).0 == rs[..k] + more
  {
    var k := WholeIn(sum, rs, n);
    TornTail(sum, rs, n);
    StreamConcat(sum, rs[..k], more);
    RoundTrip(sum, rs[..k] + more);
  }

  /** A record survives being written and read if and only if its type is valid and its length fits three bytes. */
  lemma SurvivesIff(sum: Checksum, r: Record)
    ensures Parse(sum, Encode(sum, r)).0 == [r] <==> Fits(r)
  {
    var b := Encode(sum, r);
    assert b + [] == b;
    if Fits(r) {
      assert Stream(sum, [r]) == b;
      RoundTrip(sum, [r]);
    } else {
      HeaderOf(sum, r, []);
      LenRoundTrip(|r.data|);
      var n := Len(b[1..4]);
      assert Read(sum, b).Whole? ==> r.rtype != 0 && |Read(sum, b).rec.data| == n;
      hide Encode, Read, SetLen, Len;
      assert Parse(sum, b).0 != [] ==> Parse(sum, b).0[0] == Read(sum, b).rec;
    }
  }

  // --------------------------------------------------------------------------
  // Any bytes whatever

  /** The bytes that records take up. */
  function Span(rs: seq<Record>): nat {
    if rs == [] then 0 else HEADER + |rs[0].data| + Span(rs[1..])
  }

  /** A record stands at an offset: header, all of its data, and a checksum that is absent or right. */
  predicate StandsAt(sum: Checksum, b: seq<byte>, o: nat, r: Record) {
    && o + HEADER + |r.data| <= |b| && b[o] == r.rtype != 0
    && Len(b[o + 1..o + 4]) == |r.data| && b[o + HEADER..o + HEADER + |r.data|] == r.data
    && (Crc(b[o + 4..o + 8]) == 0 || Crc(b[o + 4..o + 8]) == Stored(sum, r.data))
  }

  /** The end of the file, or a header of type 0: what scanning stops at without cutting anything. */
  predicate EndsAt(b: seq<byte>, o: nat) {
    o == |b| || (o + HEADER <= |b| && b[o] == 0)
  }

  /**
   Whatever the bytes of a file are: the records returned stand in it one right after the other, each with a checksum
   that is absent or right; no record stands behind them; and the file is cut there, unless scanning came to its end.
   */
  lemma {:induction false} ParseIff(sum: Checksum, b: seq<byte>)
    ensures var rs := Parse(sum, b).0; var end := Span(rs);
      && end <= |b| && (forall i :: 0 <= i < |rs| ==> StandsAt(sum, b, Span(rs[..i]), rs[i]))
      && (forall r :: !StandsAt(sum, b, end, r))
      && Parse(sum, b).1 == if EndsAt(b, end) then |b| else end
    decreases |b|
  {
    hide Len, Crc, Stored, Parse;
    ParseNone(sum);
    if b != [] {
      ParseIs(sum, b);
      ReadStands(sum, b);
      if Read(sum, b).Whole? {
        var rec := Read(sum, b).rec;
        var n := HEADER + |rec.data|;
        var rest := b[n..];
        ParseIff(sum, rest);
        var rs, tail := Parse(sum, b).0, Parse(sum, rest).0;
        assert rs[0] == rec && rs[1..] == tail;
        forall i | 0 <= i < |rs| ensures StandsAt(sum, b, Span(rs[..i]), rs[i]) {
          if i > 0 {
            assert rs[..i][0] == rec && rs[..i][1..] == tail[..i - 1];
            StandsLater(sum, b, n, Span(tail[..i - 1]), rs[i]);
          }
        }
        forall r ensures !StandsAt(sum, b, Span(rs), r) { StandsLater(sum, b, n, Span(tail), r); }
      }
    }
  }

  lemma StandsLater(sum: Checksum, b: seq<byte>, n: nat, o: nat, r: Record)
    requires n <= |b|
    ensures StandsAt(sum, b, n + o, r) <==> StandsAt(sum, b[n..], o, r)
  {
    if o + HEADER + |r.data| <= |b| - n {
      var c := b[n..];
      assert c[o + 1..o + 4] == b[n + o + 1..n + o + 4] && c[o + 4..o + 8] == b[n + o + 4..n + o + 8];
      assert c[o + HEADER..o + HEADER + |r.data|] == b[n + o + HEADER..n + o + HEADER + |r.data|];
    }
  }

  lemma ReadStands(sum: Checksum, b: seq<byte>)
    requires b != []
    ensures Read(sum, b).Whole? ==> StandsAt(sum, b, 0, Read(sum, b).rec)
    ensures !Read(sum, b).Whole? ==> forall r :: !StandsAt(sum, b, 0, r)
    ensures Read(sum, b).Stop? <==> EndsAt(b, 0)
  {
    hide Len, Crc, Stored;
  }

  lemma {:induction false} ParseAfter(sum: Checksum, rs: seq<Record>, tail: seq<byte>)
    requires forall i :: 0 <= i < |rs| ==> Fits(rs[i])
    ensures Parse(sum, Stream(sum, rs) + tail) == (rs + Parse(sum, tail).0, |Stream(sum, rs)| + Parse(sum, tail).1)
  {
    hide Encode, Parse, Fits;
    if rs == [] {
      assert Stream(sum, rs) + tail == tail;
      assert rs + Parse(sum, tail).0 == Parse(sum, tail).0;
    } else {
      ParseAfter(sum, rs[1..], tail);
      ParseStep(sum, rs[0], Stream(sum, rs[1..]) + tail);
      assert Stream(sum, rs) + tail == Encode(sum, rs[0]) + (Stream(sum, rs[1..]) + tail);
      assert [rs[0]] + (rs[1..] + Parse(sum, tail).0) == rs + Parse(sum, tail).0;
    }
  }

  /** The stream with the data of record k overwritten. */
  function Overwritten(sum: Checksum, rs: seq<Record>, k: nat, data: seq<byte>): seq<byte>
    requires k < |rs| && |data| == |rs[k].data|
  {
    OffsetOf(sum, rs, k);
    var o := |Stream(sum, rs[..k])| + HEADER;
    Stream(sum, rs)[..o] + data + Stream(sum, rs)[o + |data|..]
  }

  lemma OffsetOf(sum: Checksum, rs: seq<Record>, k: nat)
    requires k < |rs|
    ensures Stream(sum, rs) == Stream(sum, rs[..k]) + Encode(sum, rs[k]) + Stream(sum, rs[k + 1..])
  {
    hide Encode;
    StreamConcat(sum, rs[..k], rs[k..]);
    assert rs == rs[..k] + rs[k..] && rs[k..][1..] == rs[k + 1..];
  }

  /** The overwritten record is damaged in a way that its checksum tells. */
  predicate Detected(sum: Checksum, was: seq<byte>, data: seq<byte>) {
    Stored(sum, was) != 0 && Stored(sum, data) != Stored(sum, was)
  }

  /**
   Damage to the data of one record of a log: if the checksums differ, and the stored one is not the 0 that stands for
   none, reading returns exactly the records before it and cuts the file there; otherwise the damaged data is taken.
   */
  lemma DamageFoundIff(sum: Checksum, rs: seq<Record>, k: nat, data: seq<byte>)
    requires k < |rs| && |data| == |rs[k].data| && forall i :: 0 <= i < |rs| ==> Fits(rs[i])
    ensures Parse(sum, Overwritten(sum, rs, k, data)) ==
      if Detected(sum, rs[k].data, data) then (rs[..k], |Stream(sum, rs[..k])|)
      else (rs[k := Record(rs[k].rtype, data)], |Stream(sum, rs)|)
  {
    hide Encode, Parse, Read, Detected, Fits;
    var r, r', after := rs[k], Record(rs[k].rtype, data), Stream(sum, rs[k + 1..]);
    var damaged := Damaged(sum, r, data);
    OffsetOf(sum, rs, k);
    EncodeSize(sum, r);
    var front := Stream(sum, rs[..k]);
    assert Overwritten(sum, rs, k, data) == front + (damaged + after) by { SpliceIs(sum, front, r, data, after); }
    ParseAfter(sum, rs[..k], damaged + after);
    ReadDamaged(sum, r, data, after);
    ParseIs(sum, damaged + after);
    if Detected(sum, r.data, data) {
      assert rs[..k] + [] == rs[..k];
    } else {
      assert (damaged + after)[HEADER + |data|..] == after;
      RoundTrip(sum, rs[k + 1..]);
      assert rs[k := r'] == rs[..k] + ([r'] + rs[k + 1..]);
      assert |Stream(sum, rs)| == |front| + (HEADER + |data| + |after|);
    }
  }

  function Damaged(sum: Checksum, r: Record, data: seq<byte>): (b: seq<byte>)
    ensures |b| == HEADER + |data|
  {
    Encode(sum, r)[..HEADER] + data
  }

  lemma SpliceIs(sum: Checksum, front: seq<byte>, r: Record, data: seq<byte>, after: seq<byte>)
    requires |data| == |r.data|
    ensures var s, o := front + Encode(sum, r) + after, |front| + HEADER;
      s[..o] + data + s[o + |data|..] == front + (Damaged(sum, r, data) + after)
  {
    hide SetLen, SetCrc;
    var s, o := front + Encode(sum, r) + after, |front| + HEADER;
    assert s[..o] == front + Encode(sum, r)[..HEADER];
    assert s[o + |data|..] == after;
  }

  lemma ReadDamaged(sum: Checksum, r: Record, data: seq<byte>, after: seq<byte>)
    requires Fits(r) && |data| == |r.data|
    ensures Read(sum, Damaged(sum, r, data) + after) ==
      if Detected(sum, r.data, data) then Torn else Whole(Record(r.rtype, data))
  {
    hide SetLen, SetCrc, Len, Crc;
    var b := Damaged(sum, r, data) + after;
    HeaderOf(sum, r, []);
    var e := Encode(sum, r);
    assert e + [] == e;
    assert b[1..4] == e[1..4] && b[4..8] == e[4..8] && b[0] == e[0] && b[HEADER..HEADER + |data|] == data;
    LenRoundTrip(|r.data|);
    CrcRoundTrip(Stored(sum, r.data));
  }

  // --------------------------------------------------------------------------
  // The file object

  class File {
    var content: seq<byte>       // what is on disk
    var buffer: seq<byte>        // appended, not yet synced
    const sum: Checksum

    constructor (content: seq<byte>, sum: Checksum)
      ensures this.content == content && buffer == [] && this.sum == sum
    {
      this.content := content;
      buffer := [];
      this.sum := sum;
    }

    method Append(rtype: byte, data: seq<byte>)
      modifies this`buffer
      ensures buffer == old(buffer) + Encode(sum, Record(rtype, data))
    {
      var header := [rtype] + SetLen(|data|) + SetCrc(Stored(sum, data));
      buffer := buffer + header;
      buffer := buffer + data;
    }

    /**
     The buffer reaches the disk. The source hands it to the C library and neither flushes nor syncs the stream: that a
     completed write survives a crash is assumed.
     */
    method Sync()
      modifies this
      ensures content == old(content + buffer) && buffer == []
    {
      if buffer == [] { return; }
      content := content + buffer;
      buffer := [];
    }

    method Truncate(offset: nat)
      requires offset <= |content|
      modifies this
      ensures content == old(content)[..offset] && buffer == []
    {
      content := content[..offset];
      buffer := [];
    }

    /** One turn of the scan: header, length and checksum of the record at offset. */
    method ReadRecord(data: seq<byte>, offset: nat) returns (f: Front)
      requires offset < |data|
      ensures f == Read(sum, data[offset..])
    {
      hide Len, Crc, Stored;
      ghost var b := data[offset..];
      var left := |data| - offset;
      if left < HEADER { return Torn; }
      var rtype := data[offset];
      var lenBytes := data[offset + 1..offset + 4];
      var crc := Crc(data[offset + 4..offset + 8]);
      assert b[1..4] == lenBytes && b[4..8] == data[offset + 4..offset + 8];
      left := left - HEADER;
      if rtype == 0 { return Stop; }
      var n := Len(lenBytes);
      if left < n { return Torn; }
      var payload := data[offset + HEADER..offset + HEADER + n];
      assert b[HEADER..HEADER + n] == payload;
      if crc != 0 && Stored(sum, payload) != crc { return Torn; }
      f := Whole(Record(rtype, payload));
    }

    /** WAL::read_all over one file: the scan with a moving offset; a torn tail is cut off. */
    method ReadAll() returns (rs: seq<Record>)
      requires buffer == []
      modifies this
      ensures rs == Parse(sum, old(content)).0 && content == old(content)[..Parse(sum, old(content)).1] && buffer == []
    {
      hide Parse, Read;
      rs := [];
      var data := content;
      var offset := 0;
      assert data[0..] == data;
      ghost var all := Parse(sum, data);
      while offset < |data|
        invariant 0 <= offset <= |data| && content == data && buffer == []
        invariant all.0 == rs + Parse(sum, data[offset..]).0 && all.1 == offset + Parse(sum, data[offset..]).1
      {
        var f := ReadRecord(data, offset);
        ParseIs(sum, data[offset..]);
        if f.Torn? {
          Truncate(offset);
          return;
        }
        if f.Stop? { return; }
        assert data[offset..][HEADER + |f.rec.data|..] == data[offset + HEADER + |f.rec.data|..];
        offset := offset + HEADER + |f.rec.data|;
        rs := rs + [f.rec];
      }
      ParseNone(sum);
      assert data[offset..] == [];
    }
  }

  lemma ParseIs(sum: Checksum, b: seq<byte>)
    requires b != []
    ensures match Read(sum, b)
      case Torn => Parse(sum, b) == ([], 0)
      case Stop => Parse(sum, b) == ([], |b|)
      case Whole(rec) =>
        && HEADER + |rec.data| <= |b|
        && Parse(sum, b).0 == [rec] + Parse(sum, b[HEADER + |rec.data|..]).0
        && Parse(sum, b).1 == HEADER + |rec.data| + Parse(sum, b[HEADER + |rec.data|..]).1
  {
  }
}
