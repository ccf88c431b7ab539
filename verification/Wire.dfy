/**
 An entry on the wire, in MessagePack: the computed size is the size it takes, and it is read back as it was from the
 front of any stream.
 */
module Wire {
  import opened Proto
  import opened RaftLogSpec

  // --------------------------------------------------------------------------
  // Numbers, most significant byte first

  function Pow256(k: nat): (p: nat)
    ensures p >= 1
  {
    if k == 0 then 1 else 256 * Pow256(k - 1)
  }

  function Digits(n: nat, k: nat): (b: seq<byte>)
    ensures |b| == k
  {
    if k == 0 then [] else Digits(n / 256, k - 1) + [(n % 256) as byte]
  }

  function Number(b: seq<byte>): nat {
    if b == [] then 0 else 256 * Number(b[..|b| - 1]) + b[|b| - 1] as nat
  }

  lemma {:induction false} NumberBack(n: nat, k: nat)
    requires n < Pow256(k)
    ensures Number(Digits(n, k)) == n
  {
    if k > 0 {
      NumberBack(n / 256, k - 1);
      var b := Digits(n, k);
      assert b[..|b| - 1] == Digits(n / 256, k - 1);
    }
  }

  lemma Powers()
    ensures Pow256(1) == 0x100 && Pow256(2) == 0x1_0000 && Pow256(4) == 0x1_0000_0000
    ensures Pow256(8) == 0x1_0000_0000_0000_0000
  {
    assert Pow256(2) == 256 * Pow256(1) && Pow256(3) == 256 * Pow256(2) && Pow256(4) == 256 * Pow256(3);
    assert Pow256(5) == 256 * Pow256(4) && Pow256(6) == 256 * Pow256(5) && Pow256(7) == 256 * Pow256(6);
  }

  // --------------------------------------------------------------------------
  // MessagePack: integers, binary data, an array of four

  const U64 := 0x1_0000_0000_0000_0000
  const U32 := 0x1_0000_0000

  function PackUint(n: nat): seq<byte> {
    if n < 0x80 then [n as byte]
    else if n < 0x100 then [0xcc] + Digits(n, 1)
    else if n < 0x1_0000 then [0xcd] + Digits(n, 2)
    else if n < U32 then [0xce] + Digits(n, 4)
    else [0xcf] + Digits(n, 8)
  }

  function PackBin(d: seq<byte>): seq<byte> {
    if |d| < 0x100 then [0xc4] + Digits(|d|, 1) + d
    else if |d| < 0x1_0000 then [0xc5] + Digits(|d|, 2) + d
    else [0xc6] + Digits(|d|, 4) + d
  }

  function TypeCode(t: EntryType): nat { if t == EntryNormal then 0 else 1 }

  function PackEntry(e: Entry): seq<byte> {
    [0x94] + PackUint(TypeCode(e.etype)) + PackUint(e.term) + PackUint(e.index) + PackBin(e.data)
  }

  /** A number of k bytes behind a tag. */
  function TakeNumber(b: seq<byte>, k: nat): Option<(nat, seq<byte>)> {
    if |b| < 1 + k then None else Some((Number(b[1..1 + k]), b[1 + k..]))
  }

  function TakeUint(b: seq<byte>): Option<(nat, seq<byte>)> {
    if b == [] then None
    else if b[0] < 0x80 then Some((b[0] as nat, b[1..]))
    else if b[0] == 0xcc then TakeNumber(b, 1)
    else if b[0] == 0xcd then TakeNumber(b, 2)
    else if b[0] == 0xce then TakeNumber(b, 4)
    else if b[0] == 0xcf then TakeNumber(b, 8)
    else None
  }

  function TakeBytes(b: seq<byte>, k: nat): Option<(seq<byte>, seq<byte>)> {
    match TakeNumber(b, k)
    case None => None
    case Some(p) => if |p.1| < p.0 then None else Some((p.1[..p.0], p.1[p.0..]))
  }

  function TakeBin(b: seq<byte>): Option<(seq<byte>, seq<byte>)> {
    if b == [] then None
    else if b[0] == 0xc4 then TakeBytes(b, 1)
    else if b[0] == 0xc5 then TakeBytes(b, 2)
    else if b[0] == 0xc6 then TakeBytes(b, 4)
    else None
  }

  function TakeEntry(b: seq<byte>): Option<(Entry, seq<byte>)> {
    if b == [] || b[0] != 0x94 then None
    else
      match TakeUint(b[1..])
      case None => None
      case Some(t) =>
        match TakeUint(t.1)
        case None => None
        case Some(term) =>
          match TakeUint(term.1)
          case None => None
          case Some(index) =>
            match TakeBin(index.1)
            case None => None
            case Some(d) =>
              if t.0 > 1 then None
              else Some((Entry(if t.0 == 0 then EntryNormal else EntryConfChange, term.0, index.0, d.0), d.1))
  }

  // --------------------------------------------------------------------------
  // Sizes and round trip

  /** What fits the types of the fields. */
  predicate Fits(e: Entry) { e.term < U64 && e.index < U64 && |e.data| < U32 }

  lemma TaggedBack(tag: byte, n: nat, k: nat, rest: seq<byte>)
    requires n < Pow256(k)
    ensures TakeNumber([tag] + Digits(n, k) + rest, k) == Some((n, rest))
  {
    var b := [tag] + Digits(n, k) + rest;
    NumberBack(n, k);
    assert b[1..1 + k] == Digits(n, k) && b[1 + k..] == rest;
  }

  lemma UintBack(n: nat, rest: seq<byte>)
    requires n < U64
    ensures |PackUint(n)| == U64Size(n) && TakeUint(PackUint(n) + rest) == Some((n, rest))
  {
    hide Digits, Number, TakeNumber, Pow256;
    Powers();
    if n < 0x80 {
      assert ([n as byte] + rest)[1..] == rest;
    } else if n < 0x100 {
      TaggedBack(0xcc, n, 1, rest);
    } else if n < 0x1_0000 {
      TaggedBack(0xcd, n, 2, rest);
    } else if n < U32 {
      TaggedBack(0xce, n, 4, rest);
    } else {
      TaggedBack(0xcf, n, 8, rest);
    }
  }

  lemma BytesBack(tag: byte, d: seq<byte>, k: nat, rest: seq<byte>)
    requires |d| < Pow256(k)
    ensures TakeBytes([tag] + Digits(|d|, k) + d + rest, k) == Some((d, rest))
  {
    hide TakeNumber;
    TaggedBack(tag, |d|, k, d + rest);
    assert [tag] + Digits(|d|, k) + d + rest == [tag] + Digits(|d|, k) + (d + rest);
  }

  lemma BinBack(d: seq<byte>, rest: seq<byte>)
    requires |d| < U32
    ensures |PackBin(d)| == DataSize(|d|) && TakeBin(PackBin(d) + rest) == Some((d, rest))
  {
    hide Digits, TakeBytes, Pow256;
    Powers();
    if |d| < 0x100 {
      BytesBack(0xc4, d, 1, rest);
    } else if |d| < 0x1_0000 {
      BytesBack(0xc5, d, 2, rest);
    } else {
      BytesBack(0xc6, d, 4, rest);
    }
  }

  /** serialize_size() is the number of bytes that an entry takes. */
  lemma SizeIs(e: Entry)
    requires Fits(e)
    ensures SerializeSize(e) == |PackEntry(e)|
  {
    hide PackUint, PackBin, U64Size, DataSize;
    UintBack(TypeCode(e.etype), []);
    UintBack(e.term, []);
    UintBack(e.index, []);
    BinBack(e.data, []);
    SmallSize(TypeCode(e.etype));
  }

  lemma SmallSize(n: nat)
    requires n < 0x80
    ensures U64Size(n) == 1
  {
  }

  /** An entry is read back from the front of any stream it starts, and nothing behind it is touched. */
  lemma EntryBack(e: Entry, rest: seq<byte>)
    requires Fits(e)
    ensures TakeEntry(PackEntry(e) + rest) == Some((e, rest))
  {
    hide PackUint, PackBin, TakeUint, TakeBin;
    var d := PackBin(e.data) + rest;
    var i := PackUint(e.index) + d;
    var t := PackUint(e.term) + i;
    var b := PackUint(TypeCode(e.etype)) + t;
    BinBack(e.data, rest);
    UintBack(e.index, d);
    UintBack(e.term, i);
    UintBack(TypeCode(e.etype), t);
    var all := PackEntry(e) + rest;
    assert all[1..] == b && all[0] == 0x94;
  }
}
