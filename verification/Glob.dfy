/** string_match_len, the matcher behind KEYS, against what a glob pattern means. */
module Glob {
  /** A C char, as the number it is compared by. */
  type Char = int

  const STAR: Char := 42
  const ANY: Char := 63
  const OPEN: Char := 91
  const CLOSE: Char := 93
  const CARET: Char := 94
  const DASH: Char := 45
  const ESCAPE: Char := 92

  function ToLower(c: Char): Char { if 65 <= c <= 90 then c + 32 else c }

  // --------------------------------------------------------------------------
  // Meaning

  datatype Item = Exact(c: Char) | Range(lo: Char, hi: Char) | One(c: Char)

  datatype Token = Star | Any | Class(negated: bool, items: seq<Item>) | Literal(c: Char)

  predicate SameChar(nocase: bool, a: Char, b: Char) {
    if nocase then ToLower(a) == ToLower(b) else a == b
  }

  /** An escaped character of a class is compared exactly; a range is put in order before it is lowered. */
  predicate ItemHas(nocase: bool, i: Item, c: Char) {
    match i
    case Exact(x) => x == c
    case One(x) => SameChar(nocase, x, c)
    case Range(a, b) =>
      var lo, hi := if a > b then b else a, if a > b then a else b;
      if nocase then ToLower(lo) <= ToLower(c) <= ToLower(hi) else lo <= c <= hi
  }

  predicate Has(nocase: bool, items: seq<Item>, c: Char) {
    exists k :: 0 <= k < |items| && ItemHas(nocase, items[k], c)
  }

  predicate TokenTakes(nocase: bool, t: Token, c: Char)
    requires !t.Star?
  {
    match t
    case Any => true
    case Class(negated, items) => Has(nocase, items, c) != negated
    case Literal(x) => SameChar(nocase, x, c)
  }

  /** The strings a token list describes. */
  predicate Derives(nocase: bool, ts: seq<Token>, s: seq<Char>)
    decreases |ts|
  {
    if ts == [] then s == []
    else if ts[0].Star? then exists k :: 0 <= k <= |s| && Derives(nocase, ts[1..], s[k..])
    else s != [] && TokenTakes(nocase, ts[0], s[0]) && Derives(nocase, ts[1..], s[1..])
  }

  /** The items of a class, and the pattern behind its closing bracket (or nothing, if it is never closed). */
  function ClassItems(p: seq<Char>): (r: (seq<Item>, seq<Char>))
    ensures |r.1| <= |p|
    decreases |p|
  {
    if p == [] then ([], [])
    else if p[0] == ESCAPE && |p| >= 2 then
      var r := ClassItems(p[2..]);
      ([Exact(p[1])] + r.0, r.1)
    else if p[0] == CLOSE then ([], p[1..])
    else if |p| >= 3 && p[1] == DASH then
      var r := ClassItems(p[3..]);
      ([Range(p[0], p[2])] + r.0, r.1)
    else
      var r := ClassItems(p[1..]);
      ([One(p[0])] + r.0, r.1)
  }

  predicate Negated(p: seq<Char>) { |p| >= 2 && p[1] == CARET }

  function ClassStart(p: seq<Char>): nat { if Negated(p) then 2 else 1 }

  function Tokens(p: seq<Char>): seq<Token>
    decreases |p|
  {
    if p == [] then []
    else if p[0] == STAR then [Star] + Tokens(p[1..])
    else if p[0] == ANY then [Any] + Tokens(p[1..])
    else if p[0] == OPEN then
      var r := ClassItems(p[ClassStart(p)..]);
      [Class(Negated(p), r.0)] + Tokens(r.1)
    else if p[0] == ESCAPE && |p| >= 2 then [Literal(p[1])] + Tokens(p[2..])
    else [Literal(p[0])] + Tokens(p[1..])
  }

  // --------------------------------------------------------------------------
  // Steps of the meaning

  lemma HasCons(nocase: bool, i: Item, items: seq<Item>, c: Char)
    ensures Has(nocase, [i] + items, c) <==> ItemHas(nocase, i, c) || Has(nocase, items, c)
  {
    var all := [i] + items;
    if ItemHas(nocase, i, c) { assert ItemHas(nocase, all[0], c); }
    if Has(nocase, items, c) {
      var k :| 0 <= k < |items| && ItemHas(nocase, items[k], c);
      assert ItemHas(nocase, all[k + 1], c);
    }
  }

  lemma StarTakes(nocase: bool, ts: seq<Token>, s: seq<Char>)
    ensures Derives(nocase, [Star] + ts, s) <==> exists k :: 0 <= k <= |s| && Derives(nocase, ts, s[k..])
  {
  }

  lemma StarAll(nocase: bool, s: seq<Char>)
    ensures Derives(nocase, [Star], s)
  {
    assert s[|s|..] == [];
    assert Derives(nocase, [], s[|s|..]);
    StarTakes(nocase, [], s);
    assert [Star] + [] == [Star];
  }

  /** Two stars are one. */
  lemma StarStar(nocase: bool, ts: seq<Token>, s: seq<Char>)
    ensures Derives(nocase, [Star] + ([Star] + ts), s) <==> Derives(nocase, [Star] + ts, s)
  {
    StarTakes(nocase, [Star] + ts, s);
    StarTakes(nocase, ts, s);
    if Derives(nocase, [Star] + ([Star] + ts), s) {
      var k :| 0 <= k <= |s| && Derives(nocase, [Star] + ts, s[k..]);
      StarTakes(nocase, ts, s[k..]);
      var j :| 0 <= j <= |s[k..]| && Derives(nocase, ts, s[k..][j..]);
      assert s[k..][j..] == s[k + j..];
    }
    if Derives(nocase, [Star] + ts, s) {
      assert s[0..] == s && Derives(nocase, [Star] + ts, s[0..]);
    }
  }

  lemma NeedsOne(nocase: bool, ts: seq<Token>)
    requires ts != [] && !ts[0].Star?
    ensures !Derives(nocase, ts, [])
  {
  }

  lemma TokensStar(p: seq<Char>)
    requires p != [] && p[0] == STAR
    ensures Tokens(p) == [Star] + Tokens(p[1..])
  {
  }

  /** Only a star makes a token that can do without a character. */
  lemma FirstToken(p: seq<Char>)
    requires p != []
    ensures Tokens(p) != [] && (Tokens(p)[0].Star? <==> p[0] == STAR)
  {
  }

  // --------------------------------------------------------------------------
  // The matcher

  /** A NUL-terminated pattern in memory: reads beyond the terminator are not allowed. */
  function Mem(p: seq<Char>, i: nat): Char
    requires i <= |p|
  {
    if i < |p| then p[i] else 0
  }

  /**
   The loop over a character class, from the index after its opening; i ends on its last character, and what
   follows that is the rest of the pattern.
   */
  method ClassLoop(p: seq<Char>, from: nat, c: Char, nocase: bool) returns (found: bool, i: nat)
    requires 1 <= from <= |p|
    ensures from - 1 <= i < |p|
    ensures found == Has(nocase, ClassItems(p[from..]).0, c) && p[i + 1..] == ClassItems(p[from..]).1
  {
    hide ClassItems, Has;
    found := false;
    i := from;
    while true
      invariant from <= i <= |p|
      invariant Has(nocase, ClassItems(p[from..]).0, c) <==> found || Has(nocase, ClassItems(p[i..]).0, c)
      invariant ClassItems(p[from..]).1 == ClassItems(p[i..]).1
      decreases |p| - i
    {
      var left := |p| - i;
      ClassTurn(p, i, c, nocase);
      if Mem(p, i) == ESCAPE && left >= 2 {
        i := i + 1;
        if Mem(p, i) == c { found := true; }
      } else if Mem(p, i) == CLOSE {
        break;
      } else if left == 0 {
        i := i - 1;
        break;
      } else if Mem(p, i + 1) == DASH && left >= 3 {
        var lo, hi, ch := Mem(p, i), Mem(p, i + 2), c;
        if lo > hi { lo, hi := hi, lo; }
        if nocase { lo, hi, ch := ToLower(lo), ToLower(hi), ToLower(ch); }
        i := i + 2;
        if lo <= ch <= hi { found := true; }
      } else {
        if SameChar(nocase, Mem(p, i), c) { found := true; }
      }
      i := i + 1;
    }
  }

  /** One item of a class. */
  lemma ClassTurn(p: seq<Char>, i: nat, c: Char, nocase: bool)
    requires i <= |p|
    ensures var q, left := p[i..], |p| - i; var r := ClassItems(q);
      if left == 0 then r == ([], []) && !Has(nocase, r.0, c)
      else if p[i] == ESCAPE && left >= 2 then
        && r.1 == ClassItems(p[i + 2..]).1
        && (Has(nocase, r.0, c) <==> p[i + 1] == c || Has(nocase, ClassItems(p[i + 2..]).0, c))
      else if p[i] == CLOSE then r == ([], p[i + 1..]) && !Has(nocase, r.0, c)
      else if left >= 3 && p[i + 1] == DASH then
        r.1 == ClassItems(p[i + 3..]).1
        && (Has(nocase, r.0, c) <==>
          ItemHas(nocase, Range(p[i], p[i + 2]), c) || Has(nocase, ClassItems(p[i + 3..]).0, c))
      else
        && r.1 == ClassItems(p[i + 1..]).1
        && (Has(nocase, r.0, c) <==> SameChar(nocase, p[i], c) || Has(nocase, ClassItems(p[i + 1..]).0, c))
  {
    var q := p[i..];
    if q == [] {
    } else if q[0] == ESCAPE && |q| >= 2 {
      assert q[2..] == p[i + 2..];
      HasCons(nocase, Exact(q[1]), ClassItems(q[2..]).0, c);
    } else if q[0] == CLOSE {
      assert q[1..] == p[i + 1..];
    } else if |q| >= 3 && q[1] == DASH {
      assert q[3..] == p[i + 3..];
      HasCons(nocase, Range(q[0], q[2]), ClassItems(q[3..]).0, c);
    } else {
      assert q[1..] == p[i + 1..];
      HasCons(nocase, One(q[0]), ClassItems(q[1..]).0, c);
    }
  }

  /**
   A match of a non-empty string means that the pattern describes it; the empty string only matches the empty pattern.
   */
  method StringMatchLen(p: seq<Char>, from: nat, s: seq<Char>, nocase: bool) returns (r: bool)
    requires from <= |p|
    ensures r == if s == [] then from == |p| else Derives(nocase, Tokens(p[from..]), s)
    decreases |p| - from
  {
    hide Derives, Tokens, ClassItems, Has, SomeEnd;
    var i, j := from, 0;
    ghost var want := Derives(nocase, Tokens(p[from..]), s);
    assert s[0..] == s;
    while i < |p| && j < |s|
      invariant from <= i <= |p| && 0 <= j <= |s| && (j == |s| ==> s == []) && (s == [] ==> i == from)
      invariant want == Derives(nocase, Tokens(p[i..]), s[j..])
      decreases |p| - i
    {
      ghost var q, t := p[i..], s[j..];
      if Mem(p, i) == STAR {
        while Mem(p, i + 1) == STAR
          invariant from <= i < |p| && p[i] == STAR
          invariant want == Derives(nocase, Tokens(p[i..]), t)
          decreases |p| - i
        {
          SkipStar(p, i, t, nocase);
          i := i + 1;
        }
        StarHere(p, i, t, nocase);
        EndsShift(p, i + 1, s, j, nocase);
        if |p| - i == 1 { return true; }
        while j < |s|
          invariant 0 <= j <= |s|
          invariant want <==> SomeEnd(p, i + 1, s, j, nocase)
        {
          EndOrLater(p, i + 1, s, j, nocase);
          var b := StringMatchLen(p, i + 1, s[j..], nocase);
          if b { return true; }
          j := j + 1;
        }
        NoEnd(p, i + 1, s, nocase);
        return false;
      } else if Mem(p, i) == ANY {
        TokenHere(p, i, t, nocase);
        j := j + 1;
      } else if Mem(p, i) == OPEN {
        ClassHere(p, i, t, nocase);
        var k := i + 1;
        var negated := Mem(p, k) == CARET;
        if negated { k := k + 1; }
        var found, last := ClassLoop(p, k, s[j], nocase);
        if negated { found := !found; }
        if !found { return false; }
        i := last;
        j := j + 1;
      } else {
        TokenHere(p, i, t, nocase);
        if Mem(p, i) == ESCAPE && |p| - i >= 2 { i := i + 1; }
        if !SameChar(nocase, Mem(p, i), s[j]) { return false; }
        j := j + 1;
      }
      i := i + 1;
      assert t[1..] == s[j..];
      if j == |s| {
        assert s[j..] == [];
        while Mem(p, i) == STAR
          invariant from <= i <= |p|
          invariant want == Derives(nocase, Tokens(p[i..]), [])
          decreases |p| - i
        {
          StarNothing(p, i, nocase);
          i := i + 1;
        }
        NothingLeft(p, i, nocase);
        break;
      }
    }
    EndHere(p, i, s[j..], nocase);
    r := i == |p| && j == |s|;
  }

  /** The rest of the pattern describes some non-empty end of the string from j on. */
  predicate SomeEnd(p: seq<Char>, i: nat, s: seq<Char>, j: nat, nocase: bool)
    requires i <= |p|
  {
    exists k :: j <= k < |s| && Derives(nocase, Tokens(p[i..]), s[k..])
  }

  lemma EndsShift(p: seq<Char>, i: nat, s: seq<Char>, j: nat, nocase: bool)
    requires i <= |p| && j <= |s|
    ensures SomeEnd(p, i, s[j..], 0, nocase) <==> SomeEnd(p, i, s, j, nocase)
  {
    var t := s[j..];
    if SomeEnd(p, i, t, 0, nocase) {
      var k :| 0 <= k < |t| && Derives(nocase, Tokens(p[i..]), t[k..]);
      assert t[k..] == s[j + k..];
    }
    if SomeEnd(p, i, s, j, nocase) {
      var k :| j <= k < |s| && Derives(nocase, Tokens(p[i..]), s[k..]);
      assert t[k - j..] == s[k..];
    }
  }

  lemma EndHere(p: seq<Char>, i: nat, s: seq<Char>, nocase: bool)
    requires i <= |p|
    ensures i == |p| ==> Derives(nocase, Tokens(p[i..]), s) == (s == [])
  {
  }

  lemma NothingLeft(p: seq<Char>, i: nat, nocase: bool)
    requires i <= |p| && Mem(p, i) != STAR
    ensures Derives(nocase, Tokens(p[i..]), []) == (i == |p|)
  {
  }

  lemma NoEnd(p: seq<Char>, i: nat, s: seq<Char>, nocase: bool)
    requires i <= |p|
    ensures !SomeEnd(p, i, s, |s|, nocase)
  {
  }

  lemma EndOrLater(p: seq<Char>, i: nat, s: seq<Char>, j: nat, nocase: bool)
    requires i <= |p| && j < |s|
    ensures SomeEnd(p, i, s, j, nocase) <==> Derives(nocase, Tokens(p[i..]), s[j..]) || SomeEnd(p, i, s, j + 1, nocase)
  {
  }

  lemma SkipStar(p: seq<Char>, i: nat, s: seq<Char>, nocase: bool)
    requires i + 1 < |p| && p[i] == STAR && p[i + 1] == STAR
    ensures Derives(nocase, Tokens(p[i..]), s) == Derives(nocase, Tokens(p[i + 1..]), s)
  {
    TokensStar(p[i..]);
    assert p[i..][1..] == p[i + 1..];
    TokensStar(p[i + 1..]);
    assert p[i + 1..][1..] == p[i + 2..];
    StarStar(nocase, Tokens(p[i + 2..]), s);
  }

  /** The last of a run of stars: it takes everything, or the rest matches a non-empty end of the string. */
  lemma StarHere(p: seq<Char>, i: nat, s: seq<Char>, nocase: bool)
    requires i < |p| && p[i] == STAR && (i + 1 < |p| ==> p[i + 1] != STAR)
    ensures i + 1 == |p| ==> Derives(nocase, Tokens(p[i..]), s)
    ensures i + 1 < |p| ==>
      (Derives(nocase, Tokens(p[i..]), s) <==> SomeEnd(p, i + 1, s, 0, nocase))
  {
    TokensStar(p[i..]);
    assert p[i..][1..] == p[i + 1..];
    if i + 1 == |p| {
      StarAll(nocase, s);
      assert Tokens(p[i..]) == [Star];
    } else {
      StarTakes(nocase, Tokens(p[i + 1..]), s);
      FirstToken(p[i + 1..]);
      NeedsOne(nocase, Tokens(p[i + 1..]));
      assert s[|s|..] == [];
    }
  }

  lemma StarNothing(p: seq<Char>, i: nat, nocase: bool)
    requires i < |p| && p[i] == STAR
    ensures Derives(nocase, Tokens(p[i..]), []) == Derives(nocase, Tokens(p[i + 1..]), [])
  {
    TokensStar(p[i..]);
    assert p[i..][1..] == p[i + 1..];
    StarTakes(nocase, Tokens(p[i + 1..]), []);
    var e: seq<Char> := [];
    assert e[0..] == e;
  }

  lemma TokenHere(p: seq<Char>, i: nat, s: seq<Char>, nocase: bool)
    requires i < |p| && p[i] != STAR && p[i] != OPEN && s != []
    ensures p[i] == ANY ==> Derives(nocase, Tokens(p[i..]), s) == Derives(nocase, Tokens(p[i + 1..]), s[1..])
    ensures p[i] != ANY ==>
      var n := if p[i] == ESCAPE && |p| - i >= 2 then 1 else 0;
      Derives(nocase, Tokens(p[i..]), s) ==
        (SameChar(nocase, p[i + n], s[0]) && Derives(nocase, Tokens(p[i + n + 1..]), s[1..]))
  {
  }

  lemma ClassHere(p: seq<Char>, i: nat, s: seq<Char>, nocase: bool)
    requires i < |p| && p[i] == OPEN && s != []
    ensures var k := i + 1 + if Mem(p, i + 1) == CARET then 1 else 0;
      && k <= |p|
      && var r := ClassItems(p[k..]);
         Derives(nocase, Tokens(p[i..]), s) ==
           (Has(nocase, r.0, s[0]) != (Mem(p, i + 1) == CARET) && Derives(nocase, Tokens(r.1), s[1..]))
  {
  }
}
