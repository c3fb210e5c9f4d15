/** Splitting and joining at a separator character, as `strings.Split` and `strings.Join` do. */
module Text {

  function Split(s: string, c: char): (r: seq<string>)
    ensures |r| >= 1
  {
    if s == [] then [[]]
    else
      var rest := Split(s[1..], c);
      if s[0] == c then [[]] + rest else [[s[0]] + rest[0]] + rest[1..]
  }

  function Join(ss: seq<string>, c: char): string {
    if |ss| == 0 then [] else if |ss| == 1 then ss[0] else ss[0] + [c] + Join(ss[1..], c)
  }

  lemma {:induction false} JoinSplit(s: string, c: char)
    ensures Join(Split(s, c), c) == s
  {
    if s != [] {
      JoinSplit(s[1..], c);
      JoinMore(s[0], Split(s[1..], c), c);
      assert s == [s[0]] + s[1..];
      hide Join;
    }
  }

  lemma {:induction false} JoinMore(x: char, rest: seq<string>, c: char)
    requires rest != []
    ensures Join([[]] + rest, c) == [c] + Join(rest, c)
    ensures Join([[x] + rest[0]] + rest[1..], c) == [x] + Join(rest, c)
  {
    assert ([[]] + rest)[1..] == rest;
    assert ([[x] + rest[0]] + rest[1..])[1..] == rest[1..];
    if |rest| > 1 {
      assert [x] + rest[0] + [c] + Join(rest[1..], c) == [x] + (rest[0] + [c] + Join(rest[1..], c));
    }
  }

  lemma {:induction false} SplitPieces(s: string, c: char)
    ensures forall p | p in Split(s, c) :: c !in p
  {
    if s != [] { SplitPieces(s[1..], c); }
  }

  lemma {:induction false} SplitPlain(s: string, c: char)
    requires c !in s
    ensures Split(s, c) == [s]
  {
    if s != [] {
      assert forall x | x in s[1..] :: x in s;
      SplitPlain(s[1..], c);
      assert [s[0]] + s[1..] == s;
    }
  }

  lemma {:induction false} SplitHead(x: char, t: string, c: char)
    ensures Split([x] + t, c) ==
      if x == c then [[]] + Split(t, c) else [[x] + Split(t, c)[0]] + Split(t, c)[1..]
  {
    assert ([x] + t)[1..] == t;
  }

  lemma HeadOfSum(x: char, r: seq<string>, t: seq<string>)
    requires r != []
    ensures [[x] + (r + t)[0]] + (r + t)[1..] == [[x] + r[0]] + r[1..] + t
    ensures [[]] + (r + t) == [[]] + r + t
  {
  }

  lemma {:induction false} SplitEmpty(c: char)
    ensures Split([], c) == [[]]
  {
  }

  lemma HeadAndTail(a: string, b: string, c: char)
    ensures a == [] ==> a + [c] + b == [c] + b
    ensures a != [] ==> a == [a[0]] + a[1..] && a + [c] + b == [a[0]] + (a[1..] + [c] + b)
  {
  }

  lemma {:induction false} SplitConcat(a: string, b: string, c: char)
    ensures Split(a + [c] + b, c) == Split(a, c) + Split(b, c)
  {
    hide Split;
    HeadAndTail(a, b, c);
    if a == [] {
      SplitEmpty(c);
      SplitHead(c, b, c);
    } else {
      var x, t := a[0], a[1..];
      SplitConcat(t, b, c);
      SplitHead(x, t, c);
      SplitHead(x, t + [c] + b, c);
      HeadOfSum(x, Split(t, c), Split(b, c));
    }
  }

  /** All the pieces of all the parts. */
  function Pieces(ss: seq<string>, c: char): seq<string> {
    if ss == [] then [] else Split(ss[0], c) + Pieces(ss[1..], c)
  }

  lemma {:induction false} SplitJoin(ss: seq<string>, c: char)
    requires ss != []
    ensures Split(Join(ss, c), c) == Pieces(ss, c)
  {
    if |ss| == 1 {
      assert Pieces(ss[1..], c) == [];
    } else {
      SplitJoin(ss[1..], c);
      SplitConcat(ss[0], Join(ss[1..], c), c);
    }
  }

  /** A part without the separator is itself a piece. */
  lemma {:induction false} PieceOfPart(ss: seq<string>, c: char, k: nat)
    requires k < |ss| && c !in ss[k]
    ensures ss[k] in Pieces(ss, c)
  {
    if k == 0 { SplitPlain(ss[0], c); } else { PieceOfPart(ss[1..], c, k - 1); }
  }

  /** The pieces are those of the parts. */
  lemma {:induction false} PieceIff(ss: seq<string>, c: char, p: string)
    ensures p in Pieces(ss, c) <==> exists k :: 0 <= k < |ss| && p in Split(ss[k], c)
  {
    if ss != [] {
      PieceIff(ss[1..], c, p);
      forall k | 0 < k < |ss| ensures ss[k] == ss[1..][k - 1] {}
      if k :| 0 <= k < |ss[1..]| && p in Split(ss[1..][k], c) { assert ss[k + 1] == ss[1..][k]; }
    }
  }
}
