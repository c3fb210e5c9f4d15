/** Choice of the response type from the Accept header (`http/handler_impl.go`). Parsing a decimal
    number is a parameter: `None` for a text that is not a number. */
module HttpAccept {
  import opened Wrappers
  import opened Text

  type ParseFloat = string -> Option<real>
  type Supports = string -> bool

  /** The characters with the Unicode White_Space property. */
  predicate IsSpace(c: char) {
    var n := c as int;
    || 0x09 <= n <= 0x0D || n == 0x20 || n == 0x85 || n == 0xA0 || n == 0x1680 || 0x2000 <= n <= 0x200A
    || n == 0x2028 || n == 0x2029 || n == 0x202F || n == 0x205F || n == 0x3000
  }

  function TrimSpace(s: string): string {
    if s == [] then []
    else if IsSpace(s[0]) then TrimSpace(s[1..])
    else if IsSpace(s[|s| - 1]) then TrimSpace(s[..|s| - 1])
    else s
  }

  /** `strings.SplitN(s, c, 2)`: the text up to the first separator and, if there is one, the rest. */
  function Cut(s: string, c: char): (string, Option<string>) {
    if s == [] then ([], None)
    else if s[0] == c then ([], Some(s[1..]))
    else var (a, b) := Cut(s[1..], c); ([s[0]] + a, b)
  }

  datatype Entry = Entry(mime: string, q: real) | Malformed

  function ParseEntry(text: string, num: ParseFloat): Entry {
    var (mime, params) := Cut(TrimSpace(text), ';');
    if params.None? then Entry(mime, 1.0)
    else
      var (key, val) := Cut(params.value, '=');
      if key == "q" && val.Some? && num(val.value).Some? then Entry(mime, num(val.value).value) else Malformed
  }

  function Entries(parts: seq<string>, num: ParseFloat): (r: seq<Entry>)
    ensures |r| == |parts|
    ensures forall k | 0 <= k < |parts| :: r[k] == ParseEntry(parts[k], num)
  {
    if parts == [] then [] else [ParseEntry(parts[0], num)] + Entries(parts[1..], num)
  }

  ghost predicate WellFormed(es: seq<Entry>) {
    forall k | 0 <= k < |es| :: es[k].Entry?
  }

  /** The weight of a type is that of its last occurrence. */
  function Weight(es: seq<Entry>, mime: string): real {
    if es == [] then 0.0
    else if es[|es| - 1].Entry? && es[|es| - 1].mime == mime then es[|es| - 1].q
    else Weight(es[..|es| - 1], mime)
  }

  predicate Supported(ms: seq<Supports>, mime: string) {
    exists m | 0 <= m < |ms| :: ms[m](mime)
  }

  /** Entry `k` is the earliest of the supported entries with the greatest weight. */
  ghost predicate Best(es: seq<Entry>, ms: seq<Supports>, k: nat)
    requires WellFormed(es)
  {
    && k < |es| && Supported(ms, es[k].mime)
    && forall j | 0 <= j < |es| && Supported(ms, es[j].mime) ::
         var wj, wk := Weight(es, es[j].mime), Weight(es, es[k].mime);
         wj < wk || (wj == wk && k <= j)
  }

  datatype Choice =
    | Default
    | BadRequest
    | NotAcceptable
    | Chosen(marshaller: nat, mime: string)

  // Sorting.

  /** `i` comes before `j` in the stable order by descending weight. */
  predicate Before(list: seq<string>, q: map<string, real>, i: nat, j: nat)
    requires i < |list| && j < |list| && list[i] in q && list[j] in q
  {
    q[list[i]] > q[list[j]] || (q[list[i]] == q[list[j]] && i < j)
  }

  /** `perm` is an ordering of the first `n` indices. */
  ghost predicate Sorted(list: seq<string>, q: map<string, real>, n: nat, perm: seq<nat>)
    requires n <= |list| && forall k | 0 <= k < |list| :: list[k] in q
  {
    && |perm| == n
    && (forall i | 0 <= i < n :: perm[i] < n)
    && (forall k | 0 <= k < n :: k in perm)
    && (forall i, j | 0 <= i < j < n :: Before(list, q, perm[i], perm[j]))
  }

  lemma Insert(list: seq<string>, q: map<string, real>, n: nat, perm: seq<nat>, pos: nat)
    requires n < |list| && (forall k | 0 <= k < |list| :: list[k] in q)
    requires Sorted(list, q, n, perm) && pos <= n
    requires forall i | 0 <= i < pos :: q[list[perm[i]]] >= q[list[n]]
    requires forall i | pos <= i < n :: q[list[perm[i]]] < q[list[n]]
    ensures Sorted(list, q, n + 1, perm[..pos] + [n] + perm[pos..])
  {
    var p := perm[..pos] + [n] + perm[pos..];
    forall k | 0 <= k < n + 1 ensures k in p {
      if k == n {
        assert p[pos] == n;
      } else {
        assert k in perm;
        var i :| 0 <= i < n && perm[i] == k;
        assert i < pos ==> p[i] == k;
        assert i >= pos ==> p[i + 1] == k;
      }
    }
  }

  method StableSort(list: seq<string>, q: map<string, real>) returns (r: seq<string>, ghost perm: seq<nat>)
    requires forall k | 0 <= k < |list| :: list[k] in q
    ensures Sorted(list, q, |list|, perm)
    ensures |r| == |list| && forall i | 0 <= i < |r| :: r[i] == list[perm[i]]
  {
    r, perm := [], [];
    for n := 0 to |list|
      invariant Sorted(list, q, n, perm)
      invariant |r| == n && forall i | 0 <= i < n :: r[i] == list[perm[i]]
    {
      var pos := n;
      while pos > 0 && q[r[pos - 1]] < q[list[n]]
        invariant pos <= n
        invariant forall i | pos <= i < n :: q[list[perm[i]]] < q[list[n]]
      {
        pos := pos - 1;
      }
      forall i | 0 <= i < pos ensures q[list[perm[i]]] >= q[list[n]] {
        assert i < pos - 1 ==> Before(list, q, perm[i], perm[pos - 1]);
      }
      Insert(list, q, n, perm, pos);
      r, perm := r[..pos] + [list[n]] + r[pos..], perm[..pos] + [n] + perm[pos..];
    }
  }

  lemma Distinct(list: seq<string>, q: map<string, real>, perm: seq<nat>)
    requires forall k | 0 <= k < |list| :: list[k] in q
    requires Sorted(list, q, |list|, perm)
    ensures forall i, j | 0 <= i < j < |perm| :: perm[i] != perm[j]
  {
    forall i, j | 0 <= i < j < |perm| ensures perm[i] != perm[j] {
      assert Before(list, q, perm[i], perm[j]);
    }
  }

  lemma After(list: seq<string>, q: map<string, real>, perm: seq<nat>, n: nat, i: nat)
    requires forall k | 0 <= k < |list| :: list[k] in q
    requires Sorted(list, q, |list|, perm) && n <= i < |perm|
    ensures perm[n] == perm[i] || Before(list, q, perm[n], perm[i])
  {
  }

  /** The order is determined by the list and the weights: every stable sort gives the same result. */
  lemma {:induction false} SortedUnique(list: seq<string>, q: map<string, real>, a: seq<nat>, b: seq<nat>, k: nat)
    requires forall k | 0 <= k < |list| :: list[k] in q
    requires Sorted(list, q, |list|, a) && Sorted(list, q, |list|, b) && k <= |list|
    ensures a[..k] == b[..k]
  {
    if k > 0 {
      var n := k - 1;
      SortedUnique(list, q, a, b, n);
      Distinct(list, q, a);
      Distinct(list, q, b);
      assert forall m | 0 <= m < n :: a[m] == a[..n][m] == b[..n][m] == b[m];
      assert forall m | 0 <= m < n :: b[m] != a[n] && a[m] != b[n];
      assert a[n] in b && b[n] in a;
      var i :| 0 <= i < |b| && b[i] == a[n];
      var j :| 0 <= j < |a| && a[j] == b[n];
      After(list, q, b, n, i);
      After(list, q, a, n, j);
      assert a[..k] == a[..n] + [a[n]] && b[..k] == b[..n] + [b[n]];
    }
  }

  // The negotiation.

  /** The list and the map that the first loop fills in. */
  ghost predicate Reads(es: seq<Entry>, list: seq<string>, q: map<string, real>) {
    && WellFormed(es) && |list| == |es|
    && forall k | 0 <= k < |es| :: list[k] == es[k].mime && list[k] in q && q[list[k]] == Weight(es, list[k])
  }

  lemma ReadsMore(es: seq<Entry>, i: nat, list: seq<string>, q: map<string, real>)
    requires i < |es| && es[i].Entry? && Reads(es[..i], list, q)
    ensures Reads(es[..i + 1], list + [es[i].mime], q[es[i].mime := es[i].q])
  {
    assert es[..i + 1] == es[..i] + [es[i]];
    assert es[..i + 1][..i] == es[..i];
  }

  method ReadAccept(accepted: seq<string>, num: ParseFloat) returns (ok: bool, list: seq<string>, q: map<string, real>)
    ensures ok <==> WellFormed(Entries(accepted, num))
    ensures ok ==> Reads(Entries(accepted, num), list, q)
  {
    hide ParseEntry, Weight;
    ghost var es := Entries(accepted, num);
    q, list := map[], [];
    for i := 0 to |accepted|
      invariant Reads(es[..i], list, q)
    {
      var e := ParseEntry(accepted[i], num);
      if e.Malformed? { return false, list, q; }
      assert es[i] == e;
      ReadsMore(es, i, list, q);
      q := q[e.mime := e.q];
      list := list + [e.mime];
    }
    assert es[..|accepted|] == es;
    ok := true;
  }

  /** The nested loops: the first supported type and the first marshaller for it. */
  method Search(sorted: seq<string>, ms: seq<Supports>) returns (i: nat, m: nat)
    ensures i <= |sorted| && forall k | 0 <= k < i :: !Supported(ms, sorted[k])
    ensures i < |sorted| ==> m < |ms| && ms[m](sorted[i]) && forall k | 0 <= k < m :: !ms[k](sorted[i])
  {
    i, m := 0, 0;
    while i < |sorted|
      invariant i <= |sorted| && forall k | 0 <= k < i :: !Supported(ms, sorted[k])
    {
      m := 0;
      while m < |ms|
        invariant m <= |ms| && forall k | 0 <= k < m :: !ms[k](sorted[i])
      {
        if ms[m](sorted[i]) { return; }
        m := m + 1;
      }
      i := i + 1;
    }
  }

  /** What the header asks for. */
  ghost predicate Answers(es: seq<Entry>, ms: seq<Supports>, c: Choice) {
    match c
    case Default => false
    case BadRequest => !WellFormed(es)
    case NotAcceptable => WellFormed(es) && forall k | 0 <= k < |es| :: !Supported(ms, es[k].mime)
    case Chosen(m, mime) =>
      && WellFormed(es) && (exists k: nat :: Best(es, ms, k) && mime == es[k].mime)
      && m < |ms| && ms[m](mime) && forall j | 0 <= j < m :: !ms[j](mime)
  }

  method FindMarshaller(header: string, ms: seq<Supports>, num: ParseFloat) returns (c: Choice)
    ensures if header == "" then c == Default else Answers(Entries(Split(header, ','), num), ms, c)
  {
    if header == "" { return Default; }
    ghost var es := Entries(Split(header, ','), num);
    var ok, list, q := ReadAccept(Split(header, ','), num);
    if !ok { return BadRequest; }
    var sorted, perm := StableSort(list, q);
    var i, m := Search(sorted, ms);
    if i < |sorted| {
      BestFound(es, list, q, ms, sorted, perm, i);
      return Chosen(m, sorted[i]);
    }
    forall k | 0 <= k < |es| ensures !Supported(ms, es[k].mime) {
      assert k in perm;
      var n :| 0 <= n < |perm| && perm[n] == k;
      assert sorted[n] == es[k].mime;
    }
    return NotAcceptable;
  }

  /** The answer is determined by the header: exactly one of the outcomes fits, with one type and one
      marshaller. */
  lemma AnswerUnique(es: seq<Entry>, ms: seq<Supports>, c: Choice, d: Choice)
    requires Answers(es, ms, c) && Answers(es, ms, d)
    ensures c == d
  {
    if c.Chosen? && d.Chosen? {
      var j: nat :| Best(es, ms, j) && c.mime == es[j].mime;
      var k: nat :| Best(es, ms, k) && d.mime == es[k].mime;
      BestUnique(es, ms, j, k);
    }
  }

  /** The first supported entry in the sorted list is the best one of the header. */
  lemma BestFound(es: seq<Entry>, list: seq<string>, q: map<string, real>, ms: seq<Supports>,
                  sorted: seq<string>, perm: seq<nat>, i: nat)
    requires Reads(es, list, q) && |sorted| == |es|
    requires Sorted(list, q, |list|, perm) && forall k | 0 <= k < |sorted| :: sorted[k] == list[perm[k]]
    requires i < |sorted| && Supported(ms, sorted[i]) && forall k | 0 <= k < i :: !Supported(ms, sorted[k])
    ensures Best(es, ms, perm[i])
  {
    forall j | 0 <= j < |es| && Supported(ms, es[j].mime)
      ensures var wj, wk := Weight(es, es[j].mime), Weight(es, es[perm[i]].mime);
              wj < wk || (wj == wk && perm[i] <= j)
    {
      assert j in perm;
      var n :| 0 <= n < |perm| && perm[n] == j;
      assert sorted[n] == list[j];
      if n > i { assert Before(list, q, perm[i], perm[n]); }
    }
  }

  /** There is only one best entry. */
  lemma BestUnique(es: seq<Entry>, ms: seq<Supports>, j: nat, k: nat)
    requires WellFormed(es) && Best(es, ms, j) && Best(es, ms, k)
    ensures j == k
  {
  }

  lemma {:induction false} CutAt(a: string, c: char, b: string)
    requires c !in a
    ensures Cut(a + [c] + b, c) == (a, Some(b))
  {
    if a == [] {
      assert a + [c] + b == [c] + b && ([c] + b)[1..] == b;
    } else {
      assert (a + [c] + b)[1..] == a[1..] + [c] + b;
      assert forall x | x in a[1..] :: x in a;
      CutAt(a[1..], c, b);
      assert [a[0]] + a[1..] == a;
    }
  }

  predicate Blank(s: string) { forall c | c in s :: IsSpace(c) }

  /** Trimming takes off all blanks at both ends and nothing else. */
  lemma {:induction false} TrimSpaceOf(a: string, s: string, b: string)
    requires Blank(a) && Blank(b) && (s != "" ==> !IsSpace(s[0]) && !IsSpace(s[|s| - 1]))
    ensures TrimSpace(a + s + b) == s
    decreases |a| + |b|
  {
    var t := a + s + b;
    if a != [] {
      assert t[1..] == a[1..] + s + b;
      TrimSpaceOf(a[1..], s, b);
    } else if b != [] {
      if s == "" {
        assert t == b && b == b + s + a;
        assert t[1..] == b[1..] + s + a;
        TrimSpaceOf(b[1..], s, a);
      } else {
        assert t[..|t| - 1] == a + s + b[..|b| - 1];
        TrimSpaceOf(a, s, b[..|b| - 1]);
      }
    } else {
      assert t == s;
    }
  }

  /** The blanks, one by one. */
  lemma BlankIff(c: char)
    ensures IsSpace(c) <==> c in {
      '\t', '\n', '\U{0B}', '\U{0C}', '\r', ' ', '\U{85}', '\U{A0}', '\U{1680}', '\U{2000}', '\U{2001}', '\U{2002}',
      '\U{2003}', '\U{2004}', '\U{2005}', '\U{2006}', '\U{2007}', '\U{2008}', '\U{2009}', '\U{200A}', '\U{2028}',
      '\U{2029}', '\U{202F}', '\U{205F}', '\U{3000}' }
  {
  }

  lemma {:induction false} TrimBlanks(s: string)
    ensures TrimSpace(" " + s) == TrimSpace(s)
  {
    assert (" " + s)[1..] == s;
  }

  /** A blank after a comma does not matter: the entries are those without it. */
  lemma {:induction false} BlankAfterComma(a: string, b: string, num: ParseFloat)
    requires ',' !in a && ',' !in b
    ensures Entries(Split(a + ", " + b, ','), num) == [ParseEntry(a, num), ParseEntry(b, num)]
  {
    hide Split, TrimSpace, Entries, ParseEntry;
    CommaBlank(a, b);
    SplitConcat(a, " " + b, ',');
    SplitPlain(a, ',');
    SplitPlain(" " + b, ',');
    SameEntry(b, num);
    var parts := Split(a + ", " + b, ',');
    assert parts == [a, " " + b];
    assert Entries(parts, num) == [ParseEntry(parts[0], num), ParseEntry(parts[1], num)];
  }

  lemma CommaBlank(a: string, b: string)
    ensures a + ", " + b == a + [','] + (" " + b)
  {
  }

  lemma {:induction false} SameEntry(t: string, num: ParseFloat)
    ensures ParseEntry(" " + t, num) == ParseEntry(t, num)
  {
    TrimBlanks(t);
    hide TrimSpace, Cut;
  }

  lemma {:induction false} CutParts(s: string, c: char)
    ensures var (a, b) := Cut(s, c);
      c !in a && s == if b.Some? then a + [c] + b.value else a
  {
    if s != [] && s[0] != c { CutParts(s[1..], c); }
  }

  /** The trimmed text is a type and a weight. */
  predicate Weighted(s: string, mime: string, t: string, num: ParseFloat) {
    ';' !in mime && s == mime + [';'] + ("q" + ['='] + t) && num(t).Some?
  }

  lemma {:induction false} WeightedEntry(text: string, num: ParseFloat, mime: string, t: string)
    requires Weighted(TrimSpace(text), mime, t, num)
    ensures ParseEntry(text, num) == Entry(mime, num(t).value)
  {
    CutAt(mime, ';', "q" + ['='] + t);
    CutAt("q", '=', t);
  }

  /** An entry is well formed exactly if it is a type alone, which weighs 1, or a type, a semicolon, "q=" and
      a number, which is then its weight. */
  lemma {:induction false} EntryIff(text: string, num: ParseFloat)
    ensures ParseEntry(text, num).Entry? <==>
      ';' !in TrimSpace(text) || exists mime, t :: Weighted(TrimSpace(text), mime, t, num)
    ensures ';' !in TrimSpace(text) ==> ParseEntry(text, num) == Entry(TrimSpace(text), 1.0)
    ensures forall mime, t | Weighted(TrimSpace(text), mime, t, num) ::
      ParseEntry(text, num) == Entry(mime, num(t).value)
  {
    var s := TrimSpace(text);
    CutParts(s, ';');
    var (mime, params) := Cut(s, ';');
    if params.Some? {
      CutParts(params.value, '=');
      var (key, val) := Cut(params.value, '=');
      if key == "q" && val.Some? && num(val.value).Some? { assert Weighted(s, mime, val.value, num); }
    }
    forall mime, t | Weighted(s, mime, t, num) ensures ParseEntry(text, num) == Entry(mime, num(t).value) {
      WeightedEntry(text, num, mime, t);
    }
  }

  /** A blank between the semicolon and the weight, which section 5.3.1 of RFC 7231 allows, is refused. */
  lemma BlankBeforeWeight(mime: string, rest: string, num: ParseFloat)
    requires mime != "" && ';' !in mime && !IsSpace(mime[0])
    requires rest != "" && !IsSpace(rest[|rest| - 1])
    ensures ParseEntry(mime + ";" + (" " + rest), num) == Malformed
  {
    var text := mime + ";" + (" " + rest);
    assert text[0] == mime[0] && text[|text| - 1] == rest[|rest| - 1];
    assert TrimSpace(text) == text;
    CutAt(mime, ';', " " + rest);
    var key := Cut(" " + rest, '=').0;
    assert key != "" && key[0] == ' ';
  }
}
