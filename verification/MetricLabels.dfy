/** Names of metric values: the metric name with its label set printed after it
    (`internal/metrics/collector.go`). */
module MetricLabels {
  import opened Text

  type Labels = map<string, string>

  // Lexicographic order, the order of `sort.Strings`.

  predicate Less(a: string, b: string) {
    b != [] && (a == [] || a[0] < b[0] || (a[0] == b[0] && Less(a[1..], b[1..])))
  }

  lemma {:induction false} LessTotal(a: string, b: string)
    ensures Less(a, b) || Less(b, a) || a == b
    ensures !(Less(a, b) && Less(b, a)) && !Less(a, a)
  {
    if a != [] && b != [] {
      LessTotal(a[1..], b[1..]);
      LessTotal(a[1..], a[1..]);
      assert a == [a[0]] + a[1..] && b == [b[0]] + b[1..];
    } else if a != [] {
      LessTotal(a[1..], a[1..]);
    }
  }

  lemma {:induction false} LessTransitive(a: string, b: string, c: string)
    requires Less(a, b) && Less(b, c)
    ensures Less(a, c)
  {
    if a != [] && a[0] == b[0] && b[0] == c[0] { LessTransitive(a[1..], b[1..], c[1..]); }
  }

  /** The first difference decides, the smaller character or the shorter text coming first. */
  lemma {:induction false} LessIff(a: string, b: string)
    ensures Less(a, b) <==> exists n: nat :: FirstDifference(a, b, n)
    decreases |a|
  {
    if a == [] || b == [] || a[0] != b[0] {
      if Less(a, b) { assert FirstDifference(a, b, 0); }
    } else {
      LessIff(a[1..], b[1..]);
      if n: nat :| FirstDifference(a[1..], b[1..], n) {
        assert a[..n + 1] == [a[0]] + a[1..][..n] && b[..n + 1] == [b[0]] + b[1..][..n];
        assert FirstDifference(a, b, n + 1);
      }
      if n: nat :| FirstDifference(a, b, n) {
        assert n > 0 && a[1..][..n - 1] == a[..n][1..] && b[1..][..n - 1] == b[..n][1..];
        assert FirstDifference(a[1..], b[1..], n - 1);
      }
    }
  }

  predicate FirstDifference(a: string, b: string, n: nat) {
    n <= |a| && n < |b| && a[..n] == b[..n] && (n == |a| || (a[n] as int) < (b[n] as int))
  }

  ghost predicate Sorted(ks: seq<string>) {
    forall i, j | 0 <= i < j < |ks| :: Less(ks[i], ks[j])
  }

  ghost predicate Lists(ks: seq<string>, keys: set<string>) {
    Sorted(ks) && forall k :: k in ks <==> k in keys
  }

  /** A set has one sorted listing. */
  lemma {:induction false} ListingUnique(a: seq<string>, b: seq<string>, keys: set<string>)
    requires Lists(a, keys) && Lists(b, keys)
    ensures a == b
  {
    assert a == [] || a[0] in a;
    assert b == [] || b[0] in b;
    if a != [] && b != [] {
      HeadIsLeast(a, b);
      HeadIsLeast(b, a);
      LessTotal(a[0], b[0]);
      TailLists(a, keys);
      TailLists(b, keys);
      ListingUnique(a[1..], b[1..], keys - {a[0]});
      assert a == [a[0]] + a[1..] && b == [b[0]] + b[1..];
    }
  }

  lemma HeadIsLeast(a: seq<string>, b: seq<string>)
    requires Sorted(a) && a != [] && b != [] && b[0] in a
    ensures a[0] == b[0] || Less(a[0], b[0])
  {
    var n :| 0 <= n < |a| && a[n] == b[0];
  }

  lemma TailLists(a: seq<string>, keys: set<string>)
    requires Lists(a, keys) && a != []
    ensures Lists(a[1..], keys - {a[0]})
  {
    LessTotal(a[0], a[0]);
    forall k ensures k in a[1..] <==> k in keys - {a[0]} {
      if k in keys && k != a[0] {
        var n :| 0 <= n < |a| && a[n] == k;
        assert a[1..][n - 1] == k;
      }
      if k in a[1..] {
        var n :| 0 <= n < |a| - 1 && a[1..][n] == k;
        assert a[n + 1] == k && k in a && Less(a[0], a[n + 1]);
      }
    }
  }

  // Printing.

  function Escape(v: string): string {
    if v == [] then []
    else (if v[0] == '"' then "\\\"" else if v[0] == '\\' then "\\\\" else [v[0]]) + Escape(v[1..])
  }

  /** Quotes and backslashes get a backslash in front, and nothing else changes. */
  lemma {:induction false} EscapeIs(c: char, v: string)
    ensures Escape([c] + v) == (if c == '"' || c == '\\' then ['\\', c] else [c]) + Escape(v)
    ensures Escape([]) == []
  {
    assert ([c] + v)[1..] == v;
  }

  function Entry(k: string, v: string): string { k + "=\"" + Escape(v) + "\"" }

  /** The entries with commas between them. */
  function Body(ks: seq<string>, labels: Labels): string
    requires forall k | k in ks :: k in labels
  {
    if ks == [] then ""
    else if |ks| == 1 then Entry(ks[0], labels[ks[0]])
    else Entry(ks[0], labels[ks[0]]) + "," + Body(ks[1..], labels)
  }

  function Printed(name: string, ks: seq<string>, labels: Labels): string
    requires forall k | k in ks :: k in labels
  {
    if ks == [] then name else name + "{" + Body(ks, labels) + "}"
  }

  /** A sorted listing of a finite set. */
  ghost function Listing(keys: set<string>): (ks: seq<string>)
    ensures Lists(ks, keys)
  {
    if keys == {} then []
    else
      var k :| k in keys;
      var ks := Listing(keys - {k});
      var n := Position(ks, k);
      InsertLists(ks, keys - {k}, k, n);
      ks[..n] + [k] + ks[n..]
  }

  ghost function Position(ks: seq<string>, k: string): (n: nat)
    requires Sorted(ks) && k !in ks
    ensures n <= |ks|
    ensures forall i | 0 <= i < n :: Less(ks[i], k)
    ensures forall i | n <= i < |ks| :: Less(k, ks[i])
  {
    if ks == [] then 0
    else
      LessTotal(ks[|ks| - 1], k);
      if Less(ks[|ks| - 1], k) then
        (forall i | 0 <= i < |ks| - 1 ensures Less(ks[i], k) { LessTransitive(ks[i], ks[|ks| - 1], k); }
         |ks|)
      else Position(ks[..|ks| - 1], k)
  }

  lemma {:induction false} InsertLists(ks: seq<string>, keys: set<string>, k: string, n: nat)
    requires Lists(ks, keys) && k !in keys && n <= |ks|
    requires forall i | 0 <= i < n :: Less(ks[i], k)
    requires forall i | n <= i < |ks| :: Less(k, ks[i])
    ensures Lists(ks[..n] + [k] + ks[n..], keys + {k})
  {
    var r := ks[..n] + [k] + ks[n..];
    forall x ensures x in r <==> x in keys + {k} {
      if x == k { assert r[n] == k; }
      if x in ks {
        var i :| 0 <= i < |ks| && ks[i] == x;
        assert r[if i < n then i else i + 1] == x;
      }
    }
  }

  /** `CombinedName`. */
  ghost function CombinedName(name: string, labels: Labels): string {
    Printed(name, Listing(labels.Keys), labels)
  }

  // Reading a printed name back.

  /** The name of a label does not contain what ends it in print. */
  predicate PlainName(k: string) {
    forall i | 0 <= i < |k| - 1 :: !(k[i] == '=' && k[i + 1] == '"')
  }

  predicate Plain(labels: Labels) {
    forall k | k in labels :: PlainName(k)
  }

  lemma WithoutEquals(k: string)
    requires '=' !in k
    ensures PlainName(k)
  {
    forall i | 0 <= i < |k| - 1 ensures k[i] != '=' { assert k[i] in k; }
  }

  lemma KeyNotShorter(k: string, x: string, l: string, y: string)
    requires PlainName(l) && k + "=\"" + x == l + "=\"" + y
    ensures |k| >= |l|
  {
    var s, t := k + "=\"" + x, l + "=\"" + y;
    assert s[|k|] == '=' && s[|k| + 1] == '"' && t[|l|] == '=';
    assert forall i | 0 <= i < |l| :: l[i] == t[i];
  }

  lemma KeyEnds(k: string, x: string, l: string, y: string)
    requires PlainName(k) && PlainName(l) && k + "=\"" + x == l + "=\"" + y
    ensures k == l && x == y
  {
    KeyNotShorter(k, x, l, y);
    KeyNotShorter(l, y, k, x);
    var s, t := k + "=\"" + x, l + "=\"" + y;
    assert k == s[..|k|] && l == t[..|k|] && x == s[|k| + 2..] && y == t[|k| + 2..];
  }

  lemma {:induction false} EscapeHead(v: string)
    ensures v == [] ==> Escape(v) == []
    ensures v != [] ==> Escape(v) == (if v[0] == '"' || v[0] == '\\' then ['\\', v[0]] else [v[0]]) + Escape(v[1..])
  {
  }

  lemma {:induction false} ValueEnds(v: string, x: string, w: string, y: string)
    requires Escape(v) + "\"" + x == Escape(w) + "\"" + y
    ensures v == w && x == y
  {
    hide Escape;
    EscapeHead(v);
    EscapeHead(w);
    var s, t := Escape(v) + "\"" + x, Escape(w) + "\"" + y;
    if v == [] || w == [] {
      assert v == [] ==> s[0] == '"' && s[1..] == x;
      assert w == [] ==> t[0] == '"' && t[1..] == y;
    } else {
      var n := if s[0] == '\\' then 2 else 1;
      assert s[n..] == Escape(v[1..]) + "\"" + x;
      assert t[n..] == Escape(w[1..]) + "\"" + y;
      assert s[0] == '\\' ==> s[1] == v[0];
      assert t[0] == '\\' ==> t[1] == w[0];
      ValueEnds(v[1..], x, w[1..], y);
      assert v == [v[0]] + v[1..] && w == [w[0]] + w[1..];
    }
  }

  lemma EntryEnds(k: string, v: string, x: string, l: string, w: string, y: string)
    requires PlainName(k) && PlainName(l) && Entry(k, v) + x == Entry(l, w) + y
    ensures k == l && v == w && x == y
  {
    assert Entry(k, v) + x == k + "=\"" + (Escape(v) + "\"" + x);
    assert Entry(l, w) + y == l + "=\"" + (Escape(w) + "\"" + y);
    KeyEnds(k, Escape(v) + "\"" + x, l, Escape(w) + "\"" + y);
    ValueEnds(v, x, w, y);
  }

  /** What follows the first entry. */
  function Rest(ks: seq<string>, labels: Labels): string
    requires ks != [] && forall k | k in ks :: k in labels
  {
    if |ks| == 1 then "}" else "," + Body(ks[1..], labels) + "}"
  }

  lemma {:induction false} BodySplits(ks: seq<string>, labels: Labels)
    requires ks != [] && forall k | k in ks :: k in labels
    ensures Body(ks, labels) + "}" == Entry(ks[0], labels[ks[0]]) + Rest(ks, labels)
  {
  }

  lemma {:induction false} RestReads(a: seq<string>, p: Labels, b: seq<string>, q: Labels)
    requires a != [] && b != [] && (forall k | k in a :: k in p) && (forall k | k in b :: k in q)
    requires Rest(a, p) == Rest(b, q)
    ensures |a| == 1 <==> |b| == 1
    ensures |a| > 1 ==> Body(a[1..], p) + "}" == Body(b[1..], q) + "}"
  {
    var x, y := Rest(a, p), Rest(b, q);
    assert x[0] == y[0] && x[1..] == y[1..];
    if |a| > 1 { assert x[1..] == Body(a[1..], p) + "}"; }
    if |b| > 1 { assert y[1..] == Body(b[1..], q) + "}"; }
  }

  lemma {:induction false} BodyReads(a: seq<string>, p: Labels, b: seq<string>, q: Labels)
    requires a != [] && b != [] && (forall k | k in a :: k in p) && (forall k | k in b :: k in q)
    requires Plain(p) && Plain(q) && Body(a, p) + "}" == Body(b, q) + "}"
    ensures a == b && forall k | k in a :: p[k] == q[k]
  {
    BodySplits(a, p);
    BodySplits(b, q);
    EntryEnds(a[0], p[a[0]], Rest(a, p), b[0], q[b[0]], Rest(b, q));
    RestReads(a, p, b, q);
    if |a| > 1 { BodyReads(a[1..], p, b[1..], q); }
    OneMore(a, p, b, q);
  }

  lemma OneMore(a: seq<string>, p: Labels, b: seq<string>, q: Labels)
    requires a != [] && b != [] && (forall k | k in a :: k in p) && (forall k | k in b :: k in q)
    requires a[0] == b[0] && p[a[0]] == q[b[0]] && a[1..] == b[1..] && forall k | k in a[1..] :: p[k] == q[k]
    ensures a == b && forall k | k in a :: p[k] == q[k]
  {
    assert a == [a[0]] + a[1..] && b == [b[0]] + b[1..];
  }

  lemma PrintedReads(name: string, a: seq<string>, p: Labels, b: seq<string>, q: Labels)
    requires (forall k | k in a :: k in p) && (forall k | k in b :: k in q)
    requires Plain(p) && Plain(q) && Printed(name, a, p) == Printed(name, b, q)
    ensures a == b && forall k | k in a :: p[k] == q[k]
  {
    var s, t := Printed(name, a, p), Printed(name, b, q);
    if a == [] || b == [] {
      assert |s| == |t|;
    } else {
      assert s[|name| + 1..] == Body(a, p) + "}";
      assert t[|name| + 1..] == Body(b, q) + "}";
      BodyReads(a, p, b, q);
    }
  }

  /** For one metric, two label sets with plain names are printed alike exactly if they are equal. */
  lemma CombinedNameIff(name: string, p: Labels, q: Labels)
    requires Plain(p) && Plain(q)
    ensures CombinedName(name, p) == CombinedName(name, q) <==> p == q
  {
    if CombinedName(name, p) == CombinedName(name, q) {
      PrintedReads(name, Listing(p.Keys), p, Listing(q.Keys), q);
      SameLabels(p, q, Listing(p.Keys));
    }
  }

  lemma SameLabels(p: Labels, q: Labels, ks: seq<string>)
    requires Lists(ks, p.Keys) && Lists(ks, q.Keys) && forall k | k in ks :: p[k] == q[k]
    ensures p == q
  {
    forall k ensures k in p <==> k in q { assert k in ks <==> k in p.Keys; assert k in ks <==> k in q.Keys; }
  }

  lemma {:induction false} LongEntry(k: string, v: string, l: string, w: string)
    ensures Entry(k + "=\"" + Escape(v) + "\"," + l, w) == Entry(k, v) + "," + Entry(l, w)
  {
    assert "\"," == "\"" + ",";
  }

  /** Without that condition it fails: any two labels are printed like one label with a long name. */
  lemma {:induction false} Collision(name: string, k: string, v: string, l: string, w: string)
    requires Less(k, l)
    ensures var long := k + "=\"" + Escape(v) + "\"," + l;
            CombinedName(name, map[long := w]) == CombinedName(name, map[k := v, l := w])
  {
    var long := k + "=\"" + Escape(v) + "\"," + l;
    LongEntry(k, v, l, w);
    LessTotal(k, l);
    LessTotal(long, long);
    hide Less, Entry, Escape, Listing;
    var q := map[k := v, l := w];
    ListingUnique([long], Listing(map[long := w].Keys), {long});
    ListingUnique([k, l], Listing(q.Keys), {k, l});
    assert [k, l][1..] == [l];
    assert Body([l], q) == Entry(l, w);
  }

  /** What is printed: the metric name, and in braces the labels in the order of their names, with commas
      between them. */
  lemma {:induction false} CombinedNameIs(name: string, labels: Labels, ks: seq<string>)
    requires Lists(ks, labels.Keys)
    ensures forall k | k in ks :: k in labels
    ensures CombinedName(name, labels) ==
      if ks == [] then name
      else
        name + "{" + Join(seq(|ks|, i requires 0 <= i < |ks| => ks[i] + "=\"" + Escape(labels[ks[i]]) + "\""), ',')
        + "}"
    ensures name <= CombinedName(name, labels)
  {
    hide Escape, Less;
    ListingUnique(ks, Listing(labels.Keys), labels.Keys);
    if ks != [] { PrintedBody(ks, labels); }
  }

  lemma {:induction false} OneLabel(name: string, k: string, v: string)
    ensures CombinedName(name, map[k := v]) == name + "{" + (k + "=\"" + Escape(v) + "\"") + "}"
  {
    hide Escape, CombinedName, Less;
    var labels := map[k := v];
    CombinedNameIs(name, labels, [k]);
    var e := k + "=\"" + Escape(v) + "\"";
    assert seq(1, i requires 0 <= i < 1 => [k][i] + "=\"" + Escape(labels[[k][i]]) + "\"") == [e];
  }

  lemma {:induction false} PrintedBody(ks: seq<string>, labels: Labels)
    requires ks != [] && forall k | k in ks :: k in labels
    ensures Body(ks, labels) ==
      Join(seq(|ks|, i requires 0 <= i < |ks| => ks[i] + "=\"" + Escape(labels[ks[i]]) + "\""), ',')
  {
    hide Escape;
    var es := seq(|ks|, i requires 0 <= i < |ks| => ks[i] + "=\"" + Escape(labels[ks[i]]) + "\"");
    if |ks| > 1 {
      PrintedBody(ks[1..], labels);
      assert es[1..] == seq(|ks[1..]|, i requires 0 <= i < |ks[1..]| =>
        ks[1..][i] + "=\"" + Escape(labels[ks[1..][i]]) + "\"");
      assert "," == [','];
    }
  }

  // The code.

  datatype Label = Label(name: string, value: string)

  /** The value that the last label of a name gives it. */
  function LastWins(labels: seq<Label>): Labels {
    if labels == [] then map[]
    else LastWins(labels[..|labels| - 1])[labels[|labels| - 1].name := labels[|labels| - 1].value]
  }

  method ToMap(labels: seq<Label>) returns (result: Labels)
    ensures result == LastWins(labels)
    ensures forall k | 0 <= k < |labels| && Last(labels, k) ::
      labels[k].name in result && result[labels[k].name] == labels[k].value
  {
    result := map[];
    for i := 0 to |labels|
      invariant result == LastWins(labels[..i])
    {
      assert labels[..i + 1][..i] == labels[..i];
      result := result[labels[i].name := labels[i].value];
    }
    assert labels[..|labels|] == labels;
    forall k | 0 <= k < |labels| && Last(labels, k)
      ensures labels[k].name in result && result[labels[k].name] == labels[k].value
    {
      LastWinsIs(labels, k);
    }
  }

  /** No later label has the same name. */
  predicate Last(labels: seq<Label>, k: nat)
    requires k < |labels|
  {
    forall j | k < j < |labels| :: labels[j].name != labels[k].name
  }

  lemma {:induction false} LastWinsIs(labels: seq<Label>, k: nat)
    requires k < |labels| && Last(labels, k)
    ensures labels[k].name in LastWins(labels) && LastWins(labels)[labels[k].name] == labels[k].value
  {
    if k < |labels| - 1 { LastWinsIs(labels[..|labels| - 1], k); }
  }

  method SortStrings(keys: seq<string>) returns (r: seq<string>)
    requires forall i, j | 0 <= i < j < |keys| :: keys[i] != keys[j]
    ensures Sorted(r) && forall k :: k in r <==> k in keys
  {
    r := [];
    ghost var seen: set<string> := {};
    for n := 0 to |keys|
      invariant Lists(r, seen)
      invariant forall k :: k in seen <==> k in keys[..n]
    {
      var k := keys[n];
      var pos: nat := |r|;
      while pos > 0 && Less(k, r[pos - 1])
        invariant pos <= |r| && forall i | pos <= i < |r| :: Less(k, r[i])
      {
        pos := pos - 1;
      }
      forall i | 0 <= i < pos ensures Less(r[i], k) { BelowOrEqual(r, k, seen, i, pos); }
      InsertLists(r, seen, k, pos);
      assert keys[..n + 1] == keys[..n] + [k];
      r, seen := r[..pos] + [k] + r[pos..], seen + {k};
    }
    assert keys[..|keys|] == keys;
  }

  lemma {:induction false} BelowOrEqual(r: seq<string>, k: string, seen: set<string>, i: nat, pos: nat)
    requires Lists(r, seen) && i < pos <= |r| && k !in seen && !Less(k, r[pos - 1])
    ensures Less(r[i], k)
  {
    assert r[pos - 1] in r;
    LessTotal(k, r[pos - 1]);
    if i < pos - 1 { LessTransitive(r[i], r[pos - 1], k); }
  }

  function EntriesOf(ks: seq<string>, labels: Labels): seq<string>
    requires forall k | k in ks :: k in labels
  {
    if ks == [] then [] else [Entry(ks[0], labels[ks[0]])] + EntriesOf(ks[1..], labels)
  }

  lemma {:induction false} BodyJoins(ks: seq<string>, labels: Labels)
    requires forall k | k in ks :: k in labels
    ensures Join(EntriesOf(ks, labels), ',') == Body(ks, labels) && |EntriesOf(ks, labels)| == |ks|
  {
    if ks != [] {
      BodyJoins(ks[1..], labels);
      assert EntriesOf(ks, labels)[1..] == EntriesOf(ks[1..], labels);
    }
  }

  lemma {:induction false} EntriesMore(ks: seq<string>, labels: Labels, i: nat)
    requires (forall k | k in ks :: k in labels) && i < |ks|
    ensures EntriesOf(ks[..i + 1], labels) == EntriesOf(ks[..i], labels) + [Entry(ks[i], labels[ks[i]])]
  {
    if i == 0 {
      assert ks[..1] == [ks[0]] && ks[..0] == [] && [ks[0]][1..] == [];
    } else {
      EntriesMore(ks[1..], labels, i - 1);
      assert ks[..i + 1][1..] == ks[1..][..i] && ks[..i][1..] == ks[1..][..i - 1];
    }
  }

  /** The keys of a map in the order of its iteration. */
  method CollectKeys(labels: Labels) returns (keys: seq<string>)
    ensures forall k :: k in keys <==> k in labels
    ensures forall i, j | 0 <= i < j < |keys| :: keys[i] != keys[j]
  {
    keys := [];
    var todo := labels.Keys;
    while todo != {}
      invariant todo <= labels.Keys && forall k :: k in keys <==> k in labels.Keys - todo
      invariant forall i, j | 0 <= i < j < |keys| :: keys[i] != keys[j]
      decreases todo
    {
      var k :| k in todo;
      assert k !in keys;
      keys, todo := keys + [k], todo - {k};
    }
  }

  method PrintName(name: string, labels: Labels) returns (s: string)
    ensures s == CombinedName(name, labels)
  {
    var keys := CollectKeys(labels);
    var ks := SortStrings(keys);
    ListingUnique(ks, Listing(labels.Keys), labels.Keys);
    hide Less, Listing, EntriesOf, Body, Join;
    var labelList := PrintEntries(ks, labels);
    BodyJoins(ks, labels);
    s := name + if |labelList| > 0 then "{" + Join(labelList, ',') + "}" else "";
    assert ks != [] ==> s == name + "{" + Body(ks, labels) + "}";
  }

  method PrintEntries(ks: seq<string>, labels: Labels) returns (labelList: seq<string>)
    requires forall k | k in ks :: k in labels
    ensures labelList == EntriesOf(ks, labels)
  {
    labelList := [];
    for i := 0 to |ks|
      invariant labelList == EntriesOf(ks[..i], labels)
    {
      EntriesMore(ks, labels, i);
      labelList := labelList + [ks[i] + "=\"" + Escape(labels[ks[i]]) + "\""];
    }
    assert ks[..|ks|] == ks;
  }
}
