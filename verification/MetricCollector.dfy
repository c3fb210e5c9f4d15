/** The values of a metric, kept in a map by printed name and in a list by order of first use
    (`internal/metrics/collector_impl.go`). Numbers are real: float64 is exact for the whole numbers
    below 2^53 that counting produces. */
module MetricCollector {
  import opened MetricLabels

  class MetricValue {
    const labels: Labels
    var value: real

    constructor (labels: Labels)
      ensures this.labels == labels && value == 0.0
    {
      this.labels, value := labels, 0.0;
    }
  }

  /** What a metric holds: printed names in order of first use, the label set each was first used with, and
      their values. */
  datatype Table = Table(printed: seq<string>, order: seq<Labels>, values: seq<real>)

  ghost predicate TableOk(name: string, t: Table) {
    && |t.order| == |t.printed| == |t.values|
    && (forall i {:trigger CombinedName(name, t.order[i])} | 0 <= i < |t.order| ::
          t.printed[i] == CombinedName(name, t.order[i]))
    && (forall i, j | 0 <= i < j < |t.printed| :: t.printed[i] != t.printed[j])
  }

  lemma TableMore(name: string, t: Table, labels: Labels, s: string)
    requires TableOk(name, t) && s == CombinedName(name, labels) && s !in t.printed
    ensures TableOk(name, Table(t.printed + [s], t.order + [labels], t.values + [0.0]))
  {
    var o, p := t.order + [labels], t.printed + [s];
    forall i | 0 <= i < |o| ensures p[i] == CombinedName(name, o[i]) {
      if i < |t.order| { assert t.printed[i] == CombinedName(name, t.order[i]); }
    }
  }

  lemma TableSet(name: string, t: Table, i: nat, v: real)
    requires TableOk(name, t) && i < |t.values|
    ensures TableOk(name, t.(values := t.values[i := v]))
  {
  }

  lemma SetTwice(m: map<string, real>, k: string, u: real, v: real)
    ensures m[k := u][k := v] == m[k := v]
  {
  }

  /** The plain map that a table stands for. */
  ghost predicate Represents(t: Table, contents: map<string, real>) {
    && |t.printed| == |t.values|
    && (forall s :: s in contents <==> s in t.printed)
    && forall i | 0 <= i < |t.printed| :: t.printed[i] in contents && contents[t.printed[i]] == t.values[i]
  }

  lemma RepresentsMore(t: Table, contents: map<string, real>, labels: Labels, s: string)
    requires Represents(t, contents) && s !in t.printed
    ensures Represents(Table(t.printed + [s], t.order + [labels], t.values + [0.0]), contents[s := 0.0])
  {
    var p := t.printed + [s];
    assert p[|t.printed|] == s;
    forall l ensures l in contents[s := 0.0] <==> l in p {
      assert l in contents <==> l in t.printed;
    }
  }

  lemma RepresentsSet(t: Table, contents: map<string, real>, i: nat, v: real)
    requires Represents(t, contents) && i < |t.printed|
    requires forall j | 0 <= j < |t.printed| && j != i :: t.printed[j] != t.printed[i]
    ensures Represents(t.(values := t.values[i := v]), contents[t.printed[i] := v])
  {
    forall l ensures l in contents[t.printed[i] := v] <==> l in t.printed {
      assert l in contents <==> l in t.printed;
    }
  }

  /** A printed name, and so a label set, occurs once in a table. */
  lemma Once(name: string, t: Table, i: nat)
    requires TableOk(name, t) && i < |t.order|
    ensures forall j | 0 <= j < |t.order| && j != i :: t.printed[j] != t.printed[i] && t.order[j] != t.order[i]
  {
    forall j | 0 <= j < |t.order| && j != i ensures t.printed[j] != t.printed[i] && t.order[j] != t.order[i] {
      assert t.printed[j] == CombinedName(name, t.order[j]) && t.printed[i] == CombinedName(name, t.order[i]);
    }
  }

  /** The value under a printed name, zero if there is none yet. */
  function At(m: map<string, real>, k: string): real { if k in m then m[k] else 0.0 }

  /** Writing the value of one label set leaves another alone exactly if they are different sets, as long as
      no label name contains `="`. */
  lemma SeparateIff(name: string, contents: map<string, real>, p: Labels, q: Labels, v: real)
    requires Plain(p) && Plain(q) && At(contents, CombinedName(name, q)) != v
    ensures
      At(contents[CombinedName(name, p) := v], CombinedName(name, q)) == At(contents, CombinedName(name, q)) <==> p != q
  {
    CombinedNameIff(name, p, q);
  }

  // By label sets.

  ghost predicate AllPlain(t: Table) { forall i | 0 <= i < |t.order| :: Plain(t.order[i]) }

  /** The value of each label set in use. */
  ghost function ByLabels(name: string, t: Table, contents: map<string, real>): map<Labels, real> {
    map l | l in t.order :: At(contents, CombinedName(name, l))
  }

  /** With plain names a label set is in use exactly if its printed name is. */
  lemma PlainKnown(name: string, t: Table, contents: map<string, real>, labels: Labels)
    requires TableOk(name, t) && Represents(t, contents) && AllPlain(t) && Plain(labels)
    ensures labels in t.order <==> CombinedName(name, labels) in contents
  {
    hide CombinedName, Plain;
    var s := CombinedName(name, labels);
    if labels in t.order {
      var i :| 0 <= i < |t.order| && t.order[i] == labels;
      assert t.printed[i] == s;
    }
    if s in contents {
      assert s in t.printed;
      var i :| 0 <= i < |t.printed| && t.printed[i] == s;
      assert t.printed[i] == CombinedName(name, t.order[i]);
      CombinedNameIff(name, t.order[i], labels);
    }
  }

  lemma ByLabelsIs(name: string, t: Table, contents: map<string, real>)
    ensures forall l :: l in ByLabels(name, t, contents) <==> l in t.order
    ensures forall l | l in t.order :: ByLabels(name, t, contents)[l] == At(contents, CombinedName(name, l))
  {
  }

  /** What a write under a printed name is for the label sets. */
  lemma PlainSet(name: string, t: Table, contents: map<string, real>, t': Table, labels: Labels, v: real)
    requires TableOk(name, t) && Represents(t, contents) && AllPlain(t) && Plain(labels)
    requires t'.order == if CombinedName(name, labels) in contents then t.order else t.order + [labels]
    ensures AllPlain(t')
    ensures ByLabels(name, t', contents[CombinedName(name, labels) := v]) == ByLabels(name, t, contents)[labels := v]
  {
    hide CombinedName, Plain, ByLabels, TableOk, Represents;
    var s := CombinedName(name, labels);
    PlainKnown(name, t, contents, labels);
    ByLabelsIs(name, t, contents);
    ByLabelsIs(name, t', contents[s := v]);
    OrderMore(t.order, labels, s in contents);
    var m, m' := ByLabels(name, t, contents), ByLabels(name, t', contents[s := v]);
    forall l | l in m && l != labels ensures m'[l] == m[l] { PlainOther(name, t, contents, labels, l, v); }
    assert m'.Keys == m.Keys + {labels};
  }

  lemma PlainOther(name: string, t: Table, contents: map<string, real>, labels: Labels, l: Labels, v: real)
    requires AllPlain(t) && Plain(labels) && l in t.order && l != labels
    ensures At(contents[CombinedName(name, labels) := v], CombinedName(name, l)) == At(contents, CombinedName(name, l))
  {
    hide CombinedName, Plain;
    var i :| 0 <= i < |t.order| && t.order[i] == l;
    CombinedNameIff(name, l, labels);
  }

  lemma OrderMore(order: seq<Labels>, labels: Labels, known: bool)
    requires known ==> labels in order
    ensures forall l :: l in (if known then order else order + [labels]) <==> l in order || l == labels
  {
  }

  /** The values of one metric. Map and list hold the same objects, so a change through one is seen
      through the other. `contents` is by printed name. */
  class Family {
    const name: string
    var valueMap: map<string, MetricValue>
    var list: seq<MetricValue>
    ghost var table: Table
    ghost var contents: map<string, real>

    constructor (name: string)
      ensures this.name == name && Valid() && contents == map[] && list == []
    {
      this.name, valueMap, list, table, contents := name, map[], [], Table([], [], []), map[];
    }

    ghost predicate Coupled()
      reads this, list
    {
      && |table.order| == |table.printed| == |table.values| == |list|
      && (forall s | s in valueMap :: s in table.printed)
      && forall i | 0 <= i < |list| ::
           && list[i].labels == table.order[i] && list[i].value == table.values[i]
           && table.printed[i] in valueMap && valueMap[table.printed[i]] == list[i]
    }

    ghost predicate Valid()
      reads this, list
    {
      Coupled() && TableOk(name, table) && Represents(table, contents)
    }

    /** The values by label set. */
    ghost function Values(): map<Labels, real>
      reads this
    {
      ByLabels(name, table, contents)
    }

    /** `i` is where the value that is printed like `labels` is in the list. */
    method GetValueStruct(labels: Labels) returns (c: MetricValue, ghost i: nat)
      requires Valid()
      modifies this
      ensures Valid() && i < |list| && c == list[i] && table.printed[i] == CombinedName(name, labels)
      ensures old(list) <= list && forall d | d in list && d !in old(list) :: fresh(d)
      ensures var s := CombinedName(name, labels);
        if s in old(contents) then contents == old(contents) && table == old(table)
        else contents == old(contents)[s := 0.0] && table.order == old(table.order) + [labels]
    {
      hide CombinedName;
      var s := PrintName(name, labels);
      if s in valueMap {
        c := valueMap[s];
        i :| 0 <= i < |table.printed| && table.printed[i] == s;
      } else {
        assert s !in table.printed;
        TableMore(name, table, labels, s);
        RepresentsMore(table, contents, labels, s);
        c := Add(labels, s);
        i := |list| - 1;
      }
    }

    method Add(labels: Labels, s: string) returns (c: MetricValue)
      requires Coupled() && s !in table.printed
      modifies this
      ensures Coupled() && fresh(c) && list == old(list) + [c]
      ensures table == Table(old(table.printed) + [s], old(table.order) + [labels], old(table.values) + [0.0])
      ensures contents == old(contents)[s := 0.0]
    {
      c := new MetricValue(labels);
      valueMap := valueMap[s := c];
      list := list + [c];
      contents := contents[s := 0.0];
      table := Table(table.printed + [s], table.order + [labels], table.values + [0.0]);
      forall i | 0 <= i < |list|
        ensures
          && list[i].labels == table.order[i] && list[i].value == table.values[i]
          && table.printed[i] in valueMap && valueMap[table.printed[i]] == list[i]
      {
        if i < |old(list)| { assert list[i] == old(list)[i] && table.printed[i] == old(table).printed[i]; }
      }
      assert table.printed[|list| - 1] == s;
    }

    method Get(labels: Labels) returns (v: real)
      requires Valid()
      modifies this
      ensures Valid() && old(list) <= list && forall d | d in list && d !in old(list) :: fresh(d)
      ensures v == At(old(contents), CombinedName(name, labels))
      ensures contents == old(contents)[CombinedName(name, labels) := v]
      ensures AllPlain(old(table)) && Plain(labels) ==>
        && AllPlain(table) && Values() == old(Values())[labels := v]
        && v == if labels in old(Values()) then old(Values())[labels] else 0.0
    {
      hide TableOk, CombinedName, Plain;
      var c, i := GetValueStruct(labels);
      v := c.value;
      if AllPlain(old(table)) && Plain(labels) {
        PlainKnown(name, old(table), old(contents), labels);
        PlainSet(name, old(table), old(contents), table, labels, v);
      }
    }

    method Put(c: MetricValue, ghost i: nat, v: real)
      requires Coupled() && i < |list| && c == list[i]
      requires forall j | 0 <= j < |list| && j != i :: table.order[j] != table.order[i]
      modifies this`table, c
      ensures Coupled() && table == old(table).(values := old(table).values[i := v])
    {
      c.value := v;
      table := table.(values := table.values[i := v]);
    }

    method Set(labels: Labels, v: real)
      requires Valid()
      modifies this, set d | d in list
      ensures Valid() && old(list) <= list && forall d | d in list && d !in old(list) :: fresh(d)
      ensures contents == old(contents)[CombinedName(name, labels) := v]
      ensures table.order == old(table.order) ||
        (CombinedName(name, labels) !in old(contents) && table.order == old(table.order) + [labels])
      ensures AllPlain(old(table)) && Plain(labels) ==> AllPlain(table) && Values() == old(Values())[labels := v]
    {
      hide Represents, CombinedName, Coupled, Plain;
      var c, i := GetValueStruct(labels);
      assert c in list;
      Write(c, i, v);
      SetTwice(old(contents), CombinedName(name, labels), 0.0, v);
      if AllPlain(old(table)) && Plain(labels) {
        PlainSet(name, old(table), old(contents), table, labels, v);
      }
    }

    method Write(c: MetricValue, ghost i: nat, v: real)
      requires Valid() && i < |list| && c == list[i]
      modifies this`table, this`contents, c
      ensures Valid() && contents == old(contents)[old(table).printed[i] := v] && table.order == old(table).order
    {
      hide TableOk, Represents, CombinedName;
      Once(name, table, i);
      RepresentsSet(table, contents, i, v);
      TableSet(name, table, i, v);
      Put(c, i, v);
      contents := contents[table.printed[i] := v];
    }

    /** All values, each with the label set it was first used with, in order of first use. */
    method GetMetric() returns (labels: seq<Labels>, values: seq<real>)
      requires Valid()
      ensures labels == table.order && values == table.values
      ensures Represents(Table(table.printed, labels, values), contents)
      ensures forall i | 0 <= i < |labels| :: At(contents, CombinedName(name, labels[i])) == values[i]
      ensures forall i, j | 0 <= i < j < |labels| :: labels[i] != labels[j]
      ensures forall l :: l in Values() <==> l in labels
      ensures forall i | 0 <= i < |labels| :: Values()[labels[i]] == values[i]
    {
      labels, values := [], [];
      for i := 0 to |list|
        invariant labels == table.order[..i] && values == table.values[..i]
      {
        labels, values := labels + [list[i].labels], values + [list[i].value];
      }
      forall i | 0 <= i < |labels| ensures At(contents, CombinedName(name, labels[i])) == values[i] {
        assert table.printed[i] == CombinedName(name, table.order[i]);
      }
    }
  }
}
