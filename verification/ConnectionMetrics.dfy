/** Metrics by country and the connection metrics kept with them (`internal/metrics/countergeo.go`,
    `internal/metrics/gaugegeo.go`, `internal/metricsintegration/handler.go`). The GeoIP lookup is a
    function from address to country. */
module ConnectionMetrics {
  import opened MetricLabels
  import opened MetricCollector

  type Ip = string
  type Lookup = Ip -> string

  /** The labels of a call with the country added; "country" is reserved, so nothing is overwritten
      when the labels come from `Label`. */
  function WithCountry(labels: seq<Label>, country: string): Labels {
    LastWins(labels)["country" := country]
  }

  /** Adds `amount` to the value for the labels and the country; both `IncrementBy` and, with the sign
      changed, `DecrementBy`. */
  method AddBy(f: Family, lookup: Lookup, ip: Ip, amount: real, labels: seq<Label>)
    requires f.Valid()
    modifies f, set d | d in f.list
    ensures f.Valid() && old(f.list) <= f.list && forall d | d in f.list && d !in old(f.list) :: fresh(d)
    ensures var k := CombinedName(f.name, WithCountry(labels, lookup(ip)));
            f.contents == old(f.contents)[k := At(old(f.contents), k) + amount]
  {
    hide Family.Valid, CombinedName;
    var m := ToMap(labels);
    var withCountry := m["country" := lookup(ip)];
    var value := f.Get(withCountry);
    SetTwice(old(f.contents), CombinedName(f.name, withCountry), value, value + amount);
    assert forall d | d in f.list :: d in old(f.list) || fresh(d);
    f.Set(withCountry, value + amount);
  }

  /** `IncrementBy` of a counter refuses a negative amount. */
  method CounterIncrementBy(f: Family, lookup: Lookup, ip: Ip, amount: real, labels: seq<Label>) returns (ok: bool)
    requires f.Valid()
    modifies f, set d | d in f.list
    ensures f.Valid() && old(f.list) <= f.list && forall d | d in f.list && d !in old(f.list) :: fresh(d)
    ensures ok <==> amount >= 0.0
    ensures var k := CombinedName(f.name, WithCountry(labels, lookup(ip)));
            f.contents == if ok then old(f.contents)[k := At(old(f.contents), k) + amount] else old(f.contents)
    ensures forall k :: At(f.contents, k) >= At(old(f.contents), k)
  {
    hide Family.Valid, CombinedName;
    ok := amount >= 0.0;
    if ok { AddBy(f, lookup, ip, amount, labels); }
  }

  // Connections.

  datatype Session = Session(country: string, connected: bool)

  function Opened(s: seq<Session>, c: string): nat {
    if s == [] then 0 else Opened(s[..|s| - 1], c) + if s[|s| - 1].country == c then 1 else 0
  }

  function Current(s: seq<Session>, c: string): nat {
    if s == [] then 0 else Current(s[..|s| - 1], c) + if s[|s| - 1] == Session(c, true) then 1 else 0
  }

  function Ended(s: seq<Session>, c: string): nat {
    if s == [] then 0 else Ended(s[..|s| - 1], c) + if s[|s| - 1] == Session(c, false) then 1 else 0
  }

  /** Connections are conserved: those opened are those still there and those that have ended. */
  lemma {:induction false} Conserved(s: seq<Session>, c: string)
    ensures Opened(s, c) == Current(s, c) + Ended(s, c)
  {
    if s != [] { Conserved(s[..|s| - 1], c); }
  }

  lemma {:induction false} EndOne(s: seq<Session>, i: nat, c: string)
    requires i < |s| && s[i].connected
    ensures var s' := s[i := Session(s[i].country, false)];
            Opened(s', c) == Opened(s, c) && Current(s', c) == Current(s, c) - if s[i].country == c then 1 else 0
  {
    var s' := s[i := Session(s[i].country, false)];
    var n := |s| - 1;
    if i == n {
      assert s'[..n] == s[..n];
    } else {
      EndOne(s[..n], i, c);
      assert s'[..n] == s[..n][i := Session(s[i].country, false)];
    }
  }

  const TOTAL := "containerssh_ssh_connections_total"
  const NOW := "containerssh_ssh_current_connections"

  /** The printed name of a metric for a country. */
  ghost function ByCountry(metric: string, c: string): string {
    CombinedName(metric, WithCountry([], c))
  }

  /** The name under which a country is counted. */
  lemma {:induction false} ByCountryIs(metric: string, c: string)
    ensures ByCountry(metric, c) == metric + "{" + ("country" + "=\"" + Escape(c) + "\"") + "}"
  {
    hide CombinedName, Escape;
    assert WithCountry([], c) == map["country" := c];
    OneLabel(metric, "country", c);
  }

  lemma CountryInjective(metric: string, c: string, d: string)
    ensures ByCountry(metric, c) == ByCountry(metric, d) <==> c == d
  {
    var p, q := WithCountry([], c), WithCountry([], d);
    assert Plain(p) && Plain(q) by { WithoutEquals("country"); }
    hide CombinedName;
    CombinedNameIff(metric, p, q);
    assert p["country"] == c && q["country"] == d;
  }

  /** The two metrics say what the sessions say, for every country. */
  ghost predicate Counts(total: map<string, real>, now: map<string, real>, s: seq<Session>) {
    forall c {:trigger Opened(s, c)} ::
      At(total, ByCountry(TOTAL, c)) == Opened(s, c) as real && At(now, ByCountry(NOW, c)) == Current(s, c) as real
  }

  function Plus(m: map<string, real>, k: string, amount: real): map<string, real> { m[k := At(m, k) + amount] }

  lemma CountsOpen(total: map<string, real>, now: map<string, real>, s: seq<Session>, c: string)
    requires Counts(total, now, s)
    ensures Counts(Plus(total, ByCountry(TOTAL, c), 1.0), Plus(now, ByCountry(NOW, c), 1.0), s + [Session(c, true)])
  {
    hide ByCountry;
    var s' := s + [Session(c, true)];
    assert s'[..|s|] == s;
    var t', n' := Plus(total, ByCountry(TOTAL, c), 1.0), Plus(now, ByCountry(NOW, c), 1.0);
    forall d
      ensures At(t', ByCountry(TOTAL, d)) == Opened(s', d) as real
        && At(n', ByCountry(NOW, d)) == Current(s', d) as real
    {
      assert Opened(s, d) >= 0;
      CountryInjective(TOTAL, c, d);
      CountryInjective(NOW, c, d);
    }
  }

  lemma CountsEnd(total: map<string, real>, now: map<string, real>, s: seq<Session>, i: nat)
    requires Counts(total, now, s) && i < |s| && s[i].connected
    ensures var c := s[i].country;
            Counts(total, Plus(now, ByCountry(NOW, c), -1.0), s[i := Session(c, false)])
  {
    hide ByCountry;
    var c := s[i].country;
    var s', n' := s[i := Session(c, false)], Plus(now, ByCountry(NOW, c), -1.0);
    forall d
      ensures At(total, ByCountry(TOTAL, d)) == Opened(s', d) as real
        && At(n', ByCountry(NOW, d)) == Current(s', d) as real
    {
      assert Opened(s, d) >= 0;
      CountryInjective(NOW, c, d);
      EndOne(s, i, d);
    }
  }

  class NetworkHandler {
    const ip: Ip
    var disconnected: bool

    constructor (ip: Ip)
      ensures this.ip == ip && !disconnected
    {
      this.ip, disconnected := ip, false;
    }
  }

  class MetricsHandler {
    const lookup: Lookup
    const total: Family      // connections ever
    const current: Family    // connections now
    var handlers: seq<NetworkHandler>
    ghost var sessions: seq<Session>

    constructor (lookup: Lookup)
      ensures Valid() && sessions == []
    {
      var t := new Family(TOTAL);
      var n := new Family(NOW);
      this.lookup, total, current, handlers, sessions := lookup, t, n, [], [];
    }

    ghost predicate Tracks()
      reads this, handlers
    {
      && |sessions| == |handlers|
      && (forall i | 0 <= i < |handlers| :: sessions[i] == Session(lookup(handlers[i].ip), !handlers[i].disconnected))
      && (forall i, j | 0 <= i < j < |handlers| :: handlers[i] != handlers[j])
    }

    ghost predicate Valid()
      reads this, total, current, total.list, current.list, handlers
    {
      && total != current && total.Valid() && current.Valid() && total.name == TOTAL && current.name == NOW
      && (forall c | c in total.list :: c !in current.list)
      && Tracks()
      && Counts(total.contents, current.contents, sessions)
    }

    method Track(ip: Ip) returns (h: NetworkHandler)
      requires Tracks()
      modifies this
      ensures Tracks() && fresh(h)
      ensures sessions == old(sessions) + [Session(lookup(ip), true)] && handlers == old(handlers) + [h]
    {
      h := new NetworkHandler(ip);
      handlers, sessions := handlers + [h], sessions + [Session(lookup(ip), true)];
    }

    /** `accepted` is whether the backend took the connection. */
    method OnNetworkConnection(ip: Ip, accepted: bool) returns (h: NetworkHandler?)
      requires Valid()
      modifies this, total, current, (set d | d in total.list), (set d | d in current.list)
      ensures Valid() && (h != null <==> accepted)
      ensures sessions == if accepted then old(sessions) + [Session(lookup(ip), true)] else old(sessions)
      ensures handlers == if h != null then old(handlers) + [h] else old(handlers)
    {
      hide Family.Valid, Tracks, Counts, CombinedName;
      if !accepted { return null; }
      CountsOpen(total.contents, current.contents, sessions, lookup(ip));
      var ok := CounterIncrementBy(total, lookup, ip, 1.0, []);
      AddBy(current, lookup, ip, 1.0, []);
      h := Track(ip);
    }

    /** A second call changes nothing. */
    method OnDisconnect(h: NetworkHandler, ghost i: nat)
      requires Valid() && i < |handlers| && h == handlers[i]
      modifies this, current, (set d | d in current.list), h
      ensures Valid() && handlers == old(handlers)
      ensures sessions == old(sessions)[i := Session(old(sessions)[i].country, false)]
      ensures old(h.disconnected) ==> sessions == old(sessions) && current.contents == old(current.contents)
    {
      hide Family.Valid, CombinedName;
      if !h.disconnected {
        CountsEnd(total.contents, current.contents, sessions, i);
        AddBy(current, lookup, h.ip, -1.0, []);
        h.disconnected := true;
        sessions := sessions[i := Session(sessions[i].country, false)];
      }
    }

    /** In every reachable state the gauge of a country is the counter less the ended connections, and
        so never negative. */
    lemma {:induction false} GaugeConserves(c: string)
      requires Valid()
      ensures At(current.contents, ByCountry(NOW, c)) ==
        At(total.contents, ByCountry(TOTAL, c)) - Ended(sessions, c) as real
      ensures 0.0 <= At(current.contents, ByCountry(NOW, c)) <= At(total.contents, ByCountry(TOTAL, c))
      ensures At(total.contents, ByCountry(TOTAL, c)) == Opened(sessions, c) as real
    {
      hide ByCountry;
      Conserved(sessions, c);
    }
  }
}
