/** Which OAuth2 scopes are requested from GitHub and which granted ones are accepted
    (`internal/auth/oauth2_github.go`, `internal/auth/oauth2_github_flow.go`). */
module GithubScopes {
  import opened Text

  datatype Provider = Provider(scopes: seq<string>, enforceScopes: bool, requiredOrg: string, require2FA: bool)

  predicate HasOrg(scopes: seq<string>) { "org" in scopes || "read:org" in scopes }
  predicate HasUser(scopes: seq<string>) { "user" in scopes || "read:user" in scopes }

  /** The scopes asked for: the configured ones, and read access where the configuration needs it. */
  function Requested(p: Provider): seq<string> {
    var a := if p.requiredOrg != "" && !HasOrg(p.scopes) then p.scopes + ["read:org"] else p.scopes;
    if p.require2FA && !HasUser(a) then a + ["read:user"] else a
  }

  /** A required scope is met by itself or by the part before its first colon. */
  predicate Met(required: string, granted: seq<string>) {
    required in granted || (':' in required && Split(required, ':')[0] in granted)
  }

  predicate Accepts(p: Provider, granted: seq<string>) {
    && (p.enforceScopes ==> forall k | 0 <= k < |p.scopes| :: Met(p.scopes[k], granted))
    && (p.requiredOrg != "" ==> HasOrg(granted))
  }

  lemma {:induction false} PartsOfColon(s: string)
    ensures |Split(s, ':')| > 1 <==> ':' in s
  {
    if s != [] {
      PartsOfColon(s[1..]);
      assert s == [s[0]] + s[1..];
    }
  }

  /** The part before the first colon. */
  lemma {:induction false} BeforeColon(s: string, a: string, b: string)
    requires s == a + ":" + b && ':' !in a
    ensures ':' in s && Split(s, ':')[0] == a
  {
    SplitConcat(a, b, ':');
    SplitPlain(a, ':');
    assert (a + ":" + b)[|a|] == ':';
  }

  lemma {:induction false} AtColon(s: string) returns (a: string, b: string)
    requires ':' in s
    ensures s == a + ":" + b && ':' !in a
  {
    if s[0] == ':' {
      a, b := "", s[1..];
      assert s == a + ":" + b;
    } else {
      assert s == [s[0]] + s[1..];
      a, b := AtColon(s[1..]);
      assert s == ([s[0]] + a) + ":" + b;
      a := [s[0]] + a;
    }
  }

  /** What is accepted: if scopes are enforced, every one of them was granted itself or as the part before its
      colon; and if membership of an organisation is required, "org" or "read:org" was granted. */
  lemma AcceptsIff(p: Provider, granted: seq<string>)
    ensures Accepts(p, granted) <==>
      && (p.enforceScopes ==> forall s | s in p.scopes ::
            s in granted || exists a, b :: s == a + ":" + b && ':' !in a && a in granted)
      && (p.requiredOrg != "" ==> "org" in granted || "read:org" in granted)
  {
    forall s | s in p.scopes
      ensures Met(s, granted) <==> s in granted || exists a, b :: s == a + ":" + b && ':' !in a && a in granted
    {
      if ':' in s {
        var a, b := AtColon(s);
        BeforeColon(s, a, b);
      }
      forall a, b | s == a + ":" + b && ':' !in a ensures ':' in s && Split(s, ':')[0] == a { BeforeColon(s, a, b); }
    }
    hide Met, Split;
  }

  /** Nothing configured is dropped, what the checks need is asked for, and nothing else is. */
  lemma RequestedIff(p: Provider, s: string)
    ensures s in Requested(p) <==>
      || s in p.scopes
      || (s == "read:org" && p.requiredOrg != "" && !HasOrg(p.scopes))
      || (s == "read:user" && p.require2FA && !HasUser(p.scopes))
    ensures p.scopes <= Requested(p)
    ensures p.requiredOrg != "" ==> HasOrg(Requested(p))
    ensures p.require2FA ==> HasUser(Requested(p))
  {
  }

  method GetScope(p: Provider) returns (scope: string)
    ensures scope == Join(Requested(p), ',')
  {
    var scopes := p.scopes;
    if p.requiredOrg != "" {
      var found := false;
      var k := 0;
      while k < |scopes|
        invariant k <= |scopes|
        invariant found <==> HasOrg(scopes[..k])
      {
        assert scopes[..k + 1] == scopes[..k] + [scopes[k]];
        if scopes[k] == "org" || scopes[k] == "read:org" {
          found := true;
          assert scopes[k] in scopes;
          break;
        }
        k := k + 1;
      }
      assert found || scopes[..k] == scopes;
      if !found { scopes := scopes + ["read:org"]; }
    }
    if p.require2FA {
      var found := false;
      var k := 0;
      while k < |scopes|
        invariant k <= |scopes|
        invariant found <==> HasUser(scopes[..k])
      {
        assert scopes[..k + 1] == scopes[..k] + [scopes[k]];
        if scopes[k] == "user" || scopes[k] == "read:user" {
          found := true;
          assert scopes[k] in scopes;
          break;
        }
        k := k + 1;
      }
      assert found || scopes[..k] == scopes;
      if !found { scopes := scopes + ["read:user"]; }
    }
    scope := Join(scopes, ',');
  }

  method CheckGrantedScopes(p: Provider, scope: string) returns (ok: bool)
    ensures ok <==> Accepts(p, Split(scope, ','))
  {
    var granted := Split(scope, ',');
    if p.enforceScopes {
      for k := 0 to |p.scopes|
        invariant forall j | 0 <= j < k :: Met(p.scopes[j], granted)
      {
        var required := p.scopes[k];
        var parts := Split(required, ':');
        PartsOfColon(required);
        var isGranted := false;
        var m := 0;
        while m < |granted|
          invariant m <= |granted|
          invariant isGranted ==> Met(required, granted)
          invariant !isGranted ==> !Met(required, granted[..m])
        {
          assert granted[..m + 1] == granted[..m] + [granted[m]];
          if granted[m] == required || (|parts| > 1 && parts[0] == granted[m]) {
            isGranted := true;
            break;
          }
          m := m + 1;
        }
        assert isGranted || granted[..m] == granted;
        if !isGranted { return false; }
      }
    }
    if p.requiredOrg != "" {
      var m := 0;
      while m < |granted|
        invariant m <= |granted|
        invariant !HasOrg(granted[..m])
      {
        assert granted[..m + 1] == granted[..m] + [granted[m]];
        if granted[m] == "org" || granted[m] == "read:org" { return true; }
        m := m + 1;
      }
      assert granted[..m] == granted;
      return false;
    }
    return true;
  }

  /** What comes back when GitHub grants exactly what was asked. */
  function Echoed(p: Provider): seq<string> { Split(Join(Requested(p), ','), ',') }

  lemma EchoedPieces(p: Provider)
    ensures Echoed(p) == if Requested(p) == [] then [""] else Pieces(Requested(p), ',')
    ensures forall s | s in Echoed(p) :: ',' !in s
    ensures forall s | s in Requested(p) && ',' !in s :: s in Echoed(p)
  {
    var r := Requested(p);
    if r != [] { SplitJoin(r, ','); }
    SplitPieces(Join(r, ','), ',');
    forall s | s in r && ',' !in s ensures s in Echoed(p) {
      var k :| 0 <= k < |r| && r[k] == s;
      PieceOfPart(r, ',', k);
    }
  }

  /** `t` stands between two commas of a requested scope, or at an end of one. */
  ghost predicate PartOfRequest(p: Provider, t: string) {
    exists k :: 0 <= k < |Requested(p)| && t in Split(Requested(p)[k], ',')
  }

  /** The scope survives being sent and split at commas: it has none, or its part before the colon has none
      and is, by itself, part of some requested scope. */
  ghost predicate Survives(p: Provider, s: string) {
    ',' !in s || (':' in s && PartOfRequest(p, Split(s, ':')[0]))
  }

  /** Granting what was asked passes exactly if every enforced scope survives the commas. In particular it
      passes whenever no configured scope contains a comma. */
  lemma EchoAcceptedIff(p: Provider)
    ensures Accepts(p, Echoed(p)) <==> (p.enforceScopes ==> forall k | 0 <= k < |p.scopes| :: Survives(p, p.scopes[k]))
    ensures (forall s | s in p.scopes :: ',' !in s) ==> Accepts(p, Echoed(p))
  {
    hide Requested, Echoed, Split;
    EchoedPieces(p);
    RequestedHas(p);
    forall k | 0 <= k < |p.scopes| ensures Met(p.scopes[k], Echoed(p)) <==> Survives(p, p.scopes[k]) {
      MetIff(p, p.scopes[k]);
    }
  }

  lemma RequestedHas(p: Provider)
    ensures forall s | s in p.scopes :: s in Requested(p)
    ensures p.requiredOrg != "" ==> HasOrg(Echoed(p))
  {
    hide Echoed;
    if p.requiredOrg != "" {
      RequestedIff(p, "org");
      RequestedIff(p, "read:org");
      EchoedPieces(p);
      assert ',' !in "org" && ',' !in "read:org";
    }
  }

  /** An enforced scope is met by what comes back exactly if it survives. */
  lemma MetIff(p: Provider, s: string)
    requires s in p.scopes
    ensures Met(s, Echoed(p)) <==> Survives(p, s)
  {
    RequestedHas(p);
    EchoedPieces(p);
    PieceIff(Requested(p), ',', Split(s, ':')[0]);
    hide Requested, Echoed, Split, Pieces;
  }

  /** More granted scopes never turn acceptance into refusal. */
  lemma MoreIsAccepted(p: Provider, granted: seq<string>, more: seq<string>)
    requires Accepts(p, granted) && forall s | s in granted :: s in more
    ensures Accepts(p, more)
  {
    forall k | p.enforceScopes && 0 <= k < |p.scopes| ensures Met(p.scopes[k], more) {
      assert Met(p.scopes[k], granted);
    }
  }

  /** Some input with a comma in an enforced scope is refused although it was granted as asked. */
  lemma CommaRefused()
    ensures !Accepts(Provider(["a,b"], true, "", false), Echoed(Provider(["a,b"], true, "", false)))
  {
    var p := Provider(["a,b"], true, "", false);
    assert p.scopes[0] == "a,b" && "a,b"[1] == ',';
    assert ':' !in "a,b";
    EchoAcceptedIff(p);
  }
}
