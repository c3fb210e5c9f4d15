/** The text form of a peer address (`metadata/connection.go`). Host texts stand for the printed IP;
    parsing an IP from its text is not part of this model. */
module RemoteAddress {
  import opened Wrappers
  import opened Text

  // strconv

  predicate IsDigit(c: char) { '0' <= c <= '9' }

  function Digit(n: nat): char
    requires n < 10
  {
    '0' + n as char
  }

  function Digits(n: nat): string {
    if n < 10 then [Digit(n)] else Digits(n / 10) + [Digit(n % 10)]
  }

  function Itoa(n: int): string {
    if n < 0 then "-" + Digits(-n) else Digits(n)
  }

  function Value(s: string): int {
    if s == [] then 0 else 10 * Value(s[..|s| - 1]) + (s[|s| - 1] as int - '0' as int)
  }

  /** Numbers beyond 64 bits are an error in the code; here they are values that the port check turns
      into the same error. */
  function Atoi(s: string): Option<int> {
    var signed := s != [] && (s[0] == '-' || s[0] == '+');
    var d := if signed then s[1..] else s;
    if d == [] || exists k | 0 <= k < |d| :: !IsDigit(d[k]) then None
    else Some(if signed && s[0] == '-' then -Value(d) else Value(d))
  }

  lemma {:induction false} DigitsValue(n: nat)
    ensures Digits(n) != [] && Value(Digits(n)) == n
    ensures forall k | 0 <= k < |Digits(n)| :: IsDigit(Digits(n)[k])
  {
    if n >= 10 {
      DigitsValue(n / 10);
      var s := Digits(n);
      assert s[..|s| - 1] == Digits(n / 10);
    } else {
      assert [Digit(n)][..0] == [];
    }
  }

  lemma AtoiItoa(n: int)
    ensures Atoi(Itoa(n)) == Some(n) && ':' !in Itoa(n)
  {
    hide Digits, Value;
    var m: nat := if n < 0 then -n else n;
    DigitsValue(m);
    assert forall c | c in Digits(m) :: IsDigit(c);
    if n < 0 { assert Itoa(n)[1..] == Digits(m); }
  }

  // The address.

  function JoinHostPort(host: string, port: string): string {
    if ':' in host then "[" + host + "]:" + port else host + ":" + port
  }

  function MarshalText(host: string, port: int): string {
    JoinHostPort(host, Itoa(port))
  }

  /** What is printed: the host, in brackets exactly if it has a colon, a colon and the port. */
  lemma PrintedIs(host: string, port: int)
    ensures ':' !in host ==> MarshalText(host, port) == host + ":" + Itoa(port)
    ensures ':' in host ==> MarshalText(host, port) == "[" + host + "]:" + Itoa(port)
  {
  }

  /** Numbers are printed in decimal. */
  lemma {:induction false} DecimalIs(n: int)
    ensures 0 <= n < 10 ==> Itoa(n) == ["0123456789"[n]]
    ensures n >= 10 ==> Itoa(n) == Itoa(n / 10) + Itoa(n % 10)
    ensures n < 0 ==> Itoa(n) == "-" + Itoa(-n)
  {
  }

  /** `Panic` is the out-of-range index or slice on a host text that is too short. */
  datatype Parsed = Address(host: string, port: int) | Invalid | Panic

  function Unbracket(ip: string, port: int): Parsed {
    if ip == "" then Panic
    else if ip[0] != '[' then Address(ip, port)
    else if |ip| == 1 then Panic
    else Address(ip[1..|ip| - 1], port)
  }

  function Parse(input: string): Parsed {
    var parts := Split(input, ':');
    var n := |parts|;
    if n < 2 then Invalid
    else
      var port := Atoi(parts[n - 1]);
      if port.None? || port.value < 0 || port.value > 65535 then Invalid
      else Unbracket(Join(parts[..n - 1], ':'), port.value)
  }

  /** Parsing looks only at the text after the last colon and the text before it. */
  lemma ParseAtLastColon(host: string, t: string)
    requires ':' !in t
    ensures Parse(host + ":" + t) ==
      var port := Atoi(t);
      if port.None? || port.value < 0 || port.value > 65535 then Invalid else Unbracket(host, port.value)
  {
    SplitConcat(host, t, ':');
    SplitPlain(t, ':');
    var parts := Split(host, ':') + [t];
    assert parts[..|parts| - 1] == Split(host, ':');
    JoinSplit(host, ':');
  }

  /** Printing and parsing give the address back exactly for a port in range and a host text that is not
      empty and, if it starts with a bracket, contains a colon. */
  lemma RoundTripIff(host: string, port: int)
    ensures Parse(MarshalText(host, port)) == Address(host, port) <==>
      0 <= port <= 65535 && host != "" && (host[0] != '[' || ':' in host)
  {
    AtoiItoa(port);
    var t := Itoa(port);
    if ':' in host {
      var h := "[" + host + "]";
      assert MarshalText(host, port) == h + ":" + t;
      ParseAtLastColon(h, t);
      assert h[1..|h| - 1] == host;
    } else {
      ParseAtLastColon(host, t);
      if host != "" && host[0] == '[' && |host| > 1 { assert |host[1..|host| - 1]| < |host|; }
    }
  }

  predicate PortText(t: string) {
    ':' !in t && Atoi(t).Some? && 0 <= Atoi(t).value <= 65535
  }

  /** Texts on which parsing panics: a valid port after an empty host or a lone bracket. */
  lemma PanicIff(input: string)
    ensures Parse(input).Panic? <==> exists t :: PortText(t) && (input == ":" + t || input == "[:" + t)
  {
    if Parse(input).Panic? { PanicNeeds(input); }
    forall t | PortText(t) && (input == ":" + t || input == "[:" + t)
      ensures Parse(input).Panic?
    {
      assert "" + ":" + t == ":" + t && "[" + ":" + t == "[:" + t;
      ParseAtLastColon("", t);
      ParseAtLastColon("[", t);
    }
  }

  lemma PanicNeeds(input: string)
    requires Parse(input).Panic?
    ensures exists t :: PortText(t) && (input == ":" + t || input == "[:" + t)
  {
    var parts := Split(input, ':');
    var n := |parts|;
    var t, ip := parts[n - 1], Join(parts[..n - 1], ':');
    SplitPieces(input, ':');
    JoinSplit(input, ':');
    JoinLast(parts, ':');
    assert ip == "" || ip == "[";
    assert "" + ":" + t == ":" + t && "[" + ":" + t == "[:" + t;
    assert PortText(t);
  }

  lemma {:induction false} JoinLast(ss: seq<string>, c: char)
    requires |ss| >= 2
    ensures Join(ss, c) == Join(ss[..|ss| - 1], c) + [c] + ss[|ss| - 1]
  {
    var n := |ss| - 1;
    if n > 1 {
      JoinLast(ss[1..], c);
      assert ss[1..][..n - 1] == ss[..n][1..];
      var mid := Join(ss[..n][1..], c);
      assert ss[0] + [c] + (mid + [c] + ss[n]) == (ss[0] + [c] + mid) + [c] + ss[n];
    } else {
      assert Join(ss[1..], c) == ss[1];
      assert Join(ss[..n], c) == ss[0];
    }
  }

  /** What a record is after `UnmarshalText`: a text that is no IP leaves it without one, and no error. */
  datatype Record<Ip> = Record(ip: Option<Ip>, port: int)

  /** Printing and parsing a record, where `show` and `parse` are those of the IP: given a text for the IP that
      is not empty and has no bracket in front, the record comes back exactly if the port is in range and
      the text is parsed to the same IP. */
  lemma RecordRoundTripIff<Ip(!new)>(r: Record<Ip>, show: Option<Ip> -> string, parse: string -> Option<Ip>)
    requires show(r.ip) != "" && (show(r.ip)[0] != '[' || ':' in show(r.ip))
    ensures (match Parse(MarshalText(show(r.ip), r.port))
             case Address(host, port) => Record(parse(host), port) == r
             case _ => false)
      <==> 0 <= r.port <= 65535 && parse(show(r.ip)) == r.ip
  {
    RoundTripIff(show(r.ip), r.port);
    if !(0 <= r.port <= 65535) { RoundTripPort(show(r.ip), r.port); }
  }

  lemma RoundTripPort(host: string, port: int)
    requires !(0 <= port <= 65535)
    ensures Parse(MarshalText(host, port)).Invalid?
  {
    AtoiItoa(port);
    var t := Itoa(port);
    if ':' in host {
      assert MarshalText(host, port) == "[" + host + "]" + ":" + t;
      ParseAtLastColon("[" + host + "]", t);
    } else {
      ParseAtLastColon(host, t);
    }
  }

  /** The record as the object that `UnmarshalText` fills in. */
  class Remote<Ip> {
    var ip: Option<Ip>
    var port: int

    constructor (ip: Option<Ip>, port: int)
      ensures this.ip == ip && this.port == port
    {
      this.ip, this.port := ip, port;
    }

    /** `None` is the panic. The fields change only on success, and then both. */
    method UnmarshalText(input: string, parseIp: string -> Option<Ip>) returns (ok: Option<bool>)
      modifies this
      ensures ok == (match Parse(input) case Address(_, _) => Some(true) case Invalid => Some(false) case Panic => None)
      ensures Parse(input).Address? ==> ip == parseIp(Parse(input).host) && port == Parse(input).port
      ensures !Parse(input).Address? ==> ip == old(ip) && port == old(port)
    {
      var parts := Split(input, ':');
      if |parts| < 2 { return Some(false); }
      var p := Atoi(parts[|parts| - 1]);
      if p.None? || p.value < 0 || p.value > 65535 { return Some(false); }
      var text := Join(parts[..|parts| - 1], ':');
      if text == "" { return None; }
      if text[0] == '[' {
        if |text| == 1 { return None; }
        text := text[1..|text| - 1];
      }
      ip, port := parseIp(text), p.value;
      return Some(true);
    }
  }
}
