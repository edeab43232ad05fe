/** The endpoint parser of client/endpoint.go and the text the client dials. */
module Endpoint {
  import opened Wrappers

  datatype Endpoint = Endpoint(host: string, port: int)

  /** What the parser needs of the application's configuration, with the host
      language's lower-casing of text. */
  datatype Settings = Settings(scheme: string, defaultPort: int, lower: string -> string)

  // --- string primitives ---

  predicate IsSpace(c: char) {
    c in {'\t', '\n', '\U{0B}', '\U{0C}', '\r', ' ', '\U{85}', '\U{A0}', '\U{1680}',
          '\U{2028}', '\U{2029}', '\U{202F}', '\U{205F}', '\U{3000}'}
    || '\U{2000}' <= c <= '\U{200A}'
  }

  function TrimLeft(s: string): string {
    if s != "" && IsSpace(s[0]) then TrimLeft(s[1..]) else s
  }

  function TrimRight(s: string): string {
    if s != "" && IsSpace(s[|s| - 1]) then TrimRight(s[..|s| - 1]) else s
  }

  function TrimSpace(s: string): string { TrimRight(TrimLeft(s)) }

  /** The first position of `sub`, if it occurs. */
  function Index(s: string, sub: string): (r: Option<nat>)
    ensures r.Some? ==> r.value + |sub| <= |s| && s[r.value..r.value + |sub|] == sub
    ensures r.Some? ==> forall i :: 0 <= i < r.value ==> !(sub <= s[i..])
    ensures r.None? ==> forall i :: 0 <= i <= |s| ==> !(sub <= s[i..])
  {
    if sub <= s then Some(0)
    else if s == "" then None
    else
      var r := Index(s[1..], sub);
      assert forall i :: 0 < i <= |s| ==> s[i..] == s[1..][i - 1..];
      if r.None? then None else Some(r.value + 1)
  }

  function IndexChar(s: string, c: char): (r: Option<nat>)
    ensures r.Some? ==> r.value < |s| && s[r.value] == c && c !in s[..r.value]
    ensures r.None? ==> c !in s
  {
    if s == "" then None
    else if s[0] == c then Some(0)
    else
      var r := IndexChar(s[1..], c);
      if r.None? then None else Some(r.value + 1)
  }

  function LastIndexChar(s: string, c: char): (r: Option<nat>)
    ensures r.Some? ==> r.value < |s| && s[r.value] == c && c !in s[r.value + 1..]
    ensures r.None? ==> c !in s
  {
    if s == "" then None
    else if s[|s| - 1] == c then Some(|s| - 1)
    else LastIndexChar(s[..|s| - 1], c)
  }

  predicate IsDigit(c: char) { '0' <= c <= '9' }

  predicate IsAllDigits(s: string) { s != "" && forall c | c in s :: IsDigit(c) }

  function Digit(c: char): nat
    requires IsDigit(c)
  {
    c as int - '0' as int
  }

  function Decimal(s: string): nat
    requires forall c | c in s :: IsDigit(c)
  {
    if s == "" then 0 else 10 * Decimal(s[..|s| - 1]) + Digit(s[|s| - 1])
  }

  /** Signed decimal text in the range of a 64-bit int. */
  function Atoi(s: string): Option<int> {
    var digits := if s != "" && (s[0] == '+' || s[0] == '-') then s[1..] else s;
    if !IsAllDigits(digits) then None
    else
      var d: int := Decimal(digits);
      var n := if s[0] == '-' then -d else d;
      if -0x8000_0000_0000_0000 <= n < 0x8000_0000_0000_0000 then Some(n) else None
  }

  function Itoa(n: nat): string {
    (if n < 10 then "" else Itoa(n / 10)) + [(n % 10 + '0' as int) as char]
  }

  // --- the parser ---

  /** Any failure is the one class of error the source uses here. */
  datatype Invalid = Invalid

  function ParsePort(port: string): Result<int, Invalid> {
    var value := Atoi(port);
    if value.None? || value.value < 0 || value.value > 65535 || !IsAllDigits(port) then Err(Invalid)
    else Ok(value.value)
  }

  /** host[:port], with -1 for a missing port. */
  function SplitHostPort(s: string): Result<(string, int), Invalid> {
    if s == "" then Err(Invalid)
    else if s[0] == '[' then
      var inner := s[1..];
      var close := IndexChar(inner, ']');
      if close.None? then Err(Invalid)
      else
        var h, tail := inner[..close.value], inner[close.value + 1..];
        if h == "" then Err(Invalid)
        else if tail == "" then Ok((h, -1))
        else if tail[0] != ':' then Err(Invalid)
        else
          match ParsePort(tail[1..])
          case Err(e) => Err(e)
          case Ok(p) => Ok((h, p))
    else
      var colon := LastIndexChar(s, ':');
      if colon.None? then Ok((s, -1))
      else
        var head := s[..colon.value];
        if ':' in head then Ok((s, -1))
        else if head == "" then Err(Invalid)
        else
          match ParsePort(s[colon.value + 1..])
          case Err(e) => Err(e)
          case Ok(p) => Ok((head, p))
  }

  function TrimSlash(s: string): string {
    if s != "" && s[|s| - 1] == '/' then s[..|s| - 1] else s
  }

  function ParseEndpoint(text: string, cfg: Settings): Result<Endpoint, Invalid> {
    var text := TrimSpace(text);
    var sep := Index(text, "://");
    if sep.Some? then ParseUrl(cfg.lower(text[..sep.value]), text[sep.value + 3..], cfg)
    else
      match SplitHostPort(text)
      case Err(e) => Err(e)
      case Ok((host, port)) => if port < 0 then Err(Invalid) else Ok(Endpoint(host, port))
  }

  function ParseUrl(scheme: string, rest: string, cfg: Settings): Result<Endpoint, Invalid> {
    if scheme == "http" || scheme == "https" || scheme != cfg.scheme then Err(Invalid)
    else
      var rest := TrimSlash(rest);
      if '/' in rest then Err(Invalid)
      else
        match SplitHostPort(rest)
        case Err(e) => Err(e)
        case Ok((host, port)) => Ok(Endpoint(host, if port < 0 then cfg.defaultPort else port))
  }

  /** The dial address: a host with a colon is put in brackets. */
  function JoinHostPort(host: string, port: string): string {
    if ':' in host then "[" + host + "]:" + port else host + ":" + port
  }

  // --- decimal text ---

  lemma {:induction false} ItoaDecimal(n: nat)
    ensures IsAllDigits(Itoa(n)) && Decimal(Itoa(n)) == n
  {
    var last := (n % 10 + '0' as int) as char;
    if n < 10 {
      assert Itoa(n) == [last];
    } else {
      ItoaDecimal(n / 10);
      assert Itoa(n)[..|Itoa(n)| - 1] == Itoa(n / 10);
    }
  }

  lemma ParsePortItoa(p: nat)
    requires p <= 65535
    ensures ParsePort(Itoa(p)) == Ok(p)
  {
    ItoaDecimal(p);
    assert Itoa(p)[0] in Itoa(p);
  }

  // --- the round trip ---

  lemma TrimRightKeeps(s: string)
    requires s != "" && !IsSpace(s[|s| - 1])
    ensures TrimRight(s) == s
  {
  }

  lemma {:induction false} TrimLeftIsSuffix(s: string) returns (k: nat)
    ensures k <= |s| && TrimLeft(s) == s[k..]
    ensures forall i :: 0 <= i < k ==> IsSpace(s[i])
    ensures s != "" ==> (k > 0 <==> IsSpace(s[0]))
  {
    if s != "" && IsSpace(s[0]) {
      k := TrimLeftIsSuffix(s[1..]);
      k := k + 1;
    } else {
      k := 0;
    }
  }

  /** An address ends in a digit, so only spaces in front of the host are trimmed. */
  lemma TrimAddress(host: string, p: nat) returns (k: nat)
    ensures k <= |host| && TrimSpace(host + ":" + Itoa(p)) == host[k..] + ":" + Itoa(p)
    ensures k > 0 <==> host != "" && IsSpace(host[0])
  {
    var t := host + ":" + Itoa(p);
    ItoaDecimal(p);
    k := TrimLeftIsSuffix(t);
    assert t[|host|] == ':';
    assert t[k..] == host[k..] + ":" + Itoa(p);
    assert t[k..][|t[k..]| - 1] == Itoa(p)[|Itoa(p)| - 1];
    assert IsDigit(Itoa(p)[|Itoa(p)| - 1]);
    TrimRightKeeps(t[k..]);
  }

  predicate SeparatorAt(s: string, i: nat) { i + 2 < |s| && s[i] == ':' && s[i + 1] == '/' && s[i + 2] == '/' }

  ghost predicate HasSeparator(s: string) { exists i: nat :: SeparatorAt(s, i) }

  lemma IndexIffSeparator(s: string)
    ensures Index(s, "://").Some? <==> HasSeparator(s)
  {
    if HasSeparator(s) {
      var i: nat :| SeparatorAt(s, i);
      assert s[i..i + 3] == "://" && "://" <= s[i..];
    }
    if Index(s, "://").Some? {
      var i := Index(s, "://").value;
      assert s[i..i + 3][0] == s[i] && s[i..i + 3][1] == s[i + 1] && s[i..i + 3][2] == s[i + 2];
      assert SeparatorAt(s, i);
    }
  }

  /** Whatever host comes out is made of characters that went in, and is not empty. */
  lemma SplitHostIsPart(s: string)
    requires SplitHostPort(s).Ok?
    ensures var (host, port) := SplitHostPort(s).value;
      host != "" && (forall c | c in host :: c in s) && -1 <= port <= 65535
  {
  }

  lemma {:induction false} FirstIndex(front: string, c: char, back: string)
    requires c !in front
    ensures IndexChar(front + [c] + back, c) == Some(|front|)
  {
    var s := front + [c] + back;
    if front != "" {
      assert s[1..] == front[1..] + [c] + back;
      FirstIndex(front[1..], c, back);
    }
  }

  lemma {:induction false} LastIndex(front: string, c: char, back: string)
    requires c !in back
    ensures LastIndexChar(front + [c] + back, c) == Some(|front|)
  {
    var s := front + [c] + back;
    if back != "" {
      assert s[..|s| - 1] == front + [c] + back[..|back| - 1];
      LastIndex(front, c, back[..|back| - 1]);
    }
  }

  /** In brackets, the host ends at the first closing bracket. */
  lemma SplitBracketed(host: string, p: nat)
    requires host != "" && p <= 65535
    ensures var r := SplitHostPort("[" + host + "]:" + Itoa(p));
      if ']' in host then r.Ok? ==> r.value.0 != host else r == Ok((host, p))
  {
    hide Itoa, ParsePort;
    var s := "[" + host + "]:" + Itoa(p);
    assert s[1..] == host + [']'] + (":" + Itoa(p));
    if ']' !in host {
      FirstIndex(host, ']', ":" + Itoa(p));
      assert s[1..][..|host|] == host && s[1..][|host| + 1..] == ":" + Itoa(p);
      assert (":" + Itoa(p))[1..] == Itoa(p);
      ParsePortItoa(p);
    }
  }

  /** Without brackets, what precedes the only colon is the host. */
  lemma SplitPlain(host: string, p: nat)
    requires host != "" && host[0] != '[' && ':' !in host && p <= 65535
    ensures SplitHostPort(host + ":" + Itoa(p)) == Ok((host, p))
  {
    hide Itoa, ParsePort, LastIndexChar, IndexChar;
    var s := host + ":" + Itoa(p);
    ItoaDecimal(p);
    assert forall c | c in Itoa(p) :: IsDigit(c);
    assert s == host + [':'] + Itoa(p);
    LastIndex(host, ':', Itoa(p));
    assert s[|host| + 1..] == Itoa(p) && s[..|host|] == host;
    ParsePortItoa(p);
  }

  /** An opening bracket in front makes the host something shorter. */
  lemma SplitOpened(host: string, p: nat)
    requires host != "" && host[0] == '['
    ensures var r := SplitHostPort(host + ":" + Itoa(p)); r.Ok? ==> |r.value.0| < |host|
  {
    hide Itoa, ParsePort;
    var s := host + ":" + Itoa(p);
    ItoaDecimal(p);
    assert forall c | c in Itoa(p) :: IsDigit(c);
    assert s[1..] == host[1..] + (":" + Itoa(p));
    assert forall j :: |host| - 1 <= j < |s| - 1 ==> s[1..][j] in ":" + Itoa(p);
  }

  lemma SplitEmpty(p: nat)
    ensures SplitHostPort(":" + Itoa(p)).Err?
  {
    hide Itoa, ParsePort, LastIndexChar;
    ItoaDecimal(p);
    assert forall c | c in Itoa(p) :: IsDigit(c);
    assert ":" + Itoa(p) == "" + [':'] + Itoa(p);
    LastIndex("", ':', Itoa(p));
  }

  /** The hosts whose dial address names them again. */
  ghost predicate Dialable(host: string) {
    if ':' in host then ']' !in host && !HasSeparator(host)
    else host != "" && !IsSpace(host[0]) && host[0] != '['
  }

  lemma PlainHasNoSeparator(host: string, p: nat)
    requires ':' !in host
    ensures !HasSeparator(host + ":" + Itoa(p))
  {
    var s := host + ":" + Itoa(p);
    ItoaDecimal(p);
    assert forall i :: 0 <= i < |host| ==> s[i] in host;
    assert forall i :: |host| < i < |s| ==> s[i] in Itoa(p);
  }

  lemma BracketedSeparator(host: string, p: nat)
    ensures HasSeparator("[" + host + "]:" + Itoa(p)) <==> HasSeparator(host)
  {
    hide Itoa;
    ItoaDecimal(p);
    SeparatorInBrackets(host, "]:" + Itoa(p));
    assert "[" + host + "]:" + Itoa(p) == "[" + host + ("]:" + Itoa(p));
  }

  lemma BracketedAt(host: string, after: string, j: nat)
    requires j < |host| + 1 + |after|
    ensures ("[" + host + after)[j] == if j == 0 then '[' else if j <= |host| then host[j - 1] else after[j - 1 - |host|]
  {
  }

  lemma SeparatorShifts(host: string, after: string, i: nat)
    requires forall c | c in after :: c != '/'
    ensures SeparatorAt("[" + host + after, i) <==> i > 0 && SeparatorAt(host, i - 1)
  {
    var s := "[" + host + after;
    if i + 2 < |s| {
      BracketedAt(host, after, i);
      BracketedAt(host, after, i + 1);
      BracketedAt(host, after, i + 2);
      assert i + 2 > |host| ==> s[i + 2] in after;
    }
  }

  /** What stands before and after the host brings no separator of its own. */
  lemma SeparatorInBrackets(host: string, after: string)
    requires forall c | c in after :: c != '/'
    ensures HasSeparator("[" + host + after) <==> HasSeparator(host)
  {
    var s := "[" + host + after;
    if HasSeparator(host) {
      var i: nat :| SeparatorAt(host, i);
      SeparatorShifts(host, after, i + 1);
      assert SeparatorAt(s, i + 1);
    }
    if HasSeparator(s) {
      var i: nat :| SeparatorAt(s, i);
      SeparatorShifts(host, after, i);
      assert SeparatorAt(host, i - 1);
    }
  }

  lemma PlainRoundTrip(host: string, p: nat, cfg: Settings)
    requires ':' !in host && p <= 65535
    ensures ParseEndpoint(JoinHostPort(host, Itoa(p)), cfg) == Ok(Endpoint(host, p)) <==> Dialable(host)
  {
    hide TrimSpace, SplitHostPort, Index;
    var k := TrimAddress(host, p);
    var rest := host[k..];
    assert ':' !in rest;
    PlainHasNoSeparator(rest, p);
    IndexIffSeparator(rest + ":" + Itoa(p));
    if rest == "" {
      assert rest + ":" + Itoa(p) == ":" + Itoa(p);
      SplitEmpty(p);
    } else if rest[0] == '[' {
      SplitOpened(rest, p);
    } else {
      SplitPlain(rest, p);
    }
  }

  lemma BracketedRoundTrip(host: string, p: nat, cfg: Settings)
    requires ':' in host && p <= 65535
    ensures ParseEndpoint(JoinHostPort(host, Itoa(p)), cfg) == Ok(Endpoint(host, p)) <==> Dialable(host)
  {
    hide TrimSpace, SplitHostPort, Index, TrimSlash;
    var text := "[" + host + "]:" + Itoa(p);
    var k := TrimAddress("[" + host + "]", p);
    assert "[" + host + "]" + ":" + Itoa(p) == text;
    assert ("[" + host + "]")[0] == '[';
    BracketedSeparator(host, p);
    IndexIffSeparator(text);
    if HasSeparator(host) {
      assert '/' in host;
      var rest := TrimSlash(text[Index(text, "://").value + 3..]);
      if SplitHostPort(rest).Ok? { SplitHostIsPart(rest); }
    } else {
      SplitBracketed(host, p);
    }
  }

  /** Parsing the dial address gives back host and port exactly for the dialable hosts. */
  lemma RoundTripIff(host: string, p: nat, cfg: Settings)
    requires p <= 65535
    ensures ParseEndpoint(JoinHostPort(host, Itoa(p)), cfg) == Ok(Endpoint(host, p)) <==> Dialable(host)
  {
    if ':' in host { BracketedRoundTrip(host, p, cfg); } else { PlainRoundTrip(host, p, cfg); }
  }

  /** Every endpoint the parser accepts has a host and a port in range. */
  lemma ParsedEndpointInRange(text: string, cfg: Settings)
    requires ParseEndpoint(text, cfg).Ok? && 0 <= cfg.defaultPort <= 65535
    ensures var e := ParseEndpoint(text, cfg).value;
      e.host != "" && 0 <= e.port <= 65535
  {
    hide SplitHostPort, TrimSpace, Index;
    var t := TrimSpace(text);
    var sep := Index(t, "://");
    SplitHostIsPart(if sep.Some? then TrimSlash(t[sep.value + 3..]) else t);
  }
}
