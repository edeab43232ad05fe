/**
 The endpoint texts of client/endpoint.go as a grammar of their own: every
 text the parser accepts, and the endpoint it names, said by concatenation.
 */
module EndpointGrammar {
  import opened Wrappers
  import opened Endpoint

  // --- surrounding white space ---

  predicate IsBlank(s: string) { forall c | c in s :: IsSpace(c) }

  /** body with white space before and after it, and none of its own at either end. */
  predicate Padded(text: string, before: string, body: string, after: string) {
    && text == before + body + after && IsBlank(before) && IsBlank(after)
    && (body != "" ==> !IsSpace(body[0]) && !IsSpace(body[|body| - 1]))
  }

  lemma {:induction false} LeftIsTrimmed(before: string, s: string)
    requires IsBlank(before) && (s != "" ==> !IsSpace(s[0]))
    ensures TrimLeft(before + s) == s
  {
    if before == "" {
      assert before + s == s;
    } else {
      assert (before + s)[1..] == before[1..] + s;
      LeftIsTrimmed(before[1..], s);
    }
  }

  lemma {:induction false} RightIsTrimmed(s: string, after: string)
    requires IsBlank(after) && (s != "" ==> !IsSpace(s[|s| - 1]))
    ensures TrimRight(s + after) == s
  {
    if after == "" {
      assert s + after == s;
    } else {
      assert (s + after)[..|s + after| - 1] == s + after[..|after| - 1];
      RightIsTrimmed(s, after[..|after| - 1]);
    }
  }

  lemma PaddedIsTrimmed(text: string, before: string, body: string, after: string)
    requires Padded(text, before, body, after)
    ensures TrimSpace(text) == body
  {
    hide TrimLeft, TrimRight, IsSpace;
    if body == "" {
      assert text == (before + after) + "";
      LeftIsTrimmed(before + after, "");
      RightIsTrimmed("", "");
      assert "" + "" == "";
    } else {
      assert text == before + (body + after);
      LeftIsTrimmed(before, body + after);
      RightIsTrimmed(body, after);
    }
  }

  lemma {:induction false} TrimRightIsPrefix(s: string) returns (after: string)
    ensures s == TrimRight(s) + after && IsBlank(after)
    ensures TrimRight(s) != "" ==> !IsSpace(TrimRight(s)[|TrimRight(s)| - 1])
  {
    hide IsSpace;
    if s != "" && IsSpace(s[|s| - 1]) {
      var inner := TrimRightIsPrefix(s[..|s| - 1]);
      after := inner + [s[|s| - 1]];
      assert s == TrimRight(s) + after;
    } else {
      after := "";
    }
  }

  lemma {:induction false} TrimLeftStops(s: string)
    ensures TrimLeft(s) != "" ==> !IsSpace(TrimLeft(s)[0])
  {
    if s != "" && IsSpace(s[0]) { TrimLeftStops(s[1..]); }
  }

  lemma TrimmedIsPadded(text: string) returns (before: string, after: string)
    ensures Padded(text, before, TrimSpace(text), after)
  {
    hide TrimLeft, TrimRight, IsSpace;
    var k := TrimLeftIsSuffix(text);
    before := text[..k];
    after := TrimRightIsPrefix(text[k..]);
    TrimLeftStops(text);
    assert text == before + TrimSpace(text) + after;
  }

  // --- host[:port] ---

  /** Decimal digits for a port, leading zeros allowed. */
  predicate IsPort(d: string, port: nat) { IsAllDigits(d) && Decimal(d) == port <= 65535 }

  predicate ColonAt(s: string, i: nat) { i < |s| && s[i] == ':' }

  /** Two colons without brackets make the whole text an address literal. */
  ghost predicate IsLiteral(s: string) { exists i: nat, j: nat :: i < j && ColonAt(s, i) && ColonAt(s, j) }

  ghost predicate Bracketed(s: string, host: string, port: Option<nat>) {
    && host != "" && ']' !in host
    && match port
       case None => s == "[" + host + "]"
       case Some(n) => exists d :: IsPort(d, n) && s == "[" + host + "]:" + d
  }

  ghost predicate Plain(s: string, host: string, port: Option<nat>) {
    && host != "" && host[0] != '['
    && match port
       case None => s == host && (':' !in host || IsLiteral(host))
       case Some(n) => ':' !in host && exists d :: IsPort(d, n) && s == host + ":" + d
  }

  ghost predicate Authority(s: string, host: string, port: Option<nat>) {
    Bracketed(s, host, port) || Plain(s, host, port)
  }

  lemma ParsePortIff(d: string, n: nat)
    ensures ParsePort(d) == Ok(n) <==> IsPort(d, n)
  {
    if IsAllDigits(d) { assert d[0] in d; }
  }

  lemma PortIsKnown(d: string)
    ensures ParsePort(d).Ok? ==> ParsePort(d).value >= 0
  {
  }

  function Known(port: Option<nat>): int { if port.None? then -1 else port.value }

  lemma BracketedSplits(s: string, host: string, port: Option<nat>)
    requires Bracketed(s, host, port)
    ensures SplitHostPort(s) == Ok((host, Known(port)))
  {
    hide ParsePort, IsPort;
    var tail := s[|host| + 2..];
    assert s[1..] == host + [']'] + tail;
    FirstIndex(host, ']', tail);
    assert s[1..][..|host|] == host && s[1..][|host| + 1..] == tail;
    if port.Some? {
      var d :| IsPort(d, port.value) && s == "[" + host + "]:" + d;
      ParsePortIff(d, port.value);
      assert tail[1..] == d && tail[0] == ':';
    }
  }

  lemma LiteralSplits(s: string)
    requires s != "" && s[0] != '[' && IsLiteral(s)
    ensures SplitHostPort(s) == Ok((s, -1))
  {
    hide LastIndexChar, ParsePort;
    var i: nat, j: nat :| i < j && ColonAt(s, i) && ColonAt(s, j);
    var colon := LastIndexChar(s, ':').value;
    assert forall k :: colon < k < |s| ==> s[k] == s[colon + 1..][k - colon - 1];
    assert s[..colon][i] == ':';
  }

  lemma PlainSplits(s: string, host: string, port: Option<nat>)
    requires Plain(s, host, port)
    ensures SplitHostPort(s) == Ok((host, Known(port)))
  {
    hide ParsePort, LastIndexChar, IsLiteral;
    if port.Some? {
      var d :| IsPort(d, port.value) && s == host + ":" + d;
      assert ':' !in d;
      assert s == host + [':'] + d;
      LastIndex(host, ':', d);
      assert s[..|host|] == host && s[|host| + 1..] == d;
      ParsePortIff(d, port.value);
    } else if ':' in host {
      LiteralSplits(s);
    }
  }

  /** What the splitter takes apart is an authority of the grammar. */
  lemma SplitIsAuthority(s: string, host: string, port: Option<nat>)
    requires SplitHostPort(s) == Ok((host, Known(port)))
    ensures Authority(s, host, port)
  {
    hide ParsePort, LastIndexChar, IndexChar, IsPort;
    if s[0] == '[' {
      var close := IndexChar(s[1..], ']').value;
      var tail := s[1..][close + 1..];
      assert s == "[" + host + "]" + tail;
      if tail != "" {
        PortIsKnown(tail[1..]);
        ParsePortIff(tail[1..], port.value);
        assert s == "[" + host + "]:" + tail[1..];
      }
      assert Bracketed(s, host, port);
    } else {
      var colon := LastIndexChar(s, ':');
      if colon.Some? && ':' in s[..colon.value] {
        var i: nat :| i < colon.value && s[..colon.value][i] == ':';
        assert ColonAt(s, i) && ColonAt(s, colon.value);
      } else if colon.Some? {
        PortIsKnown(s[colon.value + 1..]);
        ParsePortIff(s[colon.value + 1..], port.value);
        assert s == host + ":" + s[colon.value + 1..];
      }
      assert Plain(s, host, port);
    }
  }

  lemma SplitIff(s: string, host: string, port: Option<nat>)
    ensures SplitHostPort(s) == Ok((host, Known(port))) <==> Authority(s, host, port)
  {
    hide SplitHostPort, Bracketed, Plain;
    if SplitHostPort(s) == Ok((host, Known(port))) { SplitIsAuthority(s, host, port); }
    if Bracketed(s, host, port) { BracketedSplits(s, host, port); }
    if Plain(s, host, port) { PlainSplits(s, host, port); }
  }

  // --- scheme://host[:port][/] ---

  /** The first "://" of the text stands between these two. */
  ghost predicate IsUrl(text: string, scheme: string, rest: string) {
    text == scheme + "://" + rest && forall i: nat :: i < |scheme| ==> !SeparatorAt(text, i)
  }

  /** No path behind it, but for one slash. */
  predicate IsPathless(rest: string, authority: string) {
    '/' !in authority && (rest == authority || rest == authority + "/")
  }

  predicate IsOurs(scheme: string, cfg: Settings) {
    cfg.lower(scheme) == cfg.scheme && cfg.scheme != "http" && cfg.scheme != "https"
  }

  ghost predicate UrlNames(text: string, cfg: Settings, e: Endpoint) {
    exists scheme, rest, authority ::
      && IsUrl(text, scheme, rest) && IsOurs(scheme, cfg) && IsPathless(rest, authority)
      && (|| (e.port >= 0 && Authority(authority, e.host, Some(e.port)))
          || (e.port == cfg.defaultPort && Authority(authority, e.host, None)))
  }

  ghost predicate BareNames(text: string, e: Endpoint) {
    !HasSeparator(text) && e.port >= 0 && Authority(text, e.host, Some(e.port))
  }

  /** The endpoint a text names: host:port as it stands, or an URL of the
      configured scheme, whose port may be left to the configuration. */
  ghost predicate Names(text: string, cfg: Settings, e: Endpoint) {
    exists before, body, after :: Padded(text, before, body, after) && (BareNames(body, e) || UrlNames(body, cfg, e))
  }

  lemma IndexIffUrl(text: string, scheme: string, rest: string)
    ensures IsUrl(text, scheme, rest) <==>
      Index(text, "://") == Some(|scheme|) && text[..|scheme|] == scheme && text[|scheme| + 3..] == rest
  {
    hide Index;
    var r := Index(text, "://");
    if IsUrl(text, scheme, rest) {
      assert SeparatorAt(text, |scheme|);
      IndexIffSeparator(text);
      StartsAt(text, |scheme|);
      StartsAt(text, r.value);
      assert text[..|scheme|] == scheme && text[|scheme| + 3..] == rest;
    }
    if r == Some(|scheme|) && text[..|scheme|] == scheme && text[|scheme| + 3..] == rest {
      assert text == scheme + "://" + rest;
      forall i: nat | i < |scheme| ensures !SeparatorAt(text, i) { StartsAt(text, i); }
    }
  }

  lemma StartsAt(s: string, i: nat)
    requires i <= |s|
    ensures SeparatorAt(s, i) <==> "://" <= s[i..]
  {
    if SeparatorAt(s, i) { assert s[i..][..3] == "://"; }
    if "://" <= s[i..] {
      assert s[i..][0] == s[i] && s[i..][1] == s[i + 1] && s[i..][2] == s[i + 2];
      assert "://"[0] == s[i..][0] && "://"[1] == s[i..][1] && "://"[2] == s[i..][2];
    }
  }

  lemma TrimSlashIff(rest: string, authority: string)
    ensures IsPathless(rest, authority) <==> TrimSlash(rest) == authority && '/' !in authority
  {
    if rest != "" && rest[|rest| - 1] == '/' {
      assert rest == rest[..|rest| - 1] + "/";
      assert (authority + "/")[..|authority|] == authority;
    }
  }

  lemma UrlIff(text: string, cfg: Settings, e: Endpoint)
    requires HasSeparator(text)
    ensures var i := Index(text, "://");
      i.Some? && (ParseUrl(cfg.lower(text[..i.value]), text[i.value + 3..], cfg) == Ok(e) <==> UrlNames(text, cfg, e))
  {
    hide Index, Authority, TrimSlash, SplitHostPort, HasSeparator, IsUrl, IsPathless;
    IndexIffSeparator(text);
    var i := Index(text, "://").value;
    var scheme, rest := text[..i], text[i + 3..];
    var authority := TrimSlash(rest);
    IndexIffUrl(text, scheme, rest);
    TrimSlashIff(rest, authority);
    SplitIff(authority, e.host, None);
    if e.port >= 0 { SplitIff(authority, e.host, Some(e.port)); }
    if ParseUrl(cfg.lower(scheme), rest, cfg) == Ok(e) {
      SplitHostIsPart(authority);
    }
    forall scheme', rest', authority' | IsUrl(text, scheme', rest') && IsPathless(rest', authority')
      ensures scheme' == scheme && rest' == rest && authority' == authority
    {
      IndexIffUrl(text, scheme', rest');
      TrimSlashIff(rest', authority');
    }
  }

  /** The parser accepts exactly the texts that name an endpoint, and answers that endpoint. */
  lemma ParseEndpointIff(text: string, cfg: Settings, e: Endpoint)
    ensures ParseEndpoint(text, cfg) == Ok(e) <==> Names(text, cfg, e)
  {
    hide TrimSpace, Index, ParseUrl, SplitHostPort, Authority, UrlNames, HasSeparator, Padded;
    var body := TrimSpace(text);
    var before, after := TrimmedIsPadded(text);
    forall before', body', after' | Padded(text, before', body', after') ensures body' == body {
      PaddedIsTrimmed(text, before', body', after');
    }
    BodyIff(text, cfg, e);
  }

  lemma BodyIff(text: string, cfg: Settings, e: Endpoint)
    ensures ParseEndpoint(text, cfg) == Ok(e) <==> BareNames(TrimSpace(text), e) || UrlNames(TrimSpace(text), cfg, e)
  {
    hide TrimSpace, Index, ParseUrl, SplitHostPort, Authority, HasSeparator;
    var body := TrimSpace(text);
    IndexIffSeparator(body);
    if HasSeparator(body) {
      UrlIff(body, cfg, e);
    } else {
      if UrlNames(body, cfg, e) { UrlHasSeparator(body, cfg, e); }
      if e.port >= 0 { SplitIff(body, e.host, Some(e.port)); }
    }
  }

  lemma UrlHasSeparator(text: string, cfg: Settings, e: Endpoint)
    requires UrlNames(text, cfg, e)
    ensures HasSeparator(text)
  {
    hide Authority;
    var scheme, rest, authority :| IsUrl(text, scheme, rest) && IsPathless(rest, authority);
    assert SeparatorAt(text, |scheme|);
  }

  // --- what this means for the usual texts ---

  /** A host as it appears in addresses: a name, or an address literal with its colons. */
  predicate IsHost(host: string) {
    host != "" && forall c | c in host :: c != '/' && c != '[' && c != ']' && !IsSpace(c)
  }

  lemma AnotherDigit(s: string, c: char)
    requires (forall d | d in s :: IsDigit(d)) && IsDigit(c)
    ensures (forall d | d in s + [c] :: IsDigit(d)) && Decimal(s + [c]) == 10 * Decimal(s) + Digit(c)
  {
    assert (s + [c])[..|s|] == s;
  }

  lemma WrittenDigit(n: nat, c: char)
    requires n > 0 && IsDigit(c)
    ensures Itoa(10 * n + Digit(c)) == Itoa(n) + [c]
  {
  }

  /** Ports are decimal, most significant digit first. */
  lemma PortDigits()
    ensures Decimal("0080") == 80
    ensures Itoa(0) == "0" && Itoa(15501) == "15501"
  {
    hide Decimal;
    AnotherDigit("", '0');
    AnotherDigit("0", '0');
    AnotherDigit("00", '8');
    AnotherDigit("008", '0');
    assert "" + ['0'] == "0" && "0" + ['0'] == "00" && "00" + ['8'] == "008" && "008" + ['0'] == "0080";
    assert Decimal("") == 0 by { NoDigits(); }
    SomePort();
  }

  lemma NoDigits()
    ensures Decimal("") == 0
  {
  }

  lemma SomePort()
    ensures Itoa(0) == "0" && Itoa(1) == "1" && Itoa(15501) == "15501"
  {
    OneDigit();
    hide Itoa;
    WrittenDigit(1, '5');
    WrittenDigit(15, '5');
    WrittenDigit(155, '0');
    WrittenDigit(1550, '1');
    assert "1" + ['5'] == "15" && "15" + ['5'] == "155" && "155" + ['0'] == "1550" && "1550" + ['1'] == "15501";
  }

  lemma OneDigit()
    ensures Itoa(0) == "0" && Itoa(1) == "1"
  {
  }

  lemma HostWithPort(host: string, p: nat)
    requires IsHost(host) && p <= 65535
    ensures Authority(if ':' in host then "[" + host + "]:" + Itoa(p) else host + ":" + Itoa(p), host, Some(p))
    ensures Authority(if ':' in host then "[" + host + "]" else host, host, None)
    ensures '/' !in Itoa(p) && Itoa(p) != "" && forall c | c in Itoa(p) :: !IsSpace(c)
  {
    hide Itoa, IsLiteral;
    ItoaDecimal(p);
    assert IsPort(Itoa(p), p) && host[0] in host;
    if ':' in host {
      assert Bracketed("[" + host + "]:" + Itoa(p), host, Some(p));
      assert Bracketed("[" + host + "]", host, None);
    } else {
      assert Plain(host + ":" + Itoa(p), host, Some(p));
      assert Plain(host, host, None);
    }
  }

  lemma UrlNamesAuthority(before: string, scheme: string, authority: string, slash: string, after: string, cfg: Settings, e: Endpoint)
    requires IsBlank(before) && IsBlank(after) && (scheme != "" ==> !IsSpace(scheme[0])) && !HasSeparator(scheme)
    requires IsOurs(scheme, cfg) && (slash == "" || slash == "/")
    requires authority != "" && forall c | c in authority :: c != '/' && !IsSpace(c)
    requires || (e.port >= 0 && Authority(authority, e.host, Some(e.port)))
             || (e.port == cfg.defaultPort && Authority(authority, e.host, None))
    ensures ParseEndpoint(before + scheme + "://" + authority + slash + after, cfg) == Ok(e)
  {
    hide Authority, Padded, IsUrl, IsPathless, ParseEndpoint, HasSeparator, IsBlank, IsSpace;
    UrlText(before, scheme, authority, slash, after);
    assert UrlNames(scheme + "://" + authority + slash, cfg, e);
    ParseEndpointIff(before + scheme + "://" + authority + slash + after, cfg, e);
  }

  /** The text of an URL with an authority and at most one slash, white space around it. */
  lemma UrlText(before: string, scheme: string, authority: string, slash: string, after: string)
    requires IsBlank(before) && IsBlank(after) && (scheme != "" ==> !IsSpace(scheme[0])) && !HasSeparator(scheme)
    requires slash == "" || slash == "/"
    requires authority != "" && forall c | c in authority :: c != '/' && !IsSpace(c)
    ensures var body := scheme + "://" + authority + slash;
      && Padded(before + scheme + "://" + authority + slash + after, before, body, after)
      && IsUrl(body, scheme, authority + slash) && IsPathless(authority + slash, authority)
  {
    hide IsSpace;
    var body := scheme + "://" + authority + slash;
    assert !IsSpace(':') && !IsSpace('/') by { UrlMarksAreText(); }
    assert before + scheme + "://" + authority + slash + after == before + body + after;
    assert body == scheme + "://" + (authority + slash);
    assert body[|body| - 1] == if slash == "" then authority[|authority| - 1] else '/';
    forall i: nat | i < |scheme| ensures !SeparatorAt(body, i) {
      assert !SeparatorAt(scheme, i);
    }
  }

  lemma UrlMarksAreText()
    ensures !IsSpace(':') && !IsSpace('/')
  {
  }

  /** An URL of the configured scheme names its host with the port it carries,
      and with the configured one if it carries none. */
  lemma UrlNamesItsHost(before: string, scheme: string, host: string, p: nat, slash: string, after: string, cfg: Settings)
    requires IsBlank(before) && IsBlank(after) && (scheme != "" ==> !IsSpace(scheme[0])) && !HasSeparator(scheme)
    requires cfg.lower(scheme) == cfg.scheme && cfg.scheme != "http" && cfg.scheme != "https"
    requires IsHost(host) && p <= 65535 && (slash == "" || slash == "/")
    ensures ParseEndpoint(
              before + scheme + "://" + (if ':' in host then "[" + host + "]:" + Itoa(p) else host + ":" + Itoa(p)) + slash + after, cfg)
         == Ok(Endpoint(host, p))
    ensures ParseEndpoint(before + scheme + "://" + (if ':' in host then "[" + host + "]" else host) + slash + after, cfg)
         == Ok(Endpoint(host, cfg.defaultPort))
  {
    hide Authority, ParseEndpoint, Itoa, HasSeparator, IsBlank;
    HostWithPort(host, p);
    var full := if ':' in host then "[" + host + "]:" + Itoa(p) else host + ":" + Itoa(p);
    var bare := if ':' in host then "[" + host + "]" else host;
    UrlNamesAuthority(before, scheme, full, slash, after, cfg, Endpoint(host, p));
    UrlNamesAuthority(before, scheme, bare, slash, after, cfg, Endpoint(host, cfg.defaultPort));
  }

  /** HTTP, any other scheme and anything like a path are refused. */
  lemma OtherUrlsAreRefused(text: string, before: string, scheme: string, rest: string, after: string, cfg: Settings)
    requires Padded(text, before, scheme + "://" + rest, after) && !HasSeparator(scheme)
    requires cfg.lower(scheme) == "http" || cfg.lower(scheme) == "https" || cfg.lower(scheme) != cfg.scheme
             || '/' in rest[..if rest == "" then 0 else |rest| - 1]
    ensures ParseEndpoint(text, cfg).Err?
  {
    hide SplitHostPort, Index, TrimSpace, Padded;
    var body := scheme + "://" + rest;
    PaddedIsTrimmed(text, before, body, after);
    forall i: nat | i < |scheme| ensures !SeparatorAt(body, i) {
      assert !SeparatorAt(scheme, i);
    }
    IndexIffUrl(body, scheme, rest);
  }

  /** Without a scheme the port has to be there. */
  lemma BareTextNeedsAPort(text: string, before: string, host: string, after: string, cfg: Settings)
    requires IsHost(host)
    requires (Padded(text, before, host, after) && ':' !in host) || Padded(text, before, "[" + host + "]", after)
    ensures ParseEndpoint(text, cfg).Err?
  {
    hide Padded, TrimSpace, SplitHostPort, IsSpace, Index;
    var body := if Padded(text, before, "[" + host + "]", after) then "[" + host + "]" else host;
    PaddedIsTrimmed(text, before, body, after);
    assert '/' !in body && host[0] in host;
    IndexIffSeparator(body);
    if body == host {
      PlainSplits(host, host, None);
    } else {
      BracketedSplits(body, host, None);
    }
  }
}
