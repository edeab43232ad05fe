/** The opening exchange of a connection (client/handshake.go). */
module Handshake {
  import opened Wrappers
  import opened MsgPack
  import opened Values
  import opened ClientTypes

  datatype Style = NoHandshake | AuthCommand | HelloMandatory

  datatype CredentialKind = Token | ApiKey | UserPass

  datatype Credentials = Credentials(kind: CredentialKind, secrets: seq<Octets>)

  /** helloArgLess: the application has an argument-less HELLO. */
  datatype Settings = Settings(style: Style, helloArgLess: bool, credentials: Option<Credentials>, clientName: Octets)

  datatype Info = Info(authenticated: bool, capabilities: seq<Octets>)

  const BLANK := Info(false, [])

  // "HELLO", "AUTH", "version", "token", "api_key", "client_name", "thunder-client", "authenticated", "capabilities"
  const HELLO: Octets := [0x48, 0x45, 0x4c, 0x4c, 0x4f]
  const AUTH: Octets := [0x41, 0x55, 0x54, 0x48]
  const VERSION: Octets := [0x76, 0x65, 0x72, 0x73, 0x69, 0x6f, 0x6e]
  const TOKEN: Octets := [0x74, 0x6f, 0x6b, 0x65, 0x6e]
  const API_KEY: Octets := [0x61, 0x70, 0x69, 0x5f, 0x6b, 0x65, 0x79]
  const CLIENT_NAME: Octets := [0x63, 0x6c, 0x69, 0x65, 0x6e, 0x74, 0x5f, 0x6e, 0x61, 0x6d, 0x65]
  const DEFAULT_NAME: Octets :=
    [0x74, 0x68, 0x75, 0x6e, 0x64, 0x65, 0x72, 0x2d, 0x63, 0x6c, 0x69, 0x65, 0x6e, 0x74]
  const AUTHENTICATED: Octets :=
    [0x61, 0x75, 0x74, 0x68, 0x65, 0x6e, 0x74, 0x69, 0x63, 0x61, 0x74, 0x65, 0x64]
  const CAPABILITIES: Octets :=
    [0x63, 0x61, 0x70, 0x61, 0x62, 0x69, 0x6c, 0x69, 0x74, 0x69, 0x65, 0x73]

  /** A token or API key has its secret; the source indexes it unchecked. */
  predicate Usable(cfg: Settings) {
    cfg.credentials.Some? && cfg.credentials.value.kind != UserPass ==> |cfg.credentials.value.secrets| > 0
  }

  type UsableSettings = cfg: Settings | Usable(cfg) witness Settings(NoHandshake, false, None, [])

  function HelloPairs(cfg: Settings): seq<Entry>
    requires Usable(cfg) && (cfg.credentials.Some? ==> cfg.credentials.value.kind != UserPass)
  {
    [Entry(Str(VERSION), Int(1))]
    + (if cfg.credentials.None? then []
       else [Entry(Str(if cfg.credentials.value.kind == Token then TOKEN else API_KEY),
                   Str(cfg.credentials.value.secrets[0]))])
    + [Entry(Str(CLIENT_NAME), Str(if cfg.clientName == [] then DEFAULT_NAME else cfg.clientName))]
  }

  /** The frames that open every connection, or the error that refuses the
      configuration before anything is sent. */
  function Opening(cfg: Settings): Result<seq<Command>, Err>
    requires Usable(cfg)
  {
    match cfg.style
    case NoHandshake => Ok([])
    case AuthCommand =>
      if cfg.credentials.None? then Ok([])
      else
        var auth := Command(AUTH, Strings(cfg.credentials.value.secrets));
        Ok(if cfg.helloArgLess then [Command(HELLO, []), auth] else [auth])
    case HelloMandatory =>
      if cfg.credentials.Some? && cfg.credentials.value.kind == UserPass then Err(AuthError)
      else Ok([Command(HELLO, [Map(HelloPairs(cfg))])])
  }

  function Strings(ss: seq<Octets>): (vs: seq<Value>)
    ensures |vs| == |ss|
    ensures forall i :: 0 <= i < |ss| ==> vs[i] == Str(ss[i])
  {
    if ss == [] then [] else [Str(ss[0])] + Strings(ss[1..])
  }

  /** The string items of an array, in order. */
  function StringItems(items: seq<Value>): seq<Octets> {
    if items == [] then []
    else (if items[0].Str? then [items[0].s] else []) + StringItems(items[1..])
  }

  function HelloInfo(reply: Value): Info {
    var auth := MapGet(reply, AUTHENTICATED);
    var caps := MapGet(reply, CAPABILITIES);
    Info(auth.Some? && auth.value.Bool? && auth.value.b,
         if caps.Some? && caps.value.Array? then StringItems(caps.value.items) else [])
  }

  /** What the handshake learned once every opening frame was answered; `last`
      is the answer to the last one, if there was any. */
  function Learned(cfg: Settings, last: Option<Value>): Info {
    if last.None? then BLANK
    else if cfg.style == HelloMandatory then HelloInfo(last.value)
    else Info(true, [])
  }

  method ParseHelloInfo(reply: Value) returns (info: Info)
    ensures info == HelloInfo(reply) && Tells(reply, info)
  {
    HelloInfoTells(reply);
    hide MapGet, StringItems;
    info := BLANK;
    var auth := MapGet(reply, AUTHENTICATED);
    if auth.Some? && auth.value.Bool? {
      info := info.(authenticated := auth.value.b);
    }
    var caps := MapGet(reply, CAPABILITIES);
    if caps.Some? && caps.value.Array? {
      var names := Capabilities(caps.value.items);
      info := info.(capabilities := names);
    }
  }

  method Capabilities(items: seq<Value>) returns (names: seq<Octets>)
    ensures names == StringItems(items)
  {
    names := [];
    for i := 0 to |items|
      invariant names + StringItems(items[i..]) == StringItems(items)
    {
      assert items[i..][1..] == items[i + 1..];
      if items[i].Str? {
        names := names + [items[i].s];
      }
    }
  }

  /** A capability is advertised exactly when its string is an item of the list. */
  lemma {:induction false} StringItemsAreItems(items: seq<Value>, s: Octets)
    ensures s in StringItems(items) <==> Str(s) in items
  {
    if items != [] {
      StringItemsAreItems(items[1..], s);
      assert items == [items[0]] + items[1..];
    }
  }

  /** The far side of one connection during the handshake: it answers, in order,
      from a script that nothing restricts; an exhausted script is a dead connection. */
  class Session {
    var sent: seq<Command>
    var script: seq<Outcome>

    constructor (script: seq<Outcome>)
      ensures sent == [] && this.script == script
    {
      sent, this.script := [], script;
    }

    /** One round trip; failures come back in their handshake class. */
    method Call(c: Command) returns (r: Outcome)
      modifies this
      ensures sent == old(sent) + [c] && script == AfterOne(old(script))
      ensures r == FirstReply(old(script))
    {
      sent := sent + [c];
      if script == [] { return Err(ConnectionError); }
      r := if script[0].Ok? then script[0] else Err(AsHandshakeError(script[0].error));
      script := script[1..];
    }
  }

  function FirstReply(script: seq<Outcome>): Outcome {
    if script == [] then Err(ConnectionError)
    else if script[0].Ok? then script[0] else Err(AsHandshakeError(script[0].error))
  }

  function AfterOne(script: seq<Outcome>): seq<Outcome> { if script == [] then [] else script[1..] }

  /** How far the opening gets against a script: the frames sent, and the last
      answer (none for an empty opening) or the first failure. */
  function Exchange(cmds: seq<Command>, script: seq<Outcome>, last: Option<Value>): (seq<Command>, Result<Option<Value>, Err>) {
    if cmds == [] then ([], Ok(last))
    else
      match FirstReply(script)
      case Err(e) => ([cmds[0]], Err(e))
      case Ok(v) =>
        var (sent, r) := Exchange(cmds[1..], AfterOne(script), Some(v));
        ([cmds[0]] + sent, r)
  }

  /** What was sent and what came of it, given the far side's script. */
  ghost predicate Follows(cfg: Settings, script: seq<Outcome>, sent: seq<Command>, r: Result<Info, Err>)
    requires Usable(cfg)
  {
    match Opening(cfg)
    case Err(e) => sent == [] && r == Err(e)
    case Ok(cmds) =>
      var (frames, last) := Exchange(cmds, script, None);
      sent == frames && r == match last { case Ok(v) => Ok(Learned(cfg, v)) case Err(e) => Err(e) }
  }

  // --- what the opening and its result mean ---

  /** AUTH with every secret as one string argument, in order. */
  predicate IsAuth(c: Command, secrets: seq<Octets>) {
    && Spells(c.name, "AUTH") && |c.args| == |secrets|
    && forall i | 0 <= i < |secrets| :: c.args[i] == Str(secrets[i])
  }

  predicate IsBareHello(c: Command) { Spells(c.name, "HELLO") && c.args == [] }

  predicate IsNamed(key: Value, name: string) { key.Str? && Spells(key.s, name) }

  /** HELLO with one map: the protocol version, the credential if there is one,
      and the client name, in this order. */
  predicate IsHelloMap(c: Command, cfg: Settings)
    requires Usable(cfg) && !IsRefused(cfg) && cfg.style == HelloMandatory
  {
    && Spells(c.name, "HELLO") && |c.args| == 1 && c.args[0].Map?
    && var pairs, last := c.args[0].pairs, if cfg.credentials.None? then 1 else 2;
       && |pairs| == last + 1
       && IsNamed(pairs[0].key, "version") && pairs[0].val == Int(1)
       && (cfg.credentials.Some? ==>
             && IsNamed(pairs[1].key, if cfg.credentials.value.kind == Token then "token" else "api_key")
             && pairs[1].val == Str(cfg.credentials.value.secrets[0]))
       && IsNamed(pairs[last].key, "client_name")
       && (if cfg.clientName == [] then IsNamed(pairs[last].val, "thunder-client") else pairs[last].val == Str(cfg.clientName))
  }

  /** User and password have no place in the HELLO map. */
  predicate IsRefused(cfg: Settings) {
    cfg.style == HelloMandatory && cfg.credentials.Some? && cfg.credentials.value.kind == UserPass
  }

  /** The frames a connection opens with, case by case. */
  predicate OpensWith(cfg: Settings, frames: seq<Command>)
    requires Usable(cfg) && !IsRefused(cfg)
  {
    match cfg.style
    case NoHandshake => frames == []
    case AuthCommand =>
      if cfg.credentials.None? then frames == []
      else if cfg.helloArgLess then
        |frames| == 2 && IsBareHello(frames[0]) && IsAuth(frames[1], cfg.credentials.value.secrets)
      else |frames| == 1 && IsAuth(frames[0], cfg.credentials.value.secrets)
    case HelloMandatory => |frames| == 1 && IsHelloMap(frames[0], cfg)
  }

  lemma CommandsAreSpelled()
    ensures Spells(HELLO, "HELLO") && Spells(AUTH, "AUTH")
    ensures Spells(VERSION, "version") && Spells(TOKEN, "token") && Spells(API_KEY, "api_key")
  {
  }

  lemma LongNamesAreSpelled()
    ensures Spells(CLIENT_NAME, "client_name") && Spells(DEFAULT_NAME, "thunder-client")
  {
  }

  lemma ReplyKeysAreSpelled()
    ensures Spells(AUTHENTICATED, "authenticated") && Spells(CAPABILITIES, "capabilities")
  {
  }

  lemma OneSpelling(a: Octets, b: Octets, text: string)
    requires Spells(a, text) && Spells(b, text)
    ensures a == b
  {
  }

  /** Every connection opens with exactly these frames, unless the configuration is
      refused, with an authentication error, before anything is sent. */
  lemma OpeningMeans(cfg: Settings, frames: seq<Command>)
    requires Usable(cfg)
    ensures Opening(cfg) == Err(AuthError) <==> IsRefused(cfg)
    ensures Opening(cfg) == Ok(frames) <==> !IsRefused(cfg) && OpensWith(cfg, frames)
  {
    hide Spells;
    CommandsAreSpelled();
    LongNamesAreSpelled();
    if !IsRefused(cfg) && OpensWith(cfg, frames) { OpeningIsOne(cfg, frames); }
  }

  lemma OpeningIsOne(cfg: Settings, frames: seq<Command>)
    requires Usable(cfg) && !IsRefused(cfg) && OpensWith(cfg, frames)
    ensures Opening(cfg) == Ok(frames)
  {
    hide Spells;
    CommandsAreSpelled();
    LongNamesAreSpelled();
    if cfg.style == HelloMandatory {
      HelloMapIsOne(cfg, frames[0]);
      assert frames == [frames[0]];
    } else if cfg.style == AuthCommand && cfg.credentials.Some? {
      var auth := frames[|frames| - 1];
      OneSpelling(auth.name, AUTH, "AUTH");
      assert auth.args == Strings(cfg.credentials.value.secrets);
      if cfg.helloArgLess {
        OneSpelling(frames[0].name, HELLO, "HELLO");
        assert frames == [Command(HELLO, []), auth];
      } else {
        assert frames == [auth];
      }
    }
  }

  lemma HelloMapIsOne(cfg: Settings, c: Command)
    requires Usable(cfg) && !IsRefused(cfg) && cfg.style == HelloMandatory && IsHelloMap(c, cfg)
    ensures c == Command(HELLO, [Map(HelloPairs(cfg))])
  {
    hide Spells;
    CommandsAreSpelled();
    LongNamesAreSpelled();
    var pairs := c.args[0].pairs;
    var last := pairs[|pairs| - 1];
    OneSpelling(c.name, HELLO, "HELLO");
    OneSpelling(pairs[0].key.s, VERSION, "version");
    OneSpelling(last.key.s, CLIENT_NAME, "client_name");
    if cfg.clientName == [] { OneSpelling(last.val.s, DEFAULT_NAME, "thunder-client"); }
    if cfg.credentials.Some? {
      if cfg.credentials.value.kind == Token {
        OneSpelling(pairs[1].key.s, TOKEN, "token");
      } else {
        OneSpelling(pairs[1].key.s, API_KEY, "api_key");
      }
    }
    assert pairs == HelloPairs(cfg);
    assert c.args == [Map(pairs)];
  }

  /** The first pair with this text as its key. */
  ghost predicate FirstNamed(pairs: seq<Entry>, name: string, i: nat) {
    i < |pairs| && IsNamed(pairs[i].key, name) && forall j | 0 <= j < i :: !IsNamed(pairs[j].key, name)
  }

  ghost predicate Under(reply: Value, name: string, v: Value) {
    reply.Map? && exists i: nat :: FirstNamed(reply.pairs, name, i) && reply.pairs[i].val == v
  }

  /** `at` lists the positions of the strings of a list, from front to back. */
  ghost predicate PicksAt(items: seq<Value>, names: seq<Octets>, at: seq<nat>) {
    && |at| == |names| && (forall i, j | 0 <= i < j < |at| :: at[i] < at[j])
    && (forall i | 0 <= i < |at| :: at[i] < |items| && items[at[i]] == Str(names[i]))
    && forall k: nat | k < |items| && items[k].Str? :: k in at
  }

  /** The strings of a list, in order and with their repetitions. */
  ghost predicate Picks(items: seq<Value>, names: seq<Octets>) {
    exists at :: PicksAt(items, names, at)
  }

  /** What a reply to HELLO tells: authenticated exactly if that key holds true; the
      strings of the list under capabilities, and none if there is no list. */
  ghost predicate Tells(reply: Value, info: Info) {
    && (info.authenticated <==> Under(reply, "authenticated", Bool(true)))
    && (|| (exists items :: Under(reply, "capabilities", Array(items)) && Picks(items, info.capabilities))
        || (info.capabilities == [] && forall items :: !Under(reply, "capabilities", Array(items))))
  }

  lemma UnderIffGet(reply: Value, name: string, key: Octets, v: Value)
    requires Spells(key, name)
    ensures Under(reply, name, v) <==> MapGet(reply, key) == Some(v)
  {
    hide Spells;
    if reply.Map? {
      forall k: Value ensures IsNamed(k, name) <==> k == Str(key) {
        if IsNamed(k, name) { OneSpelling(k.s, key, name); }
      }
      LookupIsFirstMatch(reply.pairs, key);
      forall i: nat, j: nat | FirstNamed(reply.pairs, name, i) && FirstNamed(reply.pairs, name, j) ensures i == j {
        assert !(i < j) && !(j < i);
      }
      if Lookup(reply.pairs, key).Some? {
        var i :| 0 <= i < |reply.pairs| && reply.pairs[i] == Entry(Str(key), Lookup(reply.pairs, key).value)
          && forall j | 0 <= j < i :: reply.pairs[j].key != Str(key);
        assert FirstNamed(reply.pairs, name, i);
      }
    }
  }

  lemma {:induction false} StringItemsArePicked(items: seq<Value>)
    ensures Picks(items, StringItems(items))
  {
    if items == [] {
      assert PicksAt(items, [], []);
    } else {
      StringItemsArePicked(items[1..]);
      var rest :| PicksAt(items[1..], StringItems(items[1..]), rest);
      PickedLater(items, StringItems(items[1..]), rest);
      assert [] + StringItems(items[1..]) == StringItems(items[1..]);
    }
  }

  function Later(rest: seq<nat>): (r: seq<nat>)
    ensures |r| == |rest| && forall i | 0 <= i < |rest| :: r[i] == rest[i] + 1
  {
    seq(|rest|, i requires 0 <= i < |rest| => rest[i] + 1)
  }

  lemma LaterItems(items: seq<Value>, rest: seq<nat>, k: nat)
    requires items != [] && 0 < k < |items| && items[k].Str?
    requires forall j: nat | j < |items[1..]| && items[1..][j].Str? :: j in rest
    ensures k in Later(rest)
  {
    assert items[1..][k - 1] == items[k];
    var i :| 0 <= i < |rest| && rest[i] == k - 1;
    assert Later(rest)[i] == k;
  }

  lemma PickedLater(items: seq<Value>, names: seq<Octets>, rest: seq<nat>)
    requires items != [] && PicksAt(items[1..], names, rest)
    ensures items[0].Str? ==> Picks(items, [items[0].s] + names)
    ensures !items[0].Str? ==> Picks(items, names)
  {
    hide Later;
    var later := Later(rest);
    forall k: nat | 0 < k < |items| && items[k].Str? ensures k in later { LaterItems(items, rest, k); }
    forall i | 0 <= i < |later| ensures later[i] < |items| && items[later[i]] == Str(names[i]) {
      assert items[1..][rest[i]] == items[rest[i] + 1];
    }
    if items[0].Str? {
      FirstPicked(items, names, later);
    } else {
      assert PicksAt(items, names, later);
    }
  }

  lemma FirstPicked(items: seq<Value>, names: seq<Octets>, later: seq<nat>)
    requires items != [] && items[0].Str? && |later| == |names|
    requires forall i, j | 0 <= i < j < |later| :: later[i] < later[j]
    requires forall i | 0 <= i < |later| :: 0 < later[i] < |items| && items[later[i]] == Str(names[i])
    requires forall k: nat | 0 < k < |items| && items[k].Str? :: k in later
    ensures Picks(items, [items[0].s] + names)
  {
    var at, all := [0] + later, [items[0].s] + names;
    forall i | 0 <= i < |at| ensures at[i] < |items| && items[at[i]] == Str(all[i]) {
      assert i > 0 ==> at[i] == later[i - 1] && all[i] == names[i - 1];
    }
    forall k: nat | k < |items| && items[k].Str? ensures k in at {
      assert k == 0 || k in later;
    }
    assert PicksAt(items, all, at);
  }

  lemma HelloInfoTells(reply: Value)
    ensures Tells(reply, HelloInfo(reply))
  {
    hide Spells, Under, MapGet, StringItems, Picks;
    ReplyKeysAreSpelled();
    forall v ensures Under(reply, "authenticated", v) <==> MapGet(reply, AUTHENTICATED) == Some(v) {
      UnderIffGet(reply, "authenticated", AUTHENTICATED, v);
    }
    forall v ensures Under(reply, "capabilities", v) <==> MapGet(reply, CAPABILITIES) == Some(v) {
      UnderIffGet(reply, "capabilities", CAPABILITIES, v);
    }
    forall items ensures Picks(items, StringItems(items)) { StringItemsArePicked(items); }
  }

  /** What the handshake learns: from the reply to HELLO what it tells, from an accepted AUTH
      that the client is authenticated, and nothing where nothing was sent. */
  ghost predicate Learns(cfg: Settings, last: Option<Value>, info: Info) {
    match last
    case None => info == Info(false, [])
    case Some(v) => if cfg.style == HelloMandatory then Tells(v, info) else info == Info(true, [])
  }

  lemma LearnedIsLearnt(cfg: Settings, last: Option<Value>)
    ensures Learns(cfg, last, Learned(cfg, last))
  {
    if last.Some? { HelloInfoTells(last.value); }
  }

  predicate AllAnswered(script: seq<Outcome>, n: nat) { n <= |script| && forall i | 0 <= i < n :: script[i].Ok? }

  /** The end of an exchange in which n of the frames were sent: each was answered with
      success, or the last one failed, a server's refusal being an authentication error. */
  ghost predicate Ends(cfg: Settings, frames: seq<Command>, script: seq<Outcome>, n: nat, r: Result<Info, Err>) {
    match r
    case Ok(info) =>
      n == |frames| && AllAnswered(script, n) && Learns(cfg, if n == 0 then None else Some(script[n - 1].value), info)
    case Err(e) =>
      && n > 0 && AllAnswered(script, n - 1)
      && if |script| < n then e == ConnectionError
         else script[n - 1].Err?
              && e == match script[n - 1].error
                      case ServerError(_) => AuthError
                      case WriteFailed => ConnectionError
                      case other => other
  }

  /** What was sent and what came of it, in terms of the frames themselves. */
  ghost predicate Greets(cfg: Settings, script: seq<Outcome>, sent: seq<Command>, r: Result<Info, Err>)
    requires Usable(cfg)
  {
    if IsRefused(cfg) then sent == [] && r == Err(AuthError)
    else exists frames :: OpensWith(cfg, frames) && sent <= frames && Ends(cfg, frames, script, |sent|, r)
  }

  lemma {:induction false} ExchangeEnds(cmds: seq<Command>, script: seq<Outcome>, last: Option<Value>)
    ensures var (sent, r) := Exchange(cmds, script, last);
      && sent <= cmds && (r.Err? ==> |sent| > 0)
      && AllAnswered(script, if r.Ok? then |cmds| else |sent| - 1)
      && (r.Ok? ==> sent == cmds && r.value == if |cmds| == 0 then last else Some(script[|cmds| - 1].value))
      && (r.Err? && |script| < |sent| ==> r.error == ConnectionError)
      && (r.Err? && |script| >= |sent| ==> script[|sent| - 1].Err? && r.error == AsHandshakeError(script[|sent| - 1].error))
    decreases cmds
  {
    hide AsHandshakeError;
    if cmds != [] && FirstReply(script).Ok? {
      ExchangeEnds(cmds[1..], script[1..], Some(FirstReply(script).value));
      var (sent, r) := Exchange(cmds[1..], script[1..], Some(FirstReply(script).value));
      assert forall i :: 0 < i < |script| ==> script[i] == script[1..][i - 1];
      assert [cmds[0]] + cmds[1..] == cmds;
    }
  }

  lemma FollowsGreets(cfg: Settings, script: seq<Outcome>, sent: seq<Command>, r: Result<Info, Err>)
    requires Usable(cfg) && Follows(cfg, script, sent, r)
    ensures Greets(cfg, script, sent, r)
  {
    hide OpensWith, Learned, Learns, Exchange;
    var opening := Opening(cfg);
    if opening.Ok? {
      var frames := opening.value;
      OpeningMeans(cfg, frames);
      ExchangeEnds(frames, script, None);
      var last := Exchange(frames, script, None).1;
      if last.Ok? { LearnedIsLearnt(cfg, last.value); }
      assert Ends(cfg, frames, script, |sent|, r);
    } else {
      OpeningMeans(cfg, []);
    }
  }

  method RunHandshake(cfg: Settings, session: Session) returns (r: Result<Info, Err>)
    requires Usable(cfg) && session.sent == []
    modifies session
    ensures Follows(cfg, old(session.script), session.sent, r)
    ensures Greets(cfg, old(session.script), session.sent, r)
  {
    match cfg.style
    case NoHandshake =>
      r := Ok(BLANK);
      FollowsGreets(cfg, old(session.script), session.sent, r);
    case AuthCommand =>
      r := RunAuth(cfg, session);
    case HelloMandatory =>
      r := RunHello(cfg, session);
  }

  method RunAuth(cfg: Settings, session: Session) returns (r: Result<Info, Err>)
    requires Usable(cfg) && session.sent == [] && cfg.style == AuthCommand
    modifies session
    ensures Follows(cfg, old(session.script), session.sent, r)
    ensures Greets(cfg, old(session.script), session.sent, r)
  {
    hide HelloInfo, FirstReply, Greets;
    if cfg.credentials.None? {
      r := Ok(BLANK);
      FollowsGreets(cfg, old(session.script), session.sent, r);
      return;
    }
    var secrets := cfg.credentials.value.secrets;
    var authArgs: seq<Value> := [];
    for i := 0 to |secrets|
      invariant session.sent == [] && session.script == old(session.script)
      invariant |authArgs| == i && forall j :: 0 <= j < i ==> authArgs[j] == Str(secrets[j])
    {
      authArgs := authArgs + [Str(secrets[i])];
    }
    assert authArgs == Strings(secrets);
    var auth := Command(AUTH, authArgs);
    if cfg.helloArgLess {
      var cmds := [Command(HELLO, []), auth];
      assert cmds[1..] == [auth];
      var hello := session.Call(Command(HELLO, []));
      if hello.Err? {
        r := Err(hello.error);
        FollowsGreets(cfg, old(session.script), session.sent, r);
        return;
      }
      ghost var script := session.script;
      OneExchange(auth, script, Some(hello.value));
    } else {
      OneExchange(auth, session.script, None);
    }
    var ok := session.Call(auth);
    r := if ok.Err? then Err(ok.error) else Ok(Info(true, []));
    FollowsGreets(cfg, old(session.script), session.sent, r);
  }

  method RunHello(cfg: Settings, session: Session) returns (r: Result<Info, Err>)
    requires Usable(cfg) && session.sent == [] && cfg.style == HelloMandatory
    modifies session
    ensures Follows(cfg, old(session.script), session.sent, r)
    ensures Greets(cfg, old(session.script), session.sent, r)
  {
    hide HelloInfo, FirstReply, Greets;
    if cfg.credentials.Some? && cfg.credentials.value.kind == UserPass {
      r := Err(AuthError);
      FollowsGreets(cfg, old(session.script), session.sent, r);
      return;
    }
    var pairs := [Entry(Str(VERSION), Int(1))];
    if cfg.credentials.Some? {
      var key := if cfg.credentials.value.kind == Token then TOKEN else API_KEY;
      pairs := pairs + [Entry(Str(key), Str(cfg.credentials.value.secrets[0]))];
    }
    var name := if cfg.clientName == [] then DEFAULT_NAME else cfg.clientName;
    pairs := pairs + [Entry(Str(CLIENT_NAME), Str(name))];
    assert pairs == HelloPairs(cfg);
    OneExchange(Command(HELLO, [Map(pairs)]), session.script, None);
    var reply := session.Call(Command(HELLO, [Map(pairs)]));
    if reply.Err? {
      r := Err(reply.error);
    } else {
      var info := ParseHelloInfo(reply.value);
      r := Ok(info);
    }
    FollowsGreets(cfg, old(session.script), session.sent, r);
  }

  lemma OneExchange(c: Command, script: seq<Outcome>, last: Option<Value>)
    ensures Exchange([c], script, last) ==
      ([c], match FirstReply(script) { case Err(e) => Err(e) case Ok(v) => Ok(Some(v)) })
  {
    assert [c][1..] == [];
    assert [c] + [] == [c];
  }

  /** Success means the whole opening was sent; a failure, that sending stopped at it. */
  lemma {:induction false} ExchangeSendsPrefix(cmds: seq<Command>, script: seq<Outcome>, last: Option<Value>)
    ensures var (sent, r) := Exchange(cmds, script, last);
      sent <= cmds && (r.Ok? <==> |script| >= |cmds| && forall i :: 0 <= i < |cmds| ==> script[i].Ok?)
      && (r.Ok? ==> sent == cmds)
    decreases cmds
  {
    if cmds != [] && FirstReply(script).Ok? {
      ExchangeSendsPrefix(cmds[1..], script[1..], Some(FirstReply(script).value));
      assert forall i :: 0 < i < |cmds| && i < |script| ==> script[i] == script[1..][i - 1];
    }
  }
}
