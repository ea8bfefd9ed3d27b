/** The control-stream handshake: what an agent writes and how the gateway dispatches on it. */
module Handshake {
  import opened Common
  import opened Wire

  // ---------------------------------------------------------------- small frames

  datatype Hello = Hello(version: nat, client: Bytes)

  function PutHello(version: nat, client: Bytes, tail: Bytes): Bytes {
    [MSG_HELLO] + (U16(version) + Put16(client, tail))
  }

  /** EncodeHello cuts the client version to its limit. */
  function Cut(client: Bytes): Bytes { if |client| > MAX_VERSION then client[..MAX_VERSION] else client }

  /** DecodeHello: the type byte has been read already. */
  function ParseHello(input: Bytes): Parse<Hello> {
    var header :- Take(4, input);
    var size := FromU16(header.value[2..]);
    if size > MAX_VERSION then Err(TooLong)
    else
      var client :- Take(size, header.rest);
      Ok(Parsed(Hello(FromU16(header.value[..2]), client.value), client.rest))
  }

  function PutAuth(token: Bytes, tail: Bytes): Bytes { [MSG_AUTH] + Put16(token, tail) }

  function ParseAuth(input: Bytes): Parse<Bytes> { TakeTyped(MSG_AUTH, MAX_TOKEN, input) }

  function PutResume(token: Bytes, tail: Bytes): Bytes { [MSG_SESSION_RESUME] + Put16(token, tail) }

  function ParseResume(input: Bytes): Parse<Bytes> { TakeTyped(MSG_SESSION_RESUME, MAX_RESUME_TOKEN, input) }

  /** A hello decodes to the version that was sent and to the client version: whole if it is within 64
      bytes, and its first 64 bytes otherwise. */
  lemma HelloRoundTrip(version: nat, client: Bytes, tail: Bytes)
    requires version < 65536
    ensures Cut(client) == if |client| <= 64 then client else client[..64]
    ensures PutHello(version, Cut(client), tail)[0] == MSG_HELLO
    ensures ParseHello(PutHello(version, Cut(client), tail)[1..]) == Ok(Parsed(Hello(version, Cut(client)), tail))
  {
    var c := Cut(client);
    var input := PutHello(version, c, tail)[1..];
    assert input == U16(version) + Put16(c, tail);
    U16RoundTrip(version);
    U16RoundTrip(|c|);
    assert input[..4][..2] == U16(version) && input[..4][2..] == U16(|c|) && input[4..] == c + tail;
  }

  // ---------------------------------------------------------------- the gateway

  datatype Control =
    | HelloMsg(hello: Hello)
    | ResumeMsg(token: Bytes)
    | AuthMsg(token: Bytes)
    | AuthV2Msg(auth: AuthV2)

  /** Dispatch on an authentication frame; the type byte read is put back before decoding. */
  function DispatchAuth(kind: Byte, input: Bytes): Parse<Control> {
    if kind == MSG_AUTH_V2 then
      var m :- ParseAuthV2([kind] + input);
      Ok(Parsed(AuthV2Msg(m.value), m.rest))
    else if kind == MSG_AUTH then
      var m :- ParseAuth([kind] + input);
      Ok(Parsed(AuthMsg(m.value), m.rest))
    else Err(WrongType)
  }

  /** The type byte of the next frame, then that frame. */
  function DispatchNext(input: Bytes): Parse<Control> {
    var next :- Take(1, input);
    DispatchAuth(next.value[0], next.rest)
  }

  /** A resumed session skips authentication; a rejected one goes on to the next frame. */
  function DispatchResume(input: Bytes, resumed: bool): Parse<seq<Control>> {
    var r :- ParseResume(input);
    if resumed then Ok(Parsed([ResumeMsg(r.value)], r.rest))
    else
      var a :- DispatchNext(r.rest);
      Ok(Parsed([ResumeMsg(r.value), a.value], a.rest))
  }

  /** Dispatch after the optional hello. */
  function DispatchSession(kind: Byte, input: Bytes, resumed: bool): Parse<seq<Control>> {
    if kind == MSG_SESSION_RESUME then DispatchResume([kind] + input, resumed)
    else
      var a :- DispatchAuth(kind, input);
      Ok(Parsed([a.value], a.rest))
  }

  /** handleAgentConnection up to authentication. */
  function Dispatch(input: Bytes, resumed: bool): Parse<seq<Control>> {
    var kind :- Take(1, input);
    if kind.value[0] != MSG_HELLO then DispatchSession(kind.value[0], kind.rest, resumed)
    else
      var hello :- ParseHello(kind.rest);
      if hello.value.version != PROTOCOL_VERSION then Err(BadVersion)
      else
        var next :- Take(1, hello.rest);
        var session :- DispatchSession(next.value[0], next.rest, resumed);
        Ok(Parsed([HelloMsg(hello.value)] + session.value, session.rest))
  }

  // ---------------------------------------------------------------- the agent

  datatype Agent = Agent(
    client: Bytes, token: Bytes, tunnels: seq<TunnelEntry>, region: Bytes,
    resumeEnabled: bool, resumeToken: Bytes)

  predicate TriesResume(a: Agent) { a.resumeEnabled && a.resumeToken != [] }

  /** The configurations whose frames all encode. */
  ghost predicate AgentEncodable(a: Agent) {
    && (TriesResume(a) ==> |a.resumeToken| <= MAX_RESUME_TOKEN)
    && (if a.tunnels != [] then AuthV2Encodable(AuthV2(a.token, a.tunnels, a.region)) else |a.token| <= MAX_TOKEN)
  }

  function AuthFrame(a: Agent, tail: Bytes): Bytes {
    if a.tunnels != [] then PutAuthV2(AuthV2(a.token, a.tunnels, a.region), tail) else PutAuth(a.token, tail)
  }

  function SessionFrames(a: Agent, tail: Bytes): Bytes {
    if TriesResume(a) then PutResume(a.resumeToken, AuthFrame(a, tail)) else AuthFrame(a, tail)
  }

  /** Everything the agent writes when a resumption it tries is rejected. */
  function AgentStream(a: Agent, tail: Bytes): Bytes {
    PutHello(PROTOCOL_VERSION, Cut(a.client), SessionFrames(a, tail))
  }

  /** The messages an agent means to send: a V2 authentication exactly if it has tunnels, and before
      it a resumption exactly if that is enabled and it has a token. */
  function AuthSent(a: Agent): Control {
    if |a.tunnels| > 0 then AuthV2Msg(AuthV2(a.token, a.tunnels, a.region)) else AuthMsg(a.token)
  }

  function SessionSent(a: Agent): seq<Control> {
    if a.resumeEnabled && |a.resumeToken| > 0 then [ResumeMsg(a.resumeToken), AuthSent(a)] else [AuthSent(a)]
  }

  function Sent(a: Agent): seq<Control> {
    [HelloMsg(Hello(PROTOCOL_VERSION, Cut(a.client)))] + SessionSent(a)
  }

  lemma AuthFrameDispatches(a: Agent, tail: Bytes)
    requires AgentEncodable(a)
    ensures
      var f := AuthFrame(a, tail);
      |f| > 0 && f[0] != MSG_SESSION_RESUME && DispatchAuth(f[0], f[1..]) == Ok(Parsed(AuthSent(a), tail))
  {
    var f := AuthFrame(a, tail);
    assert [f[0]] + f[1..] == f;
    if a.tunnels != [] {
      AuthV2RoundTrip(AuthV2(a.token, a.tunnels, a.region), tail);
    } else {
      PutTakeTyped(MSG_AUTH, MAX_TOKEN, a.token, tail);
    }
  }

  lemma RejectedResumeDispatches(token: Bytes, auth: Bytes, c: Control, tail: Bytes)
    requires |token| <= MAX_RESUME_TOKEN && |auth| > 0
    requires DispatchAuth(auth[0], auth[1..]) == Ok(Parsed(c, tail))
    ensures
      var f := PutResume(token, auth);
      f[0] == MSG_SESSION_RESUME && DispatchSession(f[0], f[1..], false) == Ok(Parsed([ResumeMsg(token), c], tail))
  {
    var f := PutResume(token, auth);
    assert [f[0]] + f[1..] == f;
    PutTakeTyped(MSG_SESSION_RESUME, MAX_RESUME_TOKEN, token, auth);
  }

  lemma SessionDispatches(a: Agent, tail: Bytes)
    requires AgentEncodable(a)
    ensures
      var f := SessionFrames(a, tail);
      |f| > 0 && DispatchSession(f[0], f[1..], false) == Ok(Parsed(SessionSent(a), tail))
  {
    AuthFrameDispatches(a, tail);
    if TriesResume(a) {
      RejectedResumeDispatches(a.resumeToken, AuthFrame(a, tail), AuthSent(a), tail);
    }
  }

  /** The gateway reads an agent's control stream into exactly the messages the agent sent, and
      leaves exactly what followed them. */
  lemma HandshakeParses(a: Agent, tail: Bytes)
    requires AgentEncodable(a)
    ensures Dispatch(AgentStream(a, tail), false) == Ok(Parsed(Sent(a), tail))
  {
    SessionDispatches(a, tail);
    HelloRoundTrip(PROTOCOL_VERSION, a.client, SessionFrames(a, tail));
  }

  // ---------------------------------------------------------------- the other outcomes

  /** An accepted resumption ends the handshake: the gateway has read the hello and the token, and
      leaves exactly what followed. */
  lemma ResumedParses(client: Bytes, token: Bytes, tail: Bytes)
    requires |token| <= MAX_RESUME_TOKEN
    ensures Dispatch(PutHello(PROTOCOL_VERSION, Cut(client), PutResume(token, tail)), true)
            == Ok(Parsed([HelloMsg(Hello(PROTOCOL_VERSION, Cut(client))), ResumeMsg(token)], tail))
  {
    var f := PutResume(token, tail);
    HelloRoundTrip(PROTOCOL_VERSION, client, f);
    assert [f[0]] + f[1..] == f;
    PutTakeTyped(MSG_SESSION_RESUME, MAX_RESUME_TOKEN, token, tail);
    var hello := HelloMsg(Hello(PROTOCOL_VERSION, Cut(client)));
    assert [hello] + [ResumeMsg(token)] == [hello, ResumeMsg(token)];
  }

  /** The hello may be left out. */
  lemma HelloIsOptional(a: Agent, tail: Bytes)
    requires AgentEncodable(a)
    ensures Dispatch(SessionFrames(a, tail), false) == Ok(Parsed(SessionSent(a), tail))
  {
    SessionDispatches(a, tail);
    var f := SessionFrames(a, tail);
    assert f[0] != MSG_HELLO;
  }

  /** A hello of any other protocol version is refused, whatever follows. */
  lemma OtherVersionsRefused(version: nat, client: Bytes, tail: Bytes, resumed: bool)
    requires version < 65536 && version != PROTOCOL_VERSION
    ensures Dispatch(PutHello(version, Cut(client), tail), resumed) == Err(BadVersion)
  {
    HelloRoundTrip(version, client, tail);
  }

  predicate Known(kind: Byte) {
    kind == MSG_HELLO || kind == MSG_AUTH || kind == MSG_AUTH_V2 || kind == MSG_SESSION_RESUME
  }

  /** A first frame of any other type is refused, and so is one after the hello or, with a second
      hello or resumption counted in, after a rejected resumption. */
  lemma OtherTypesRefused(kind: Byte, rest: Bytes, client: Bytes, token: Bytes, resumed: bool)
    requires |token| <= MAX_RESUME_TOKEN
    ensures !Known(kind) ==> Dispatch([kind] + rest, resumed) == Err(WrongType)
    ensures !Known(kind) || kind == MSG_HELLO ==>
              Dispatch(PutHello(PROTOCOL_VERSION, Cut(client), [kind] + rest), resumed) == Err(WrongType)
    ensures kind != MSG_AUTH && kind != MSG_AUTH_V2 ==>
              Dispatch(PutResume(token, [kind] + rest), false) == Err(WrongType)
  {
    HelloRoundTrip(PROTOCOL_VERSION, client, [kind] + rest);
    var f := PutResume(token, [kind] + rest);
    assert [f[0]] + f[1..] == f;
    PutTakeTyped(MSG_SESSION_RESUME, MAX_RESUME_TOKEN, token, [kind] + rest);
  }
}
