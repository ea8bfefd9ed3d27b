/** Exactly which control streams the gateway accepts: the frames of a well-formed list of messages. */
module HandshakeExact {
  import opened Common
  import opened Wire
  import opened Handshake

  /** The frame of a message, followed by `tail`. */
  function FrameOf(c: Control, tail: Bytes): Bytes {
    match c
    case HelloMsg(h) => PutHello(h.version, h.client, tail)
    case ResumeMsg(token) => PutResume(token, tail)
    case AuthMsg(token) => PutAuth(token, tail)
    case AuthV2Msg(m) => PutAuthV2(m, tail)
  }

  function FramesOf(cs: seq<Control>, tail: Bytes): Bytes {
    if cs == [] then tail else FrameOf(cs[0], FramesOf(cs[1..], tail))
  }

  ghost predicate Fits(c: Control) {
    match c
    case HelloMsg(h) => h.version == 3 && |h.client| <= 64
    case ResumeMsg(token) => |token| <= 512
    case AuthMsg(token) => |token| <= 4096
    case AuthV2Msg(m) => AuthV2Encodable(m)
  }

  predicate IsAuth(c: Control) { c.AuthMsg? || c.AuthV2Msg? }

  /** After the hello: an authentication, a resumption that is accepted, or one that is rejected and an
      authentication. */
  predicate IsSession(cs: seq<Control>, resumed: bool) {
    || (|cs| == 1 && IsAuth(cs[0]))
    || (|cs| == 1 && cs[0].ResumeMsg? && resumed)
    || (|cs| == 2 && cs[0].ResumeMsg? && !resumed && IsAuth(cs[1]))
  }

  /** A session, with or without a hello before it. */
  predicate IsHandshake(cs: seq<Control>, resumed: bool) {
    IsSession(cs, resumed) || (cs != [] && cs[0].HelloMsg? && IsSession(cs[1..], resumed))
  }

  ghost predicate AllFit(cs: seq<Control>) { forall i :: 0 <= i < |cs| ==> Fits(cs[i]) }

  lemma OneFrame(c: Control, tail: Bytes)
    ensures FramesOf([c], tail) == FrameOf(c, tail)
  {
    assert [c][1..] == [];
  }

  lemma OneMore(c: Control, cs: seq<Control>, tail: Bytes)
    ensures FramesOf([c] + cs, tail) == FrameOf(c, FramesOf(cs, tail))
  {
    assert ([c] + cs)[1..] == cs;
  }

  // ---------------------------------------------------------------- what is accepted is made of frames

  lemma AuthIsFrame(kind: Byte, input: Bytes)
    requires DispatchAuth(kind, input).Ok?
    ensures
      var p := DispatchAuth(kind, input).value;
      IsAuth(p.value) && Fits(p.value) && [kind] + input == FrameOf(p.value, p.rest)
  {
    if kind == MSG_AUTH_V2 {
      AuthV2Canonical([kind] + input);
    } else {
      TakePutTyped(MSG_AUTH, MAX_TOKEN, [kind] + input);
    }
  }

  lemma NextIsFrame(input: Bytes)
    requires DispatchNext(input).Ok?
    ensures
      var p := DispatchNext(input).value;
      IsAuth(p.value) && Fits(p.value) && input == FrameOf(p.value, p.rest)
  {
    AuthIsFrame(input[0], input[1..]);
    assert [input[0]] + input[1..] == input;
  }

  lemma ResumeIsFrames(input: Bytes, resumed: bool)
    requires DispatchResume(input, resumed).Ok?
    ensures
      var p := DispatchResume(input, resumed).value;
      IsSession(p.value, resumed) && AllFit(p.value) && input == FramesOf(p.value, p.rest)
  {
    var r := ParseResume(input).value;
    var token := ResumeMsg(r.value);
    TakePutTyped(MSG_SESSION_RESUME, MAX_RESUME_TOKEN, input);
    if resumed {
      OneFrame(token, r.rest);
    } else {
      NextIsFrame(r.rest);
      var a := DispatchNext(r.rest).value;
      OneFrame(a.value, a.rest);
      OneMore(token, [a.value], a.rest);
      assert [token] + [a.value] == [token, a.value];
    }
  }

  lemma SessionIsFrames(kind: Byte, input: Bytes, resumed: bool)
    requires DispatchSession(kind, input, resumed).Ok?
    ensures
      var p := DispatchSession(kind, input, resumed).value;
      IsSession(p.value, resumed) && AllFit(p.value) && [kind] + input == FramesOf(p.value, p.rest)
  {
    if kind == MSG_SESSION_RESUME {
      ResumeIsFrames([kind] + input, resumed);
    } else {
      AuthIsFrame(kind, input);
      var a := DispatchAuth(kind, input).value;
      OneFrame(a.value, a.rest);
    }
  }

  /** A decoded hello is the input again, and its client version is within the limit. */
  lemma HelloCanonical(input: Bytes)
    requires ParseHello(input).Ok?
    ensures
      var p := ParseHello(input).value;
      |p.value.client| <= 64 && p.value.version < 65536
      && [MSG_HELLO] + input == PutHello(p.value.version, p.value.client, p.rest)
  {
    var p := ParseHello(input).value;
    FromU16Bytes(input[..4][..2]);
    FromU16Bytes(input[..4][2..]);
    assert input[4..] == p.value.client + p.rest;
    assert input == U16(p.value.version) + (U16(|p.value.client|) + (p.value.client + p.rest));
  }

  lemma HandshakeIsFrames(input: Bytes, resumed: bool)
    requires Dispatch(input, resumed).Ok?
    ensures
      var p := Dispatch(input, resumed).value;
      IsHandshake(p.value, resumed) && AllFit(p.value) && input == FramesOf(p.value, p.rest)
  {
    assert [input[0]] + input[1..] == input;
    if input[0] != MSG_HELLO {
      SessionIsFrames(input[0], input[1..], resumed);
    } else {
      HelloCanonical(input[1..]);
      var h := ParseHello(input[1..]).value;
      assert [h.rest[0]] + h.rest[1..] == h.rest;
      SessionIsFrames(h.rest[0], h.rest[1..], resumed);
      var s := DispatchSession(h.rest[0], h.rest[1..], resumed).value;
      OneMore(HelloMsg(h.value), s.value, s.rest);
      assert ([HelloMsg(h.value)] + s.value)[1..] == s.value;
    }
  }

  // ---------------------------------------------------------------- frames are accepted

  lemma AuthFrameParses(c: Control, tail: Bytes)
    requires IsAuth(c) && Fits(c)
    ensures
      var f := FrameOf(c, tail);
      && |f| > 0 && f[0] != MSG_SESSION_RESUME && f[0] != MSG_HELLO
      && DispatchAuth(f[0], f[1..]) == Ok(Parsed(c, tail))
  {
    var f := FrameOf(c, tail);
    assert [f[0]] + f[1..] == f;
    if c.AuthV2Msg? {
      AuthV2RoundTrip(c.auth, tail);
    } else {
      PutTakeTyped(MSG_AUTH, MAX_TOKEN, c.token, tail);
    }
  }

  lemma AcceptedResumeParses(token: Bytes, tail: Bytes)
    requires |token| <= 512
    ensures
      var f := PutResume(token, tail);
      f[0] == MSG_SESSION_RESUME && DispatchSession(f[0], f[1..], true) == Ok(Parsed([ResumeMsg(token)], tail))
  {
    var f := PutResume(token, tail);
    assert [f[0]] + f[1..] == f;
    PutTakeTyped(MSG_SESSION_RESUME, MAX_RESUME_TOKEN, token, tail);
  }

  lemma AuthSessionParses(c: Control, resumed: bool, tail: Bytes)
    requires IsAuth(c) && Fits(c)
    ensures
      var f := FramesOf([c], tail);
      |f| > 0 && f[0] != MSG_HELLO && DispatchSession(f[0], f[1..], resumed) == Ok(Parsed([c], tail))
  {
    OneFrame(c, tail);
    AuthFrameParses(c, tail);
  }

  lemma RejectedSessionParses(token: Bytes, a: Control, tail: Bytes)
    requires |token| <= 512 && IsAuth(a) && Fits(a)
    ensures
      var f := FramesOf([ResumeMsg(token), a], tail);
      |f| > 0 && f[0] != MSG_HELLO && DispatchSession(f[0], f[1..], false) == Ok(Parsed([ResumeMsg(token), a], tail))
  {
    assert [ResumeMsg(token)] + [a] == [ResumeMsg(token), a];
    OneFrame(a, tail);
    OneMore(ResumeMsg(token), [a], tail);
    AuthFrameParses(a, tail);
    RejectedResumeDispatches(token, FrameOf(a, tail), a, tail);
  }

  lemma SessionFramesParse(cs: seq<Control>, resumed: bool, tail: Bytes)
    requires IsSession(cs, resumed) && AllFit(cs)
    ensures
      var f := FramesOf(cs, tail);
      |f| > 0 && f[0] != MSG_HELLO && DispatchSession(f[0], f[1..], resumed) == Ok(Parsed(cs, tail))
  {
    var c := cs[0];
    assert Fits(c);
    if |cs| == 2 {
      assert Fits(cs[1]) && cs == [c, cs[1]];
      RejectedSessionParses(c.token, cs[1], tail);
    } else if IsAuth(c) {
      assert cs == [c];
      AuthSessionParses(c, resumed, tail);
    } else {
      assert cs == [c];
      OneFrame(c, tail);
      AcceptedResumeParses(c.token, tail);
    }
  }

  lemma HandshakeFramesParse(cs: seq<Control>, resumed: bool, tail: Bytes)
    requires IsHandshake(cs, resumed) && AllFit(cs)
    ensures Dispatch(FramesOf(cs, tail), resumed) == Ok(Parsed(cs, tail))
  {
    if IsSession(cs, resumed) {
      SessionFramesParse(cs, resumed, tail);
    } else {
      var h, session := cs[0].hello, cs[1..];
      assert Fits(cs[0]) && cs == [cs[0]] + session;
      assert forall i :: 0 <= i < |session| ==> session[i] == cs[i + 1];
      SessionFramesParse(session, resumed, tail);
      HelloRoundTrip(h.version, h.client, FramesOf(session, tail));
    }
  }

  /** The gateway accepts a control stream, as these messages and with this remainder, exactly if it
      consists of their frames and the remainder: an optional hello of version 3 and a session, every
      field within its limit. */
  lemma AcceptedIff(input: Bytes, resumed: bool, cs: seq<Control>, rest: Bytes)
    ensures Dispatch(input, resumed) == Ok(Parsed(cs, rest))
            <==> IsHandshake(cs, resumed) && AllFit(cs) && input == FramesOf(cs, rest)
  {
    if Dispatch(input, resumed).Ok? { HandshakeIsFrames(input, resumed); }
    if IsHandshake(cs, resumed) && AllFit(cs) { HandshakeFramesParse(cs, resumed, rest); }
  }
}
