/** Cut-off input: every frame decoder and the handshake itself are indifferent to what follows a
    complete or a refused frame, and find every proper prefix of a frame too short. */
module Truncation {
  import opened Common
  import opened Wire
  import opened WireFrames
  import opened Handshake

  // ---------------------------------------------------------------- later bytes stay behind

  /** A parser that reads on only what it needs: more input just stays behind, and changes no error
      but that the input was too short. */
  ghost predicate Stable<T(!new)>(p: Bytes -> Parse<T>) {
    forall input, more :: StableOn(p, input, more)
  }

  ghost predicate StableOn<T>(p: Bytes -> Parse<T>, input: Bytes, more: Bytes) {
    match p(input)
    case Ok(v) => p(input + more) == Ok(Parsed(v.value, v.rest + more))
    case Err(e) => e == ShortRead || p(input + more) == Err(e)
  }

  lemma TakeStable(n: nat, input: Bytes, more: Bytes)
    ensures StableOn(i => Take(n, i), input, more)
  {
    if n <= |input| {
      assert (input + more)[..n] == input[..n] && (input + more)[n..] == input[n..] + more;
    }
  }

  lemma Take8Stable(max: nat, input: Bytes, more: Bytes)
    ensures StableOn(i => Take8(max, i), input, more)
  {
    TakeStable(1, input, more);
    if input != [] { TakeStable(input[0], input[1..], more); }
  }

  lemma Take16Stable(max: nat, input: Bytes, more: Bytes)
    ensures StableOn(i => Take16(max, i), input, more)
  {
    TakeStable(2, input, more);
    if |input| >= 2 { TakeStable(FromU16(input[..2]), input[2..], more); }
  }

  lemma TypedStable(kind: Byte, max: nat, input: Bytes, more: Bytes)
    ensures StableOn(i => TakeTyped(kind, max, i), input, more)
  {
    TakeStable(3, input, more);
    if |input| >= 3 { TakeStable(FromU16(input[..3][1..]), input[3..], more); }
  }

  lemma {:induction false} ItemsStable<T(!new)>(p: Bytes -> Parse<T>, count: nat, input: Bytes, more: Bytes)
    requires Stable(p)
    ensures StableOn(i => TakeItems(p, count, i), input, more)
    decreases count
  {
    if count > 0 {
      assert StableOn(p, input, more);
      if p(input).Ok? { ItemsStable(p, count - 1, p(input).value.rest, more); }
    }
  }

  lemma EntryStable()
    ensures Stable(ParseEntry)
  {
    forall input, more ensures StableOn(ParseEntry, input, more) {
      var tag := Take8(MAX_LABEL, input);
      Take8Stable(MAX_LABEL, input, more);
      if tag.Ok? {
        var addr := Take16(MAX_LOCAL_ADDR, tag.value.rest);
        Take16Stable(MAX_LOCAL_ADDR, tag.value.rest, more);
        if addr.Ok? { Take8Stable(MAX_LABEL, addr.value.rest, more); }
      }
    }
  }

  lemma ListStable<T(!new)>(p: Bytes -> Parse<T>, max: nat, input: Bytes, more: Bytes)
    requires Stable(p)
    ensures StableOn(i => TakeList(p, max, i), input, more)
  {
    TakeStable(1, input, more);
    if input != [] { ItemsStable(p, input[0], input[1..], more); }
  }

  lemma AuthV2Stable(input: Bytes, more: Bytes)
    ensures StableOn(ParseAuthV2, input, more)
  {
    var token := TakeTyped(MSG_AUTH_V2, MAX_TOKEN, input);
    TypedStable(MSG_AUTH_V2, MAX_TOKEN, input, more);
    EntryStable();
    if token.Ok? {
      var tunnels := TakeList(ParseEntry, MAX_TUNNELS, token.value.rest);
      ListStable(ParseEntry, MAX_TUNNELS, token.value.rest, more);
      if tunnels.Ok? { Take8Stable(MAX_REGION, tunnels.value.rest, more); }
    }
  }

  lemma StatusStable(kind: Byte, max: nat, input: Bytes, more: Bytes)
    ensures StableOn(i => TakeStatus(kind, max, i), input, more)
  {
    TakeStable(4, input, more);
    if |input| >= 4 { TakeStable(FromU16(input[..4][2..]), input[4..], more); }
  }

  lemma HostStable()
    ensures Stable(ParseHost)
  {
    forall input, more ensures StableOn(ParseHost, input, more) {
      var tag := Take8(255, input);
      Take8Stable(255, input, more);
      if tag.Ok? { Take16Stable(MAX_PUBLIC_URL, tag.value.rest, more); }
    }
  }

  lemma GatewayStable()
    ensures Stable(ParseGateway)
  {
    forall input, more ensures StableOn(ParseGateway, input, more) {
      Take16Stable(MAX_PUBLIC_URL, input, more);
    }
  }

  lemma ResponseStable(input: Bytes, more: Bytes)
    ensures StableOn(ParseResponse, input, more)
  {
    var id := TakeStatus(MSG_AUTH_RESP_V2, MAX_TUNNEL_ID, input);
    StatusStable(MSG_AUTH_RESP_V2, MAX_TUNNEL_ID, input, more);
    HostStable();
    GatewayStable();
    if id.Ok? {
      var tunnels := TakeList(ParseHost, MAX_TUNNELS, id.value.rest);
      ListStable(ParseHost, MAX_TUNNELS, id.value.rest, more);
      if tunnels.Ok? {
        var resume := Take16(MAX_RESUME_TOKEN, tunnels.value.rest);
        Take16Stable(MAX_RESUME_TOKEN, tunnels.value.rest, more);
        if resume.Ok? {
          var region := Take8(MAX_REGION, resume.value.rest);
          Take8Stable(MAX_REGION, resume.value.rest, more);
          if region.Ok? { ListStable(ParseGateway, MAX_GATEWAYS, region.value.rest, more); }
        }
      }
    }
  }

  lemma ResumeReplyStable(input: Bytes, more: Bytes)
    ensures StableOn(ParseResumeReply, input, more)
  {
    var id := TakeStatus(MSG_SESSION_RESUME_RESP, MAX_TUNNEL_ID, input);
    StatusStable(MSG_SESSION_RESUME_RESP, MAX_TUNNEL_ID, input, more);
    if id.Ok? { Take16Stable(MAX_RESUME_TOKEN, id.value.rest, more); }
  }

  lemma HelloStable(input: Bytes, more: Bytes)
    ensures StableOn(ParseHello, input, more)
  {
    TakeStable(4, input, more);
    if |input| >= 4 { TakeStable(FromU16(input[..4][2..]), input[4..], more); }
  }

  lemma AuthStable(kind: Byte, input: Bytes, more: Bytes)
    ensures StableOn(i => DispatchAuth(kind, i), input, more)
  {
    assert [kind] + (input + more) == [kind] + input + more;
    if kind == MSG_AUTH_V2 {
      AuthV2Stable([kind] + input, more);
    } else if kind == MSG_AUTH {
      TypedStable(MSG_AUTH, MAX_TOKEN, [kind] + input, more);
    }
  }

  lemma NextStable(input: Bytes, more: Bytes)
    ensures StableOn(DispatchNext, input, more)
  {
    TakeStable(1, input, more);
    if input != [] { AuthStable(input[0], input[1..], more); }
  }

  lemma ResumeStable(input: Bytes, more: Bytes)
    ensures StableOn(ParseResume, input, more)
  {
    TypedStable(MSG_SESSION_RESUME, MAX_RESUME_TOKEN, input, more);
  }

  lemma DispatchResumeStable(input: Bytes, resumed: bool, more: Bytes)
    ensures StableOn(i => DispatchResume(i, resumed), input, more)
  {
    ResumeStable(input, more);
    if ParseResume(input).Ok? { NextStable(ParseResume(input).value.rest, more); }
  }

  lemma SessionStable(kind: Byte, input: Bytes, resumed: bool, more: Bytes)
    ensures StableOn(i => DispatchSession(kind, i, resumed), input, more)
  {
    if kind == MSG_SESSION_RESUME {
      assert [kind] + (input + more) == [kind] + input + more;
      DispatchResumeStable([kind] + input, resumed, more);
    } else {
      AuthStable(kind, input, more);
    }
  }

  lemma DispatchStable(input: Bytes, resumed: bool, more: Bytes)
    ensures StableOn(i => Dispatch(i, resumed), input, more)
  {
    TakeStable(1, input, more);
    if input != [] {
      if input[0] != MSG_HELLO {
        SessionStable(input[0], input[1..], resumed, more);
      } else {
        HelloStable(input[1..], more);
        if ParseHello(input[1..]).Ok? { AfterHelloStable(ParseHello(input[1..]).value.rest, resumed, more); }
      }
    }
  }

  /** What follows a hello: the type byte of the next frame and the session. */
  lemma AfterHelloStable(rest: Bytes, resumed: bool, more: Bytes)
    ensures if rest == [] then true
            else
              && Take(1, rest + more) == Ok(Parsed([rest[0]], rest[1..] + more))
              && StableOn(i => DispatchSession(rest[0], i, resumed), rest[1..], more)
  {
    if rest != [] {
      TakeStable(1, rest, more);
      assert rest[..1] == [rest[0]];
      SessionStable(rest[0], rest[1..], resumed, more);
    }
  }

  // ---------------------------------------------------------------- no prefix is complete

  /** A stable parser that consumes all of `f` finds every proper prefix of it too short. */
  lemma NoProperPrefix<T>(p: Bytes -> Parse<T>, f: Bytes, v: T, n: nat)
    requires n < |f| && p(f) == Ok(Parsed(v, [])) && StableOn(p, f[..n], f[n..])
    ensures p(f[..n]) == Err(ShortRead)
  {
    assert f[..n] + f[n..] == f;
  }

  /** Every proper prefix of an agent's control stream ends in a short read, never in a handshake. */
  lemma NoPrefixHandshakes(a: Agent, n: nat)
    requires AgentEncodable(a) && n < |AgentStream(a, [])|
    ensures Dispatch(AgentStream(a, [])[..n], false) == Err(ShortRead)
  {
    var f := AgentStream(a, []);
    HandshakeParses(a, []);
    DispatchStable(f[..n], false, f[n..]);
    NoProperPrefix(i => Dispatch(i, false), f, Sent(a), n);
  }

  /** So does every one of a stream that resumes a session. */
  lemma NoPrefixResumes(client: Bytes, token: Bytes, n: nat)
    requires |token| <= MAX_RESUME_TOKEN
    requires n < |PutHello(PROTOCOL_VERSION, Cut(client), PutResume(token, []))|
    ensures Dispatch(PutHello(PROTOCOL_VERSION, Cut(client), PutResume(token, []))[..n], true) == Err(ShortRead)
  {
    var f := PutHello(PROTOCOL_VERSION, Cut(client), PutResume(token, []));
    ResumedParses(client, token, []);
    DispatchStable(f[..n], true, f[n..]);
    NoProperPrefix(i => Dispatch(i, true), f,
                   [HelloMsg(Hello(PROTOCOL_VERSION, Cut(client))), ResumeMsg(token)], n);
  }

  /** So does every one of an AuthV2 frame, */
  lemma NoPrefixAuthV2(m: AuthV2, n: nat)
    requires AuthV2Encodable(m) && n < |PutAuthV2(m, [])|
    ensures ParseAuthV2(PutAuthV2(m, [])[..n]) == Err(ShortRead)
  {
    var f := PutAuthV2(m, []);
    AuthV2RoundTrip(m, []);
    AuthV2Stable(f[..n], f[n..]);
    NoProperPrefix(ParseAuthV2, f, m, n);
  }

  /** of an AuthV2 response whose fields fit, */
  lemma NoPrefixResponse(m: AuthV2Response, n: nat)
    requires ResponseEncodable(m) && ResponseFits(m) && n < |PutResponse(m, [])|
    ensures ParseResponse(PutResponse(m, [])[..n]) == Err(ShortRead)
  {
    var f := PutResponse(m, []);
    ResponseRoundTrip(m, []);
    ResponseStable(f[..n], f[n..]);
    NoProperPrefix(ParseResponse, f, m, n);
  }

  /** of a resume reply, */
  lemma NoPrefixResumeReply(m: ResumeReply, n: nat)
    requires ResumeReplyEncodable(m) && n < |PutResumeReply(m, [])|
    ensures ParseResumeReply(PutResumeReply(m, [])[..n]) == Err(ShortRead)
  {
    var f := PutResumeReply(m, []);
    ResumeReplyRoundTrip(m, []);
    ResumeReplyStable(f[..n], f[n..]);
    NoProperPrefix(ParseResumeReply, f, m, n);
  }

  /** of a hello, after its type byte, */
  lemma NoPrefixHello(version: nat, client: Bytes, n: nat)
    requires version < 65536 && n + 1 < |PutHello(version, Cut(client), [])|
    ensures ParseHello(PutHello(version, Cut(client), [])[1..][..n]) == Err(ShortRead)
  {
    var f := PutHello(version, Cut(client), [])[1..];
    HelloRoundTrip(version, client, []);
    HelloStable(f[..n], f[n..]);
    NoProperPrefix(ParseHello, f, Hello(version, Cut(client)), n);
  }

  /** of an auth frame, */
  lemma NoPrefixAuth(token: Bytes, n: nat)
    requires |token| <= MAX_TOKEN && n < |PutAuth(token, [])|
    ensures ParseAuth(PutAuth(token, [])[..n]) == Err(ShortRead)
  {
    var f := PutAuth(token, []);
    PutTakeTyped(MSG_AUTH, MAX_TOKEN, token, []);
    TypedStable(MSG_AUTH, MAX_TOKEN, f[..n], f[n..]);
    NoProperPrefix(ParseAuth, f, token, n);
  }

  /** and of a session resumption. */
  lemma NoPrefixResume(token: Bytes, n: nat)
    requires |token| <= MAX_RESUME_TOKEN && n < |PutResume(token, [])|
    ensures ParseResume(PutResume(token, [])[..n]) == Err(ShortRead)
  {
    var f := PutResume(token, []);
    PutTakeTyped(MSG_SESSION_RESUME, MAX_RESUME_TOKEN, token, []);
    TypedStable(MSG_SESSION_RESUME, MAX_RESUME_TOKEN, f[..n], f[n..]);
    NoProperPrefix(ParseResume, f, token, n);
  }
}
