/** Further frames: the AuthV2 response, the session-resumption reply and UDP datagrams. */
module WireFrames {
  import opened Common
  import opened Wire

  // ---------------------------------------------------------------- AuthV2 response

  datatype HostEntry = HostEntry(tag: Bytes, hostname: Bytes)

  datatype AuthV2Response = AuthV2Response(
    status: Byte, tunnelID: Bytes, tunnels: seq<HostEntry>, resumeToken: Bytes, region: Bytes,
    gateways: seq<Bytes>)

  /** What EncodeAuthV2Response accepts: it checks neither labels, hostnames nor gateways. */
  predicate ResponseEncodable(m: AuthV2Response) {
    && |m.tunnelID| <= MAX_TUNNEL_ID && |m.tunnels| <= MAX_TUNNELS && |m.resumeToken| <= MAX_RESUME_TOKEN
    && |m.region| <= MAX_REGION && |m.gateways| <= MAX_GATEWAYS
  }

  predicate HostFits(h: HostEntry) { |h.tag| <= 255 && |h.hostname| <= MAX_PUBLIC_URL }

  predicate GatewayFits(g: Bytes) { |g| <= MAX_PUBLIC_URL }

  ghost predicate ResponseFits(m: AuthV2Response) {
    All(HostFits, m.tunnels) && All(GatewayFits, m.gateways)
  }

  function PutHost(h: HostEntry, tail: Bytes): Bytes { Put8(h.tag, Put16(h.hostname, tail)) }

  function ParseHost(input: Bytes): Parse<HostEntry> {
    var tag :- Take8(255, input);
    var host :- Take16(MAX_PUBLIC_URL, tag.rest);
    Ok(Parsed(HostEntry(tag.value, host.value), host.rest))
  }

  function PutGateway(g: Bytes, tail: Bytes): Bytes { Put16(g, tail) }

  function ParseGateway(input: Bytes): Parse<Bytes> { Take16(MAX_PUBLIC_URL, input) }

  function PutGateways(m: AuthV2Response, tail: Bytes): Bytes {
    Put16(m.resumeToken, Put8(m.region, PutList(PutGateway, m.gateways, tail)))
  }

  function PutResponse(m: AuthV2Response, tail: Bytes): Bytes {
    [MSG_AUTH_RESP_V2, m.status] + Put16(m.tunnelID, PutList(PutHost, m.tunnels, PutGateways(m, tail)))
  }

  /** A type byte, a status byte and a two-byte length are read together. */
  function TakeStatus(kind: Byte, max: nat, input: Bytes): Parse<(Byte, Bytes)> {
    var header :- Take(4, input);
    if header.value[0] != kind then Err(WrongType)
    else if FromU16(header.value[2..]) > max then Err(TooLong)
    else
      var id :- Take(FromU16(header.value[2..]), header.rest);
      Ok(Parsed((header.value[1], id.value), id.rest))
  }

  function ParseResponse(input: Bytes): Parse<AuthV2Response> {
    var id :- TakeStatus(MSG_AUTH_RESP_V2, MAX_TUNNEL_ID, input);
    var tunnels :- TakeList(ParseHost, MAX_TUNNELS, id.rest);
    var resume :- Take16(MAX_RESUME_TOKEN, tunnels.rest);
    var region :- Take8(MAX_REGION, resume.rest);
    var gateways :- TakeList(ParseGateway, MAX_GATEWAYS, region.rest);
    Ok(Parsed(AuthV2Response(id.value.0, id.value.1, tunnels.value, resume.value, region.value, gateways.value),
              gateways.rest))
  }

  lemma PutTakeStatus(kind: Byte, status: Byte, max: nat, field: Bytes, tail: Bytes)
    requires |field| <= max && |field| < 65536
    ensures TakeStatus(kind, max, [kind, status] + Put16(field, tail)) == Ok(Parsed((status, field), tail))
  {
    var input := [kind, status] + Put16(field, tail);
    U16RoundTrip(|field|);
    assert input[..4][2..] == U16(|field|) && input[4..] == field + tail;
  }

  lemma TakePutStatus(kind: Byte, max: nat, input: Bytes)
    requires TakeStatus(kind, max, input).Ok?
    ensures
      var p := TakeStatus(kind, max, input).value;
      && |p.value.1| <= max && |p.value.1| < 65536
      && input == [kind, p.value.0] + Put16(p.value.1, p.rest)
  {
    FromU16Bytes(input[..4][2..]);
    var p := TakeStatus(kind, max, input).value;
    assert input[4..] == p.value.1 + p.rest;
    assert input == [kind, p.value.0] + U16(|p.value.1|) + input[4..];
  }

  lemma HostCodec()
    ensures Undoes(ParseHost, PutHost, HostFits) && Exact(ParseHost, PutHost, HostFits)
  {
    forall h, tail | HostFits(h) ensures ParseHost(PutHost(h, tail)) == Ok(Parsed(h, tail)) {
      PutTake8(255, h.tag, Put16(h.hostname, tail));
      PutTake16(MAX_PUBLIC_URL, h.hostname, tail);
    }
    forall input | ParseHost(input).Ok?
      ensures
        var p := ParseHost(input).value;
        HostFits(p.value) && input == PutHost(p.value, p.rest)
    {
      TakePut8(255, input);
      TakePut16(MAX_PUBLIC_URL, Take8(255, input).value.rest);
    }
  }

  lemma GatewayCodec()
    ensures Undoes(ParseGateway, PutGateway, GatewayFits) && Exact(ParseGateway, PutGateway, GatewayFits)
  {
    forall g, tail | GatewayFits(g) ensures ParseGateway(PutGateway(g, tail)) == Ok(Parsed(g, tail)) {
      PutTake16(MAX_PUBLIC_URL, g, tail);
    }
    forall input | ParseGateway(input).Ok?
      ensures
        var p := ParseGateway(input).value;
        GatewayFits(p.value) && input == PutGateway(p.value, p.rest)
    {
      TakePut16(MAX_PUBLIC_URL, input);
    }
  }

  /** Every accepted response is the frame of the message returned. */
  lemma ResponseCanonical(input: Bytes)
    requires ParseResponse(input).Ok?
    ensures
      var p := ParseResponse(input).value;
      ResponseEncodable(p.value) && ResponseFits(p.value) && input == PutResponse(p.value, p.rest)
  {
    HostCodec();
    GatewayCodec();
    TakePutStatus(MSG_AUTH_RESP_V2, MAX_TUNNEL_ID, input);
    var id := TakeStatus(MSG_AUTH_RESP_V2, MAX_TUNNEL_ID, input).value;
    ListCanonical(ParseHost, PutHost, HostFits, MAX_TUNNELS, id.rest);
    var tunnels := TakeList(ParseHost, MAX_TUNNELS, id.rest).value;
    TakePut16(MAX_RESUME_TOKEN, tunnels.rest);
    var resume := Take16(MAX_RESUME_TOKEN, tunnels.rest).value;
    TakePut8(MAX_REGION, resume.rest);
    ListCanonical(ParseGateway, PutGateway, GatewayFits, MAX_GATEWAYS, Take8(MAX_REGION, resume.rest).value.rest);
  }

  lemma ResponseRoundTrip(m: AuthV2Response, tail: Bytes)
    requires ResponseEncodable(m) && ResponseFits(m)
    ensures ParseResponse(PutResponse(m, tail)) == Ok(Parsed(m, tail))
  {
    HostCodec();
    GatewayCodec();
    PutTakeStatus(MSG_AUTH_RESP_V2, m.status, MAX_TUNNEL_ID, m.tunnelID,
                  PutList(PutHost, m.tunnels, PutGateways(m, tail)));
    ListRoundTrip(ParseHost, PutHost, HostFits, MAX_TUNNELS, m.tunnels, PutGateways(m, tail));
    PutTake16(MAX_RESUME_TOKEN, m.resumeToken, Put8(m.region, PutList(PutGateway, m.gateways, tail)));
    PutTake8(MAX_REGION, m.region, PutList(PutGateway, m.gateways, tail));
    ListRoundTrip(ParseGateway, PutGateway, GatewayFits, MAX_GATEWAYS, m.gateways, tail);
  }

  /** The encoder accepts labels, hostnames and gateways of any length, and truncates their
      lengths; the frame decodes to the message exactly when they fit. */
  lemma ResponseRoundTripIff(m: AuthV2Response, tail: Bytes)
    requires ResponseEncodable(m)
    ensures ParseResponse(PutResponse(m, tail)) == Ok(Parsed(m, tail)) <==> ResponseFits(m)
  {
    if ResponseFits(m) {
      ResponseRoundTrip(m, tail);
    } else if ParseResponse(PutResponse(m, tail)) == Ok(Parsed(m, tail)) {
      ResponseCanonical(PutResponse(m, tail));
    }
  }

  // ---------------------------------------------------------------- session resumption

  datatype ResumeReply = ResumeReply(status: Byte, tunnelID: Bytes, newToken: Bytes)

  predicate ResumeReplyEncodable(m: ResumeReply) {
    |m.tunnelID| <= MAX_TUNNEL_ID && |m.newToken| <= MAX_RESUME_TOKEN
  }

  function PutResumeReply(m: ResumeReply, tail: Bytes): Bytes {
    [MSG_SESSION_RESUME_RESP, m.status] + Put16(m.tunnelID, Put16(m.newToken, tail))
  }

  function ParseResumeReply(input: Bytes): Parse<ResumeReply> {
    var id :- TakeStatus(MSG_SESSION_RESUME_RESP, MAX_TUNNEL_ID, input);
    var token :- Take16(MAX_RESUME_TOKEN, id.rest);
    Ok(Parsed(ResumeReply(id.value.0, id.value.1, token.value), token.rest))
  }

  lemma ResumeReplyRoundTrip(m: ResumeReply, tail: Bytes)
    requires ResumeReplyEncodable(m)
    ensures ParseResumeReply(PutResumeReply(m, tail)) == Ok(Parsed(m, tail))
  {
    PutTakeStatus(MSG_SESSION_RESUME_RESP, m.status, MAX_TUNNEL_ID, m.tunnelID, Put16(m.newToken, tail));
    PutTake16(MAX_RESUME_TOKEN, m.newToken, tail);
  }

  lemma ResumeReplyCanonical(input: Bytes)
    requires ParseResumeReply(input).Ok?
    ensures
      var p := ParseResumeReply(input).value;
      ResumeReplyEncodable(p.value) && input == PutResumeReply(p.value, p.rest)
  {
    TakePutStatus(MSG_SESSION_RESUME_RESP, MAX_TUNNEL_ID, input);
    TakePut16(MAX_RESUME_TOKEN, TakeStatus(MSG_SESSION_RESUME_RESP, MAX_TUNNEL_ID, input).value.rest);
  }

  // ---------------------------------------------------------------- UDP datagrams

  datatype Datagram = Datagram(tag: Bytes, srcAddr: Bytes, payload: Bytes)

  predicate DatagramEncodable(m: Datagram) {
    |m.tag| <= MAX_LABEL && |m.srcAddr| <= MAX_SRC_ADDR && |m.payload| <= MAX_UDP_PAYLOAD
  }

  function PutFields(m: Datagram, tail: Bytes): Bytes {
    Put8(m.tag, Put8(m.srcAddr, Put16(m.payload, tail)))
  }

  function PutDatagram(m: Datagram, tail: Bytes): Bytes { [MSG_UDP_DATAGRAM] + PutFields(m, tail) }

  function ParseFields(input: Bytes): Parse<Datagram> {
    var tag :- Take8(255, input);
    var addr :- Take8(255, tag.rest);
    var payload :- Take16(65535, addr.rest);
    Ok(Parsed(Datagram(tag.value, addr.value, payload.value), payload.rest))
  }

  /** Bytes after the payload are ignored. */
  function ParseDatagram(data: Bytes): Parse<Datagram> {
    if |data| < 6 then Err(ShortRead)
    else if data[0] != MSG_UDP_DATAGRAM then Err(WrongType)
    else ParseFields(data[1..])
  }

  /** A datagram survives the trip exactly when one of its fields is non-empty: the frame of the
      all-empty one is below the decoder's minimum. */
  lemma DatagramRoundTripIff(m: Datagram)
    requires DatagramEncodable(m)
    ensures ParseDatagram(PutDatagram(m, [])) == Ok(Parsed(m, [])) <==> m != Datagram([], [], [])
  {
    var data := PutDatagram(m, []);
    var t2 := Put16(m.payload, []);
    var t1 := Put8(m.srcAddr, t2);
    assert data[1..] == PutFields(m, []);
    PutTake8(255, m.tag, t1);
    PutTake8(255, m.srcAddr, t2);
    PutTake16(65535, m.payload, []);
    assert |data| == 5 + |m.tag| + |m.srcAddr| + |m.payload|;
  }

  lemma FieldsExact(input: Bytes)
    requires ParseFields(input).Ok?
    ensures
      var p := ParseFields(input).value;
      input == PutFields(p.value, p.rest) && |p.value.payload| <= MAX_UDP_PAYLOAD
  {
    var tag := Take8(255, input).value;
    TakePut8(255, input);
    TakePut8(255, tag.rest);
    TakePut16(65535, Take8(255, tag.rest).value.rest);
  }

  lemma HeadAndTail<T>(s: seq<T>)
    requires s != []
    ensures s == [s[0]] + s[1..]
  {
  }

  lemma DatagramExact(data: Bytes)
    requires ParseDatagram(data).Ok?
    ensures
      var p := ParseDatagram(data).value;
      data == PutDatagram(p.value, p.rest) && |p.value.payload| <= MAX_UDP_PAYLOAD
  {
    FieldsExact(data[1..]);
    HeadAndTail(data);
  }

  /** A decoded datagram re-encodes to a prefix of its input whenever the encoder accepts it, and
      the encoder does so exactly when label and address are within their limits. */
  lemma DatagramCanonical(data: Bytes)
    requires ParseDatagram(data).Ok?
    ensures
      var p := ParseDatagram(data).value;
      && PutDatagram(p.value, []) <= data
      && (DatagramEncodable(p.value) <==> |p.value.tag| <= MAX_LABEL && |p.value.srcAddr| <= MAX_SRC_ADDR)
  {
    DatagramExact(data);
    DatagramAppend(ParseDatagram(data).value.value, ParseDatagram(data).value.rest);
  }

  lemma DatagramAppend(m: Datagram, tail: Bytes)
    ensures PutDatagram(m, tail) == PutDatagram(m, []) + tail
  {
    Put16Append(m.payload, [], tail);
    Put8Append(m.srcAddr, Put16(m.payload, []), tail);
    Put8Append(m.tag, Put8(m.srcAddr, Put16(m.payload, [])), tail);
    assert [] + tail == tail;
  }
}
