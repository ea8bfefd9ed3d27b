/** The frames byte by byte, as an independent reference: type bytes, big-endian lengths, fields and
    limits written out as numbers. */
module WireLayout {
  import opened Common
  import opened Wire
  import opened WireFrames
  import opened Handshake

  /** A length as one byte. */
  function One(n: nat): Bytes
    requires n < 256
  {
    [n]
  }

  /** A length as two bytes, high byte first. */
  function Two(n: nat): Bytes
    requires n < 65536
  {
    [n / 256, n % 256]
  }

  lemma Flat8(field: Bytes, tail: Bytes)
    requires |field| < 256
    ensures Put8(field, tail) == One(|field|) + (field + tail)
  {
  }

  lemma Flat16(field: Bytes, tail: Bytes)
    requires |field| < 65536
    ensures Put16(field, tail) == Two(|field|) + (field + tail)
  {
  }

  // ---------------------------------------------------------------- AuthV2

  predicate EntryWithin(e: TunnelEntry) { |e.tag| <= 64 && |e.localAddr| <= 256 && |e.tunnelType| <= 64 }

  /** The tunnels one after the other: label, address, type. */
  function EntriesBytes(es: seq<TunnelEntry>, tail: Bytes): Bytes
    requires forall i :: 0 <= i < |es| ==> EntryWithin(es[i])
  {
    if es == [] then tail
    else
      var e := es[0];
      assert EntryWithin(e);
      One(|e.tag|) + (e.tag + (Two(|e.localAddr|) + (e.localAddr
        + (One(|e.tunnelType|) + (e.tunnelType + EntriesBytes(es[1..], tail))))))
  }

  lemma {:induction false} FlatEntries(es: seq<TunnelEntry>, tail: Bytes)
    requires forall i :: 0 <= i < |es| ==> EntryWithin(es[i])
    ensures PutItems(PutEntry, es, tail) == EntriesBytes(es, tail)
  {
    if es != [] {
      var e, rest := es[0], PutItems(PutEntry, es[1..], tail);
      FlatEntries(es[1..], tail);
      Flat8(e.tunnelType, rest);
      Flat16(e.localAddr, Put8(e.tunnelType, rest));
      Flat8(e.tag, Put16(e.localAddr, Put8(e.tunnelType, rest)));
    }
  }

  lemma TunnelsLayout(es: seq<TunnelEntry>, tail: Bytes)
    requires |es| <= 32 && forall i :: 0 <= i < |es| ==> EntryWithin(es[i])
    ensures PutList(PutEntry, es, tail) == One(|es|) + EntriesBytes(es, tail)
  {
    FlatEntries(es, tail);
  }

  /** What the encoder accepts, in numbers. */
  lemma AuthV2Limits(m: AuthV2)
    ensures AuthV2Encodable(m)
            <==> |m.token| <= 4096 && |m.tunnels| <= 32 && |m.region| <= 64
                 && forall i :: 0 <= i < |m.tunnels| ==> EntryWithin(m.tunnels[i])
  {
    assert forall i :: 0 <= i < |m.tunnels| ==> (EntryWithin(m.tunnels[i]) <==> EntryEncodable(m.tunnels[i]));
  }

  /** Type 6, the token, the tunnel count, each tunnel's label, address and type, and the region. */
  lemma AuthV2Layout(m: AuthV2, tail: Bytes)
    requires |m.token| <= 4096 && |m.tunnels| <= 32 && |m.region| <= 64
    requires forall i :: 0 <= i < |m.tunnels| ==> EntryWithin(m.tunnels[i])
    ensures PutAuthV2(m, tail)
            == [6] + (Two(|m.token|) + (m.token
               + (One(|m.tunnels|) + EntriesBytes(m.tunnels, One(|m.region|) + (m.region + tail)))))
  {
    Flat8(m.region, tail);
    TunnelsLayout(m.tunnels, Put8(m.region, tail));
    Flat16(m.token, PutList(PutEntry, m.tunnels, Put8(m.region, tail)));
  }

  // ---------------------------------------------------------------- AuthV2 response

  predicate HostWithin(h: HostEntry) { |h.tag| <= 255 && |h.hostname| <= 512 }

  /** The hosts one after the other: label, hostname. */
  function HostsBytes(hs: seq<HostEntry>, tail: Bytes): Bytes
    requires forall i :: 0 <= i < |hs| ==> HostWithin(hs[i])
  {
    if hs == [] then tail
    else
      assert HostWithin(hs[0]);
      One(|hs[0].tag|) + (hs[0].tag + (Two(|hs[0].hostname|) + (hs[0].hostname + HostsBytes(hs[1..], tail))))
  }

  function GatewaysBytes(gs: seq<Bytes>, tail: Bytes): Bytes
    requires forall i :: 0 <= i < |gs| ==> |gs[i]| <= 512
  {
    if gs == [] then tail else Two(|gs[0]|) + (gs[0] + GatewaysBytes(gs[1..], tail))
  }

  lemma {:induction false} FlatHosts(hs: seq<HostEntry>, tail: Bytes)
    requires forall i :: 0 <= i < |hs| ==> HostWithin(hs[i])
    ensures PutItems(PutHost, hs, tail) == HostsBytes(hs, tail)
  {
    if hs != [] {
      var rest := PutItems(PutHost, hs[1..], tail);
      FlatHosts(hs[1..], tail);
      Flat16(hs[0].hostname, rest);
      Flat8(hs[0].tag, Put16(hs[0].hostname, rest));
    }
  }

  lemma {:induction false} FlatGateways(gs: seq<Bytes>, tail: Bytes)
    requires forall i :: 0 <= i < |gs| ==> |gs[i]| <= 512
    ensures PutItems(PutGateway, gs, tail) == GatewaysBytes(gs, tail)
  {
    if gs != [] {
      FlatGateways(gs[1..], tail);
      Flat16(gs[0], PutItems(PutGateway, gs[1..], tail));
    }
  }

  /** What the response encoder accepts, and what fits its fields, in numbers. */
  lemma ResponseLimits(m: AuthV2Response)
    ensures ResponseEncodable(m)
            <==> |m.tunnelID| <= 256 && |m.tunnels| <= 32 && |m.resumeToken| <= 512
                 && |m.region| <= 64 && |m.gateways| <= 8
    ensures ResponseFits(m)
            <==> (forall i :: 0 <= i < |m.tunnels| ==> HostWithin(m.tunnels[i]))
                 && forall i :: 0 <= i < |m.gateways| ==> |m.gateways[i]| <= 512
  {
    assert forall i :: 0 <= i < |m.tunnels| ==> (HostWithin(m.tunnels[i]) <==> HostFits(m.tunnels[i]));
    assert forall i :: 0 <= i < |m.gateways| ==> (|m.gateways[i]| <= 512 <==> GatewayFits(m.gateways[i]));
  }

  lemma HostsLayout(hs: seq<HostEntry>, tail: Bytes)
    requires |hs| <= 32 && forall i :: 0 <= i < |hs| ==> HostWithin(hs[i])
    ensures PutList(PutHost, hs, tail) == One(|hs|) + HostsBytes(hs, tail)
  {
    FlatHosts(hs, tail);
  }

  lemma GatewaysLayout(m: AuthV2Response, tail: Bytes)
    requires ResponseEncodable(m) && forall i :: 0 <= i < |m.gateways| ==> |m.gateways[i]| <= 512
    ensures PutGateways(m, tail)
            == Two(|m.resumeToken|) + (m.resumeToken + (One(|m.region|) + (m.region
               + (One(|m.gateways|) + GatewaysBytes(m.gateways, tail)))))
  {
    var list := PutList(PutGateway, m.gateways, tail);
    FlatGateways(m.gateways, tail);
    Flat8(m.region, list);
    Flat16(m.resumeToken, Put8(m.region, list));
  }

  /** Type 7, the status, the tunnel ID, each label and hostname, the resume token, the region and the
      gateways. */
  lemma ResponseLayout(m: AuthV2Response, tail: Bytes)
    requires ResponseEncodable(m)
    requires forall i :: 0 <= i < |m.tunnels| ==> HostWithin(m.tunnels[i])
    requires forall i :: 0 <= i < |m.gateways| ==> |m.gateways[i]| <= 512
    ensures
      var rest := Two(|m.resumeToken|) + (m.resumeToken + (One(|m.region|) + (m.region
                  + (One(|m.gateways|) + GatewaysBytes(m.gateways, tail)))));
      PutResponse(m, tail)
      == [7, m.status] + (Two(|m.tunnelID|) + (m.tunnelID + (One(|m.tunnels|) + HostsBytes(m.tunnels, rest))))
  {
    var rest := PutGateways(m, tail);
    GatewaysLayout(m, tail);
    HostsLayout(m.tunnels, rest);
    Flat16(m.tunnelID, PutList(PutHost, m.tunnels, rest));
  }

  // ---------------------------------------------------------------- small frames

  /** Type 10, the status, the tunnel ID and the next token. */
  lemma ResumeReplyLayout(m: ResumeReply, tail: Bytes)
    requires |m.tunnelID| < 65536 && |m.newToken| < 65536
    ensures ResumeReplyEncodable(m) <==> |m.tunnelID| <= 256 && |m.newToken| <= 512
    ensures PutResumeReply(m, tail)
            == [10, m.status] + (Two(|m.tunnelID|) + (m.tunnelID + (Two(|m.newToken|) + (m.newToken + tail))))
  {
    Flat16(m.newToken, tail);
    Flat16(m.tunnelID, Put16(m.newToken, tail));
  }

  /** Type 11, the label, the client address and the payload. */
  lemma DatagramLayout(m: Datagram)
    requires |m.tag| < 256 && |m.srcAddr| < 256 && |m.payload| < 65536
    ensures DatagramEncodable(m) <==> |m.tag| <= 64 && |m.srcAddr| <= 64 && |m.payload| <= 65535
    ensures PutDatagram(m, [])
            == [11] + (One(|m.tag|) + (m.tag + (One(|m.srcAddr|) + (m.srcAddr
               + (Two(|m.payload|) + (m.payload + []))))))
  {
    Flat16(m.payload, []);
    Flat8(m.srcAddr, Put16(m.payload, []));
    Flat8(m.tag, Put8(m.srcAddr, Put16(m.payload, [])));
  }

  /** Type 0, protocol version 3 and the client version, cut to 64 bytes. */
  lemma HelloLayout(client: Bytes, tail: Bytes)
    ensures
      var c := if |client| <= 64 then client else client[..64];
      PutHello(PROTOCOL_VERSION, Cut(client), tail) == [0] + ([0, 3] + ([0, |c|] + (c + tail)))
  {
  }

  /** Type 1 and the token; type 9 and the token. */
  lemma TokenLayouts(token: Bytes, tail: Bytes)
    requires |token| < 65536
    ensures PutAuth(token, tail) == [1] + (Two(|token|) + (token + tail))
    ensures PutResume(token, tail) == [9] + (Two(|token|) + (token + tail))
  {
    Flat16(token, tail);
  }
}
