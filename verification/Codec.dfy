/** The encoders and decoders as the transport writes them: into a presized buffer at a moving
    offset, and out of a reader one field at a time. Each is proved against the wire format. */
module Codec {
  import opened Common
  import opened Wire
  import opened WireFrames

  /** The buffer an encoder allocates at its precomputed size, and its write offset. The ghost
      fields say which frame it is filled with, and what of it is still to come. */
  class FrameBuffer {
    const buf: array<Byte>
    var off: nat
    ghost const frame: Bytes
    ghost var left: Bytes

    ghost predicate Valid() reads this, buf {
      |frame| == buf.Length && off <= buf.Length && frame == buf[..off] + left
    }

    constructor (size: nat, ghost frame: Bytes)
      requires size == |frame|
      ensures Valid() && fresh(buf) && this.frame == frame && left == frame
    {
      buf := new Byte[size];
      off := 0;
      this.frame := frame;
      left := frame;
    }

    method PutByte(b: Byte, ghost tail: Bytes)
      requires Valid() && left == [b] + tail
      modifies this, buf
      ensures Valid() && left == tail
    {
      buf[off] := b;
      off := off + 1;
      left := tail;
    }

    method PutUint16(n: nat, ghost tail: Bytes)
      requires Valid() && left == U16(n) + tail
      modifies this, buf
      ensures Valid() && left == tail
    {
      PutByte(n / 256 % 256, [n % 256] + tail);
      PutByte(n % 256, tail);
    }

    method Copy(bytes: Bytes, ghost tail: Bytes)
      requires Valid() && left == bytes + tail
      modifies this, buf
      ensures Valid() && left == tail
    {
      forall i | 0 <= i < |bytes| { buf[off + i] := bytes[i]; }
      assert buf[..off + |bytes|] == old(buf[..off]) + bytes;
      off := off + |bytes|;
      left := tail;
    }

    /** A one-byte length and the field. */
    method PutField8(field: Bytes, ghost tail: Bytes)
      requires Valid() && left == Put8(field, tail)
      modifies this, buf
      ensures Valid() && left == tail
    {
      PutByte(|field| % 256, field + tail);
      Copy(field, tail);
    }

    /** A two-byte length and the field. */
    method PutField16(field: Bytes, ghost tail: Bytes)
      requires Valid() && left == Put16(field, tail)
      modifies this, buf
      ensures Valid() && left == tail
    {
      PutUint16(|field|, field + tail);
      Copy(field, tail);
    }
  }

  /** The reader a decoder consumes. */
  class Reader {
    var rest: Bytes

    constructor (input: Bytes)
      ensures rest == input
    {
      rest := input;
    }

    /** io.ReadFull: a short read uses up the input. */
    method ReadFull(n: nat) returns (r: Result<Bytes, WireError>)
      modifies this
      ensures match Take(n, old(rest))
              case Ok(p) => r == Ok(p.value) && rest == p.rest
              case Err(e) => r == Err(e) && rest == []
    {
      if n <= |rest| {
        r := Ok(rest[..n]);
        rest := rest[n..];
      } else {
        r := Err(ShortRead);
        rest := [];
      }
    }
  }

  /** A decoder's result `r`, leaving `rest`, agrees with the parse `p`. */
  ghost predicate Agrees<T>(p: Parse<T>, r: Result<T, WireError>, rest: Bytes) {
    match p
    case Ok(v) => r == Ok(v.value) && rest == v.rest
    case Err(e) => r == Err(e)
  }

  // ---------------------------------------------------------------- AuthV2

  function EntrySize(e: TunnelEntry): nat { 1 + |e.tag| + 2 + |e.localAddr| + 1 + |e.tunnelType| }

  function EntriesSize(es: seq<TunnelEntry>): nat {
    if es == [] then 0 else EntrySize(es[0]) + EntriesSize(es[1..])
  }

  /** The precomputed buffer size. */
  method AuthV2Size(m: AuthV2) returns (size: nat)
    ensures size == 5 + |m.token| + |m.region| + EntriesSize(m.tunnels)
  {
    size := 1 + 2 + |m.token| + 1 + 1 + |m.region|;
    var i := 0;
    while i < |m.tunnels|
      invariant 0 <= i <= |m.tunnels|
      invariant size + EntriesSize(m.tunnels[i..]) == 5 + |m.token| + |m.region| + EntriesSize(m.tunnels)
    {
      var t := m.tunnels[i];
      size := size + 1 + |t.tag| + 2 + |t.localAddr| + 1 + |t.tunnelType|;
      assert m.tunnels[i..][1..] == m.tunnels[i + 1..];
      i := i + 1;
    }
  }

  lemma {:induction false} EntriesLength(es: seq<TunnelEntry>, tail: Bytes)
    ensures |PutItems(PutEntry, es, tail)| == EntriesSize(es) + |tail|
  {
    if es != [] { EntriesLength(es[1..], tail); }
  }

  lemma AuthV2Length(m: AuthV2)
    ensures |PutAuthV2(m, [])| == 5 + |m.token| + |m.region| + EntriesSize(m.tunnels)
  {
    EntriesLength(m.tunnels, Put8(m.region, []));
  }

  method WriteEntry(b: FrameBuffer, t: TunnelEntry, ghost tail: Bytes)
    requires b.Valid() && b.left == PutEntry(t, tail)
    modifies b, b.buf
    ensures b.Valid() && b.left == tail
  {
    b.PutField8(t.tag, Put16(t.localAddr, Put8(t.tunnelType, tail)));
    b.PutField16(t.localAddr, Put8(t.tunnelType, tail));
    b.PutField8(t.tunnelType, tail);
  }

  /** Writes the entries in order; stops at one that is too long. */
  method WriteEntries(b: FrameBuffer, es: seq<TunnelEntry>, ghost tail: Bytes) returns (ok: bool)
    requires b.Valid() && b.left == PutItems(PutEntry, es, tail)
    modifies b, b.buf
    ensures ok <==> All(EntryEncodable, es)
    ensures ok ==> b.Valid() && b.left == tail
  {
    var i := 0;
    assert es[0..] == es;
    while i < |es|
      invariant 0 <= i <= |es|
      invariant b.Valid() && b.left == PutItems(PutEntry, es[i..], tail)
      invariant forall k :: 0 <= k < i ==> EntryEncodable(es[k])
    {
      var t := es[i];
      if |t.tag| > MAX_LABEL || |t.localAddr| > MAX_LOCAL_ADDR || |t.tunnelType| > MAX_LABEL {
        assert !EntryEncodable(es[i]);
        return false;
      }
      assert es[i..][1..] == es[i + 1..];
      WriteEntry(b, t, PutItems(PutEntry, es[i + 1..], tail));
      i := i + 1;
    }
    return true;
  }

  /** EncodeAuthV2 accepts exactly the encodable messages; every write stays inside the buffer,
      and the frame fills exactly the precomputed size. */
  method EncodeAuthV2(m: AuthV2) returns (r: Result<Bytes, WireError>)
    ensures r == if AuthV2Encodable(m) then Ok(PutAuthV2(m, [])) else Err(TooLong)
  {
    if |m.token| > MAX_TOKEN { return Err(TooLong); }
    if |m.tunnels| > MAX_TUNNELS { return Err(TooLong); }
    if |m.region| > MAX_REGION { return Err(TooLong); }
    var size := AuthV2Size(m);
    AuthV2Length(m);
    ghost var region := Put8(m.region, []);
    ghost var list := PutList(PutEntry, m.tunnels, region);
    var b := new FrameBuffer(size, PutAuthV2(m, []));
    b.PutByte(MSG_AUTH_V2, Put16(m.token, list));
    b.PutField16(m.token, list);
    b.PutByte(|m.tunnels| % 256, PutItems(PutEntry, m.tunnels, region));
    var ok := WriteEntries(b, m.tunnels, region);
    if !ok { return Err(TooLong); }
    b.PutField8(m.region, []);
    assert b.buf[..b.off] + [] == b.buf[..b.off];
    r := Ok(b.buf[..b.off]);
  }

  /** A length of the given width, checked against its limit, then the field. */
  method ReadField(r: Reader, wide: bool, max: nat) returns (f: Result<Bytes, WireError>)
    modifies r
    ensures Agrees(if wide then Take16(max, old(r.rest)) else Take8(max, old(r.rest)), f, r.rest)
  {
    var size := r.ReadFull(if wide then 2 else 1);
    if size.Err? { return Err(size.error); }
    var n := if wide then FromU16(size.value) else size.value[0] as nat;
    if n > max { return Err(TooLong); }
    f := r.ReadFull(n);
  }

  method ReadEntry(r: Reader) returns (e: Result<TunnelEntry, WireError>)
    modifies r
    ensures Agrees(ParseEntry(old(r.rest)), e, r.rest)
  {
    var tag := ReadField(r, false, MAX_LABEL);
    if tag.Err? { return Err(tag.error); }
    var addr := ReadField(r, true, MAX_LOCAL_ADDR);
    if addr.Err? { return Err(addr.error); }
    var typ := ReadField(r, false, MAX_LABEL);
    if typ.Err? { return Err(typ.error); }
    e := Ok(TunnelEntry(tag.value, addr.value, typ.value));
  }

  method ReadEntryAs(r: Reader, ghost p: Bytes -> Parse<TunnelEntry>) returns (e: Result<TunnelEntry, WireError>)
    requires forall i {:trigger ParseEntry(i)} :: p(i) == ParseEntry(i)
    modifies r
    ensures Agrees(p(old(r.rest)), e, r.rest)
  {
    e := ReadEntry(r);
  }

  /** Reading `count` more items after `done`. */
  function Resumed<T>(done: seq<T>, p: Parse<seq<T>>): Parse<seq<T>> {
    match p
    case Ok(v) => Ok(Parsed(done + v.value, v.rest))
    case Err(e) => Err(e)
  }

  /** One more item: either it fails and so does the list, or it joins those done. */
  lemma ItemsStep<T(!new)>(p: Bytes -> Parse<T>, done: seq<T>, count: nat, input: Bytes)
    requires count > 0
    ensures p(input).Ok? ==>
              Resumed(done, TakeItems(p, count, input))
              == Resumed(done + [p(input).value.value], TakeItems(p, count - 1, p(input).value.rest))
    ensures p(input).Err? ==> Resumed(done, TakeItems(p, count, input)) == Err(p(input).error)
  {
    if p(input).Ok? && TakeItems(p, count - 1, p(input).value.rest).Ok? {
      var x, xs := p(input).value.value, TakeItems(p, count - 1, p(input).value.rest).value.value;
      assert done + ([x] + xs) == done + [x] + xs;
    }
  }

  lemma NothingDone<T>(p: Parse<seq<T>>)
    ensures Resumed([], p) == p
  {
    assert p.Ok? ==> [] + p.value.value == p.value.value;
  }

  /** `p` is the entry parser; as a parameter it stays folded inside the list. */
  method ReadEntries(r: Reader, count: nat, ghost p: Bytes -> Parse<TunnelEntry>)
    returns (es: Result<seq<TunnelEntry>, WireError>)
    requires forall i {:trigger ParseEntry(i)} :: p(i) == ParseEntry(i)
    modifies r
    ensures Agrees(TakeItems(p, count, old(r.rest)), es, r.rest)
  {
    var done: seq<TunnelEntry> := [];
    var i := 0;
    ghost var all := TakeItems(p, count, r.rest);
    NothingDone(all);
    while i < count
      invariant 0 <= i <= count
      invariant all == Resumed(done, TakeItems(p, count - i, r.rest))
    {
      ItemsStep(p, done, count - i, r.rest);
      var e := ReadEntryAs(r, p);
      if e.Err? { return Err(e.error); }
      done := done + [e.value];
      i := i + 1;
    }
    assert done + [] == done;
    es := Ok(done);
  }

  method DecodeAuthV2(r: Reader) returns (m: Result<AuthV2, WireError>)
    modifies r
    ensures Agrees(ParseAuthV2(old(r.rest)), m, r.rest)
  {
    var header := r.ReadFull(3);
    if header.Err? { return Err(header.error); }
    if header.value[0] != MSG_AUTH_V2 { return Err(WrongType); }
    var n := FromU16(header.value[1..]);
    if n > MAX_TOKEN { return Err(TooLong); }
    var token := r.ReadFull(n);
    if token.Err? { return Err(token.error); }
    var count := r.ReadFull(1);
    if count.Err? { return Err(count.error); }
    if count.value[0] as nat > MAX_TUNNELS { return Err(TooLong); }
    var tunnels := ReadEntries(r, count.value[0], ParseEntry);
    if tunnels.Err? { return Err(tunnels.error); }
    var region := ReadField(r, false, MAX_REGION);
    if region.Err? { return Err(region.error); }
    m := Ok(AuthV2(token.value, tunnels.value, region.value));
  }

  // ---------------------------------------------------------------- AuthV2 response

  function HostsSize(hs: seq<HostEntry>): nat {
    if hs == [] then 0 else 1 + |hs[0].tag| + 2 + |hs[0].hostname| + HostsSize(hs[1..])
  }

  function GatewaysSize(gs: seq<Bytes>): nat {
    if gs == [] then 0 else 2 + |gs[0]| + GatewaysSize(gs[1..])
  }

  lemma {:induction false} HostsLength(hs: seq<HostEntry>, tail: Bytes)
    ensures |PutItems(PutHost, hs, tail)| == HostsSize(hs) + |tail|
  {
    if hs != [] { HostsLength(hs[1..], tail); }
  }

  lemma {:induction false} GatewaysLength(gs: seq<Bytes>, tail: Bytes)
    ensures |PutItems(PutGateway, gs, tail)| == GatewaysSize(gs) + |tail|
  {
    if gs != [] { GatewaysLength(gs[1..], tail); }
  }

  lemma ResponseLength(m: AuthV2Response)
    ensures |PutResponse(m, [])|
         == 9 + |m.tunnelID| + HostsSize(m.tunnels) + |m.resumeToken| + |m.region| + GatewaysSize(m.gateways)
  {
    HostsLength(m.tunnels, PutGateways(m, []));
    GatewaysLength(m.gateways, []);
  }

  method ResponseSize(m: AuthV2Response) returns (size: nat)
    ensures size == 9 + |m.tunnelID| + HostsSize(m.tunnels) + |m.resumeToken| + |m.region| + GatewaysSize(m.gateways)
  {
    size := 1 + 1 + 2 + |m.tunnelID| + 1;
    var i := 0;
    while i < |m.tunnels|
      invariant 0 <= i <= |m.tunnels|
      invariant size + HostsSize(m.tunnels[i..]) == 5 + |m.tunnelID| + HostsSize(m.tunnels)
    {
      assert m.tunnels[i..][1..] == m.tunnels[i + 1..];
      size := size + 1 + |m.tunnels[i].tag| + 2 + |m.tunnels[i].hostname|;
      i := i + 1;
    }
    size := size + 2 + |m.resumeToken| + 1 + |m.region| + 1;
    ghost var fixed := size;
    i := 0;
    while i < |m.gateways|
      invariant 0 <= i <= |m.gateways|
      invariant size + GatewaysSize(m.gateways[i..]) == fixed + GatewaysSize(m.gateways)
    {
      assert m.gateways[i..][1..] == m.gateways[i + 1..];
      size := size + 2 + |m.gateways[i]|;
      i := i + 1;
    }
  }

  method WriteHosts(b: FrameBuffer, hs: seq<HostEntry>, ghost tail: Bytes)
    requires b.Valid() && b.left == PutItems(PutHost, hs, tail)
    modifies b, b.buf
    ensures b.Valid() && b.left == tail
  {
    var i := 0;
    assert hs[0..] == hs;
    while i < |hs|
      invariant 0 <= i <= |hs|
      invariant b.Valid() && b.left == PutItems(PutHost, hs[i..], tail)
    {
      assert hs[i..][1..] == hs[i + 1..];
      ghost var rest := PutItems(PutHost, hs[i + 1..], tail);
      b.PutField8(hs[i].tag, Put16(hs[i].hostname, rest));
      b.PutField16(hs[i].hostname, rest);
      i := i + 1;
    }
  }

  method WriteGateways(b: FrameBuffer, gs: seq<Bytes>, ghost tail: Bytes)
    requires b.Valid() && b.left == PutItems(PutGateway, gs, tail)
    modifies b, b.buf
    ensures b.Valid() && b.left == tail
  {
    var i := 0;
    assert gs[0..] == gs;
    while i < |gs|
      invariant 0 <= i <= |gs|
      invariant b.Valid() && b.left == PutItems(PutGateway, gs[i..], tail)
    {
      assert gs[i..][1..] == gs[i + 1..];
      b.PutField16(gs[i], PutItems(PutGateway, gs[i + 1..], tail));
      i := i + 1;
    }
  }

  /** The type, the status and the tunnel ID. */
  method WriteResponseHead(b: FrameBuffer, m: AuthV2Response, ghost hosts: Bytes)
    requires b.Valid() && b.left == [MSG_AUTH_RESP_V2, m.status] + Put16(m.tunnelID, hosts)
    modifies b, b.buf
    ensures b.Valid() && b.left == hosts
  {
    b.PutByte(MSG_AUTH_RESP_V2, [m.status] + Put16(m.tunnelID, hosts));
    b.PutByte(m.status, Put16(m.tunnelID, hosts));
    b.PutField16(m.tunnelID, hosts);
  }

  /** The resume token, the region and the gateways. */
  method WriteResponseTail(b: FrameBuffer, m: AuthV2Response)
    requires b.Valid() && b.left == PutGateways(m, [])
    modifies b, b.buf
    ensures b.Valid() && b.left == []
  {
    ghost var gateways := PutList(PutGateway, m.gateways, []);
    b.PutField16(m.resumeToken, Put8(m.region, gateways));
    b.PutField8(m.region, gateways);
    b.PutByte(|m.gateways| % 256, PutItems(PutGateway, m.gateways, []));
    WriteGateways(b, m.gateways, []);
  }

  method EncodeAuthV2Response(m: AuthV2Response) returns (r: Result<Bytes, WireError>)
    ensures r == if ResponseEncodable(m) then Ok(PutResponse(m, [])) else Err(TooLong)
  {
    if |m.tunnelID| > MAX_TUNNEL_ID { return Err(TooLong); }
    if |m.tunnels| > MAX_TUNNELS { return Err(TooLong); }
    if |m.resumeToken| > MAX_RESUME_TOKEN { return Err(TooLong); }
    if |m.region| > MAX_REGION { return Err(TooLong); }
    if |m.gateways| > MAX_GATEWAYS { return Err(TooLong); }
    var size := ResponseSize(m);
    ResponseLength(m);
    ghost var tail := PutGateways(m, []);
    var b := new FrameBuffer(size, PutResponse(m, []));
    WriteResponseHead(b, m, PutList(PutHost, m.tunnels, tail));
    b.PutByte(|m.tunnels| % 256, PutItems(PutHost, m.tunnels, tail));
    WriteHosts(b, m.tunnels, tail);
    WriteResponseTail(b, m);
    assert b.buf[..b.off] + [] == b.buf[..b.off];
    r := Ok(b.buf[..b.off]);
  }

  method ReadHost(r: Reader) returns (h: Result<HostEntry, WireError>)
    modifies r
    ensures Agrees(ParseHost(old(r.rest)), h, r.rest)
  {
    var tag := ReadField(r, false, 255);
    if tag.Err? { return Err(tag.error); }
    var host := ReadField(r, true, MAX_PUBLIC_URL);
    if host.Err? { return Err(host.error); }
    h := Ok(HostEntry(tag.value, host.value));
  }

  method ReadHosts(r: Reader, count: nat, ghost p: Bytes -> Parse<HostEntry>)
    returns (hs: Result<seq<HostEntry>, WireError>)
    requires forall i {:trigger ParseHost(i)} :: p(i) == ParseHost(i)
    modifies r
    ensures Agrees(TakeItems(p, count, old(r.rest)), hs, r.rest)
  {
    var done: seq<HostEntry> := [];
    var i := 0;
    ghost var all := TakeItems(p, count, r.rest);
    NothingDone(all);
    while i < count
      invariant 0 <= i <= count
      invariant all == Resumed(done, TakeItems(p, count - i, r.rest))
    {
      ItemsStep(p, done, count - i, r.rest);
      var h := ReadHost(r);
      if h.Err? { return Err(h.error); }
      done := done + [h.value];
      i := i + 1;
    }
    assert done + [] == done;
    hs := Ok(done);
  }

  method ReadGateways(r: Reader, count: nat, ghost p: Bytes -> Parse<Bytes>)
    returns (gs: Result<seq<Bytes>, WireError>)
    requires forall i {:trigger Take16(MAX_PUBLIC_URL, i)} :: p(i) == Take16(MAX_PUBLIC_URL, i)
    modifies r
    ensures Agrees(TakeItems(p, count, old(r.rest)), gs, r.rest)
  {
    var done: seq<Bytes> := [];
    var i := 0;
    ghost var all := TakeItems(p, count, r.rest);
    NothingDone(all);
    while i < count
      invariant 0 <= i <= count
      invariant all == Resumed(done, TakeItems(p, count - i, r.rest))
    {
      ItemsStep(p, done, count - i, r.rest);
      var g := ReadField(r, true, MAX_PUBLIC_URL);
      if g.Err? { return Err(g.error); }
      done := done + [g.value];
      i := i + 1;
    }
    assert done + [] == done;
    gs := Ok(done);
  }

  method DecodeAuthV2Response(r: Reader) returns (m: Result<AuthV2Response, WireError>)
    modifies r
    ensures Agrees(ParseResponse(old(r.rest)), m, r.rest)
  {
    var header := r.ReadFull(4);
    if header.Err? { return Err(header.error); }
    if header.value[0] != MSG_AUTH_RESP_V2 { return Err(WrongType); }
    var n := FromU16(header.value[2..]);
    if n > MAX_TUNNEL_ID { return Err(TooLong); }
    var id := r.ReadFull(n);
    if id.Err? { return Err(id.error); }
    var count := r.ReadFull(1);
    if count.Err? { return Err(count.error); }
    if count.value[0] as nat > MAX_TUNNELS { return Err(TooLong); }
    var tunnels := ReadHosts(r, count.value[0], ParseHost);
    if tunnels.Err? { return Err(tunnels.error); }
    var resume := ReadField(r, true, MAX_RESUME_TOKEN);
    if resume.Err? { return Err(resume.error); }
    var region := ReadField(r, false, MAX_REGION);
    if region.Err? { return Err(region.error); }
    count := r.ReadFull(1);
    if count.Err? { return Err(count.error); }
    if count.value[0] as nat > MAX_GATEWAYS { return Err(TooLong); }
    var gateways := ReadGateways(r, count.value[0], ParseGateway);
    if gateways.Err? { return Err(gateways.error); }
    m := Ok(AuthV2Response(header.value[1], id.value, tunnels.value, resume.value, region.value, gateways.value));
  }

  // ---------------------------------------------------------------- UDP datagrams

  method EncodeUDPDatagram(m: Datagram) returns (r: Result<Bytes, WireError>)
    ensures r == if DatagramEncodable(m) then Ok(PutDatagram(m, [])) else Err(TooLong)
  {
    if |m.tag| > MAX_LABEL { return Err(TooLong); }
    if |m.srcAddr| > MAX_SRC_ADDR { return Err(TooLong); }
    if |m.payload| > MAX_UDP_PAYLOAD { return Err(TooLong); }
    ghost var payload := Put16(m.payload, []);
    ghost var addr := Put8(m.srcAddr, payload);
    var b := new FrameBuffer(1 + 1 + |m.tag| + 1 + |m.srcAddr| + 2 + |m.payload|, PutDatagram(m, []));
    b.PutByte(MSG_UDP_DATAGRAM, Put8(m.tag, addr));
    b.PutField8(m.tag, addr);
    b.PutField8(m.srcAddr, payload);
    b.PutField16(m.payload, []);
    assert b.buf[..b.off] + [] == b.buf[..b.off];
    r := Ok(b.buf[..b.off]);
  }

  /** A field with a one-byte length, by indices into the datagram. */
  lemma FieldAt8(data: Bytes, off: nat)
    requires off < |data|
    ensures
      var end := off + 1 + data[off] as nat;
      Take8(255, data[off..])
      == if end <= |data| then Ok(Parsed(data[off + 1..end], data[end..])) else Err(ShortRead)
  {
    var n := data[off] as nat;
    assert data[off..][1..] == data[off + 1..];
    if off + 1 + n <= |data| {
      assert data[off + 1..][..n] == data[off + 1..off + 1 + n] && data[off + 1..][n..] == data[off + 1 + n..];
    }
  }

  /** A field with a two-byte length, by indices into the datagram. */
  lemma FieldAt16(data: Bytes, off: nat)
    requires off + 2 <= |data|
    ensures
      var end := off + 2 + FromU16(data[off..off + 2]);
      Take16(65535, data[off..])
      == if end <= |data| then Ok(Parsed(data[off + 2..end], data[end..])) else Err(ShortRead)
  {
    assert data[off..][..2] == data[off..off + 2] && data[off..][2..] == data[off + 2..];
    FromU16Bytes(data[off..off + 2]);
    var n := FromU16(data[off..off + 2]);
    if off + 2 + n <= |data| {
      assert data[off + 2..][..n] == data[off + 2..off + 2 + n] && data[off + 2..][n..] == data[off + 2 + n..];
    }
  }

  /** The field with a one-byte length at `off`, and the offset after it. */
  method Cut8(data: Bytes, off: nat) returns (f: Result<Bytes, WireError>, next: nat)
    requires off <= |data|
    ensures next <= |data| && Agrees(Take8(255, data[off..]), f, data[next..])
  {
    next := off;
    if off >= |data| { return Err(ShortRead), next; }
    FieldAt8(data, off);
    var n := data[off] as nat;
    if off + 1 + n > |data| { return Err(ShortRead), next; }
    return Ok(data[off + 1..off + 1 + n]), off + 1 + n;
  }

  /** The field with a two-byte length at `off`, and the offset after it. */
  method Cut16(data: Bytes, off: nat) returns (f: Result<Bytes, WireError>, next: nat)
    requires off <= |data|
    ensures next <= |data| && Agrees(Take16(65535, data[off..]), f, data[next..])
  {
    next := off;
    if off + 2 > |data| { return Err(ShortRead), next; }
    FieldAt16(data, off);
    var n := FromU16(data[off..off + 2]);
    if off + 2 + n > |data| { return Err(ShortRead), next; }
    return Ok(data[off + 2..off + 2 + n]), off + 2 + n;
  }

  /** Decodes at a moving offset; every index is inside the datagram, whatever the bytes. */
  method DecodeUDPDatagram(data: Bytes) returns (m: Result<Datagram, WireError>)
    ensures match ParseDatagram(data)
            case Ok(p) => m == Ok(p.value)
            case Err(e) => m == Err(e)
  {
    if |data| < 6 { return Err(ShortRead); }
    if data[0] != MSG_UDP_DATAGRAM { return Err(WrongType); }
    var off := 1;
    var tag, srcAddr, payload;
    tag, off := Cut8(data, off);
    if tag.Err? { return Err(tag.error); }
    srcAddr, off := Cut8(data, off);
    if srcAddr.Err? { return Err(srcAddr.error); }
    payload, off := Cut16(data, off);
    if payload.Err? { return Err(payload.error); }
    m := Ok(Datagram(tag.value, srcAddr.value, payload.value));
  }
}
