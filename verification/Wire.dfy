/** The control-stream wire format: length-prefixed fields and the frames built from them.

    A frame is written onto the bytes that follow it, so that decoding can be compared with
    encoding at every field boundary. Lengths are reduced to the width of their prefix, as the
    conversions in the encoders do. */
module Wire {
  import opened Common

  type Bytes = seq<Byte>

  datatype WireError = ShortRead | WrongType | TooLong | BadVersion

  datatype Parsed<+T> = Parsed(value: T, rest: Bytes)

  type Parse<+T> = Result<Parsed<T>, WireError>

  const PROTOCOL_VERSION: nat := 3

  const MSG_HELLO: Byte := 0x00
  const MSG_AUTH: Byte := 0x01
  const MSG_AUTH_V2: Byte := 0x06
  const MSG_AUTH_RESP_V2: Byte := 0x07
  const MSG_SESSION_RESUME: Byte := 0x09
  const MSG_SESSION_RESUME_RESP: Byte := 0x0A
  const MSG_UDP_DATAGRAM: Byte := 0x0B

  const MAX_TOKEN: nat := 4096
  const MAX_TUNNEL_ID: nat := 256
  const MAX_PUBLIC_URL: nat := 512
  const MAX_LABEL: nat := 64
  const MAX_LOCAL_ADDR: nat := 256
  const MAX_TUNNELS: nat := 32
  const MAX_VERSION: nat := 64
  const MAX_RESUME_TOKEN: nat := 512
  const MAX_REGION: nat := 64
  const MAX_SRC_ADDR: nat := 64
  const MAX_UDP_PAYLOAD: nat := 65535
  const MAX_GATEWAYS: nat := 8

  // ---------------------------------------------------------------- fields

  function U16(n: nat): Bytes { [(n / 256) % 256, n % 256] }

  function FromU16(b: Bytes): nat
    requires |b| == 2
  {
    (b[0] as int) * 256 + b[1] as int
  }

  /** A field with a one-byte length, followed by `tail`. */
  function Put8(field: Bytes, tail: Bytes): Bytes { [|field| % 256] + (field + tail) }

  /** A field with a two-byte length, followed by `tail`. */
  function Put16(field: Bytes, tail: Bytes): Bytes { U16(|field|) + (field + tail) }

  /** io.ReadFull: exactly `n` bytes, or an error. */
  function Take(n: nat, input: Bytes): Parse<Bytes> {
    if n <= |input| then Ok(Parsed(input[..n], input[n..])) else Err(ShortRead)
  }

  function Take8(max: nat, input: Bytes): Parse<Bytes> {
    var size :- Take(1, input);
    if size.value[0] > max then Err(TooLong) else Take(size.value[0], size.rest)
  }

  function Take16(max: nat, input: Bytes): Parse<Bytes> {
    var size :- Take(2, input);
    if FromU16(size.value) > max then Err(TooLong) else Take(FromU16(size.value), size.rest)
  }

  lemma PutTake8(max: nat, field: Bytes, tail: Bytes)
    requires |field| <= max && |field| < 256
    ensures Take8(max, Put8(field, tail)) == Ok(Parsed(field, tail))
  {
    var input := Put8(field, tail);
    assert input[1..] == field + tail;
  }

  lemma TakePut8(max: nat, input: Bytes)
    requires Take8(max, input).Ok?
    ensures
      var p := Take8(max, input).value;
      |p.value| <= max && |p.value| < 256 && input == Put8(p.value, p.rest)
  {
  }

  lemma U16RoundTrip(n: nat)
    requires n < 65536
    ensures FromU16(U16(n)) == n
  {
  }

  lemma FromU16Bytes(b: Bytes)
    requires |b| == 2
    ensures FromU16(b) < 65536 && U16(FromU16(b)) == b
  {
  }

  lemma PutTake16(max: nat, field: Bytes, tail: Bytes)
    requires |field| <= max && |field| < 65536
    ensures Take16(max, Put16(field, tail)) == Ok(Parsed(field, tail))
  {
    var input := Put16(field, tail);
    U16RoundTrip(|field|);
    assert input[..2] == U16(|field|) && input[2..] == field + tail;
  }

  lemma TakePut16(max: nat, input: Bytes)
    requires Take16(max, input).Ok?
    ensures
      var p := Take16(max, input).value;
      |p.value| <= max && |p.value| < 65536 && input == Put16(p.value, p.rest)
  {
    FromU16Bytes(input[..2]);
    var p := Take16(max, input).value;
    assert input[2..] == p.value + p.rest;
  }

  lemma Put8Append(field: Bytes, tail: Bytes, more: Bytes)
    ensures Put8(field, tail) + more == Put8(field, tail + more)
  {
    assert field + tail + more == field + (tail + more);
  }

  lemma Put16Append(field: Bytes, tail: Bytes, more: Bytes)
    ensures Put16(field, tail) + more == Put16(field, tail + more)
  {
    assert field + tail + more == field + (tail + more);
  }

  /** The opening of a frame that starts with a type byte and a two-byte length, read together. */
  function TakeTyped(kind: Byte, max: nat, input: Bytes): Parse<Bytes> {
    var header :- Take(3, input);
    if header.value[0] != kind then Err(WrongType)
    else if FromU16(header.value[1..]) > max then Err(TooLong)
    else Take(FromU16(header.value[1..]), header.rest)
  }

  lemma PutTakeTyped(kind: Byte, max: nat, field: Bytes, tail: Bytes)
    requires |field| <= max && |field| < 65536
    ensures TakeTyped(kind, max, [kind] + Put16(field, tail)) == Ok(Parsed(field, tail))
  {
    var input := [kind] + Put16(field, tail);
    U16RoundTrip(|field|);
    assert input[..3][1..] == U16(|field|) && input[3..] == field + tail;
  }

  lemma TakePutTyped(kind: Byte, max: nat, input: Bytes)
    requires TakeTyped(kind, max, input).Ok?
    ensures
      var p := TakeTyped(kind, max, input).value;
      |p.value| <= max && |p.value| < 65536 && input == [kind] + Put16(p.value, p.rest)
  {
    FromU16Bytes(input[..3][1..]);
    var p := TakeTyped(kind, max, input).value;
    assert input[3..] == p.value + p.rest;
    assert input == [kind] + U16(|p.value|) + input[3..];
  }

  // ---------------------------------------------------------------- counted lists

  /** A one-byte count, then the items. */
  function PutList<T>(q: (T, Bytes) -> Bytes, xs: seq<T>, tail: Bytes): Bytes {
    [|xs| % 256] + PutItems(q, xs, tail)
  }

  function PutItems<T>(q: (T, Bytes) -> Bytes, xs: seq<T>, tail: Bytes): Bytes {
    if xs == [] then tail else q(xs[0], PutItems(q, xs[1..], tail))
  }

  function TakeItems<T>(p: Bytes -> Parse<T>, count: nat, input: Bytes): Parse<seq<T>> {
    if count == 0 then Ok(Parsed([], input))
    else
      var x :- p(input);
      var xs :- TakeItems(p, count - 1, x.rest);
      Ok(Parsed([x.value] + xs.value, xs.rest))
  }

  function TakeList<T>(p: Bytes -> Parse<T>, max: nat, input: Bytes): Parse<seq<T>> {
    var count :- Take(1, input);
    if count.value[0] > max then Err(TooLong) else TakeItems(p, count.value[0], count.rest)
  }

  /** Parsing `p` undoes printing `q` on acceptable items. */
  ghost predicate Undoes<T(!new)>(p: Bytes -> Parse<T>, q: (T, Bytes) -> Bytes, good: T -> bool) {
    forall x, tail :: good(x) ==> p(q(x, tail)) == Ok(Parsed(x, tail))
  }

  /** What `p` accepts is exactly what `q` prints of an acceptable item. */
  ghost predicate Exact<T(!new)>(p: Bytes -> Parse<T>, q: (T, Bytes) -> Bytes, good: T -> bool) {
    forall input :: p(input).Ok? ==>
      good(p(input).value.value) && input == q(p(input).value.value, p(input).value.rest)
  }

  ghost predicate All<T>(good: T -> bool, xs: seq<T>) {
    forall i :: 0 <= i < |xs| ==> good(xs[i])
  }

  lemma {:induction false} ItemsRoundTrip<T(!new)>(
      p: Bytes -> Parse<T>, q: (T, Bytes) -> Bytes, good: T -> bool, xs: seq<T>, tail: Bytes)
    requires Undoes(p, q, good) && All(good, xs)
    ensures TakeItems(p, |xs|, PutItems(q, xs, tail)) == Ok(Parsed(xs, tail))
  {
    if xs != [] {
      ItemsRoundTrip(p, q, good, xs[1..], tail);
      assert good(xs[0]) && [xs[0]] + xs[1..] == xs;
    }
  }

  lemma {:induction false} ItemsCanonical<T(!new)>(
      p: Bytes -> Parse<T>, q: (T, Bytes) -> Bytes, good: T -> bool, count: nat, input: Bytes)
    requires Exact(p, q, good) && TakeItems(p, count, input).Ok?
    ensures
      var r := TakeItems(p, count, input).value;
      |r.value| == count && All(good, r.value) && input == PutItems(q, r.value, r.rest)
    decreases count
  {
    if count > 0 {
      var x := p(input).value;
      var xs := TakeItems(p, count - 1, x.rest).value;
      ItemsCanonical(p, q, good, count - 1, x.rest);
      assert ([x.value] + xs.value)[1..] == xs.value;
    }
  }

  lemma ListRoundTrip<T(!new)>(
      p: Bytes -> Parse<T>, q: (T, Bytes) -> Bytes, good: T -> bool, max: nat, xs: seq<T>, tail: Bytes)
    requires Undoes(p, q, good) && All(good, xs) && |xs| <= max < 256
    ensures TakeList(p, max, PutList(q, xs, tail)) == Ok(Parsed(xs, tail))
  {
    ItemsRoundTrip(p, q, good, xs, tail);
    assert PutList(q, xs, tail)[1..] == PutItems(q, xs, tail);
  }

  lemma ListCanonical<T(!new)>(
      p: Bytes -> Parse<T>, q: (T, Bytes) -> Bytes, good: T -> bool, max: nat, input: Bytes)
    requires Exact(p, q, good) && TakeList(p, max, input).Ok?
    ensures
      var r := TakeList(p, max, input).value;
      |r.value| <= max && |r.value| < 256 && All(good, r.value) && input == PutList(q, r.value, r.rest)
  {
    ItemsCanonical(p, q, good, input[0], input[1..]);
    assert input == [input[0]] + input[1..];
  }

  // ---------------------------------------------------------------- AuthV2

  datatype TunnelEntry = TunnelEntry(tag: Bytes, localAddr: Bytes, tunnelType: Bytes)

  datatype AuthV2 = AuthV2(token: Bytes, tunnels: seq<TunnelEntry>, region: Bytes)

  predicate EntryEncodable(e: TunnelEntry) {
    |e.tag| <= MAX_LABEL && |e.localAddr| <= MAX_LOCAL_ADDR && |e.tunnelType| <= MAX_LABEL
  }

  /** What EncodeAuthV2 accepts. */
  ghost predicate AuthV2Encodable(m: AuthV2) {
    |m.token| <= MAX_TOKEN && |m.tunnels| <= MAX_TUNNELS && |m.region| <= MAX_REGION && All(EntryEncodable, m.tunnels)
  }

  function PutEntry(e: TunnelEntry, tail: Bytes): Bytes {
    Put8(e.tag, Put16(e.localAddr, Put8(e.tunnelType, tail)))
  }

  function ParseEntry(input: Bytes): Parse<TunnelEntry> {
    var tag :- Take8(MAX_LABEL, input);
    var addr :- Take16(MAX_LOCAL_ADDR, tag.rest);
    var typ :- Take8(MAX_LABEL, addr.rest);
    Ok(Parsed(TunnelEntry(tag.value, addr.value, typ.value), typ.rest))
  }

  function PutAuthV2(m: AuthV2, tail: Bytes): Bytes {
    [MSG_AUTH_V2] + Put16(m.token, PutList(PutEntry, m.tunnels, Put8(m.region, tail)))
  }

  function ParseAuthV2(input: Bytes): Parse<AuthV2> {
    var token :- TakeTyped(MSG_AUTH_V2, MAX_TOKEN, input);
    var tunnels :- TakeList(ParseEntry, MAX_TUNNELS, token.rest);
    var region :- Take8(MAX_REGION, tunnels.rest);
    Ok(Parsed(AuthV2(token.value, tunnels.value, region.value), region.rest))
  }

  lemma EntryRoundTrip(e: TunnelEntry, tail: Bytes)
    requires EntryEncodable(e)
    ensures ParseEntry(PutEntry(e, tail)) == Ok(Parsed(e, tail))
  {
    var t2 := Put8(e.tunnelType, tail);
    var t1 := Put16(e.localAddr, t2);
    PutTake8(MAX_LABEL, e.tag, t1);
    PutTake16(MAX_LOCAL_ADDR, e.localAddr, t2);
    PutTake8(MAX_LABEL, e.tunnelType, tail);
  }

  lemma EntryCanonical(input: Bytes)
    requires ParseEntry(input).Ok?
    ensures
      var p := ParseEntry(input).value;
      EntryEncodable(p.value) && input == PutEntry(p.value, p.rest)
  {
    var tag := Take8(MAX_LABEL, input).value;
    var addr := Take16(MAX_LOCAL_ADDR, tag.rest).value;
    TakePut8(MAX_LABEL, input);
    TakePut16(MAX_LOCAL_ADDR, tag.rest);
    TakePut8(MAX_LABEL, addr.rest);
  }

  lemma EntryCodec()
    ensures Undoes(ParseEntry, PutEntry, EntryEncodable)
    ensures Exact(ParseEntry, PutEntry, EntryEncodable)
  {
    forall e, tail | EntryEncodable(e) ensures ParseEntry(PutEntry(e, tail)) == Ok(Parsed(e, tail)) {
      EntryRoundTrip(e, tail);
    }
    forall input | ParseEntry(input).Ok?
      ensures
        var p := ParseEntry(input).value;
        EntryEncodable(p.value) && input == PutEntry(p.value, p.rest)
    {
      EntryCanonical(input);
    }
  }

  /** Decoding the frame of an encodable message, followed by anything, returns the message and
      exactly what followed. */
  lemma AuthV2RoundTrip(m: AuthV2, tail: Bytes)
    requires AuthV2Encodable(m)
    ensures ParseAuthV2(PutAuthV2(m, tail)) == Ok(Parsed(m, tail))
  {
    var t2 := Put8(m.region, tail);
    EntryCodec();
    PutTakeTyped(MSG_AUTH_V2, MAX_TOKEN, m.token, PutList(PutEntry, m.tunnels, t2));
    ListRoundTrip(ParseEntry, PutEntry, EntryEncodable, MAX_TUNNELS, m.tunnels, t2);
    PutTake8(MAX_REGION, m.region, tail);
  }

  /** Every accepted input is the frame of the message returned, followed by the remainder. */
  lemma AuthV2Canonical(input: Bytes)
    requires ParseAuthV2(input).Ok?
    ensures
      var p := ParseAuthV2(input).value;
      AuthV2Encodable(p.value) && input == PutAuthV2(p.value, p.rest)
  {
    EntryCodec();
    TakePutTyped(MSG_AUTH_V2, MAX_TOKEN, input);
    var token := TakeTyped(MSG_AUTH_V2, MAX_TOKEN, input).value;
    ListCanonical(ParseEntry, PutEntry, EntryEncodable, MAX_TUNNELS, token.rest);
    TakePut8(MAX_REGION, TakeList(ParseEntry, MAX_TUNNELS, token.rest).value.rest);
  }
}
