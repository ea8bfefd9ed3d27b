/** Why an authentication frame is refused, from the bytes alone: another type byte, a length or a count
    over its limit, or too few bytes, in the order in which the fields arrive. */
module Refusals {
  import opened Common
  import opened Wire
  import opened Handshake

  function Length(hi: Byte, lo: Byte): nat { 256 * hi + lo }

  /** A header of type and token length: three bytes are read before anything is judged. */
  lemma TokenRefusals(kind: Byte, max: nat, input: Bytes)
    ensures |input| < 3 ==> TakeTyped(kind, max, input) == Err(ShortRead)
    ensures |input| >= 3 && input[0] != kind ==> TakeTyped(kind, max, input) == Err(WrongType)
    ensures |input| >= 3 && input[0] == kind && Length(input[1], input[2]) > max ==>
              TakeTyped(kind, max, input) == Err(TooLong)
    ensures |input| >= 3 && input[0] == kind && |input| - 3 < Length(input[1], input[2]) <= max ==>
              TakeTyped(kind, max, input) == Err(ShortRead)
  {
  }

  /** AuthV2: type 6, a token of at most 4096 bytes, at most 32 tunnels. */
  lemma AuthV2Refusals(input: Bytes)
    ensures |input| < 3 ==> ParseAuthV2(input) == Err(ShortRead)
    ensures |input| >= 3 && input[0] != 6 ==> ParseAuthV2(input) == Err(WrongType)
    ensures |input| >= 3 && input[0] == 6 && Length(input[1], input[2]) > 4096 ==> ParseAuthV2(input) == Err(TooLong)
    ensures
      |input| >= 3 && input[0] == 6 && Length(input[1], input[2]) <= 4096 ==>
        var at := 3 + Length(input[1], input[2]);
        && (|input| <= at ==> ParseAuthV2(input) == Err(ShortRead))
        && (|input| > at && input[at] > 32 ==> ParseAuthV2(input) == Err(TooLong))
  {
    TokenRefusals(MSG_AUTH_V2, MAX_TOKEN, input);
  }

  /** Auth and session resume: types 1 and 9, tokens of at most 4096 and 512 bytes. */
  lemma AuthRefusals(input: Bytes)
    requires |input| >= 3
    ensures input[0] != 1 ==> ParseAuth(input) == Err(WrongType)
    ensures input[0] == 1 && Length(input[1], input[2]) > 4096 ==> ParseAuth(input) == Err(TooLong)
    ensures input[0] != 9 ==> ParseResume(input) == Err(WrongType)
    ensures input[0] == 9 && Length(input[1], input[2]) > 512 ==> ParseResume(input) == Err(TooLong)
  {
    TokenRefusals(MSG_AUTH, MAX_TOKEN, input);
    TokenRefusals(MSG_SESSION_RESUME, MAX_RESUME_TOKEN, input);
  }
}
