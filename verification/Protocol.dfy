/** Values shared by every layer: bytes, session ids, errors and protocol envelopes. */
module Protocol {

  datatype Option<+T> = None | Some(value: T)

  type Byte = b: int | 0 <= b < 0x100

  type Bytes = seq<Byte>

  /** An unsigned 64-bit value: sequence numbers and context ids. */
  type U64 = n: int | 0 <= n < 0x1_0000_0000_0000_0000

  const U64_LIMIT := 0x1_0000_0000_0000_0000

  const SESSION_ID_SIZE := 16

  /** std::array<uint8_t, 16>; on the wire it travels as a byte string of any length. */
  type SessionId = id: Bytes | |id| == SESSION_ID_SIZE witness seq(SESSION_ID_SIZE, _ => 0)

  datatype ErrorKind = Config | OpenSsl | ProtocolViolation | Transport | State

  datatype Error = Error(kind: ErrorKind, message: string)

  datatype Result<+T> = Ok(value: T) | Err(error: Error)

  datatype ConnectionConfig = ConnectionConfig(socketPath: string, authToken: string, connectTimeoutMs: nat)

  datatype InterruptReason =
    | Unspecified
    | ByToggle
    | FocusLost
    | FocusChanged
    | InputContextDestroyed
    | TransportFailure

  datatype ErrorCode = UnspecifiedCode | AuthenticationFailed | InvalidRequest | TranscriberInternal | Unavailable

  /** The payloads of one protobuf Envelope; Blank is an envelope with no payload set. */
  datatype Envelope =
    | Blank
    | ClientHello
    | ServerHello
    | StartSession(sessionId: Bytes)
    | InterruptSession(sessionId: Bytes, reason: InterruptReason)
    | CommitTextMessage(sessionId: Bytes, sequenceNo: U64, text: string)
    | VadTimeoutMessage(sessionId: Bytes)
    | ErrorMessage(sessionId: Bytes, code: ErrorCode, message: string)

  lemma MultipleIsLarge(d: int, l: nat)
    ensures d >= 1 ==> d * l >= l
  {
  }

  /** Quotient and remainder are unique. */
  lemma QuotientIs(n: nat, l: nat, q: nat, r: nat)
    requires r < l && n == q * l + r
    ensures n / l == q && n % l == r
  {
    var d := n / l - q;
    assert d * l == r - n % l;
    MultipleIsLarge(d, l);
    MultipleIsLarge(-d, l);
  }
}
