/**
 * The error taxonomy of the end-to-end encryption crate
 * (matrix_sdk_crypto/src/error.rs): four closed families of errors, the `From`
 * conversions that decide which variant a lower-level failure lands in when it
 * is propagated with `?`, and the text each variant displays.
 */
module CryptoErrors {
  import opened Wrappers
  import opened ForeignErrors

  // ---------------------------------------------------------------------------
  // The four families
  // ---------------------------------------------------------------------------

  /** A malformed or mismatched encrypted payload. Every variant but one is a leaf. */
  datatype EventError =
    | UnsupportedOlmType
    | UnsupportedAlgorithm
    | NotAnObject
    | MissingCiphertext
    | MissingSigningKey
    | MissingField(field: string)
    | MissmatchedSender
    | MissmatchedKeys

  /** A failure during a device-to-device (Olm) operation. */
  datatype OlmError =
    | EventError(event: EventError)
    | JsonError(json: SerdeError)
    | OlmSession(session: OlmSessionError)
    | OlmGroupSession(groupSession: OlmGroupSessionError)
    | Store(store: CryptoStoreError)
    | SessionWedged
  {
    /** The lower-level error this one wraps; `SessionWedged` wraps none. */
    function WrappedCause(): Option<Cause>
    {
      match this
      case EventError(e) => Some(Cause.Event(e))
      case JsonError(e) => Some(Cause.Json(e))
      case OlmSession(e) => Some(Cause.Session(e))
      case OlmGroupSession(e) => Some(Cause.GroupSession(e))
      case Store(e) => Some(Cause.StoreFailure(e))
      case SessionWedged => None
    }
  }

  /** A failure during a group (Megolm) encryption operation. */
  datatype MegolmError =
    | EventError(event: EventError)
    | JsonError(json: SerdeError)
    | MissingSession
    | OlmGroupSession(groupSession: OlmGroupSessionError)
    | Store(store: CryptoStoreError)
  {
    /** The lower-level error this one wraps; `MissingSession` wraps none. */
    function WrappedCause(): Option<Cause>
    {
      match this
      case EventError(e) => Some(Cause.Event(e))
      case JsonError(e) => Some(Cause.Json(e))
      case MissingSession => None
      case OlmGroupSession(e) => Some(Cause.GroupSession(e))
      case Store(e) => Some(Cause.StoreFailure(e))
    }
  }

  /** A failure while checking a signature over canonical JSON. */
  datatype SignatureError =
    | NotAnObject
    | NoSignatureFound
    | CanonicalJsonError(cjson: CjsonError)
    | VerificationError

  type OlmResult<T> = Result<T, OlmError>
  type MegolmResult<T> = Result<T, MegolmError>

  /**
   * Every lower-level error that some `From` conversion of this module accepts,
   * tagged with its type. Used to name "the cause" an error wraps.
   */
  datatype Cause =
    | Event(event: EventError)
    | Json(json: SerdeError)
    | Session(session: OlmSessionError)
    | GroupSession(groupSession: OlmGroupSessionError)
    | StoreFailure(store: CryptoStoreError)

  // ---------------------------------------------------------------------------
  // `From` conversions (the `#[from]` attributes and the hand-written impl)
  // ---------------------------------------------------------------------------

  function OlmFromEvent(e: EventError): (r: OlmError)
    ensures r.WrappedCause() == Some(Cause.Event(e))
  {
    OlmError.EventError(e)
  }

  function OlmFromSerde(e: SerdeError): (r: OlmError)
    ensures r.WrappedCause() == Some(Cause.Json(e))
  {
    OlmError.JsonError(e)
  }

  function OlmFromSession(e: OlmSessionError): (r: OlmError)
    ensures r.WrappedCause() == Some(Cause.Session(e))
  {
    OlmError.OlmSession(e)
  }

  function OlmFromGroupSession(e: OlmGroupSessionError): (r: OlmError)
    ensures r.WrappedCause() == Some(Cause.GroupSession(e))
  {
    OlmError.OlmGroupSession(e)
  }

  function OlmFromStore(e: CryptoStoreError): (r: OlmError)
    ensures r.WrappedCause() == Some(Cause.StoreFailure(e))
  {
    OlmError.Store(e)
  }

  function MegolmFromEvent(e: EventError): (r: MegolmError)
    ensures r.WrappedCause() == Some(Cause.Event(e))
  {
    MegolmError.EventError(e)
  }

  function MegolmFromSerde(e: SerdeError): (r: MegolmError)
    ensures r.WrappedCause() == Some(Cause.Json(e))
  {
    MegolmError.JsonError(e)
  }

  function MegolmFromGroupSession(e: OlmGroupSessionError): (r: MegolmError)
    ensures r.WrappedCause() == Some(Cause.GroupSession(e))
  {
    MegolmError.OlmGroupSession(e)
  }

  function MegolmFromStore(e: CryptoStoreError): (r: MegolmError)
    ensures r.WrappedCause() == Some(Cause.StoreFailure(e))
  {
    MegolmError.Store(e)
  }

  /** The hand-written `impl From<CjsonError> for SignatureError`. */
  function SignatureFromCjson(e: CjsonError): (r: SignatureError)
    ensures r.CanonicalJsonError? && r.cjson == e
    ensures SignatureMessage(r) == CanonicalJsonText
  {
    SignatureError.CanonicalJsonError(e)
  }

  // ---------------------------------------------------------------------------
  // Display texts (the `#[error(...)]` attributes)
  // ---------------------------------------------------------------------------

  const UnsupportedOlmTypeText := "the Olm message has a unsupported type"
  const UnsupportedAlgorithmText := "the Encrypted message has been encrypted with a unsupported algorithm."
  const NotAnObjectText := "the provided JSON value isn't an object"
  const MissingCiphertextText := "the Encrypted message doesn't contain a ciphertext for our device"
  const MissingSigningKeyText := "the Encrypted message is missing the signing key of the sender"
  const MissingFieldPrefix := "the Encrypted message is missing the field "
  const MissmatchedSenderText := "the sender of the plaintext doesn't match the sender of the encrypted message."
  const MissmatchedKeysText := "the keys of the message don't match the keys in our database."

  const NoSignatureFoundText := "the provided JSON object doesn't contain a signatures field"
  const CanonicalJsonText := "the provided JSON object can't be converted to a canonical representation"
  const VerificationFailedText := "the signature didn't match the provided key"

  const OlmSessionPrefix := "can't finish Olm Session operation "
  const OlmStorePrefix := "failed to read or write to the crypto store "
  const SessionWedgedText := "decryption failed likely because a Olm session was wedged"

  const MissingSessionText := "decryption failed because the session to decrypt the message is missing"
  const MegolmGroupSessionPrefix := "can't finish Olm group session operation "

  /** The text of an `EventError`: a fixed sentence, or a prefix and the missing field's name. */
  function EventMessage(e: EventError): (m: string)
    ensures MissingFieldPrefix <= m <==> e.MissingField?
    ensures e.MissingField? ==> m[|MissingFieldPrefix|..] == e.field
  {
    // Every fixed sentence differs from MissingFieldPrefix at index k = |MissingFieldPrefix| - 1
    // (or is shorter than it).
    var k := |MissingFieldPrefix| - 1;
    match e
    case UnsupportedOlmType => UnsupportedOlmTypeText
    case UnsupportedAlgorithm =>
      assert UnsupportedAlgorithmText[k] != MissingFieldPrefix[k];
      UnsupportedAlgorithmText
    case NotAnObject => NotAnObjectText
    case MissingCiphertext =>
      assert MissingCiphertextText[k] != MissingFieldPrefix[k];
      MissingCiphertextText
    case MissingSigningKey =>
      assert MissingSigningKeyText[k] != MissingFieldPrefix[k];
      MissingSigningKeyText
    case MissingField(f) => MissingFieldPrefix + f
    case MissmatchedSender =>
      assert MissmatchedSenderText[k] != MissingFieldPrefix[k];
      MissmatchedSenderText
    case MissmatchedKeys =>
      assert MissmatchedKeysText[k] != MissingFieldPrefix[k];
      MissmatchedKeysText
  }

  /**
   * The text of a `SignatureError`: one fixed sentence per kind, which names the
   * kind; `CanonicalJsonError` does not show its cause.
   */
  function SignatureMessage(e: SignatureError): (m: string)
    ensures m == NotAnObjectText <==> e.NotAnObject?
    ensures m == NoSignatureFoundText <==> e.NoSignatureFound?
    ensures m == CanonicalJsonText <==> e.CanonicalJsonError?
    ensures m == VerificationFailedText <==> e.VerificationError?
  {
    match e
    case NotAnObject => NotAnObjectText
    case NoSignatureFound => NoSignatureFoundText
    case CanonicalJsonError(_) => CanonicalJsonText
    case VerificationError => VerificationFailedText
  }

  /** The text of a wrapped lower-level error, as its own `Display` shows it. */
  function CauseMessage(c: Cause): string
  {
    match c
    case Event(x) => EventMessage(x)
    case Json(x) => x.Message()
    case Session(x) => x.Message()
    case GroupSession(x) => x.Message()
    case StoreFailure(x) => x.Message()
  }

  /** `m` ends with `t`. */
  predicate EndsWith(m: string, t: string)
  {
    |t| <= |m| && m[|m| - |t|..] == t
  }

  /**
   * The text of an `OlmError`. `EventError` and `JsonError` are transparent;
   * `OlmSession` and `OlmGroupSession` share one prefix; `Store` has its own.
   */
  function OlmMessage(e: OlmError): (m: string)
    ensures e.WrappedCause().Some? ==> EndsWith(m, CauseMessage(e.WrappedCause().value))
  {
    match e
    case EventError(x) => EventMessage(x)
    case JsonError(x) => x.Message()
    case OlmSession(x) => OlmSessionPrefix + x.Message()
    case OlmGroupSession(x) => OlmSessionPrefix + x.Message()
    case Store(x) => OlmStorePrefix + x.Message()
    case SessionWedged => SessionWedgedText
  }

  /** The text of a `MegolmError`. `EventError`, `JsonError` and `Store` are transparent. */
  function MegolmMessage(e: MegolmError): (m: string)
    ensures e.WrappedCause().Some? ==> EndsWith(m, CauseMessage(e.WrappedCause().value))
  {
    match e
    case EventError(x) => EventMessage(x)
    case JsonError(x) => x.Message()
    case MissingSession => MissingSessionText
    case OlmGroupSession(x) => MegolmGroupSessionPrefix + x.Message()
    case Store(x) => x.Message()
  }
}
