# Crypto error taxonomy of matrix-rust-sdk, in Dafny

This project models the error vocabulary of the end-to-end encryption crate of
matrix-rust-sdk (`matrix_sdk_crypto/src/error.rs`). The crate's device-to-device
(Olm) and group (Megolm) operations, and its checks of payloads and signatures,
report their failures through four closed families of errors defined there:

- `OlmError`: failures of pairwise device sessions;
- `MegolmError`: failures of group sessions;
- `EventError`: malformed or mismatched encrypted payloads;
- `SignatureError`: failures while checking a signature over canonical JSON.

The model has three parts. The families are datatypes, with one constructor
per Rust variant. The `From` conversions decide which variant a lower-level
failure lands in when `?` propagates it. The `#[error(...)]` attributes give
each variant its displayed text.

Files:

- `wrappers.dfy` (module `Wrappers`): `Option`, `Result`, and `Propagate`, the `?` operator.
  A success passes through `?` unchanged; an error goes through its `From` conversion.
- `foreign_errors.dfy` (module `ForeignErrors`): the wrapped error types of other crates.
  These are serde_json, olm_rs, cjson and the crypto store.
  Each is reduced to the text its `Display` shows.
- `error.rs` becomes `error.dfy` (module `CryptoErrors`).
  It holds the four families, `OlmResult`/`MegolmResult`, the conversions and the display texts.
  `Cause` names the lower-level error a variant wraps, and `WrappedCause` extracts it.
- `error_properties.dfy` (module `CryptoErrorProperties`): lemmas relating the above.

Two observations that the lemmas make precise:

- In `OlmError`, `OlmSession` and `OlmGroupSession` show the same prefix
  "can't finish Olm Session operation ". `MegolmError::OlmGroupSession` says
  "can't finish Olm group session operation " instead. The model keeps the source's texts.
- Displayed text does not identify the variant. A `MegolmError::Store` is
  transparent. So a store error whose own text is the `MissingSession` sentence
  makes it show exactly that sentence. Callers have to match on the variant to
  tell a missing key from a store failure.

## Model

| member | source | states |
|---|---|---|
| `CryptoErrors.OlmFromEvent` | matrix_sdk_crypto/src/error.rs:30-31 | an `EventError` lands in `OlmError::EventError`, and the wrapped cause is that same error |
| `CryptoErrors.OlmFromSerde` | matrix_sdk_crypto/src/error.rs:34-35 | a serde error lands in `OlmError::JsonError`, and the wrapped cause is that same error |
| `CryptoErrors.OlmFromSession` | matrix_sdk_crypto/src/error.rs:38-39 | an Olm session error lands in `OlmError::OlmSession`, and the wrapped cause is that same error |
| `CryptoErrors.OlmFromGroupSession` | matrix_sdk_crypto/src/error.rs:42-43 | a group session error lands in `OlmError::OlmGroupSession`, and the wrapped cause is that same error |
| `CryptoErrors.OlmFromStore` | matrix_sdk_crypto/src/error.rs:46-47 | a store error lands in `OlmError::Store`, and the wrapped cause is that same error |
| `CryptoErrors.MegolmFromEvent` | matrix_sdk_crypto/src/error.rs:58-59 | an `EventError` lands in `MegolmError::EventError`, and the wrapped cause is that same error |
| `CryptoErrors.MegolmFromSerde` | matrix_sdk_crypto/src/error.rs:62-63 | a serde error lands in `MegolmError::JsonError`, and the wrapped cause is that same error |
| `CryptoErrors.MegolmFromGroupSession` | matrix_sdk_crypto/src/error.rs:71-72 | a group session error lands in `MegolmError::OlmGroupSession`, and the wrapped cause is that same error |
| `CryptoErrors.MegolmFromStore` | matrix_sdk_crypto/src/error.rs:75-76 | a store error lands in `MegolmError::Store`, and the wrapped cause is that same error |
| `CryptoErrors.SignatureFromCjson` | matrix_sdk_crypto/src/error.rs:121-125 | a cjson error always becomes `CanonicalJsonError` holding that exact error; its text is the fixed canonical-representation sentence |
| `CryptoErrors.EventMessage` | matrix_sdk_crypto/src/error.rs:80-104 | a text starts with "the Encrypted message is missing the field " exactly when the error is `MissingField`, and the rest of that text is the field's name |
| `CryptoErrors.SignatureMessage` | matrix_sdk_crypto/src/error.rs:107-119 | each of the four sentences is shown by exactly one kind of signature error, so the text names the kind; `CanonicalJsonError` shows the same sentence whatever its cause |
| `CryptoErrors.OlmMessage` | matrix_sdk_crypto/src/error.rs:28-52 | the text of every `OlmError` that wraps a cause ends with that cause's own text |
| `CryptoErrors.MegolmMessage` | matrix_sdk_crypto/src/error.rs:56-77 | the text of every `MegolmError` that wraps a cause ends with that cause's own text |
| `CryptoErrorProperties.OlmVariantsAreConversions` | matrix_sdk_crypto/src/error.rs:28-52 | every cause-carrying `OlmError` is the conversion of the cause it holds |
| `CryptoErrorProperties.MegolmVariantsAreConversions` | matrix_sdk_crypto/src/error.rs:56-77 | every cause-carrying `MegolmError` is the conversion of the cause it holds |
| `CryptoErrorProperties.OlmCauseDeterminesError` | matrix_sdk_crypto/src/error.rs:28-52 | two `OlmError`s are equal if and only if they wrap the same cause, so each cause has exactly one variant |
| `CryptoErrorProperties.MegolmCauseDeterminesError` | matrix_sdk_crypto/src/error.rs:56-77 | two `MegolmError`s are equal if and only if they wrap the same cause, so each cause has exactly one variant |
| `CryptoErrorProperties.LeavesAreFamilySpecific` | matrix_sdk_crypto/src/error.rs:49-68 | `SessionWedged` is the only cause-free `OlmError` and `MissingSession` the only cause-free `MegolmError`; their texts differ |
| `CryptoErrorProperties.MegolmCausesExcludeOlmSession` | matrix_sdk_crypto/src/error.rs:56-77 | no `MegolmError` wraps an Olm session error; every other cause has a `MegolmError` wrapping it |
| `CryptoErrorProperties.OlmPropagation` | matrix_sdk_crypto/src/error.rs:22-52 | `?` on any of the five accepted lower-level errors, in a function returning `OlmResult`, keeps a success and its value; a failure arrives as an `OlmError` whose wrapped cause is the original error |
| `CryptoErrorProperties.MegolmPropagation` | matrix_sdk_crypto/src/error.rs:23-77 | `?` on any of the four accepted lower-level errors, in a function returning `MegolmResult`, keeps a success and its value; a failure arrives as a `MegolmError` whose wrapped cause is the original error |
| `CryptoErrorProperties.CjsonErrorPropagation` | matrix_sdk_crypto/src/error.rs:114-125 | `?` on a cjson error into a `SignatureError` result keeps a success and its value, and gives `CanonicalJsonError` over that error |
| `CryptoErrorProperties.OlmTransparentVariants` | matrix_sdk_crypto/src/error.rs:30-35 | `OlmError::EventError` and `OlmError::JsonError` show exactly the wrapped error's text |
| `CryptoErrorProperties.MegolmTransparentVariants` | matrix_sdk_crypto/src/error.rs:58-76 | `MegolmError::EventError`, `JsonError` and `Store` show exactly the wrapped error's text |
| `CryptoErrorProperties.OlmStoreIsPrefixed` | matrix_sdk_crypto/src/error.rs:45-47 | `OlmError::Store` shows "failed to read or write to the crypto store " followed by the store's text, which can be read back; it never equals the `MegolmError::Store` text |
| `CryptoErrorProperties.OlmSessionVariantsShareText` | matrix_sdk_crypto/src/error.rs:37-43 | `OlmSession` and `OlmGroupSession` both show "can't finish Olm Session operation " followed by exactly the wrapped text; their texts are equal if and only if the wrapped texts are, though the errors are distinct |
| `CryptoErrorProperties.GroupSessionTextDependsOnFamily` | matrix_sdk_crypto/src/error.rs:70-72 | `MegolmError::OlmGroupSession` shows "can't finish Olm group session operation " followed by exactly the wrapped text, which differs from what `OlmError` shows for the same error |
| `CryptoErrorProperties.MegolmStoreCanMimicMissingSession` | matrix_sdk_crypto/src/error.rs:65-76 | a store error whose own text is the `MissingSession` sentence makes `MegolmError::Store` show exactly that sentence |
| `CryptoErrorProperties.EventMessageInjective` | matrix_sdk_crypto/src/error.rs:80-104 | two `EventError`s show the same text if and only if they are equal |
| `CryptoErrorProperties.NotAnObjectTextShared` | matrix_sdk_crypto/src/error.rs:87-88 | `EventError::NotAnObject` and `SignatureError::NotAnObject` both show "the provided JSON value isn't an object" |
| `CryptoErrorProperties.SignatureMessageIdentifiesKind` | matrix_sdk_crypto/src/error.rs:107-119 | two signature errors show the same text if and only if they are equal or both `CanonicalJsonError`, whose text leaves out its cause |

## Left out

- The types of other crates are not modelled: `serde_json::Error`, `olm_rs`'s session errors, `cjson::Error` and `CryptoStoreError` from the store module. Each stands for nothing but its displayed text, a string field.
- The texts of the other crates' errors are unconstrained strings. So `MegolmStoreCanMimicMissingSession` is a fact about this abstraction. The store's real `Display` is not part of this model, so the model cannot say whether it ever produces that sentence.
- The `std::error::Error` machinery is not modelled: `source()` chaining and `Debug` formatting. `WrappedCause` gives the `#[from]` field a variant holds, not the `source()` chain of transparent variants.
- `pub(crate)` visibility of `SignatureError` is not modelled.
- The Olm and Megolm session managers, the crypto store and the canonical-JSON signature verifier are not part of this model. They use these errors, but their source is not among the modelled files.
- `matrix_sdk_base/src/event_emitter/mod.rs` is not part of this model. It is an asynchronous callback trait with empty default methods. The order of its callbacks is decided by the client's sync handling, which is not modelled.
