/**
 * Stand-ins for the lower-level error types that the crypto crate wraps but does
 * not define: serde_json's error, olm_rs's session and group-session errors,
 * cjson's error and the crypto store's error. Their internals are out of scope;
 * each is represented only by the text its `Display` implementation produces.
 */
module ForeignErrors {

  /** `serde_json::Error`. */
  datatype SerdeError = SerdeError(text: string) {
    function Message(): string { text }
  }

  /** `olm_rs::errors::OlmSessionError`. */
  datatype OlmSessionError = OlmSessionError(text: string) {
    function Message(): string { text }
  }

  /** `olm_rs::errors::OlmGroupSessionError`. */
  datatype OlmGroupSessionError = OlmGroupSessionError(text: string) {
    function Message(): string { text }
  }

  /** `cjson::Error`. */
  datatype CjsonError = CjsonError(text: string) {
    function Message(): string { text }
  }

  /** `CryptoStoreError` of the crate's store module. */
  datatype CryptoStoreError = CryptoStoreError(text: string) {
    function Message(): string { text }
  }
}
