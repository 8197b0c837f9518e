/** The error kinds the HTTP boundary reports (package `errors`). */
module Errors {

  /** The two kinds an estimate failure is tagged with. */
  datatype ErrorKind = ProviderError | ConfigurationError

  /** The `type` field written into the JSON error body for each kind. */
  function TypeTag(kind: ErrorKind): (tag: string)
    ensures tag == "ProviderError" <==> kind == ProviderError
    ensures tag == "ConfigurationError" <==> kind == ConfigurationError
  {
    match kind
    case ProviderError => "ProviderError"
    case ConfigurationError => "ConfigurationError"
  }
}
