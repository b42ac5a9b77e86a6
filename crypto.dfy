/** The cryptographic library the controller delegates to (`pem`), as an
    environment: each operation's answer to a request is chosen by the
    environment, and the controller's calls are recorded as a trace. */
module Crypto {
  import opened Js
  import opened Results
  import opened Resolver

  /** An error the library reports through its callback. */
  datatype ProviderError = ProviderError(detail: string)

  /** The library's answers. Each success value is the plain object the
      library hands back: `{key}` for a key, `{csr, ...}` for a CSR, the
      signed certificate object for signing. */
  datatype Provider = Provider(
    createPrivateKey: (JsValue, KeyOptions) -> Result<Bag, ProviderError>,
    createCsr: CertificateOptions -> Result<Bag, ProviderError>,
    createCertificate: CertificateOptions -> Result<Bag, ProviderError>,
    createPkcs12: (JsValue, JsValue, JsValue) -> Result<Bag, ProviderError>)

  /** One call into the library, with the arguments the controller passed. */
  datatype Call =
    | PrivateKeyCall(keyBitsize: JsValue, keyOptions: KeyOptions)
    | CsrCall(request: CertificateOptions)
    | CertificateCall(request: CertificateOptions)
    | Pkcs12Call(key: JsValue, certificate: JsValue, passphrase: JsValue)

  /** What the library answers to a call. */
  function Answer(p: Provider, c: Call): Result<Bag, ProviderError> {
    match c
    case PrivateKeyCall(bits, options) => p.createPrivateKey(bits, options)
    case CsrCall(request) => p.createCsr(request)
    case CertificateCall(request) => p.createCertificate(request)
    case Pkcs12Call(key, certificate, passphrase) => p.createPkcs12(key, certificate, passphrase)
  }

  function Last(trace: seq<Call>): Call
    requires trace != []
  {
    trace[|trace| - 1]
  }
}
