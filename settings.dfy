/** The configuration the controller reads once at start-up: the certificate
    authority's key and certificate, and `settings.securityOptions`. */
module Settings {
  import opened Js

  /** `securityOptions.privateKey`: defaults for key generation. */
  datatype PrivateKeyDefaults = PrivateKeyDefaults(keyBitsize: JsValue, cipher: JsValue)

  /** `securityOptions.certificate`: defaults for the certificate subject,
      the signature hash and the validity period. */
  datatype CertificateDefaults = CertificateDefaults(
    country: JsValue,
    state: JsValue,
    locality: JsValue,
    organization: JsValue,
    organizationUnit: JsValue,
    commonName: JsValue,
    emailAddress: JsValue,
    hash: JsValue,
    days: JsValue)

  datatype SecurityOptions = SecurityOptions(
    passphrase: JsValue,
    privateKey: PrivateKeyDefaults,
    certificate: CertificateDefaults)

  /** The authority's key and certificate as loaded at start-up: the text of
      the file, or null when the file does not exist. */
  datatype Authority = Authority(key: JsValue, certificate: JsValue)

  datatype Config = Config(authority: Authority, security: SecurityOptions)
}
