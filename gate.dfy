/** Whether the certificate authority is usable: the `openSSLEnabled` flag
    and the PKCS#12 self-test `checkAuthorityValidity`. */
module Gate {
  import opened Js
  import opened Settings
  import opened Crypto

  /** The fixed message of every refusal for a misconfigured authority. */
  const NotConfiguredMessage: string := "Security options have not been properly configured"

  /** The value of `openSSLEnabled`, the `&&` chain of the authority key,
      the authority certificate, the passphrase and the configured common name. */
  function OpenSslEnabled(cfg: Config): (v: JsValue)
    ensures Truthy(v) <==>
      Truthy(cfg.authority.key) && Truthy(cfg.authority.certificate) &&
      Truthy(cfg.security.passphrase) && Truthy(cfg.security.certificate.commonName)
    ensures Truthy(v) ==> v == cfg.security.certificate.commonName
    ensures !Truthy(cfg.authority.key) ==> v == cfg.authority.key
    ensures v in {cfg.authority.key, cfg.authority.certificate,
                  cfg.security.passphrase, cfg.security.certificate.commonName}
  {
    And(And(And(cfg.authority.key, cfg.authority.certificate), cfg.security.passphrase),
        cfg.security.certificate.commonName)
  }

  /** `if (openSSLEnabled)`. */
  predicate Enabled(cfg: Config) {
    Truthy(OpenSslEnabled(cfg))
  }

  /** The self-test's verdict and the library calls it made. */
  datatype Validity = Validity(valid: bool, trace: seq<Call>)

  /** `checkAuthorityValidity`: refuses at once when the flag is off;
      otherwise packages the authority's key and certificate, protected by the
      passphrase, and is valid exactly when packaging reports no error. */
  function CheckAuthorityValidity(cfg: Config, p: Provider): (r: Validity)
    ensures !Enabled(cfg) ==> r == Validity(false, [])
    ensures Enabled(cfg) ==>
      r.trace == [Pkcs12Call(cfg.authority.key, cfg.authority.certificate, cfg.security.passphrase)]
    ensures r.valid <==>
      Truthy(cfg.authority.key) && Truthy(cfg.authority.certificate) &&
      Truthy(cfg.security.passphrase) && Truthy(cfg.security.certificate.commonName) &&
      p.createPkcs12(cfg.authority.key, cfg.authority.certificate, cfg.security.passphrase).Success?
  {
    if !Enabled(cfg) then
      Validity(false, [])
    else
      var call := Pkcs12Call(cfg.authority.key, cfg.authority.certificate, cfg.security.passphrase);
      Validity(Answer(p, call).Success?, [call])
  }
}
