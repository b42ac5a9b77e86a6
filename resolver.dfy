/** Merging a caller's options with the configured defaults
    (`getKeyOptions` and `getCertificateOptions`). */
module Resolver {
  import opened Js
  import opened Settings

  /** The options handed to key generation. */
  datatype KeyOptions = KeyOptions(keyBitsize: JsValue, cipher: JsValue)

  /** The options handed to CSR generation and to signing. The flow writes
      `csr` into this record before signing; as built it is undefined, like a
      property the object literal does not have. */
  datatype CertificateOptions = CertificateOptions(
    serviceCertificate: JsValue,
    serviceKey: JsValue,
    serviceKeyPassword: JsValue,
    clientKey: JsValue,
    keyBitsize: JsValue,
    country: JsValue,
    state: JsValue,
    locality: JsValue,
    organization: JsValue,
    organizationUnit: JsValue,
    commonName: JsValue,
    emailAddress: JsValue,
    hash: JsValue,
    days: JsValue,
    serialNumber: JsValue,
    csr: JsValue)

  /** `v` is what `input.name || fallback` resolves to: the caller's value
      when it is truthy, the fallback when the caller's value is absent or
      falsy (undefined, null, false, 0, ""). */
  ghost predicate ResolvedFrom(input: Bag, name: string, fallback: JsValue, v: JsValue) {
    if Truthy(Get(input, name)) then name in input && v == input[name] else v == fallback
  }

  /** The property names of the caller's options that `getCertificateOptions`
      reads; no other property of the input can influence its result. */
  const CertificateInputNames: set<string> :=
    {"clientKey", "keyBitsize", "country", "state", "locality", "organization",
     "organizationUnit", "commonName", "emailAddress", "days", "serialNumber"}

  function GetKeyOptions(defaults: PrivateKeyDefaults, input: Bag): (r: KeyOptions)
    ensures ResolvedFrom(input, "keyBitsize", defaults.keyBitsize, r.keyBitsize)
    ensures ResolvedFrom(input, "cipher", defaults.cipher, r.cipher)
    ensures input == map[] ==> r == KeyOptions(defaults.keyBitsize, defaults.cipher)
  {
    KeyOptions(
      Or(Get(input, "keyBitsize"), defaults.keyBitsize),
      Or(Get(input, "cipher"), defaults.cipher))
  }

  function GetCertificateOptions(cfg: Config, input: Bag): (r: CertificateOptions)
    ensures r.serviceCertificate == cfg.authority.certificate
    ensures r.serviceKey == cfg.authority.key
    ensures r.serviceKeyPassword == cfg.security.passphrase
    ensures r.hash == cfg.security.certificate.hash
    ensures r.clientKey == Get(input, "clientKey") && r.serialNumber == Get(input, "serialNumber")
    ensures ResolvedFrom(input, "keyBitsize", cfg.security.privateKey.keyBitsize, r.keyBitsize)
    ensures ResolvedFrom(input, "country", cfg.security.certificate.country, r.country)
    ensures ResolvedFrom(input, "state", cfg.security.certificate.state, r.state)
    ensures ResolvedFrom(input, "locality", cfg.security.certificate.locality, r.locality)
    ensures ResolvedFrom(input, "organization", cfg.security.certificate.organization, r.organization)
    ensures ResolvedFrom(input, "organizationUnit", cfg.security.certificate.organizationUnit, r.organizationUnit)
    ensures ResolvedFrom(input, "commonName", cfg.security.certificate.commonName, r.commonName)
    ensures ResolvedFrom(input, "emailAddress", cfg.security.certificate.emailAddress, r.emailAddress)
    ensures ResolvedFrom(input, "days", cfg.security.certificate.days, r.days)
    ensures r.csr == Undefined
  {
    var d := cfg.security.certificate;
    CertificateOptions(
      cfg.authority.certificate,
      cfg.authority.key,
      cfg.security.passphrase,
      Get(input, "clientKey"),
      Or(Get(input, "keyBitsize"), cfg.security.privateKey.keyBitsize),
      Or(Get(input, "country"), d.country),
      Or(Get(input, "state"), d.state),
      Or(Get(input, "locality"), d.locality),
      Or(Get(input, "organization"), d.organization),
      Or(Get(input, "organizationUnit"), d.organizationUnit),
      Or(Get(input, "commonName"), d.commonName),
      Or(Get(input, "emailAddress"), d.emailAddress),
      d.hash,
      Or(Get(input, "days"), d.days),
      Get(input, "serialNumber"),
      Undefined)
  }

  /** An empty input yields exactly the configured defaults, with neither a
      client key nor a serial number. */
  lemma EmptyInputGivesDefaults(cfg: Config)
    ensures var d := cfg.security.certificate;
      GetCertificateOptions(cfg, map[]) == CertificateOptions(
        cfg.authority.certificate, cfg.authority.key, cfg.security.passphrase,
        Undefined, cfg.security.privateKey.keyBitsize,
        d.country, d.state, d.locality, d.organization, d.organizationUnit,
        d.commonName, d.emailAddress, d.hash, d.days, Undefined, Undefined)
  {
  }

  /** Two inputs that agree on every name `getCertificateOptions` reads
      resolve to the same options. */
  lemma SameReadsSameCertificateOptions(cfg: Config, a: Bag, b: Bag)
    requires forall name :: name in CertificateInputNames ==> Get(a, name) == Get(b, name)
    ensures GetCertificateOptions(cfg, a) == GetCertificateOptions(cfg, b)
  {
  }

  /** Whatever a caller writes under any other name (`serviceKey`,
      `serviceCertificate`, `serviceKeyPassword`, `hash`, ...) changes nothing:
      the signing authority and the hash cannot be overridden. */
  lemma InputCannotOverrideAuthority(cfg: Config, input: Bag, name: string, v: JsValue)
    requires name !in CertificateInputNames
    ensures GetCertificateOptions(cfg, input[name := v]) == GetCertificateOptions(cfg, input)
  {
    SameReadsSameCertificateOptions(cfg, input[name := v], input);
  }

  /** Key options read only `keyBitsize` and `cipher`. */
  lemma KeyOptionsReadTwoNames(defaults: PrivateKeyDefaults, input: Bag, name: string, v: JsValue)
    requires name != "keyBitsize" && name != "cipher"
    ensures GetKeyOptions(defaults, input[name := v]) == GetKeyOptions(defaults, input)
  {
  }
}
