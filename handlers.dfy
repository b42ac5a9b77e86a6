/** The two request handlers, `createPrivateKey` and `createCertificate`:
    the gate, the choice of status code and what the reply carries. */
module Handlers {
  import opened Js
  import opened Settings
  import opened Resolver
  import opened Crypto
  import opened Gate
  import opened Issuance

  /** What a reply carries: data (`setData`) or a message (`setMessage`). */
  datatype Payload =
    | KeyData(key: JsValue)
    | CertificateData(certificate: Bag)
    | ErrorData(error: FlowError)
    | Message(text: string)

  /** The reply the handler delivers, or `Thrown` when the handler throws
      before replying. */
  datatype Reply = Reply(status: int, payload: Payload) | Thrown

  /** A handler's reply and the library calls it made. */
  datatype Handled = Handled(reply: Reply, trace: seq<Call>)

  /** The refusal both handlers deliver when the gate is closed. */
  const Refused := Handled(Reply(400, Message(NotConfiguredMessage)), [])

  /** `createPrivateKey(req, res)`, given `req.body.options`. The gate is
      the only check; the key options come from the request (absent options
      read as `{}`, while `null` makes the resolver throw); one key
      generation; 200 with the key, or 400 with the library's error. */
  function CreatePrivateKey(cfg: Config, p: Provider, bodyOptions: JsValue): (h: Handled)
    ensures !Enabled(cfg) ==> h == Refused
    ensures Enabled(cfg) && bodyOptions.Null? ==> h == Handled(Thrown, [])
    ensures Enabled(cfg) && !bodyOptions.Null? ==>
      var keyOptions := GetKeyOptions(cfg.security.privateKey, Fields(bodyOptions));
      && h.trace == [PrivateKeyCall(keyOptions.keyBitsize, keyOptions)]
      && h.reply.Reply?
      && (h.reply.status == 200 <==> Answer(p, h.trace[0]).Success?)
      && (h.reply.status == 200 ==> h.reply.payload == KeyData(Get(Answer(p, h.trace[0]).value, "key")))
      && (h.reply.status != 200 ==>
            h.reply == Reply(400, ErrorData(ProviderFailed(Answer(p, h.trace[0]).error))))
  {
    if !Enabled(cfg) then
      Refused
    else if bodyOptions.Null? then
      Handled(Thrown, [])
    else
      var keyOptions := GetKeyOptions(cfg.security.privateKey, Fields(bodyOptions));
      var call := PrivateKeyCall(keyOptions.keyBitsize, keyOptions);
      match Answer(p, call)
      case Failure(e) => Handled(Reply(400, ErrorData(ProviderFailed(e))), [call])
      case Success(key) => Handled(Reply(200, KeyData(Get(key, "key"))), [call])
  }

  /** `createCertificate(req, res)`, given `req.body.options`. The gate is
      the only check; the flow runs on `req.body.options || {}`; 200 with the
      signed certificate exactly when the flow succeeds, else 400 with its
      error. */
  function CreateCertificate(cfg: Config, p: Provider, bodyOptions: JsValue): (h: Handled)
    ensures !Enabled(cfg) ==> h == Refused
    ensures var run := Issue(cfg, p, Fields(Or(bodyOptions, Obj(map[]))));
      && h.reply.Reply?
      && (Enabled(cfg) ==> h.trace == run.trace)
      && (h.reply.status == 200 <==> Enabled(cfg) && run.result.Success?)
      && (h.reply.status == 200 ==> h.reply.payload == CertificateData(run.result.value))
      && (Enabled(cfg) && run.result.Failure? ==> h.reply == Reply(400, ErrorData(run.result.error)))
  {
    if !Enabled(cfg) then
      Refused
    else
      var run := Issue(cfg, p, Fields(Or(bodyOptions, Obj(map[]))));
      match run.result
      case Failure(e) => Handled(Reply(400, ErrorData(e)), run.trace)
      case Success(certificate) => Handled(Reply(200, CertificateData(certificate)), run.trace)
  }

  /** The handlers consult only `openSSLEnabled`: when the PKCS#12 self-test
      fails but the flag is on, both still call the library. */
  lemma HandlersIgnoreSelfTest(cfg: Config, p: Provider, bodyOptions: JsValue)
    requires Enabled(cfg) && !CheckAuthorityValidity(cfg, p).valid
    ensures !bodyOptions.Null? ==> CreatePrivateKey(cfg, p, bodyOptions).trace != []
    ensures CreateCertificate(cfg, p, bodyOptions).trace != []
  {
  }

  /** An issued certificate's request names the caller's common name as the
      subject and carries the authority's certificate, key and passphrase as
      the issuer's. */
  lemma IssuedSubjectAndIssuer(cfg: Config, p: Provider, commonName: string)
    requires Enabled(cfg) && commonName != ""
    ensures var h := CreateCertificate(cfg, p, Obj(map["commonName" := Str(commonName)]));
      h.reply.status == 200 ==>
        && |h.trace| == 3
        && h.trace[2].CertificateCall?
        && h.trace[2].request.commonName == Str(commonName)
        && h.trace[2].request.serviceCertificate == cfg.authority.certificate
        && h.trace[2].request.serviceKey == cfg.authority.key
        && h.trace[2].request.serviceKeyPassword == cfg.security.passphrase
  {
  }
}
