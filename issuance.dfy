/** `createCertificateFlow`: key generation when the caller supplied no key,
    then a CSR, then signing by the authority, run as a fail-fast waterfall. */
module Issuance {
  import opened Js
  import opened Results
  import opened Settings
  import opened Resolver
  import opened Crypto
  import opened Gate

  /** What the flow hands to its callback as error: the fixed refusal when
      the authority is not configured, or the library's error unchanged. */
  datatype FlowError = Misconfigured(message: string) | ProviderFailed(cause: ProviderError)

  /** The flow's outcome and the library calls made on the way. */
  datatype FlowRun = FlowRun(result: Result<Bag, FlowError>, trace: seq<Call>)

  /** The caller's `options` object, which the flow writes into. */
  class OptionsObject {
    var fields: Bag
  }

  /** The properties of the caller's options the flow overwrites. */
  const AuthorityNames: set<string> := {"serviceKey", "serviceCertificate", "serviceKeyPassword"}

  /** The caller's options after the flow has written the authority's
      material into them. */
  function WithAuthority(cfg: Config, options: Bag): (r: Bag)
    ensures r.Keys == options.Keys + AuthorityNames
    ensures r["serviceKey"] == cfg.authority.key
    ensures r["serviceCertificate"] == cfg.authority.certificate
    ensures r["serviceKeyPassword"] == cfg.security.passphrase
    ensures forall name :: name in options && name !in AuthorityNames ==> r[name] == options[name]
  {
    options["serviceKey" := cfg.authority.key]
           ["serviceCertificate" := cfg.authority.certificate]
           ["serviceKeyPassword" := cfg.security.passphrase]
  }

  function Lift(r: Result<Bag, ProviderError>): Result<Bag, FlowError> {
    match r
    case Success(v) => Success(v)
    case Failure(e) => Failure(ProviderFailed(e))
  }

  // ---------------------------------------------------------------------
  // The reference: the flow written as one straight-line definition.
  // ---------------------------------------------------------------------

  /** The issuance flow for a caller's `options`: refused when the gate is
      closed; otherwise CSR then signing with the caller's key, or key
      generation, CSR for the generated key, then signing. The first error
      ends the flow; success yields the signed certificate alone. */
  function Issue(cfg: Config, p: Provider, options: Bag): (run: FlowRun)
    ensures !Enabled(cfg) ==> run == FlowRun(Failure(Misconfigured(NotConfiguredMessage)), [])
    ensures Enabled(cfg) ==> 1 <= |run.trace| <= 3 && !(run.result.Failure? && run.result.error.Misconfigured?)
  {
    if !Enabled(cfg) then
      FlowRun(Failure(Misconfigured(NotConfiguredMessage)), [])
    else
      var request := GetCertificateOptions(cfg, options);
      if Truthy(Get(options, "clientKey")) then
        CsrThenSign(p, request, [])
      else
        var keyOptions := GetKeyOptions(cfg.security.privateKey, options);
        var keyCall := PrivateKeyCall(keyOptions.keyBitsize, keyOptions);
        match Answer(p, keyCall)
        case Failure(e) => FlowRun(Failure(ProviderFailed(e)), [keyCall])
        case Success(key) => CsrThenSign(p, request.(clientKey := Get(key, "key")), [keyCall])
  }

  /** The last two stages of `Issue`, after the calls in `done`. */
  function CsrThenSign(p: Provider, request: CertificateOptions, done: seq<Call>): FlowRun {
    var csrCall := CsrCall(request);
    match Answer(p, csrCall)
    case Failure(e) => FlowRun(Failure(ProviderFailed(e)), done + [csrCall])
    case Success(csr) =>
      var signCall := CertificateCall(request.(csr := Get(csr, "csr")));
      FlowRun(Lift(Answer(p, signCall)), done + [csrCall, signCall])
  }

  // ---------------------------------------------------------------------
  // The task list and the waterfall that runs it.
  // ---------------------------------------------------------------------

  /** The tasks the flow pushes: a CSR for the caller's key; generating a
      key; a CSR for the key the previous task produced; signing the CSR the
      previous task produced. */
  datatype Task = CsrForClientKey | GenerateKey | CsrForGeneratedKey | SignCsr

  /** The library operation a task calls. */
  predicate Performs(t: Task, c: Call) {
    match t
    case CsrForClientKey => c.CsrCall?
    case GenerateKey => c.PrivateKeyCall?
    case CsrForGeneratedKey => c.CsrCall?
    case SignCsr => c.CertificateCall?
  }

  /** One task run: its call, the CSR options after the task wrote into them,
      and the library's answer. */
  datatype StepRun = StepRun(call: Call, request: CertificateOptions, answer: Result<Bag, ProviderError>)

  /** Running task `t` on the CSR options `request` and the value `carry` the
      previous task passed on. Generating a key re-resolves the key options
      from the caller's `options`. */
  function Step(cfg: Config, p: Provider, options: Bag, t: Task, request: CertificateOptions, carry: Bag): (s: StepRun)
    ensures Performs(t, s.call) && s.answer == Answer(p, s.call)
  {
    match t
    case CsrForClientKey =>
      var c := CsrCall(request);
      StepRun(c, request, Answer(p, c))
    case GenerateKey =>
      var keyOptions := GetKeyOptions(cfg.security.privateKey, options);
      var c := PrivateKeyCall(keyOptions.keyBitsize, keyOptions);
      StepRun(c, request, Answer(p, c))
    case CsrForGeneratedKey =>
      var written := request.(clientKey := Get(carry, "key"));
      var c := CsrCall(written);
      StepRun(c, written, Answer(p, c))
    case SignCsr =>
      var written := request.(csr := Get(carry, "csr"));
      var c := CertificateCall(written);
      StepRun(c, written, Answer(p, c))
  }

  /** The waterfall's outcome and its calls. */
  datatype TaskRun = TaskRun(result: Result<Bag, ProviderError>, trace: seq<Call>)

  /** The fail-fast waterfall over `tasks`: each task gets what the previous
      one produced; the first error ends the run; otherwise the result is the
      last task's value. */
  function Cascade(cfg: Config, p: Provider, options: Bag, tasks: seq<Task>,
                   request: CertificateOptions, carry: Bag): (w: TaskRun)
    ensures |w.trace| <= |tasks|
    ensures tasks != [] ==> w.trace != []
    decreases |tasks|
  {
    if tasks == [] then
      TaskRun(Success(carry), [])
    else
      var step := Step(cfg, p, options, tasks[0], request, carry);
      match step.answer
      case Failure(_) => TaskRun(step.answer, [step.call])
      case Success(value) =>
        var rest := Cascade(cfg, p, options, tasks[1..], step.request, value);
        TaskRun(rest.result, [step.call] + rest.trace)
  }

  /** The waterfall runs its tasks in order, one library call per task, and
      stops at the first error: every call but the last succeeded, an error
      is the last call's error unchanged, and a success has run every task
      and is the last call's value. */
  lemma {:induction false} CascadeIsFailFast(cfg: Config, p: Provider, options: Bag, tasks: seq<Task>,
                                             request: CertificateOptions, carry: Bag)
    ensures var w := Cascade(cfg, p, options, tasks, request, carry);
      && (forall i :: 0 <= i < |w.trace| ==> Performs(tasks[i], w.trace[i]))
      && (forall i :: 0 <= i < |w.trace| - 1 ==> Answer(p, w.trace[i]).Success?)
      && (w.result.Failure? ==> w.trace != [] && Answer(p, Last(w.trace)) == w.result)
      && (w.result.Success? && tasks != [] ==> |w.trace| == |tasks| && Answer(p, Last(w.trace)) == w.result)
    decreases |tasks|
  {
    if tasks != [] {
      var step := Step(cfg, p, options, tasks[0], request, carry);
      if step.answer.Success? {
        CascadeIsFailFast(cfg, p, options, tasks[1..], step.request, step.answer.value);
      }
    }
  }

  /** The waterfall runs the first task, then the rest on what it produced. */
  lemma CascadeFirstTask(cfg: Config, p: Provider, options: Bag, tasks: seq<Task>,
                         request: CertificateOptions, carry: Bag)
    requires tasks != []
    ensures var step := Step(cfg, p, options, tasks[0], request, carry);
      Cascade(cfg, p, options, tasks, request, carry) ==
        if step.answer.Failure? then TaskRun(step.answer, [step.call])
        else var rest := Cascade(cfg, p, options, tasks[1..], step.request, step.answer.value);
          TaskRun(rest.result, [step.call] + rest.trace)
  {
  }

  /** `async.waterfall(tasks, next)` as a loop over the task list. */
  method Waterfall(cfg: Config, p: Provider, options: Bag, tasks: seq<Task>, request: CertificateOptions)
    returns (result: Result<Bag, ProviderError>, trace: seq<Call>)
    ensures TaskRun(result, trace) == Cascade(cfg, p, options, tasks, request, map[])
  {
    var csrOptions, carry, i := request, map[], 0;
    trace := [];
    while i < |tasks|
      invariant 0 <= i <= |tasks|
      invariant var rest := Cascade(cfg, p, options, tasks[i..], csrOptions, carry);
        Cascade(cfg, p, options, tasks, request, map[]) == TaskRun(rest.result, trace + rest.trace)
    {
      var step := Step(cfg, p, options, tasks[i], csrOptions, carry);
      CascadeFirstTask(cfg, p, options, tasks[i..], csrOptions, carry);
      assert tasks[i..][1..] == tasks[i + 1..];
      trace := trace + [step.call];
      if step.answer.Failure? {
        result := step.answer;
        return;
      }
      csrOptions, carry, i := step.request, step.answer.value, i + 1;
    }
    result := Success(carry);
  }

  /** Writing the authority's material into the caller's options does not
      change the CSR options resolved from them. */
  lemma WritingAuthorityKeepsCertificateOptions(cfg: Config, options: Bag)
    ensures GetCertificateOptions(cfg, WithAuthority(cfg, options)) == GetCertificateOptions(cfg, options)
  {
    SameReadsSameCertificateOptions(cfg, WithAuthority(cfg, options), options);
  }

  /** Writing the authority's material into the caller's options changes
      neither the key options nor the caller's key the flow branches on. */
  lemma WritingAuthorityKeepsKeyOptions(cfg: Config, options: Bag)
    ensures GetKeyOptions(cfg.security.privateKey, WithAuthority(cfg, options))
         == GetKeyOptions(cfg.security.privateKey, options)
    ensures Get(WithAuthority(cfg, options), "clientKey") == Get(options, "clientKey")
  {
    var d := cfg.security.privateKey;
    var keyed := options["serviceKey" := cfg.authority.key];
    var certified := keyed["serviceCertificate" := cfg.authority.certificate];
    KeyOptionsReadTwoNames(d, options, "serviceKey", cfg.authority.key);
    KeyOptionsReadTwoNames(d, keyed, "serviceCertificate", cfg.authority.certificate);
    KeyOptionsReadTwoNames(d, certified, "serviceKeyPassword", cfg.security.passphrase);
  }

  /** With a caller's key, the two-task list run by the waterfall gives the
      reference outcome. */
  lemma SuppliedKeyPlanMatchesIssue(cfg: Config, p: Provider, options: Bag)
    requires Enabled(cfg) && Truthy(Get(options, "clientKey"))
    ensures var written := WithAuthority(cfg, options);
      var w := Cascade(cfg, p, written, [CsrForClientKey, SignCsr], GetCertificateOptions(cfg, written), map[]);
      FlowRun(Lift(w.result), w.trace) == Issue(cfg, p, options)
  {
    var written := WithAuthority(cfg, options);
    WritingAuthorityKeepsCertificateOptions(cfg, options);
    WritingAuthorityKeepsKeyOptions(cfg, options);
    var request := GetCertificateOptions(cfg, written);
    var tasks := [CsrForClientKey, SignCsr];
    CascadeFirstTask(cfg, p, written, tasks, request, map[]);
    var first := Step(cfg, p, written, tasks[0], request, map[]);
    if first.answer.Success? {
      assert tasks[1..] == [SignCsr];
      CascadeFirstTask(cfg, p, written, tasks[1..], first.request, first.answer.value);
    }
  }

  /** Without a caller's key, the three-task list run by the waterfall gives
      the reference outcome. */
  lemma GeneratedKeyPlanMatchesIssue(cfg: Config, p: Provider, options: Bag)
    requires Enabled(cfg) && !Truthy(Get(options, "clientKey"))
    ensures var written := WithAuthority(cfg, options);
      var w := Cascade(cfg, p, written, [GenerateKey, CsrForGeneratedKey, SignCsr],
                       GetCertificateOptions(cfg, written), map[]);
      FlowRun(Lift(w.result), w.trace) == Issue(cfg, p, options)
  {
    var written := WithAuthority(cfg, options);
    WritingAuthorityKeepsCertificateOptions(cfg, options);
    WritingAuthorityKeepsKeyOptions(cfg, options);
    var request := GetCertificateOptions(cfg, written);
    var tasks := [GenerateKey, CsrForGeneratedKey, SignCsr];
    CascadeFirstTask(cfg, p, written, tasks, request, map[]);
    var first := Step(cfg, p, written, tasks[0], request, map[]);
    if first.answer.Success? {
      assert tasks[1..] == [CsrForGeneratedKey, SignCsr];
      CascadeFirstTask(cfg, p, written, tasks[1..], first.request, first.answer.value);
      var second := Step(cfg, p, written, tasks[1], first.request, first.answer.value);
      if second.answer.Success? {
        assert tasks[1..][1..] == [SignCsr];
        CascadeFirstTask(cfg, p, written, tasks[1..][1..], second.request, second.answer.value);
      }
    }
  }

  /** `createCertificateFlow(options, next)`. With the gate open it writes
      the authority's key, certificate and passphrase into the caller's
      object, builds the task list and runs it; with the gate closed it
      refuses and touches nothing. */
  method CreateCertificateFlow(cfg: Config, p: Provider, options: OptionsObject)
    returns (result: Result<Bag, FlowError>, trace: seq<Call>)
    modifies options
    ensures FlowRun(result, trace) == Issue(cfg, p, old(options.fields))
    ensures options.fields == if Enabled(cfg) then WithAuthority(cfg, old(options.fields)) else old(options.fields)
  {
    if Enabled(cfg) {
      ghost var original := options.fields;
      options.fields := WithAuthority(cfg, options.fields);
      var tasks: seq<Task> := [];
      var csrOptions := GetCertificateOptions(cfg, options.fields);
      if Truthy(Get(options.fields, "clientKey")) {
        tasks := tasks + [CsrForClientKey];
      } else {
        tasks := tasks + [GenerateKey];
        tasks := tasks + [CsrForGeneratedKey];
      }
      tasks := tasks + [SignCsr];
      WritingAuthorityKeepsCertificateOptions(cfg, original);
      WritingAuthorityKeepsKeyOptions(cfg, original);
      var r;
      r, trace := Waterfall(cfg, p, options.fields, tasks, csrOptions);
      result := Lift(r);
      if Truthy(Get(original, "clientKey")) {
        SuppliedKeyPlanMatchesIssue(cfg, p, original);
      } else {
        GeneratedKeyPlanMatchesIssue(cfg, p, original);
      }
    } else {
      result := Failure(Misconfigured(NotConfiguredMessage));
      trace := [];
    }
  }

  // ---------------------------------------------------------------------
  // What the flow promises.
  // ---------------------------------------------------------------------

  /** A key is generated exactly when the gate is open and the caller gave
      no truthy `clientKey`, and then only as the first call. */
  lemma KeyGeneratedExactlyWithoutClientKey(cfg: Config, p: Provider, options: Bag)
    ensures var run := Issue(cfg, p, options);
      (exists i :: 0 <= i < |run.trace| && run.trace[i].PrivateKeyCall?)
        <==> Enabled(cfg) && !Truthy(Get(options, "clientKey"))
    ensures var run := Issue(cfg, p, options);
      forall i :: 0 < i < |run.trace| ==> !run.trace[i].PrivateKeyCall?
  {
    var run := Issue(cfg, p, options);
    if Enabled(cfg) && !Truthy(Get(options, "clientKey")) {
      assert run.trace[0].PrivateKeyCall?;
    }
  }

  /** With the caller's key: a CSR for the resolved options, then, if that
      succeeded, signing of exactly that CSR; nothing else. */
  lemma SuppliedKeyTrace(cfg: Config, p: Provider, options: Bag)
    requires Enabled(cfg) && Truthy(Get(options, "clientKey"))
    ensures var run := Issue(cfg, p, options);
      var request := GetCertificateOptions(cfg, options);
      && 1 <= |run.trace| <= 2
      && run.trace[0] == CsrCall(request)
      && request.clientKey == options["clientKey"]
      && (|run.trace| == 2 <==> Answer(p, run.trace[0]).Success?)
      && (|run.trace| == 2 ==>
            run.trace[1] == CertificateCall(request.(csr := Get(Answer(p, run.trace[0]).value, "csr"))))
  {
  }

  /** Without the caller's key: key generation with the resolved key
      options; then, if that succeeded, a CSR whose client key is the
      generated key; then, if that succeeded, signing of exactly that CSR. */
  lemma GeneratedKeyTrace(cfg: Config, p: Provider, options: Bag)
    requires Enabled(cfg) && !Truthy(Get(options, "clientKey"))
    ensures var run := Issue(cfg, p, options);
      var keyOptions := GetKeyOptions(cfg.security.privateKey, options);
      var request := GetCertificateOptions(cfg, options);
      && 1 <= |run.trace| <= 3
      && run.trace[0] == PrivateKeyCall(keyOptions.keyBitsize, keyOptions)
      && (|run.trace| >= 2 <==> Answer(p, run.trace[0]).Success?)
      && (|run.trace| >= 2 ==>
            run.trace[1] == CsrCall(request.(clientKey := Get(Answer(p, run.trace[0]).value, "key"))))
      && (|run.trace| == 3 <==> |run.trace| >= 2 && Answer(p, run.trace[1]).Success?)
      && (|run.trace| == 3 ==>
            run.trace[2] == CertificateCall(run.trace[1].request.(csr := Get(Answer(p, run.trace[1]).value, "csr"))))
  {
  }

  /** The flow is fail-fast and all-or-nothing: every call but the last
      succeeded; an error is the last call's error, unchanged; a success is
      the signing call's answer and nothing else (a generated key is not
      added to it). */
  lemma IssueIsFailFast(cfg: Config, p: Provider, options: Bag)
    requires Enabled(cfg)
    ensures var run := Issue(cfg, p, options);
      && run.trace != []
      && (forall i :: 0 <= i < |run.trace| - 1 ==> Answer(p, run.trace[i]).Success?)
      && run.result == Lift(Answer(p, Last(run.trace)))
      && (run.result.Success? ==> Last(run.trace).CertificateCall?)
  {
    var written := WithAuthority(cfg, options);
    var request := GetCertificateOptions(cfg, written);
    if Truthy(Get(options, "clientKey")) {
      SuppliedKeyPlanMatchesIssue(cfg, p, options);
      CascadeIsFailFast(cfg, p, written, [CsrForClientKey, SignCsr], request, map[]);
    } else {
      GeneratedKeyPlanMatchesIssue(cfg, p, options);
      CascadeIsFailFast(cfg, p, written, [GenerateKey, CsrForGeneratedKey, SignCsr], request, map[]);
    }
  }
}
