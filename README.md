# Certificate issuance controller, modelled in Dafny

This project models the core of the certificate controller of an SDL server
(`app/v1/certificates/controller.js`). The controller issues X.509 client
certificates signed by a configured certificate authority (CA), and bare
private keys, by delegating every cryptographic operation to the `pem`
library. The model covers its three decision-making parts:

- **The CA readiness gate.** `openSSLEnabled` is the JavaScript `&&` chain of
  the CA key, the CA certificate, the passphrase and the configured common
  name. `checkAuthorityValidity` is the PKCS#12 self-test (module `Gate`).
- **Option resolution.** `getKeyOptions` and `getCertificateOptions` merge
  the caller's options with the configured defaults by `input || default`
  (module `Resolver`, on top of the JavaScript values and truthiness of
  module `Js`).
- **The issuance pipeline.** `createCertificateFlow` builds a task list and
  runs it as a fail-fast waterfall (module `Issuance`). The two HTTP handlers
  `createPrivateKey` and `createCertificate` add the gate and the choice of
  status code (module `Handlers`).

The `pem` library is an environment (module `Crypto`). It is a value of
datatype `Provider` whose four operations give any answer, success or error,
to any request. Every call the controller makes is recorded in a trace with
its arguments. Ordering, branch coverage and fail-fast behaviour are stated
over that trace.

The pipeline is modelled three ways:

- `Issue` is a straight-line reference definition.
- `Cascade` is the waterfall over a task list, defined recursively.
- `Waterfall` is a loop over the task list.

`CreateCertificateFlow` is the imperative flow. It writes the CA's key,
certificate and passphrase into the caller's options object (class
`OptionsObject`), pushes the tasks and runs `Waterfall`. It is proved to
produce exactly `Issue`'s outcome and trace.

A few facts about the source that the model makes explicit:

- The signature `hash` is always the configured one. The caller cannot
  override it, unlike the subject fields (line 86; `InputCannotOverrideAuthority`).
- Both handlers consult only `openSSLEnabled`. The PKCS#12 self-test
  `checkAuthorityValidity` is exported but gates nothing here
  (`HandlersIgnoreSelfTest`).
- When the flow generates a key, the result is the signing call's answer
  alone. The flow itself does not add the generated key to it
  (`IssueIsFailFast`).
- Every default applies to any falsy caller value (`0`, `""`, `false`,
  `null`), not only to an absent one.

## Model

| member | source | states |
|---|---|---|
| `Js.Or` | app/v1/certificates/controller.js:67-68 | the JavaScript or-operator is truthy iff either operand is, and yields one of the operands: a truthy left operand itself |
| `Js.And` | app/v1/certificates/controller.js:20-21 | the JavaScript and-operator is truthy iff both operands are, and yields one of the operands: a falsy left operand itself |
| `Gate.OpenSslEnabled` | app/v1/certificates/controller.js:20-21 | the flag is truthy iff the CA key, CA certificate, passphrase and configured common name are all truthy; a missing key is the flag's value; when open, the value is the common name |
| `Gate.CheckAuthorityValidity` | app/v1/certificates/controller.js:23-39 | with the flag off: invalid and no library call. With it on: exactly one PKCS#12 packaging of the CA key and certificate with the passphrase. Valid iff all four parts are truthy and packaging reports no error |
| `Resolver.GetKeyOptions` | app/v1/certificates/controller.js:65-70 | `keyBitsize` and `cipher` are each the caller's value when truthy, else the configured default; an empty input yields exactly the defaults |
| `Resolver.GetCertificateOptions` | app/v1/certificates/controller.js:72-90 | service certificate, key and passphrase are the CA's and `hash` is the configured one, whatever the input. `clientKey` and `serialNumber` are copied with no default. Each subject field, `keyBitsize` and `days` is the caller's value when truthy, else its default. No `csr` yet |
| `Resolver.EmptyInputGivesDefaults` | app/v1/certificates/controller.js:72-90 | an empty input resolves to the CA material plus every configured default, with no client key and no serial number |
| `Resolver.SameReadsSameCertificateOptions` | app/v1/certificates/controller.js:77-88 | the result depends on the input only through the eleven names the resolver reads |
| `Resolver.InputCannotOverrideAuthority` | app/v1/certificates/controller.js:74-86 | writing any other name into the input (`serviceKey`, `serviceCertificate`, `serviceKeyPassword`, `hash`, ...) leaves the resolved options unchanged |
| `Resolver.KeyOptionsReadTwoNames` | app/v1/certificates/controller.js:65-70 | key options depend on the input only through `keyBitsize` and `cipher` |
| `Issuance.Issue` | app/v1/certificates/controller.js:113-154 | reference flow. With the gate closed it fails with the fixed "not configured" message and makes no call. With it open it makes one to three calls and never fails with that message |
| `Issuance.Step` | app/v1/certificates/controller.js:122-149 | each task makes the one library call of its kind, and passes on that call's answer |
| `Issuance.WithAuthority` | app/v1/certificates/controller.js:115-117 | the caller's object gains `serviceKey`, `serviceCertificate` and `serviceKeyPassword` holding the CA key, CA certificate and passphrase; every other property keeps its value |
| `Issuance.Cascade` | app/v1/certificates/controller.js:150 | the fail-fast waterfall over the task list, each task fed the previous task's value; it makes at most one call per task and at least one when there are tasks (its ordering and fail-fast promises are `CascadeIsFailFast`) |
| `Issuance.CascadeIsFailFast` | app/v1/certificates/controller.js:150 | the waterfall makes one call per task in task order, at most one per task, and at least one when there are tasks. Every call but the last succeeded. An error is the last call's error, unchanged. A success has run every task and is the last task's value |
| `Issuance.Waterfall` | app/v1/certificates/controller.js:150 | the loop over the task list produces the waterfall's outcome and trace |
| `Issuance.WritingAuthorityKeepsCertificateOptions` | app/v1/certificates/controller.js:115-120 | writing the CA's material into the caller's options before resolving does not change the CSR options |
| `Issuance.WritingAuthorityKeepsKeyOptions` | app/v1/certificates/controller.js:115-132 | that write changes neither the key options re-resolved at key generation nor the `clientKey` the flow branches on |
| `Issuance.SuppliedKeyPlanMatchesIssue` | app/v1/certificates/controller.js:122-150 | the task list [CSR, sign], run by the waterfall on the written options, gives the reference outcome and trace |
| `Issuance.GeneratedKeyPlanMatchesIssue` | app/v1/certificates/controller.js:130-150 | the task list [generate key, CSR, sign], run by the waterfall, gives the reference outcome and trace |
| `Issuance.CreateCertificateFlow` | app/v1/certificates/controller.js:113-154 | outcome and trace equal the reference flow on the caller's original options. With the gate open, the caller's object gains the CA key, certificate and passphrase; with it closed, the object is untouched |
| `Issuance.KeyGeneratedExactlyWithoutClientKey` | app/v1/certificates/controller.js:122-143 | a key is generated iff the gate is open and `clientKey` is falsy, and then only as the first call |
| `Issuance.SuppliedKeyTrace` | app/v1/certificates/controller.js:122-149 | with a truthy `clientKey`, the trace is the CSR for the resolved options (carrying the caller's key), then signing of exactly the CSR produced, and signing happens iff the CSR succeeded |
| `Issuance.GeneratedKeyTrace` | app/v1/certificates/controller.js:130-149 | without one, the trace is key generation with the resolved key options, then a CSR whose client key is the generated key, then signing of that CSR. Each later call happens iff the previous one succeeded |
| `Issuance.IssueIsFailFast` | app/v1/certificates/controller.js:144-150 | with the gate open: every call but the last succeeded; the result is the last call's answer with its error unchanged; a success is the signing call's answer alone |
| `Handlers.CreatePrivateKey` | app/v1/certificates/controller.js:41-63 | gate closed: 400 with the fixed message and no call. `null` options: throws before any call. Otherwise exactly one key generation with the resolved options; 200 with the key iff it succeeded, else 400 with the library's error |
| `Handlers.CreateCertificate` | app/v1/certificates/controller.js:92-111 | gate closed: 400 with the fixed message and no call. Otherwise the flow's trace on the request's options, or `{}` when they are falsy; 200 with the certificate iff the flow succeeded, else 400 with the flow's error |
| `Handlers.HandlersIgnoreSelfTest` | app/v1/certificates/controller.js:20-93 | with the flag on but the PKCS#12 self-test failing, both handlers still call the library |
| `Handlers.IssuedSubjectAndIssuer` | app/v1/certificates/controller.js:113-149 | a successful request naming only a common name generates a key, and its signing request carries that common name as subject and the CA's certificate, key and passphrase |

## Left out

- Loading the CA key and certificate from files at module load (lines 9-18): `Authority` holds them as given values, the file's text or `null`.
- The cryptography of `pem.createPrivateKey`, `pem.createCSR`, `pem.createCertificate` and `pem.createPkcs12`: these are foreign calls, modelled as arbitrary answers of a `Provider`.
- The PKCS#12 packaging configuration (`cipher: 'aes128'` and `clientKeyPassword`, lines 31-34): opaque parameters of a foreign call, not recorded in `Pkcs12Call`.
- HTTP plumbing (`res.parcel` and `deliver`): a reply is a status plus a payload or message. `Reply.Thrown` stands for the exception thrown on `null` options; what the web framework then sends is not modelled.
- Asynchrony and concurrency: the callbacks of `async.waterfall` and `pem` are modelled as sequential calls. Concurrent requests share no mutable state in the core.
- `async.waterfall` itself: its sequential fail-fast semantics is modelled directly (`Cascade`, `Waterfall`).
- Logging (`logger.error`, line 97) and the unused `spawnSync` import (line 6).
- JavaScript numbers are modelled as integers (`Num(int)`). A request body can carry `-0` or a fraction such as `0.5`, and `NaN` can arise elsewhere; `Num(int)` cannot represent them. `-0` and `NaN` are falsy like `0`, and a nonzero fraction is truthy, so every `||` and `&&` decision is the same as for an integer of the same truthiness; only the value passed through to the library cannot be represented.
- Property reads on primitive option values (a string, number or boolean as `options`) find none of the names used. Prototype properties are not modelled.
- The `csr` written into the CSR options is a field of `CertificateOptions`, undefined as resolved. The model does not capture that `pem.createCSR` and `pem.createCertificate` receive the same object by reference.
