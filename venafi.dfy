/**
 * The Venafi issuer's `Issue` (pkg/issuer/venafi/issue.go): a fixed pipeline of fallible
 * steps, where the first failure decides the outcome.
 *
 * The vcert client and zone, `pki.GenerateTemplate` and the random key material come in
 * as one `Environment` value whose fields are the answers those calls give; the calls that
 * read the request get a snapshot (`RequestView`) of it. `Issue` also returns the trace of
 * the steps it ran, each with its verdict and the request as that step saw it.
 */
module Venafi {
  import opened Outcomes
  import opened GoTime
  import opened Api
  import opened Pki
  import opened Strings

  datatype Subject = Subject(commonName: string, organization: seq<string>)

  /** vcert's `CSrOriginOption`; the zero value is LocalGeneratedCSR. */
  datatype CsrOrigin = LocalGeneratedCSR | ServiceGeneratedCSR | UserProvidedCSR

  /** The fields of a vcert `certificate.Request` that Issue writes. */
  datatype RequestView = RequestView(
    subject: Subject,
    privateKey: Option<PrivateKey>,
    csr: seq<char>,
    csrOrigin: CsrOrigin,
    timeout: Duration,
    pickupID: string)

  /** The x509 certificate template: the fields Issue reads or writes. */
  class Template {
    var subject: Subject
    var publicKey: Option<PublicKey>

    constructor (subject: Subject)
      ensures this.subject == subject && publicKey == None
    {
      this.subject := subject;
      publicKey := None;
    }
  }

  /** A vcert `certificate.Request` under construction. */
  class VRequest {
    var subject: Subject
    var privateKey: Option<PrivateKey>
    var csr: seq<char>
    var csrOrigin: CsrOrigin
    var timeout: Duration
    var pickupID: string

    function View(): RequestView
      reads this
    {
      RequestView(subject, privateKey, csr, csrOrigin, timeout, pickupID)
    }

    /** `certificate.NewRequest`: a request with every modelled field at its zero value. */
    constructor ()
      ensures View() == RequestView(Subject("", []), None, [], LocalGeneratedCSR, 0, "")
    {
      subject := Subject("", []);
      privateKey, csr, csrOrigin, timeout, pickupID := None, [], LocalGeneratedCSR, 0, "";
    }
  }

  /** newVRequest: a new request whose whole Subject block is the template's. */
  method NewVRequest(tmpl: Template) returns (req: VRequest)
    ensures fresh(req)
    ensures req.View() == RequestView(tmpl.subject, None, [], LocalGeneratedCSR, 0, "")
  {
    req := new VRequest();
    req.subject := tmpl.subject;
  }

  /** A Venafi zone configuration: how it fills in a request's subject, and whether it accepts a request. */
  datatype ZoneConfig = ZoneConfig(
    applyDefaults: Subject -> Subject,          // UpdateCertificateRequest
    validate: RequestView -> Option<string>)    // ValidateCertificateRequest: Some(reason) rejects

  datatype PemCollection = PemCollection(certificate: string, chain: seq<string>)

  /** What RetrieveCertificate can answer. */
  datatype Retrieval =
    | Retrieved(pems: PemCollection)
    | StillPending(reason: string)        // endpoint.ErrCertificatePending
    | RetrieveTimeout(reason: string)     // endpoint.ErrRetrieveCertificateTimeout
    | RetrieveFailed(reason: string)      // any other error

  /** The answers of everything Issue calls that is not part of this model. */
  datatype Environment = Environment(
    keyMaterial: KeyMaterial,                                 // rand.Reader for key generation
    template: Result<Subject, string>,                        // pki.GenerateTemplate
    zone: Result<ZoneConfig, string>,                         // client.ReadZoneConfiguration
    generateCsr: RequestView -> Result<seq<char>, string>,    // vreq.GenerateCSR
    requestCertificate: RequestView -> Result<string, string>, // client.RequestCertificate: the request ID
    retrieveCertificate: RequestView -> Retrieval)            // client.RetrieveCertificate

  datatype Stage =
    | KeyGeneration | PublicKeyExtraction | TemplateGeneration | ZoneRead | ZoneValidation
    | CsrGeneration | CertificateRequest | CertificateRetrieval | KeyEncoding

  /** The position of each step in the order in which Issue runs them. */
  function StageIndex(stage: Stage): nat {
    match stage
    case KeyGeneration => 0
    case PublicKeyExtraction => 1
    case TemplateGeneration => 2
    case ZoneRead => 3
    case ZoneValidation => 4
    case CsrGeneration => 5
    case CertificateRequest => 6
    case CertificateRetrieval => 7
    case KeyEncoding => 8
  }

  /** The number of steps in a complete run. */
  const StageCount: nat := 9

  /** One step Issue ran: which, whether it succeeded, and the request it was given (if it reads one). */
  datatype StepRecord = StepRecord(stage: Stage, ok: bool, request: Option<RequestView>)

  datatype IssueResponse = IssueResponse(privateKey: PemBlock, certificate: string, ca: string)

  /** The error Issue returns; the reconciler retries every one of them. */
  datatype IssueError =
    | StepFailed(stage: Stage)
    | CertificatePending   // "Venafi certificate still pending"
    | CertificateTimeout   // "Timed out waiting for certificate"
  {
    function FailedStage(): Stage {
      if StepFailed? then stage else CertificateRetrieval
    }
  }

  /**
   * The meaning of Issue's `(response, error)` pair: a response; `(nil, nil)`, which asks
   * not to be retried; or `(nil, err)`, which is retried.
   */
  datatype IssueOutcome = Issued(response: IssueResponse) | DoNotRetry | Retry(error: IssueError)

  function SigneeKey(crt: Certificate, env: Environment): Result<PrivateKey, PkiError> {
    GeneratePrivateKeyForCertificate(crt.spec, env.keyMaterial)
  }

  /** The template subject after Issue's fix-up: no organization unless the Certificate asks for one. */
  function FixedTemplateSubject(spec: CertificateSpec, generated: Subject): (s: Subject)
    ensures |spec.organization| == 0 ==> s.organization == []
    ensures |spec.organization| > 0 ==> s == generated
    ensures s.commonName == generated.commonName
  {
    if |spec.organization| == 0 then generated.(organization := []) else generated
  }

  /**
   * The certificate bytes Issue returns: `strings.Join(append([]string{certificate}, chain...), "\n")`,
   * built by appending each chain certificate after a newline.
   */
  method BuildChain(certificate: string, chain: seq<string>) returns (s: string)
    ensures s == JoinLines([certificate] + chain)
  {
    s := certificate;
    for i := 0 to |chain|
      invariant s == JoinLines([certificate] + chain[..i])
    {
      JoinLinesConcat([certificate] + chain[..i], [chain[i]]);
      assert [certificate] + chain[..i + 1] == ([certificate] + chain[..i]) + [chain[i]];
      s := s + "\n" + chain[i];
    }
    assert chain[..|chain|] == chain;
  }

  /** The result of (a suffix of) one run of Issue: its outcome and the trace of the steps it ran. */
  datatype IssueRun = IssueRun(outcome: IssueOutcome, trace: seq<StepRecord>)

  /**
   * A run of the pipeline from step `k` on, one step at a time: its first step is step `k`;
   * a step that is not the last succeeded, and the steps after it are a run from `k + 1`; the
   * last step decides the outcome, which is a success only after the final step, and a retried
   * error names the step that failed.
   */
  predicate WellFormedFrom(run: IssueRun, k: nat)
    decreases StageCount - k
  {
    && k < StageCount
    && |run.trace| >= 1
    && StageIndex(run.trace[0].stage) == k
    && if |run.trace| == 1 then
         && (run.outcome.Issued? <==> run.trace[0].ok)
         && (run.outcome.Issued? ==> k == StageCount - 1)
         && (run.outcome.Retry? ==> run.outcome.error.FailedStage() == run.trace[0].stage)
       else
         run.trace[0].ok && WellFormedFrom(IssueRun(run.outcome, run.trace[1..]), k + 1)
  }

  /** A step that ends the run. */
  function Stop(step: StepRecord, outcome: IssueOutcome): IssueRun {
    IssueRun(outcome, [step])
  }

  /** A step that succeeded, followed by the rest of the run. */
  function Then(step: StepRecord, rest: IssueRun): IssueRun {
    IssueRun(rest.outcome, [step] + rest.trace)
  }

  lemma ThenIsWellFormed(k: nat, step: StepRecord, rest: IssueRun)
    requires k + 1 < StageCount && StageIndex(step.stage) == k && step.ok
    requires WellFormedFrom(rest, k + 1)
    ensures WellFormedFrom(Then(step, rest), k)
  {
    assert ([step] + rest.trace)[1..] == rest.trace;
  }

  /**
   * What a well-formed run from step `k` looks like as a whole: its steps are steps `k`, `k + 1`,
   * and so on, in order, all but the last succeeded, the outcome is a success exactly when the last step
   * succeeded, which happens only when every step ran, and a retried error names the last step.
   */
  lemma {:induction false} WellFormedRunShape(run: IssueRun, k: nat)
    requires WellFormedFrom(run, k)
    ensures 1 <= |run.trace| <= StageCount - k
    ensures forall i :: 0 <= i < |run.trace| ==> StageIndex(run.trace[i].stage) == k + i
    ensures forall i :: 0 <= i < |run.trace| - 1 ==> run.trace[i].ok
    ensures run.outcome.Issued? <==> run.trace[|run.trace| - 1].ok
    ensures run.outcome.Issued? ==> |run.trace| == StageCount - k
    ensures run.outcome.Retry? ==> run.outcome.error.FailedStage() == run.trace[|run.trace| - 1].stage
    decreases StageCount - k
  {
    if |run.trace| > 1 {
      var rest := IssueRun(run.outcome, run.trace[1..]);
      WellFormedRunShape(rest, k + 1);
      forall i | 0 <= i < |run.trace|
        ensures StageIndex(run.trace[i].stage) == k + i
      {
        if i > 0 {
          assert run.trace[i] == rest.trace[i - 1];
        }
      }
      assert run.trace[|run.trace| - 1] == rest.trace[|rest.trace| - 1];
    }
  }

  /** Step 9: encode the key as the Certificate asks; the response carries the joined chain and no CA. */
  function EncodeStep(crt: Certificate, key: PrivateKey, pems: PemCollection): (r: IssueRun)
    ensures WellFormedFrom(r, 8) && !r.outcome.DoNotRetry?
    ensures r.trace[0].ok <==> EncodePrivateKey(key, crt.spec.keyEncoding).Ok?
    ensures r.trace[0].request == None
    ensures r.outcome.Issued? ==> r.outcome.response == IssueResponse(
      EncodePrivateKey(key, crt.spec.keyEncoding).value, JoinLines([pems.certificate] + pems.chain), "")
  {
    var pk := EncodePrivateKey(key, crt.spec.keyEncoding);
    if pk.Err? then Stop(StepRecord(KeyEncoding, false, None), Retry(StepFailed(KeyEncoding)))
    else Stop(StepRecord(KeyEncoding, true, None),
      Issued(IssueResponse(pk.value, JoinLines([pems.certificate] + pems.chain), "")))
  }

  /** Step 8: pick up the certificate; pending and timed-out pickups are reported as such. */
  function RetrieveStep(crt: Certificate, key: PrivateKey, env: Environment, pickup: RequestView): (r: IssueRun)
    ensures WellFormedFrom(r, 7) && !r.outcome.DoNotRetry?
    ensures r.trace[0].request == Some(pickup)
    ensures r.trace[0].ok <==> env.retrieveCertificate(pickup).Retrieved?
    ensures env.retrieveCertificate(pickup).StillPending? ==> r.outcome == Retry(CertificatePending)
    ensures env.retrieveCertificate(pickup).RetrieveTimeout? ==> r.outcome == Retry(CertificateTimeout)
    ensures env.retrieveCertificate(pickup).RetrieveFailed? ==> r.outcome == Retry(StepFailed(CertificateRetrieval))
    ensures env.retrieveCertificate(pickup).Retrieved? ==>
      r == Then(r.trace[0], EncodeStep(crt, key, env.retrieveCertificate(pickup).pems))
  {
    var retrieval := env.retrieveCertificate(pickup);
    var step := StepRecord(CertificateRetrieval, retrieval.Retrieved?, Some(pickup));
    match retrieval
    case StillPending(_) => Stop(step, Retry(CertificatePending))
    case RetrieveTimeout(_) => Stop(step, Retry(CertificateTimeout))
    case RetrieveFailed(_) => Stop(step, Retry(StepFailed(CertificateRetrieval)))
    case Retrieved(pems) =>
      ThenIsWellFormed(7, step, EncodeStep(crt, key, pems));
      Then(step, EncodeStep(crt, key, pems))
  }

  /** Step 7: submit the request; its ID becomes the pickup ID. */
  function RequestStep(crt: Certificate, key: PrivateKey, env: Environment, submitted: RequestView): (r: IssueRun)
    ensures WellFormedFrom(r, 6) && !r.outcome.DoNotRetry?
    ensures r.trace[0].request == Some(submitted)
    ensures r.trace[0].ok <==> env.requestCertificate(submitted).Ok?
    ensures env.requestCertificate(submitted).Ok? ==>
      r == Then(r.trace[0], RetrieveStep(crt, key, env, submitted.(pickupID := env.requestCertificate(submitted).value)))
  {
    var requestID := env.requestCertificate(submitted);
    var step := StepRecord(CertificateRequest, requestID.Ok?, Some(submitted));
    if requestID.Err? then Stop(step, Retry(StepFailed(CertificateRequest)))
    else
      var rest := RetrieveStep(crt, key, env, submitted.(pickupID := requestID.value));
      ThenIsWellFormed(6, step, rest);
      Then(step, rest)
  }

  /** The request as it is submitted: a user-provided CSR and a five-minute retrieval timeout. */
  function SubmittedRequest(v: RequestView, csr: seq<char>): (s: RequestView)
    ensures s.subject == v.subject && s.privateKey == v.privateKey && s.pickupID == v.pickupID
    ensures s.csr == csr && s.csrOrigin == UserProvidedCSR && s.timeout == 5 * Minute
  {
    v.(csr := csr, csrOrigin := UserProvidedCSR, timeout := 5 * Minute)
  }

  /** Step 6: generate the CSR from the validated request. */
  function CsrStep(crt: Certificate, key: PrivateKey, env: Environment, validated: RequestView): (r: IssueRun)
    ensures WellFormedFrom(r, 5) && !r.outcome.DoNotRetry?
    ensures r.trace[0].request == Some(validated)
    ensures r.trace[0].ok <==> env.generateCsr(validated).Ok?
    ensures env.generateCsr(validated).Ok? ==>
      r == Then(r.trace[0], RequestStep(crt, key, env, SubmittedRequest(validated, env.generateCsr(validated).value)))
  {
    var csr := env.generateCsr(validated);
    var step := StepRecord(CsrGeneration, csr.Ok?, Some(validated));
    if csr.Err? then Stop(step, Retry(StepFailed(CsrGeneration)))
    else
      var rest := RequestStep(crt, key, env, SubmittedRequest(validated, csr.value));
      ThenIsWellFormed(5, step, rest);
      Then(step, rest)
  }

  /** Step 5: the zone validates the request. */
  function ValidationStep(crt: Certificate, key: PrivateKey, env: Environment, zone: ZoneConfig, validated: RequestView): (r: IssueRun)
    ensures WellFormedFrom(r, 4) && !r.outcome.DoNotRetry?
    ensures r.trace[0].request == Some(validated)
    ensures r.trace[0].ok <==> zone.validate(validated).None?
    ensures zone.validate(validated).None? ==> r == Then(r.trace[0], CsrStep(crt, key, env, validated))
  {
    var step := StepRecord(ZoneValidation, zone.validate(validated).None?, Some(validated));
    if zone.validate(validated).Some? then Stop(step, Retry(StepFailed(ZoneValidation)))
    else
      var rest := CsrStep(crt, key, env, validated);
      ThenIsWellFormed(4, step, rest);
      Then(step, rest)
  }

  /** The request as the zone validates it: the template subject with the zone's defaults, and the key. */
  function ValidatedRequest(crt: Certificate, key: PrivateKey, template: Subject, zone: ZoneConfig): (v: RequestView)
    ensures v.privateKey == Some(key)
    ensures v.subject == zone.applyDefaults(FixedTemplateSubject(crt.spec, template))
    ensures v.csr == [] && v.csrOrigin == LocalGeneratedCSR && v.timeout == 0 && v.pickupID == ""
  {
    RequestView(zone.applyDefaults(FixedTemplateSubject(crt.spec, template)), Some(key), [], LocalGeneratedCSR, 0, "")
  }

  /** Step 4: read the zone configuration. */
  function ZoneStep(crt: Certificate, key: PrivateKey, env: Environment, template: Subject): (r: IssueRun)
    ensures WellFormedFrom(r, 3) && !r.outcome.DoNotRetry?
    ensures r.trace[0].request == None
    ensures r.trace[0].ok <==> env.zone.Ok?
    ensures env.zone.Ok? ==> r == Then(r.trace[0],
      ValidationStep(crt, key, env, env.zone.value, ValidatedRequest(crt, key, template, env.zone.value)))
  {
    var step := StepRecord(ZoneRead, env.zone.Ok?, None);
    if env.zone.Err? then Stop(step, Retry(StepFailed(ZoneRead)))
    else
      var rest := ValidationStep(crt, key, env, env.zone.value, ValidatedRequest(crt, key, template, env.zone.value));
      ThenIsWellFormed(3, step, rest);
      Then(step, rest)
  }

  /** Step 3: generate the certificate template. */
  function TemplateStep(crt: Certificate, key: PrivateKey, env: Environment): (r: IssueRun)
    ensures WellFormedFrom(r, 2) && !r.outcome.DoNotRetry?
    ensures r.trace[0].request == None
    ensures r.trace[0].ok <==> env.template.Ok?
    ensures env.template.Ok? ==> r == Then(r.trace[0], ZoneStep(crt, key, env, env.template.value))
  {
    var step := StepRecord(TemplateGeneration, env.template.Ok?, None);
    if env.template.Err? then Stop(step, Retry(StepFailed(TemplateGeneration)))
    else
      var rest := ZoneStep(crt, key, env, env.template.value);
      ThenIsWellFormed(2, step, rest);
      Then(step, rest)
  }

  /**
   * What Issue does, as a value. Steps 1 and 2 generate the key and take its public half; a key
   * that cannot be generated ends the run without a retry, and every later failure is retried.
   */
  function IssueRunOf(crt: Certificate, env: Environment): (r: IssueRun)
    ensures WellFormedFrom(r, 0)
    ensures r.outcome.DoNotRetry? <==> !r.trace[0].ok
    ensures r.trace[0].ok <==> SigneeKey(crt, env).Ok?
    ensures !r.trace[0].ok ==> r.trace == [StepRecord(KeyGeneration, false, None)]
    ensures SigneeKey(crt, env).Ok? ==>
      r == Then(StepRecord(KeyGeneration, true, None),
             Then(StepRecord(PublicKeyExtraction, true, None), TemplateStep(crt, SigneeKey(crt, env).value, env)))
  {
    var key := SigneeKey(crt, env);
    if key.Err? then Stop(StepRecord(KeyGeneration, false, None), DoNotRetry)
    else
      var rest := TemplateStep(crt, key.value, env);
      var step2 := StepRecord(PublicKeyExtraction, true, None);
      ThenIsWellFormed(1, step2, rest);
      ThenIsWellFormed(0, StepRecord(KeyGeneration, true, None), Then(step2, rest));
      Then(StepRecord(KeyGeneration, true, None), Then(step2, rest))
  }

  /**
   * A certificate is issued only when every call succeeded, and the response carries the
   * generated key in the encoding the Certificate asks for, and no CA.
   */
  lemma {:induction false} IssuedOnlyWhenEveryStepSucceeded(crt: Certificate, env: Environment)
    requires IssueRunOf(crt, env).outcome.Issued?
    ensures SigneeKey(crt, env).Ok? && env.template.Ok? && env.zone.Ok?
    ensures var validated := ValidatedRequest(crt, SigneeKey(crt, env).value, env.template.value, env.zone.value);
      && env.zone.value.validate(validated).None?
      && env.generateCsr(validated).Ok?
      && env.requestCertificate(SubmittedRequest(validated, env.generateCsr(validated).value)).Ok?
    ensures var response := IssueRunOf(crt, env).outcome.response;
      && EncodePrivateKey(SigneeKey(crt, env).value, crt.spec.keyEncoding).Ok?
      && response.privateKey == EncodePrivateKey(SigneeKey(crt, env).value, crt.spec.keyEncoding).value
      && response.privateKey.payload == SigneeKey(crt, env).value
      && response.ca == ""
  {
    var key := SigneeKey(crt, env).value;
    var t := TemplateStep(crt, key, env);
    assert t.outcome.Issued?;
    var z := ZoneStep(crt, key, env, env.template.value);
    assert z.outcome.Issued?;
    var validated := ValidatedRequest(crt, key, env.template.value, env.zone.value);
    var v := ValidationStep(crt, key, env, env.zone.value, validated);
    assert v.outcome.Issued?;
    var c := CsrStep(crt, key, env, validated);
    assert c.outcome.Issued?;
    var submitted := SubmittedRequest(validated, env.generateCsr(validated).value);
    var q := RequestStep(crt, key, env, submitted);
    assert q.outcome.Issued?;
    var pickup := submitted.(pickupID := env.requestCertificate(submitted).value);
    var p := RetrieveStep(crt, key, env, pickup);
    assert p.outcome.Issued?;
    var e := EncodeStep(crt, key, env.retrieveCertificate(pickup).pems);
    assert e.outcome == IssueRunOf(crt, env).outcome;
  }

  /**
   * The second half of Issue, from the filled-in vcert request on: have the zone validate it,
   * generate the CSR and submit the request; PickUp does the rest.
   */
  method SubmitAndPickUp(crt: Certificate, signeeKey: PrivateKey, env: Environment, zoneCfg: ZoneConfig, vreq: VRequest)
    returns (outcome: IssueOutcome, trace: seq<StepRecord>)
    modifies vreq
    ensures IssueRun(outcome, trace) == ValidationStep(crt, signeeKey, env, zoneCfg, old(vreq.View()))
    ensures var v := old(vreq.View());
      zoneCfg.validate(v).Some? || env.generateCsr(v).Err? ==> vreq.View() == v
    ensures var v := old(vreq.View());
      zoneCfg.validate(v).None? && env.generateCsr(v).Ok? ==>
        var submitted := SubmittedRequest(v, env.generateCsr(v).value);
        vreq.View() == if env.requestCertificate(submitted).Ok?
                       then submitted.(pickupID := env.requestCertificate(submitted).value)
                       else submitted
  {
    var validated := vreq.View();
    var rejection := zoneCfg.validate(validated);
    var validationStep := StepRecord(ZoneValidation, rejection.None?, Some(validated));
    if rejection.Some? {
      return Retry(StepFailed(ZoneValidation)), [validationStep];
    }

    var csr := env.generateCsr(validated);
    var csrStep := StepRecord(CsrGeneration, csr.Ok?, Some(validated));
    if csr.Err? {
      return Retry(StepFailed(CsrGeneration)), [validationStep, csrStep];
    }
    vreq.csr := csr.value;
    vreq.csrOrigin := UserProvidedCSR;
    vreq.timeout := 5 * Minute;
    var submitted := vreq.View();
    assert submitted == SubmittedRequest(validated, csr.value);

    var requestID := env.requestCertificate(submitted);
    var requestStep := StepRecord(CertificateRequest, requestID.Ok?, Some(submitted));
    if requestID.Err? {
      return Retry(StepFailed(CertificateRequest)), [validationStep, csrStep, requestStep];
    }
    vreq.pickupID := requestID.value;
    var pickup := vreq.View();
    assert pickup == submitted.(pickupID := requestID.value);

    var tail;
    outcome, tail := PickUp(crt, signeeKey, env, pickup);
    trace := [validationStep] + ([csrStep] + ([requestStep] + tail));
  }

  /** The end of Issue: pick up the certificate for the submitted request, then encode the key. */
  method PickUp(crt: Certificate, signeeKey: PrivateKey, env: Environment, pickup: RequestView)
    returns (outcome: IssueOutcome, trace: seq<StepRecord>)
    ensures IssueRun(outcome, trace) == RetrieveStep(crt, signeeKey, env, pickup)
  {
    var retrieval := env.retrieveCertificate(pickup);
    var step := StepRecord(CertificateRetrieval, retrieval.Retrieved?, Some(pickup));
    match retrieval
    case StillPending(_) =>
      return Retry(CertificatePending), [step];
    case RetrieveTimeout(_) =>
      return Retry(CertificateTimeout), [step];
    case RetrieveFailed(_) =>
      return Retry(StepFailed(CertificateRetrieval)), [step];
    case Retrieved(pemCollection) =>
      var pk := EncodePrivateKey(signeeKey, crt.spec.keyEncoding);
      var encoded := StepRecord(KeyEncoding, pk.Ok?, None);
      if pk.Err? {
        return Retry(StepFailed(KeyEncoding)), [step, encoded];
      }
      var chain := BuildChain(pemCollection.certificate, pemCollection.chain);
      outcome, trace := Issued(IssueResponse(pk.value, chain, "")), [step, encoded];
  }

  /**
   * The part of Issue between key generation and validation: build the certificate template
   * for the key, read the zone and let it fill in a new vcert request.
   */
  method PrepareRequest(crt: Certificate, signeeKey: PrivateKey, signeePublicKey: PublicKey, env: Environment)
    returns (outcome: IssueOutcome, trace: seq<StepRecord>)
    ensures IssueRun(outcome, trace) == TemplateStep(crt, signeeKey, env)
  {
    var templateStep := StepRecord(TemplateGeneration, env.template.Ok?, None);
    if env.template.Err? {
      return Retry(StepFailed(TemplateGeneration)), [templateStep];
    }
    var tmpl := new Template(env.template.value);
    if |crt.spec.organization| == 0 {
      tmpl.subject := tmpl.subject.(organization := []);
    }
    tmpl.publicKey := Some(signeePublicKey);

    var zoneStep := StepRecord(ZoneRead, env.zone.Ok?, None);
    if env.zone.Err? {
      return Retry(StepFailed(ZoneRead)), [templateStep, zoneStep];
    }
    var zoneCfg := env.zone.value;
    var vreq := NewVRequest(tmpl);
    vreq.privateKey := Some(signeeKey);
    vreq.subject := zoneCfg.applyDefaults(vreq.subject);
    assert vreq.View() == ValidatedRequest(crt, signeeKey, env.template.value, zoneCfg);

    var tail;
    outcome, tail := SubmitAndPickUp(crt, signeeKey, env, zoneCfg, vreq);
    trace := [templateStep] + ([zoneStep] + tail);
  }

  /**
   * Issue: generate the key and take its public half; PrepareRequest and SubmitAndPickUp do the rest.
   */
  method Issue(crt: Certificate, env: Environment) returns (outcome: IssueOutcome, trace: seq<StepRecord>)
    ensures IssueRun(outcome, trace) == IssueRunOf(crt, env)
  {
    var keyResult := GeneratePrivateKeyForCertificate(crt.spec, env.keyMaterial);
    if keyResult.Err? {
      // Key generation failed: the source asks not to be retried.
      return DoNotRetry, [StepRecord(KeyGeneration, false, None)];
    }
    var signeeKey := keyResult.value;

    // A generated key is always RSA or ECDSA, so the source's error branch here cannot be taken.
    GeneratedKeysAreWithinPolicy(crt.spec, env.keyMaterial);
    var signeePublicKey := PublicKeyForPrivateKey(signeeKey).value;

    var tail;
    outcome, tail := PrepareRequest(crt, signeeKey, signeePublicKey, env);
    trace := [StepRecord(KeyGeneration, true, None), StepRecord(PublicKeyExtraction, true, None)] + tail;
  }
}
