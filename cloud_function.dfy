/**
 * The backend `verifyBatch` HTTP handler. After the CORS header it answers a
 * pre-flight at once; otherwise it checks the four required fields, the
 * mobile and the email, writes one structured log entry, loads the batch
 * index from the bucket, looks the normalised code up, checks that the
 * report file exists and answers with a fifteen-minute signed read URL.
 * Every fault thrown by storage becomes a 500.
 *
 * Cloud Storage, the `STORAGE_BUCKET_NAME` setting and the clock are inputs
 * (`Env`). `Handle` is the whole behaviour as a value: status, headers, body
 * and the ordered trace of log lines and storage calls. The method
 * `VerifyBatch` performs the same steps on a `Response` and a `Platform`
 * object, and its postcondition ties the final state to `Handle`.
 */
module CloudFunction {
  import opened Wrappers
  import opened JsText
  import opened InputFormats

  /** The fields destructured from `req.body`; `None` when a field is absent. */
  datatype RequestBody = RequestBody(
    fullName: Option<string>,
    mobile: Option<string>,
    email: Option<string>,
    batchCode: Option<string>)

  /** The request: its HTTP method, its body and its `user-agent` header. */
  datatype Request = Request(httpMethod: string, body: RequestBody, userAgent: Option<string>)

  /** One value of the parsed `batch-index.json`. */
  datatype IndexEntry = IndexEntry(code: string, productName: string, testDate: string, reportPath: string)

  /** What an awaited storage call did: returned a value, or threw. */
  datatype Attempt<T> = Returned(value: T) | Threw

  /** The options object passed to `getSignedUrl`. */
  datatype SignOptions = SignOptions(version: string, action: string, expires: int)

  /** The handler's environment. `loadIndex(bucket)` is the download of
      `batch-index.json` from `bucket` followed by `JSON.parse`;
      `fileExists(bucket, path)` and `signUrl(bucket, path, options)` are the
      `exists` and `getSignedUrl` calls on `bucket.file(path)`. `isoNow` is
      the reading of `new Date().toISOString()` for the log entry and `nowMs`
      the later reading of `Date.now()` for the expiry. */
  datatype Env = Env(
    bucketSetting: Option<string>,
    loadIndex: string -> Attempt<map<string, IndexEntry>>,
    fileExists: (string, string) -> Attempt<bool>,
    signUrl: (string, string, SignOptions) -> Attempt<string>,
    isoNow: string,
    nowMs: int)

  /** The structured entry written with `console.log(JSON.stringify(entry))`;
      an absent user agent is left out of the JSON text. */
  datatype AuditEntry = AuditEntry(
    timestamp: string,
    batchCode: string,
    email: string,
    mobile: string,
    userAgent: Option<string>)

  /** One observable step, in the order the handler takes it. */
  datatype Effect =
    | Logged(entry: AuditEntry)                 // console.log of the audit entry
    | FileMissingLogged(path: string)           // console.error(`File missing: ${path}`)
    | ServerErrorLogged                         // console.error('Server Error:', error)
    | IndexDownloaded(bucket: string)           // download of batch-index.json
    | ExistenceChecked(bucket: string, path: string)
    | SignRequested(bucket: string, path: string, options: SignOptions)

  /** The `data` object of a 200 answer. */
  datatype ReportData = ReportData(code: string, productName: string, testDate: string, reportUrl: string)

  /** The JSON bodies: `{error}` on failure, `{success: true, data}` on success. */
  datatype Payload = ErrorPayload(error: string) | SuccessPayload(data: ReportData)

  /** A response body: not sent yet, sent as text, or sent as JSON. */
  datatype Body = Unsent | Text(text: string) | Json(payload: Payload)

  /** Everything one call of the handler does. */
  datatype Reply = Reply(status: int, headers: map<string, string>, body: Body, effects: seq<Effect>)

  /** The outcome of the part after the log entry: status, payload, effects. */
  datatype Stage = Stage(status: int, payload: Payload, effects: seq<Effect>)

  const AllowOrigin := "Access-Control-Allow-Origin"
  const AllowMethods := "Access-Control-Allow-Methods"
  const AllowHeaders := "Access-Control-Allow-Headers"
  const DefaultBucket := "adi-bharat-reports"
  const SignedUrlLifetimeMs := 15 * 60 * 1000

  const MissingFieldsError := "Missing required fields"
  const InvalidMobileError := "Invalid Indian mobile number"
  const InvalidEmailError := "Invalid email format"
  const NotFoundError := "Batch code not found"
  const ReportMissingError := "Report file missing from system"
  const InternalError := "Internal Server Error"

  /** A field passes `!field` only when it is present and not empty. */
  predicate Truthy(field: Option<string>) {
    field.Some? && field.value != ""
  }

  /** `process.env.STORAGE_BUCKET_NAME || 'adi-bharat-reports'`. */
  function BucketName(setting: Option<string>): string {
    if Truthy(setting) then setting.value else DefaultBucket
  }

  /** The options of the one signing call: a v4 read URL expiring fifteen
      minutes after `nowMs`. */
  function ReadOptions(nowMs: int): SignOptions {
    SignOptions("v4", "read", nowMs + SignedUrlLifetimeMs)
  }

  /** All four fields present and well formed: the request gets past
      validation. */
  predicate Validated(body: RequestBody) {
    && Truthy(body.fullName) && Truthy(body.mobile) && Truthy(body.email) && Truthy(body.batchCode)
    && IsValidMobile(body.mobile.value)
    && IsValidEmail(body.email.value)
  }

  /** The validation steps in source order: the message of the first that
      fails, or `None`. */
  function Validate(body: RequestBody): (err: Option<string>)
    ensures err == None <==> Validated(body)
  {
    if !Truthy(body.fullName) || !Truthy(body.mobile) || !Truthy(body.email) || !Truthy(body.batchCode) then
      Some(MissingFieldsError)
    else if !IsValidMobile(body.mobile.value) then Some(InvalidMobileError)
    else if !IsValidEmail(body.email.value) then Some(InvalidEmailError)
    else None
  }

  /** The entry logged for a validated request: raw field values, not the
      normalised code. */
  function EntryFor(req: Request, env: Env): AuditEntry
    requires Validated(req.body)
  {
    AuditEntry(env.isoNow, req.body.batchCode.value, req.body.email.value, req.body.mobile.value, req.userAgent)
  }

  /** How many audit entries a trace holds. */
  function AuditCount(effects: seq<Effect>): nat {
    if effects == [] then 0
    else (if effects[0].Logged? then 1 else 0) + AuditCount(effects[1..])
  }

  /** The storage part of the handler, from the index download on. */
  function Resolve(batchCode: string, env: Env): Stage {
    var bucket := BucketName(env.bucketSetting);
    match env.loadIndex(bucket)
    case Threw => Stage(500, ErrorPayload(InternalError), [IndexDownloaded(bucket), ServerErrorLogged])
    case Returned(index) =>
      var code := Normalise(batchCode);
      if code !in index then Stage(404, ErrorPayload(NotFoundError), [IndexDownloaded(bucket)])
      else
        var rest := IssueReport(bucket, index[code], env);
        Stage(rest.status, rest.payload, [IndexDownloaded(bucket)] + rest.effects)
  }

  /** The part after a successful lookup: the existence check, then the
      signing call only when the report exists. */
  function IssueReport(bucket: string, entry: IndexEntry, env: Env): Stage {
    var path := entry.reportPath;
    var checked := ExistenceChecked(bucket, path);
    match env.fileExists(bucket, path)
    case Threw => Stage(500, ErrorPayload(InternalError), [checked, ServerErrorLogged])
    case Returned(false) => Stage(500, ErrorPayload(ReportMissingError), [checked, FileMissingLogged(path)])
    case Returned(true) =>
      var options := ReadOptions(env.nowMs);
      var signing := SignRequested(bucket, path, options);
      match env.signUrl(bucket, path, options)
      case Threw => Stage(500, ErrorPayload(InternalError), [checked, signing, ServerErrorLogged])
      case Returned(url) =>
        Stage(200, SuccessPayload(ReportData(entry.code, entry.productName, entry.testDate, url)), [checked, signing])
  }

  /** After a successful lookup the existence check comes first; no audit
      entry and no second download follow, and a URL is signed only for the
      entry's own report, once the check has returned true, with the read
      options. */
  lemma IssueReportChecksFirst(bucket: string, entry: IndexEntry, env: Env)
    ensures var st := IssueReport(bucket, entry, env);
      && |st.effects| > 0 && st.effects[0] == ExistenceChecked(bucket, entry.reportPath)
      && (forall e :: e in st.effects ==> !e.Logged? && !e.IndexDownloaded?)
      && (forall e :: e in st.effects && e.SignRequested? ==>
            e == SignRequested(bucket, entry.reportPath, ReadOptions(env.nowMs))
            && env.fileExists(bucket, entry.reportPath) == Returned(true))
  {
  }

  /** The storage part starts with the index download, never logs an audit
      entry, and signs only a report whose existence it checked and
      confirmed, always with the read options. */
  lemma ResolveDownloadsFirst(batchCode: string, env: Env)
    ensures var st := Resolve(batchCode, env);
      && |st.effects| > 0 && st.effects[0] == IndexDownloaded(BucketName(env.bucketSetting))
      && (forall e :: e in st.effects ==> !e.Logged?)
      && (forall e :: e in st.effects && e.SignRequested? ==>
            && e.options == ReadOptions(env.nowMs)
            && ExistenceChecked(e.bucket, e.path) in st.effects
            && env.fileExists(e.bucket, e.path) == Returned(true))
  {
    var bucket := BucketName(env.bucketSetting);
    var st := Resolve(batchCode, env);
    if env.loadIndex(bucket).Returned? && Normalise(batchCode) in env.loadIndex(bucket).value {
      var entry := env.loadIndex(bucket).value[Normalise(batchCode)];
      var rest := IssueReport(bucket, entry, env);
      IssueReportChecksFirst(bucket, entry, env);
      assert st.effects == [IndexDownloaded(bucket)] + rest.effects;
      assert forall e :: e in st.effects ==> e == IndexDownloaded(bucket) || e in rest.effects;
      assert rest.effects[0] in st.effects;
    }
  }

  /** Headers of the pre-flight answer. */
  const PreflightHeaders := map[AllowOrigin := "*", AllowMethods := "POST", AllowHeaders := "Content-Type"]

  /** Headers of every other answer. */
  const CorsHeaders := map[AllowOrigin := "*"]

  /** Setting the three pre-flight headers one by one adds `PreflightHeaders`. */
  lemma PreflightHeadersAdded(m: map<string, string>)
    ensures m[AllowOrigin := "*"][AllowMethods := "POST"][AllowHeaders := "Content-Type"] == m + PreflightHeaders
  {
  }

  /** Setting the origin header adds `CorsHeaders`. */
  lemma CorsHeadersAdded(m: map<string, string>)
    ensures m[AllowOrigin := "*"] == m + CorsHeaders
  {
  }

  /** `exports.verifyBatch(req, res)` as a value. Every answer allows any
      origin, and its status is one of the five the handler uses. */
  function Handle(req: Request, env: Env): (r: Reply)
    ensures AllowOrigin in r.headers && r.headers[AllowOrigin] == "*"
    ensures r.status in {200, 204, 400, 404, 500}
  {
    if req.httpMethod == "OPTIONS" then
      Reply(204, PreflightHeaders, Text(""), [])
    else
      match Validate(req.body)
      case Some(err) => Reply(400, CorsHeaders, Json(ErrorPayload(err)), [])
      case None =>
        var st := Resolve(req.body.batchCode.value, env);
        Reply(st.status, CorsHeaders, Json(st.payload), [Logged(EntryFor(req, env))] + st.effects)
  }

  lemma {:induction false} NoAuditEntries(effects: seq<Effect>)
    requires forall e :: e in effects ==> !e.Logged?
    ensures AuditCount(effects) == 0
  {
    if effects != [] {
      assert effects[0] in effects;
      assert forall e :: e in effects[1..] ==> e in effects;
      NoAuditEntries(effects[1..]);
    }
  }

  /** A pre-flight is answered with 204, an empty body and the allowed method
      and header, before any validation, logging or storage access. */
  lemma PreflightShortCircuits(req: Request, env: Env)
    requires req.httpMethod == "OPTIONS"
    ensures var r := Handle(req, env);
      && r.status == 204 && r.body == Text("")
      && r.headers == map[AllowOrigin := "*", AllowMethods := "POST", AllowHeaders := "Content-Type"]
      && r.effects == []
  {
  }

  /** A missing or empty field is a 400 "Missing required fields", decided
      before any format check and with nothing logged or fetched. */
  lemma MissingFieldIsRejected(req: Request, env: Env)
    requires req.httpMethod != "OPTIONS"
    requires !Truthy(req.body.fullName) || !Truthy(req.body.mobile) || !Truthy(req.body.email) || !Truthy(req.body.batchCode)
    ensures var r := Handle(req, env);
      r.status == 400 && r.body == Json(ErrorPayload(MissingFieldsError)) && r.effects == []
  {
  }

  /** With all fields present, a malformed mobile is a 400 whatever the email
      holds, and a well-formed mobile with a malformed email is the other 400;
      neither is logged. */
  lemma FormatChecksInOrder(req: Request, env: Env)
    requires req.httpMethod != "OPTIONS"
    requires Truthy(req.body.fullName) && Truthy(req.body.mobile) && Truthy(req.body.email) && Truthy(req.body.batchCode)
    ensures var r := Handle(req, env);
      && (!IsValidMobile(req.body.mobile.value) ==>
            r.status == 400 && r.body == Json(ErrorPayload(InvalidMobileError)) && r.effects == [])
      && (IsValidMobile(req.body.mobile.value) && !IsValidEmail(req.body.email.value) ==>
            r.status == 400 && r.body == Json(ErrorPayload(InvalidEmailError)) && r.effects == [])
  {
  }

  /** Exactly one audit entry is written when, and only when, a non-pre-flight
      request passes validation; it is the first effect, holds the raw fields,
      and comes before the index download. */
  lemma AuditedExactlyWhenValidated(req: Request, env: Env)
    ensures var r := Handle(req, env);
      && AuditCount(r.effects) == (if req.httpMethod != "OPTIONS" && Validated(req.body) then 1 else 0)
      && (req.httpMethod != "OPTIONS" && Validated(req.body) ==>
            && r.effects[0] == Logged(EntryFor(req, env))
            && r.effects[1] == IndexDownloaded(BucketName(env.bucketSetting)))
  {
    var r := Handle(req, env);
    if req.httpMethod != "OPTIONS" && Validated(req.body) {
      var st := Resolve(req.body.batchCode.value, env);
      ResolveDownloadsFirst(req.body.batchCode.value, env);
      NoAuditEntries(st.effects);
      assert r.effects[1..] == st.effects;
    }
  }

  /** A validated request whose normalised code is not in the index is a
      404; after the log entry and the download nothing else happens, so no
      URL is signed. */
  lemma UnknownCodeIsNotFound(req: Request, env: Env, index: map<string, IndexEntry>)
    requires req.httpMethod != "OPTIONS" && Validated(req.body)
    requires env.loadIndex(BucketName(env.bucketSetting)) == Returned(index)
    requires Normalise(req.body.batchCode.value) !in index
    ensures var r := Handle(req, env);
      && r.status == 404 && r.body == Json(ErrorPayload(NotFoundError))
      && r.effects == [Logged(EntryFor(req, env)), IndexDownloaded(BucketName(env.bucketSetting))]
  {
  }

  /** A known code whose report file does not exist is a 500 "Report file
      missing from system"; the missing path is logged and no URL is signed. */
  lemma MissingReportIsServerError(req: Request, env: Env, index: map<string, IndexEntry>)
    requires req.httpMethod != "OPTIONS" && Validated(req.body)
    requires env.loadIndex(BucketName(env.bucketSetting)) == Returned(index)
    requires Normalise(req.body.batchCode.value) in index
    requires env.fileExists(BucketName(env.bucketSetting), index[Normalise(req.body.batchCode.value)].reportPath) == Returned(false)
    ensures var r := Handle(req, env);
      var bucket, path := BucketName(env.bucketSetting), index[Normalise(req.body.batchCode.value)].reportPath;
      && r.status == 500 && r.body == Json(ErrorPayload(ReportMissingError))
      && r.effects == [Logged(EntryFor(req, env)), IndexDownloaded(bucket), ExistenceChecked(bucket, path), FileMissingLogged(path)]
  {
  }

  /** The handler answers 200 exactly when validation passes, the index loads,
      the normalised code is in it, its report exists and signing returns;
      the body then carries the index entry's code, product name and test date
      and the URL signed for its report as a v4 read URL expiring exactly
      fifteen minutes after `nowMs`. */
  lemma SuccessCarriesSignedReadUrl(req: Request, env: Env)
    ensures var r := Handle(req, env);
      var bucket := BucketName(env.bucketSetting);
      var ok :=
        && req.httpMethod != "OPTIONS" && Validated(req.body)
        && env.loadIndex(bucket).Returned?
        && Normalise(req.body.batchCode.value) in env.loadIndex(bucket).value
        && var entry := env.loadIndex(bucket).value[Normalise(req.body.batchCode.value)];
        && env.fileExists(bucket, entry.reportPath) == Returned(true)
        && env.signUrl(bucket, entry.reportPath, SignOptions("v4", "read", env.nowMs + 900000)).Returned?;
      && (r.status == 200 <==> ok)
      && (ok ==>
            var entry := env.loadIndex(bucket).value[Normalise(req.body.batchCode.value)];
            r.body == Json(SuccessPayload(ReportData(entry.code, entry.productName, entry.testDate,
              env.signUrl(bucket, entry.reportPath, SignOptions("v4", "read", env.nowMs + 900000)).value))))
  {
    var r := Handle(req, env);
    if req.httpMethod == "OPTIONS" {
      assert r.status == 204;
    } else if !Validated(req.body) {
      assert r.status == 400;
    } else {
      ResolvedExactlyWhenSigned(req.body.batchCode.value, env);
      assert r.status == Resolve(req.body.batchCode.value, env).status;
      assert r.body == Json(Resolve(req.body.batchCode.value, env).payload);
    }
  }

  /** The storage part answers 200 exactly when the index loads, holds the
      normalised code, and the report is issued; the payload is then the
      issued one. */
  lemma ResolvedExactlyWhenSigned(batchCode: string, env: Env)
    ensures var bucket := BucketName(env.bucketSetting);
      var st := Resolve(batchCode, env);
      var loaded := env.loadIndex(bucket);
      var code := Normalise(batchCode);
      && (st.status == 200 <==>
            && loaded.Returned? && code in loaded.value
            && env.fileExists(bucket, loaded.value[code].reportPath) == Returned(true)
            && env.signUrl(bucket, loaded.value[code].reportPath, ReadOptions(env.nowMs)).Returned?)
      && (st.status == 200 ==> st.payload == SuccessPayload(ReportData(loaded.value[code].code,
            loaded.value[code].productName, loaded.value[code].testDate,
            env.signUrl(bucket, loaded.value[code].reportPath, ReadOptions(env.nowMs)).value)))
  {
    var bucket := BucketName(env.bucketSetting);
    var loaded := env.loadIndex(bucket);
    var code := Normalise(batchCode);
    if loaded.Returned? && code in loaded.value {
      IssuedExactlyWhenSigned(bucket, loaded.value[code], env);
    }
  }

  /** After a successful lookup the answer is 200 exactly when the report
      exists and signing returns, and then it carries the entry and the URL. */
  lemma IssuedExactlyWhenSigned(bucket: string, entry: IndexEntry, env: Env)
    ensures var st := IssueReport(bucket, entry, env);
      var url := env.signUrl(bucket, entry.reportPath, ReadOptions(env.nowMs));
      && (st.status == 200 <==> env.fileExists(bucket, entry.reportPath) == Returned(true) && url.Returned?)
      && (st.status == 200 ==> st.payload == SuccessPayload(ReportData(entry.code, entry.productName, entry.testDate, url.value)))
  {
  }

  /** A storage call that throws (index download or parse, existence check,
      signing) turns a validated request into a 500 "Internal Server Error"
      whose last effect is the server-error log line. */
  lemma StorageFaultIsInternalError(req: Request, env: Env)
    requires req.httpMethod != "OPTIONS" && Validated(req.body)
    ensures var r := Handle(req, env);
      var bucket := BucketName(env.bucketSetting);
      var code := Normalise(req.body.batchCode.value);
      var faulted :=
        || env.loadIndex(bucket).Threw?
        || (&& code in env.loadIndex(bucket).value
            && var path := env.loadIndex(bucket).value[code].reportPath;
            || env.fileExists(bucket, path).Threw?
            || (env.fileExists(bucket, path) == Returned(true)
                && env.signUrl(bucket, path, ReadOptions(env.nowMs)).Threw?));
      && (r.body == Json(ErrorPayload(InternalError)) <==> faulted)
      && (faulted ==> r.status == 500 && r.effects[|r.effects| - 1] == ServerErrorLogged)
  {
  }

  /** Whatever the request and the environment, a URL is signed only for a
      report whose existence was checked and confirmed earlier in the same
      call, and always as a v4 read URL that expires fifteen minutes after
      `nowMs`. */
  lemma SigningOnlyAfterExistenceCheck(req: Request, env: Env)
    ensures var r := Handle(req, env);
      && (forall e :: e in r.effects && e.SignRequested? ==>
            && e.options == SignOptions("v4", "read", env.nowMs + 900000)
            && ExistenceChecked(e.bucket, e.path) in r.effects
            && env.fileExists(e.bucket, e.path) == Returned(true))
      && (forall k :: 0 <= k < |r.effects| && r.effects[k].SignRequested? ==>
            exists j :: 0 <= j < k && r.effects[j] == ExistenceChecked(r.effects[k].bucket, r.effects[k].path))
  {
    var r := Handle(req, env);
    if req.httpMethod != "OPTIONS" && Validated(req.body) {
      var st := Resolve(req.body.batchCode.value, env);
      ResolveDownloadsFirst(req.body.batchCode.value, env);
      assert forall e :: e in r.effects ==> e == Logged(EntryFor(req, env)) || e in st.effects;
      ResolveChecksBeforeSigning(req.body.batchCode.value, env);
      CheckedBeforeSigningAfter(Logged(EntryFor(req, env)), st.effects);
    }
  }

  /** Every signing call in `effects` comes after an existence check of the
      same file. */
  predicate CheckedBeforeSigning(effects: seq<Effect>) {
    forall k :: 0 <= k < |effects| && effects[k].SignRequested? ==>
      exists j :: 0 <= j < k && effects[j] == ExistenceChecked(effects[k].bucket, effects[k].path)
  }

  /** Putting an effect that is not a signing call in front keeps the order. */
  lemma CheckedBeforeSigningAfter(e: Effect, effects: seq<Effect>)
    requires !e.SignRequested? && CheckedBeforeSigning(effects)
    ensures CheckedBeforeSigning([e] + effects)
  {
    var all := [e] + effects;
    forall k | 0 <= k < |all| && all[k].SignRequested?
      ensures exists j :: 0 <= j < k && all[j] == ExistenceChecked(all[k].bucket, all[k].path)
    {
      assert all[k] == effects[k - 1];
      var j :| 0 <= j < k - 1 && effects[j] == ExistenceChecked(effects[k - 1].bucket, effects[k - 1].path);
      assert all[j + 1] == effects[j];
    }
  }

  /** After the lookup, the signing call comes after the existence check. */
  lemma IssueReportChecksBeforeSigning(bucket: string, entry: IndexEntry, env: Env)
    ensures CheckedBeforeSigning(IssueReport(bucket, entry, env).effects)
  {
    var st := IssueReport(bucket, entry, env);
    IssueReportChecksFirst(bucket, entry, env);
    forall k | 0 <= k < |st.effects| && st.effects[k].SignRequested?
      ensures exists j :: 0 <= j < k && st.effects[j] == ExistenceChecked(st.effects[k].bucket, st.effects[k].path)
    {
      assert st.effects[k] in st.effects;
      assert k != 0;
      assert st.effects[0] == ExistenceChecked(st.effects[k].bucket, st.effects[k].path);
    }
  }

  /** In the storage part, every signing call comes after an existence check
      of the same file. */
  lemma ResolveChecksBeforeSigning(batchCode: string, env: Env)
    ensures CheckedBeforeSigning(Resolve(batchCode, env).effects)
  {
    var bucket := BucketName(env.bucketSetting);
    var code := Normalise(batchCode);
    if env.loadIndex(bucket).Returned? && code in env.loadIndex(bucket).value {
      var rest := IssueReport(bucket, env.loadIndex(bucket).value[code], env);
      IssueReportChecksBeforeSigning(bucket, env.loadIndex(bucket).value[code], env);
      CheckedBeforeSigningAfter(IndexDownloaded(bucket), rest.effects);
    }
  }

  /** `res`: the status, headers and body of the answer being built. */
  class Response {
    var status: int
    var headers: map<string, string>
    var body: Body

    /** A fresh response: Express's default status 200, nothing set, nothing sent. */
    constructor ()
      ensures status == 200 && headers == map[] && body == Unsent
    {
      status := 200;
      headers := map[];
      body := Unsent;
    }

    /** `res.set(name, value)`. */
    method Set(name: string, value: string)
      modifies this
      ensures headers == old(headers)[name := value]
      ensures status == old(status) && body == old(body)
    {
      headers := headers[name := value];
    }

    /** `res.status(code)`. */
    method Status(code: int)
      modifies this
      ensures status == code
      ensures headers == old(headers) && body == old(body)
    {
      status := code;
    }

    /** `.json(payload)`. */
    method Json(payload: Payload)
      modifies this
      ensures body == Body.Json(payload)
      ensures status == old(status) && headers == old(headers)
    {
      body := Body.Json(payload);
    }

    /** `.send(text)`. */
    method Send(text: string)
      modifies this
      ensures body == Text(text)
      ensures status == old(status) && headers == old(headers)
    {
      body := Text(text);
    }
  }

  /** The console, Cloud Storage and the clock as the handler meets them:
      every log line and storage call is appended, in order, to `effects`,
      and every answer comes from `env`. */
  class Platform {
    const env: Env
    var effects: seq<Effect>

    constructor (env: Env)
      ensures this.env == env && effects == []
    {
      this.env := env;
      effects := [];
    }

    /** `process.env.STORAGE_BUCKET_NAME`. */
    method BucketSetting() returns (setting: Option<string>)
      ensures setting == env.bucketSetting
    {
      setting := env.bucketSetting;
    }

    /** `new Date().toISOString()`. */
    method IsoNow() returns (iso: string)
      ensures iso == env.isoNow
    {
      iso := env.isoNow;
    }

    /** `Date.now()`. */
    method NowMs() returns (ms: int)
      ensures ms == env.nowMs
    {
      ms := env.nowMs;
    }

    /** `console.log(JSON.stringify(entry))`. */
    method Log(entry: AuditEntry)
      modifies this
      ensures effects == old(effects) + [Logged(entry)]
    {
      effects := effects + [Logged(entry)];
    }

    /** `console.error(`File missing: ${path}`)`. */
    method LogFileMissing(path: string)
      modifies this
      ensures effects == old(effects) + [FileMissingLogged(path)]
    {
      effects := effects + [FileMissingLogged(path)];
    }

    /** `console.error('Server Error:', error)`. */
    method LogServerError()
      modifies this
      ensures effects == old(effects) + [ServerErrorLogged]
    {
      effects := effects + [ServerErrorLogged];
    }

    /** `bucket.file('batch-index.json').download()` and `JSON.parse`. */
    method DownloadIndex(bucket: string) returns (index: Attempt<map<string, IndexEntry>>)
      modifies this
      ensures index == env.loadIndex(bucket)
      ensures effects == old(effects) + [IndexDownloaded(bucket)]
    {
      index := env.loadIndex(bucket);
      effects := effects + [IndexDownloaded(bucket)];
    }

    /** `bucket.file(path).exists()`. */
    method Exists(bucket: string, path: string) returns (found: Attempt<bool>)
      modifies this
      ensures found == env.fileExists(bucket, path)
      ensures effects == old(effects) + [ExistenceChecked(bucket, path)]
    {
      found := env.fileExists(bucket, path);
      effects := effects + [ExistenceChecked(bucket, path)];
    }

    /** `bucket.file(path).getSignedUrl(options)`. */
    method GetSignedUrl(bucket: string, path: string, options: SignOptions) returns (url: Attempt<string>)
      modifies this
      ensures url == env.signUrl(bucket, path, options)
      ensures effects == old(effects) + [SignRequested(bucket, path, options)]
    {
      url := env.signUrl(bucket, path, options);
      effects := effects + [SignRequested(bucket, path, options)];
    }
  }

  /** The `catch` block: log the fault and answer 500. */
  method AnswerInternalError(res: Response, host: Platform)
    modifies res, host
    ensures res.status == 500 && res.body == Json(ErrorPayload(InternalError)) && res.headers == old(res.headers)
    ensures host.effects == old(host.effects) + [ServerErrorLogged]
  {
    host.LogServerError();
    res.Status(500);
    res.Json(ErrorPayload(InternalError));
  }

  /** `res.status(code).json({error})`. */
  method AnswerError(res: Response, code: int, error: string)
    modifies res
    ensures res.status == code && res.body == Json(ErrorPayload(error)) && res.headers == old(res.headers)
  {
    res.Status(code);
    res.Json(ErrorPayload(error));
  }

  /** The three validation steps of the handler, in source order: on the
      first that fails the 400 answer is left in `res`; when all pass `res`
      is untouched. */
  method Screen(body: RequestBody, res: Response) returns (err: Option<string>)
    modifies res
    ensures err == Validate(body)
    ensures res.headers == old(res.headers)
    ensures err.Some? ==> res.status == 400 && res.body == Json(ErrorPayload(err.value))
    ensures err.None? ==> res.status == old(res.status) && res.body == old(res.body)
  {
    if !Truthy(body.fullName) || !Truthy(body.mobile) || !Truthy(body.email) || !Truthy(body.batchCode) {
      err := Some(MissingFieldsError);
    } else if !IsValidMobile(body.mobile.value) {
      err := Some(InvalidMobileError);
    } else if !IsValidEmail(body.email.value) {
      err := Some(InvalidEmailError);
    } else {
      return None;
    }
    AnswerError(res, 400, err.value);
  }

  /** `exports.verifyBatch(req, res)`: the answer left in `res` and the
      effects appended to `host` are those `Handle` gives. */
  method VerifyBatch(req: Request, res: Response, host: Platform)
    modifies res, host
    ensures res.status == Handle(req, host.env).status
    ensures res.headers == old(res.headers) + Handle(req, host.env).headers
    ensures res.body == Handle(req, host.env).body
    ensures host.effects == old(host.effects) + Handle(req, host.env).effects
  {
    res.Set(AllowOrigin, "*");

    if req.httpMethod == "OPTIONS" {
      res.Set(AllowMethods, "POST");
      res.Set(AllowHeaders, "Content-Type");
      PreflightHeadersAdded(old(res.headers));
      res.Status(204);
      res.Send("");
      return;
    }
    CorsHeadersAdded(old(res.headers));

    var err := Screen(req.body, res);
    if err.Some? {
      return;
    }
    AuditAndFetch(req, res, host);
  }

  /** A validated request: the audit entry, then the storage part. */
  method AuditAndFetch(req: Request, res: Response, host: Platform)
    requires Validated(req.body)
    modifies res, host
    ensures res.status == Resolve(req.body.batchCode.value, host.env).status
    ensures res.headers == old(res.headers)
    ensures res.body == Json(Resolve(req.body.batchCode.value, host.env).payload)
    ensures host.effects == old(host.effects) + ([Logged(EntryFor(req, host.env))] + Resolve(req.body.batchCode.value, host.env).effects)
  {
    var body := req.body;
    var timestamp := host.IsoNow();
    host.Log(AuditEntry(timestamp, body.batchCode.value, body.email.value, body.mobile.value, req.userAgent));
    FetchAndAnswer(body.batchCode.value, res, host);
  }

  /** The rest of the `try` block and its `catch`: the answer and the
      effects are those `Resolve` gives. */
  method FetchAndAnswer(batchCode: string, res: Response, host: Platform)
    modifies res, host
    ensures res.status == Resolve(batchCode, host.env).status
    ensures res.body == Json(Resolve(batchCode, host.env).payload)
    ensures res.headers == old(res.headers)
    ensures host.effects == old(host.effects) + Resolve(batchCode, host.env).effects
  {
    var setting := host.BucketSetting();
    var bucket := BucketName(setting);
    var loaded := host.DownloadIndex(bucket);
    if loaded.Threw? {
      AnswerInternalError(res, host);
      return;
    }
    var normalizedCode := Normalise(batchCode);
    if normalizedCode !in loaded.value {
      AnswerError(res, 404, NotFoundError);
      return;
    }
    var entry := loaded.value[normalizedCode];
    IssueOnPlatform(bucket, entry, res, host);
    assert host.effects == old(host.effects) + ([IndexDownloaded(bucket)] + IssueReport(bucket, entry, host.env).effects);
  }

  /** The existence check and the signing call on `host`: the answer and the
      effects are those `IssueReport` gives. */
  method IssueOnPlatform(bucket: string, entry: IndexEntry, res: Response, host: Platform)
    modifies res, host
    ensures res.status == IssueReport(bucket, entry, host.env).status
    ensures res.body == Json(IssueReport(bucket, entry, host.env).payload)
    ensures res.headers == old(res.headers)
    ensures host.effects == old(host.effects) + IssueReport(bucket, entry, host.env).effects
  {
    var found := host.Exists(bucket, entry.reportPath);
    if found.Threw? {
      AnswerInternalError(res, host);
      return;
    }
    if !found.value {
      host.LogFileMissing(entry.reportPath);
      AnswerError(res, 500, ReportMissingError);
      return;
    }

    var now := host.NowMs();
    var url := host.GetSignedUrl(bucket, entry.reportPath, SignOptions("v4", "read", now + 15 * 60 * 1000));
    if url.Threw? {
      AnswerInternalError(res, host);
      return;
    }
    res.Status(200);
    res.Json(SuccessPayload(ReportData(entry.code, entry.productName, entry.testDate, url.value)));
  }
}
