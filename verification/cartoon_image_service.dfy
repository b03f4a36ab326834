/** `webcam.service.impl.CartoonImageServiceImpl`: turns a user's photo into a cartoon
    through the DashScope image API, downloads the picture, keeps a local copy and then,
    best effort, copies it to R2, presigns a download URL and draws a QR code for it.
    Every remote party is an oracle in `Services`; fresh identifiers come in `Draws`. */
module CartoonService {
  import opened Support
  import opened Json
  import opened Base64
  import opened Exceptions
  import opened FileSystem
  import opened ImageStorage
  import opened R2Upload
  import opened Dto

  /** What `restTemplate.exchange` gives back: a status with a body (null, or its text and
      parse), or the message of the exception it threw. The application's RestTemplate
      keeps Spring's default error handler, which throws for a 4xx or 5xx status, so for
      the real client a `Reply` has a status below 400 and a 4xx or 5xx answer arrives as
      `Threw`; the oracle here is not held to that. */
  datatype HttpReply = Reply(status: int, body: Option<Body>) | Threw(message: string)

  /** What the HttpURLConnection download gives back. */
  datatype Download =
    | Fetched(code: int, bytes: seq<byte>)  // the response code and every byte read
    | BadUrl                                // `new URL` threw MalformedURLException
    | IoFailure(message: string)            // any other IOException while connecting or reading
    | Failure(message: string)              // any other exception (a non-HTTP URL failing the cast)

  /** The remote services and libraries the pipeline calls. */
  datatype Services = Services(
    post: Option<string> -> HttpReply,                // the generation POST, by its `input.image_url`
    poll: (string, nat) -> HttpReply,                 // the reply to GET tasks/{task_id}, attempt i
    download: string -> Download,
    put: PutObjectRequest -> Result<string, string>,
    presign: PresignRequest -> Result<string, string>,
    qrPng: (string, int, int) -> Result<seq<byte>, string>,  // ZXing: a width x height QR code as PNG
    urlPath: string -> Option<string>,                // `new URL(s).getPath()`; None where it throws
    r2: R2Config)

  /** Fresh values the pipeline draws: the UUID of the local file name, and the UUID and
      epoch milliseconds of the object key. */
  datatype Draws = Draws(fileUuid: string, keyUuid: string, millis: int)

  const DataUriJpegPrefix: string := "data:image/jpeg;base64,"
  const QrPrefix: string := "data:image/png;base64,"
  const QrSize: int := 400
  const JpegContentType: string := "image/jpeg"
  const SuccessCode: string := "Success"
  const MaxAttempts: nat := 30
  const UploadUrlPath: string := "/upload/"

  const GeneratePrefix: string := "生成卡通图片失败: "
  const FromUrlPrefix: string := "从URL生成卡通图片失败: "
  const StatusPrefix: string := "卡通图片API调用失败，状态码: "
  const ResponseInfix: string := ", 响应: "
  const UnknownError: string := "Unknown error"
  const CallFailedPrefix: string := "调用卡通图片API失败: "
  const ApiErrorPrefix: string := "卡通图片API返回错误: "
  const DefaultApiError: string := "API调用失败"
  const ParseFailedPrefix: string := "解析API响应失败: "
  const TaskFailedPrefix: string := "卡通图片生成任务失败: "
  const DefaultTaskFailure: string := "任务执行失败"
  const TimeoutPrefix: string := "轮询任务超时，task_id: "
  const PollFailedPrefix: string := "轮询任务结果失败: "
  const InvalidUrlPrefix: string := "无效的图片URL: "
  const DownloadFailedPrefix: string := "下载卡通图片失败: "
  const DownloadStatusPrefix: string := "下载卡通图片失败，HTTP状态码: "
  const EmptyDownloadMessage: string := "下载的图片数据为空"
  const SaveCartoonPrefix: string := "保存卡通图片失败: "
  /** The message of the IllegalArgumentException `readTree(null)` throws; not modelled exactly. */
  const NullContentMessage: string := "argument \"content\" is null"

  // ---------------------------------------------------------------- helpers

  /** `isLocalUrl(url)`: a non-empty URL naming localhost or 127.0.0.1, or a bare path. */
  predicate IsLocalUrl(url: Option<string>)
    ensures url.None? || url.value == [] ==> !IsLocalUrl(url)
    ensures url.Some? && StartsWith(url.value, "/") ==> IsLocalUrl(url)
  {
    url.Some? && url.value != [] &&
    (Contains(url.value, "localhost") || Contains(url.value, "127.0.0.1") || StartsWith(url.value, "/"))
  }

  /** `extractLocalPathFromUrl(imageUrl)`: a URL under the upload base URL, or any URL
      whose path starts with /upload/, names a file of the upload directory. */
  function ExtractLocalPath(urlPath: string -> Option<string>, imageUrl: string): (r: Option<string>)
    ensures StartsWith(imageUrl, BaseUrl) ==> r == Some(Resolve(UploadDir, imageUrl[|BaseUrl|..]))
    ensures !StartsWith(imageUrl, BaseUrl) && urlPath(imageUrl).Some? && StartsWith(urlPath(imageUrl).value, UploadUrlPath) ==>
              r == Some(Resolve(UploadDir, urlPath(imageUrl).value[|UploadUrlPath|..]))
    ensures r.None? <==> !StartsWith(imageUrl, BaseUrl) &&
                         (urlPath(imageUrl).None? || !StartsWith(urlPath(imageUrl).value, UploadUrlPath))
  {
    if StartsWith(imageUrl, BaseUrl) then Some(Resolve(UploadDir, imageUrl[|BaseUrl|..]))
    else match urlPath(imageUrl)
      case None => None
      case Some(path) =>
        if StartsWith(path, UploadUrlPath) then Some(Resolve(UploadDir, path[|UploadUrlPath|..])) else None
  }

  /** The public URL of a saved image counts as local and leads back to the file it was
      saved in. */
  lemma SavedImageIsLocal(urlPath: string -> Option<string>, fileName: string)
    ensures IsLocalUrl(Some(GetImageUrl(fileName)))
    ensures ExtractLocalPath(urlPath, GetImageUrl(fileName)) == Some(Resolve(UploadDir, fileName))
  {
    var url := GetImageUrl(fileName);
    assert url == "http://" + "localhost" + (":8080/upload/" + fileName);
    assert url[7..16] == "localhost";
    ContainsAt(url, "localhost", 7);
  }

  /** The local file name of a downloaded cartoon. */
  function CartoonFileName(uuid: string): (r: string)
    ensures StartsWith(r, "cartoon_") && EndsWith(r, ".jpeg")
  {
    "cartoon_" + uuid + ".jpeg"
  }

  /** `generateR2ObjectKey()`: `cartoon/{uuid}-{millis}.jpeg`. */
  function GenerateR2ObjectKey(uuid: string, millis: int): (r: string)
    ensures StartsWith(r, "cartoon/" + uuid + "-") && EndsWith(r, ".jpeg")
  {
    "cartoon/" + uuid + "-" + IntToString(millis) + ".jpeg"
  }

  /** Keys built from UUIDs of one length (Java's are always 36 characters) coincide only
      for the same UUID and the same millisecond. */
  lemma ObjectKeyInjective(u1: string, m1: int, u2: string, m2: int)
    requires |u1| == |u2|
    requires GenerateR2ObjectKey(u1, m1) == GenerateR2ObjectKey(u2, m2)
    ensures u1 == u2 && m1 == m2
  {
    var d1, d2 := IntToString(m1), IntToString(m2);
    var t1, t2 := u1 + "-" + d1, u2 + "-" + d2;
    assert GenerateR2ObjectKey(u1, m1) == "cartoon/" + t1 + ".jpeg";
    assert GenerateR2ObjectKey(u2, m2) == "cartoon/" + t2 + ".jpeg";
    assert t1 == t2 by {
      assert |t1| == |t2|;
      assert ("cartoon/" + t1 + ".jpeg")[8..8 + |t1|] == t1;
      assert ("cartoon/" + t2 + ".jpeg")[8..8 + |t2|] == t2;
    }
    assert t1[..|u1|] == u1 && t2[..|u2|] == u2;
    assert t1[|u1| + 1..] == d1 && t2[|u2| + 1..] == d2;
    IntToStringInjective(m1, m2);
  }

  // ------------------------------------------------ classifying the API reply

  /** What a successful generation reply asks for next. */
  datatype Outcome =
    | ApiError(message: string)  // a `code` other than "Success"
    | Async(taskId: string)      // an asynchronous task to poll
    | Direct(url: string)        // the picture's URL itself
    | NoUrl                      // none of these

  /** `parseApiResponse` on a parsed body: an error code first, then a task id, then
      `output.results[0].url`, then `data.image_url`, then `data.url`. */
  function ClassifyResponse(root: Json): (r: Outcome)
    ensures r.ApiError? <==> Has(root, "code") && AsText(root.fields["code"]) != SuccessCode
  {
    if Has(root, "code") && AsText(root.fields["code"]) != SuccessCode then
      ApiError(if Has(root, "message") then AsText(root.fields["message"]) else DefaultApiError)
    else if Has(root, "output") && Has(root.fields["output"], "task_id") then
      Async(AsText(root.fields["output"].fields["task_id"]))
    else if Has(root, "output") && ResultsUrl(root.fields["output"]).Some? then
      Direct(ResultsUrl(root.fields["output"]).value)
    else if Has(root, "data") && Has(root.fields["data"], "image_url") then
      Direct(AsText(root.fields["data"].fields["image_url"]))
    else if Has(root, "data") && Has(root.fields["data"], "url") then
      Direct(AsText(root.fields["data"].fields["url"]))
    else NoUrl
  }

  /** The rules of the reply format, each on its own: what it concludes when it applies. */
  datatype Rule = ErrorCodeRule | TaskIdRule | ResultsRule | DataImageUrlRule | DataUrlRule

  function Verdict(rule: Rule, root: Json): Option<Outcome>
  {
    match rule
    case ErrorCodeRule =>
      if Has(root, "code") && AsText(root.fields["code"]) != SuccessCode
      then Some(ApiError(if Has(root, "message") then AsText(root.fields["message"]) else DefaultApiError))
      else None
    case TaskIdRule =>
      var output := Get(root, "output");
      if output.Some? && Has(output.value, "task_id") then Some(Async(AsText(output.value.fields["task_id"]))) else None
    case ResultsRule =>
      var output := Get(root, "output");
      if output.Some? && ResultsUrl(output.value).Some? then Some(Direct(ResultsUrl(output.value).value)) else None
    case DataImageUrlRule =>
      var data := Get(root, "data");
      if data.Some? && Has(data.value, "image_url") then Some(Direct(AsText(data.value.fields["image_url"]))) else None
    case DataUrlRule =>
      var data := Get(root, "data");
      if data.Some? && Has(data.value, "url") then Some(Direct(AsText(data.value.fields["url"]))) else None
  }

  /** The order the rules are tried in. */
  const RuleOrder: seq<Rule> := [ErrorCodeRule, TaskIdRule, ResultsRule, DataImageUrlRule, DataUrlRule]

  /** The verdict of the first rule that applies, or no URL. */
  function FirstVerdict(rules: seq<Rule>, root: Json): Outcome
  {
    if rules == [] then NoUrl
    else match Verdict(rules[0], root)
      case Some(o) => o
      case None => FirstVerdict(rules[1..], root)
  }

  /** The classification is the first applicable rule in the fixed order; in particular a
      task id wins over results in the same reply, and any error code wins over both. */
  lemma ClassifyIsFirstRule(root: Json)
    ensures ClassifyResponse(root) == FirstVerdict(RuleOrder, root)
  {
    var l := RuleOrder;
    assert l[1..] == [TaskIdRule, ResultsRule, DataImageUrlRule, DataUrlRule];
    assert l[1..][1..] == [ResultsRule, DataImageUrlRule, DataUrlRule];
    assert l[1..][1..][1..] == [DataImageUrlRule, DataUrlRule];
    assert l[1..][1..][1..][1..] == [DataUrlRule];
    assert l[1..][1..][1..][1..][1..] == [];
    assert FirstVerdict(l[1..][1..][1..][1..], root) == if Verdict(DataUrlRule, root).Some? then Verdict(DataUrlRule, root).value else NoUrl;
    assert FirstVerdict(l[1..][1..][1..], root) == if Verdict(DataImageUrlRule, root).Some? then Verdict(DataImageUrlRule, root).value else FirstVerdict(l[1..][1..][1..][1..], root);
    assert FirstVerdict(l[1..][1..], root) == if Verdict(ResultsRule, root).Some? then Verdict(ResultsRule, root).value else FirstVerdict(l[1..][1..][1..], root);
    assert FirstVerdict(l[1..], root) == if Verdict(TaskIdRule, root).Some? then Verdict(TaskIdRule, root).value else FirstVerdict(l[1..][1..], root);
    assert FirstVerdict(l, root) == if Verdict(ErrorCodeRule, root).Some? then Verdict(ErrorCodeRule, root).value else FirstVerdict(l[1..], root);
  }

  /** The name of the `HttpStatus` constant for a status `exchange` can hand back (1xx to
      3xx; the default error handler throws for 4xx and 5xx), if Spring has one. */
  function StatusName(status: int): Option<string>
  {
    match status
    case 100 => Some("CONTINUE")
    case 101 => Some("SWITCHING_PROTOCOLS")
    case 102 => Some("PROCESSING")
    case 103 => Some("EARLY_HINTS")
    case 200 => Some("OK")
    case 201 => Some("CREATED")
    case 202 => Some("ACCEPTED")
    case 203 => Some("NON_AUTHORITATIVE_INFORMATION")
    case 204 => Some("NO_CONTENT")
    case 205 => Some("RESET_CONTENT")
    case 206 => Some("PARTIAL_CONTENT")
    case 207 => Some("MULTI_STATUS")
    case 208 => Some("ALREADY_REPORTED")
    case 226 => Some("IM_USED")
    case 300 => Some("MULTIPLE_CHOICES")
    case 301 => Some("MOVED_PERMANENTLY")
    case 302 => Some("FOUND")
    case 303 => Some("SEE_OTHER")
    case 304 => Some("NOT_MODIFIED")
    case 305 => Some("USE_PROXY")
    case 307 => Some("TEMPORARY_REDIRECT")
    case 308 => Some("PERMANENT_REDIRECT")
    case _ => None
  }

  /** `String.valueOf(response.getStatusCode())`: the code and the constant's name, such
      as "202 ACCEPTED", or the bare code for a status without a constant. */
  function StatusText(status: int): (r: string)
    ensures StatusName(status).None? ==> r == IntToString(status)
    ensures StatusName(status).Some? ==> r == IntToString(status) + " " + StatusName(status).value
  {
    match StatusName(status)
    case None => IntToString(status)
    case Some(name) => IntToString(status) + " " + name
  }

  /** `callCartoonApi` up to the point of polling: a thrown call, a status other than 200,
      an unparsable body or an error code are BailianApiExceptions; anything else is the
      classification. */
  function ReplyOutcome(reply: HttpReply): (r: Result<Outcome, Exception>)
    ensures reply.Threw? ==> r == Err(BailianApi(CallFailedPrefix + reply.message))
    ensures reply.Reply? && reply.status != 200 ==>
              r == Err(BailianApi(StatusPrefix + StatusText(reply.status) + ResponseInfix +
                                  (if reply.body.None? then UnknownError else reply.body.value.text)))
    ensures reply.Reply? && reply.status == 200 && reply.body.None? ==>
              r == Err(BailianApi(ParseFailedPrefix + NullContentMessage))
    ensures reply.Reply? && reply.status == 200 && reply.body.Some? && reply.body.value.parsed.Malformed? ==>
              r == Err(BailianApi(ParseFailedPrefix + reply.body.value.parsed.message))
    ensures reply.Reply? && reply.status == 200 && reply.body.Some? && reply.body.value.parsed.Node? ==>
              var o := ClassifyResponse(reply.body.value.parsed.root);
              r == if o.ApiError? then Err(BailianApi(ApiErrorPrefix + o.message)) else Ok(o)
    ensures r.Err? ==> r.error.BailianApi?
  {
    match reply
    case Threw(m) => Err(BailianApi(CallFailedPrefix + m))
    case Reply(status, body) =>
      if status != 200 then
        Err(BailianApi(StatusPrefix + StatusText(status) + ResponseInfix + (if body.None? then UnknownError else body.value.text)))
      else if body.None? then Err(BailianApi(ParseFailedPrefix + NullContentMessage))
      else match body.value.parsed
        case Malformed(m) => Err(BailianApi(ParseFailedPrefix + m))
        case Node(root) =>
          var o := ClassifyResponse(root);
          if o.ApiError? then Err(BailianApi(ApiErrorPrefix + o.message)) else Ok(o)
  }

  // ------------------------------------------------------------------ polling

  /** What one poll decides. */
  datatype Step = Done(url: string) | Fail(error: Exception) | Continue

  /** The `output` node of a poll reply that the loop reads: a 200 reply whose body is
      present, parses, and has `output`. */
  function PolledOutput(reply: HttpReply): Option<Json>
  {
    if reply.Reply? && reply.status == 200 && reply.body.Some? && reply.body.value.parsed.Node? &&
       Has(reply.body.value.parsed.root, "output")
    then Some(reply.body.value.parsed.root.fields["output"])
    else None
  }

  /** A 200 reply whose body is present but does not parse. */
  predicate UnparsablePoll(reply: HttpReply)
  {
    reply.Reply? && reply.status == 200 && reply.body.Some? && reply.body.value.parsed.Malformed?
  }

  /** `output.task_status` as text, null when absent. */
  function TaskStatus(output: Json): Option<string>
  {
    if Has(output, "task_status") then Some(AsText(output.fields["task_status"])) else None
  }

  predicate TaskSucceeded(output: Json)
  {
    TaskStatus(output) == Some("SUCCEEDED") || TaskStatus(output) == Some("SUCCESS")
  }

  predicate TaskFailed(output: Json)
  {
    TaskStatus(output) == Some("FAILED") || TaskStatus(output) == Some("FAIL")
  }

  /** The message of a failed task: `output.message`, or a fixed text when absent. */
  function TaskFailureMessage(output: Json): string
  {
    TaskFailedPrefix + (if Has(output, "message") then AsText(output.fields["message"]) else DefaultTaskFailure)
  }

  /** The body of the poll loop for one reply: SUCCEEDED or SUCCESS with a result URL
      ends it with that URL; FAILED or FAIL ends it with an error; a thrown call or an
      unparsable 200 body ends it with an error; everything else polls again. */
  function PollStep(reply: HttpReply): (s: Step)
    ensures reply.Threw? ==> s == Fail(BailianApi(PollFailedPrefix + reply.message))
    ensures UnparsablePoll(reply) ==> s == Fail(BailianApi(PollFailedPrefix + reply.body.value.parsed.message))
    ensures s.Done? <==> PolledOutput(reply).Some? && TaskSucceeded(PolledOutput(reply).value) &&
                         ResultsUrl(PolledOutput(reply).value).Some?
    ensures s.Done? ==> s.url == ResultsUrl(PolledOutput(reply).value).value
    ensures PolledOutput(reply).Some? && TaskFailed(PolledOutput(reply).value) ==>
              s == Fail(BailianApi(TaskFailureMessage(PolledOutput(reply).value)))
    ensures s.Continue? <==> !reply.Threw? && !UnparsablePoll(reply) && !s.Done? &&
                             !(PolledOutput(reply).Some? && TaskFailed(PolledOutput(reply).value))
    ensures s.Fail? ==> s.error.BailianApi?
  {
    match reply
    case Threw(m) => Fail(BailianApi(PollFailedPrefix + m))
    case Reply(status, body) =>
      if status != 200 || body.None? then Continue
      else match body.value.parsed
        case Malformed(m) => Fail(BailianApi(PollFailedPrefix + m))
        case Node(root) =>
          if !Has(root, "output") then Continue
          else
            var output := root.fields["output"];
            var taskStatus := if Has(output, "task_status") then Some(AsText(output.fields["task_status"])) else None;
            if taskStatus == Some("SUCCEEDED") || taskStatus == Some("SUCCESS") then
              match ResultsUrl(output)
              case Some(url) => Done(url)
              case None => Continue
            else if taskStatus == Some("FAILED") || taskStatus == Some("FAIL") then
              Fail(BailianApi(TaskFailedPrefix + (if Has(output, "message") then AsText(output.fields["message"]) else DefaultTaskFailure)))
            else Continue
  }

  /** What polling from attempt `i` on yields, and after how many polls in all. */
  function PollFrom(taskId: string, poll: (string, nat) -> HttpReply, i: nat): (Result<string, Exception>, nat)
    requires i <= MaxAttempts
    decreases MaxAttempts - i
  {
    if i == MaxAttempts then (Err(BailianApi(TimeoutPrefix + taskId)), MaxAttempts)
    else match PollStep(poll(taskId, i))
      case Done(url) => (Ok(url), i + 1)
      case Fail(e) => (Err(e), i + 1)
      case Continue => PollFrom(taskId, poll, i + 1)
  }

  /** Polling stops at the first reply that is not "keep polling", after exactly that many
      polls, and never after more than 30; thirty replies that all keep polling end in the
      timeout error naming `taskId`. */
  lemma {:induction false} PollStopsAtFirstVerdict(taskId: string, poll: (string, nat) -> HttpReply, i: nat)
    requires i < MaxAttempts
    ensures var (r, n) := PollFrom(taskId, poll, i);
            i < n <= MaxAttempts &&
            (forall j :: i <= j < n - 1 ==> PollStep(poll(taskId, j)).Continue?) &&
            match PollStep(poll(taskId, n - 1))
            case Done(url) => r == Ok(url)
            case Fail(e) => r == Err(e)
            case Continue => n == MaxAttempts && r == Err(BailianApi(TimeoutPrefix + taskId))
    decreases MaxAttempts - i
  {
    if PollStep(poll(taskId, i)).Continue? && i + 1 < MaxAttempts {
      PollStopsAtFirstVerdict(taskId, poll, i + 1);
    }
  }

  /** The poll count equals the index of the first deciding reply plus one. */
  lemma FirstVerdictDecides(taskId: string, poll: (string, nat) -> HttpReply, k: nat)
    requires k < MaxAttempts && !PollStep(poll(taskId, k)).Continue?
    requires forall j :: 0 <= j < k ==> PollStep(poll(taskId, j)).Continue?
    ensures PollFrom(taskId, poll, 0).1 == k + 1
    ensures PollStep(poll(taskId, k)).Done? ==> PollFrom(taskId, poll, 0).0 == Ok(PollStep(poll(taskId, k)).url)
  {
    PollStopsAtFirstVerdict(taskId, poll, 0);
  }

  /** `pollTaskResult(taskId)`: at most 30 GETs of task `taskId`, stopping at the first reply
      that succeeds with a URL or fails. Returns the outcome and the number of polls. */
  method PollTaskResult(taskId: string, poll: (string, nat) -> HttpReply) returns (r: Result<string, Exception>, polls: nat)
    ensures (r, polls) == PollFrom(taskId, poll, 0)
  {
    polls := 0;
    for i := 0 to MaxAttempts
      invariant polls == i
      invariant PollFrom(taskId, poll, 0) == PollFrom(taskId, poll, i)
    {
      polls := i + 1;
      match PollStep(poll(taskId, i))
      case Done(url) => return Ok(url), polls;
      case Fail(e) => return Err(e), polls;
      case Continue =>
    }
    return Err(BailianApi(TimeoutPrefix + taskId)), polls;
  }

  // -------------------------------------------------------- the generation call

  /** What `callCartoonApi(imageUrl)` returns (the picture's URL, or null) or throws, and
      how many polls it made. */
  function ApiResult(services: Services, imageUrl: Option<string>): (Result<Option<string>, Exception>, nat)
  {
    match ReplyOutcome(services.post(imageUrl))
    case Err(e) => (Err(e), 0)
    case Ok(Async(taskId)) =>
      var (r, n) := PollFrom(taskId, services.poll, 0);
      (if r.Ok? then Ok(Some(r.value)) else Err(r.error), n)
    case Ok(Direct(url)) => (Ok(Some(url)), 0)
    case Ok(_) => (Ok(None), 0)
  }

  /** Every failure of the call is a BailianApiException, and it polls only for a task
      id, never more than 30 times. */
  lemma ApiResultBounds(services: Services, imageUrl: Option<string>)
    ensures var (r, n) := ApiResult(services, imageUrl);
            (r.Err? ==> r.error.BailianApi?) && n <= MaxAttempts &&
            (n > 0 <==> ReplyOutcome(services.post(imageUrl)).Ok? && ReplyOutcome(services.post(imageUrl)).value.Async?)
  {
    var o := ReplyOutcome(services.post(imageUrl));
    if o.Ok? && o.value.Async? {
      PollStopsAtFirstVerdict(o.value.taskId, services.poll, 0);
    }
  }

  /** `callCartoonApi(imageUrl)` and `callCartoonApiWithBase64(data)` (the latter posts
      the data URI as the image URL): one POST, then polling if the reply is a task. */
  method CallCartoonApi(services: Services, imageUrl: Option<string>) returns (r: Result<Option<string>, Exception>, polls: nat)
    ensures (r, polls) == ApiResult(services, imageUrl)
  {
    var outcome := ReplyOutcome(services.post(imageUrl));
    polls := 0;
    if outcome.Err? {
      return Err(outcome.error), polls;
    }
    match outcome.value
    case Async(taskId) =>
      var url;
      url, polls := PollTaskResult(taskId, services.poll);
      if url.Err? {
        return Err(url.error), polls;
      }
      return Ok(Some(url.value)), polls;
    case Direct(url) => return Ok(Some(url)), polls;
    case _ => return Ok(None), polls;
  }

  // ------------------------------------------------- download, save, enrich

  /** The download checks of `downloadAndSaveCartoonImage`: a malformed URL, an I/O
      failure, a status other than 200 and an empty body each throw before anything is
      saved. */
  function CheckDownload(imageUrl: string, d: Download): (r: Result<seq<byte>, Exception>)
    ensures r.Ok? <==> d.Fetched? && d.code == 200 && |d.bytes| > 0
    ensures r.Ok? ==> r.value == d.bytes
    ensures r.Err? ==> r.error.BailianApi?
  {
    match d
    case BadUrl => Err(BailianApi(InvalidUrlPrefix + imageUrl))
    case IoFailure(m) => Err(BailianApi(DownloadFailedPrefix + m))
    case Failure(m) => Err(BailianApi(SaveCartoonPrefix + m))
    case Fetched(code, bytes) =>
      if code != 200 then Err(BailianApi(DownloadStatusPrefix + IntToString(code)))
      else if |bytes| == 0 then Err(BailianApi(EmptyDownloadMessage))
      else Ok(bytes)
  }

  /** The best-effort part after the local save, as (r2ObjectKey, presignedUrl,
      qrCodeBase64): upload, then presign for the configured lifetime, then a 400x400 QR
      code of the presigned URL. A failure stops the chain and leaves the rest unset. */
  function Enrichment(services: Services, base64Data: string, objectKey: string): (r: (Option<string>, Option<string>, Option<string>))
    ensures r.0.Some? ==> r.0 == Some(objectKey)
    ensures r.1.Some? ==> r.0.Some?
    ensures r.2.Some? ==> r.1.Some? && StartsWith(r.2.value, QrPrefix)
  {
    if !UploadSucceeds(services.r2, services.put, base64Data, objectKey, Some(JpegContentType)) then (None, None, None)
    else match GetPresignedUrl(services.r2, services.presign, objectKey, services.r2.presignedUrlExpiration)
      case Err(_) => (Some(objectKey), None, None)
      case Ok(url) =>
        match services.qrPng(url, QrSize, QrSize)
        case Err(_) => (Some(objectKey), Some(url), None)
        case Ok(png) => (Some(objectKey), Some(url), Some(QrPrefix + Encode(png)))
  }

  /** For downloaded bytes: the object key is set exactly when the settings are complete
      and the store accepts those very bytes as image/jpeg under that key; the presigned
      URL is the presigner's answer for the configured lifetime; the QR code's payload
      decodes back to the PNG the encoder drew for that URL at 400x400. */
  lemma EnrichmentOfDownload(services: Services, bytes: seq<byte>, objectKey: string)
    ensures var (key, url, qr) := Enrichment(services, Encode(bytes), objectKey);
            var config := services.r2;
            (key.Some? <==> ValidateR2Configuration(config).Ok? &&
                            services.put(PutObjectRequest(config.bucketName.value, objectKey, JpegContentType, bytes)).Ok?) &&
            (url.Some? ==> ValidateR2Configuration(config).Ok? &&
                           url == Some(services.presign(PresignRequestFor(config, objectKey, config.presignedUrlExpiration)).value)) &&
            (qr.Some? ==> url.Some? && services.qrPng(url.value, QrSize, QrSize).Ok? &&
                          Decode(qr.value[|QrPrefix|..]) == Some(services.qrPng(url.value, QrSize, QrSize).value))
  {
    EncodeHasNoComma(bytes);
    DecodeEncode(bytes);
    var (key, url, qr) := Enrichment(services, Encode(bytes), objectKey);
    if qr.Some? {
      var png := services.qrPng(url.value, QrSize, QrSize).value;
      DecodeEncode(png);
      assert qr.value[|QrPrefix|..] == Encode(png);
    }
  }

  /** `downloadAndSaveCartoonImage(imageUrl)`: downloads the picture, saves it as
      `cartoon_{uuid}.jpeg` (mandatory), then fills the optional fields best effort. */
  method DownloadAndSave(services: Services, disk: Disk, imageUrl: string, draws: Draws)
    returns (r: Result<CartoonImageResult, Exception>)
    modifies disk
    ensures r.Err? ==> r.error.BailianApi?
    ensures CheckDownload(imageUrl, services.download(imageUrl)).Err? ==>
              r == Err(CheckDownload(imageUrl, services.download(imageUrl)).error) && unchanged(disk)
    ensures CheckDownload(imageUrl, services.download(imageUrl)).Ok? ==>
              var bytes := services.download(imageUrl).bytes;
              var fileName := CartoonFileName(draws.fileUuid);
              var (key, url, qr) := Enrichment(services, Encode(bytes), GenerateR2ObjectKey(draws.keyUuid, draws.millis));
              (r.Ok? <==> !disk.failing) &&
              (r.Err? ==> r.error == BailianApi(SaveCartoonPrefix + SaveFailedPrefix + IoErrorMessage) &&
                          disk.files == old(disk.files)) &&
              (r.Ok? ==> fresh(r.value) &&
                         disk.files == old(disk.files)[Resolve(UploadDir, fileName) := bytes] &&
                         r.value.Fields() == ResultFields(Some(GetImageUrl(fileName)), None, url, qr, key, |bytes|))
  {
    var imageBytes := CheckDownload(imageUrl, services.download(imageUrl));
    if imageBytes.Err? {
      return Err(imageBytes.error);
    }
    var fileName := CartoonFileName(draws.fileUuid);
    var base64Data := Encode(imageBytes.value);
    DecodeEncode(imageBytes.value);
    var saved := SaveBase64Image(disk, base64Data, fileName);
    if saved.Err? {
      return Err(BailianApi(SaveCartoonPrefix + saved.error.message));
    }
    var localUrl := GetImageUrl(fileName);
    var result := new CartoonImageResult();
    result.SetLocalUrl(Some(localUrl));
    result.SetFileSize(|imageBytes.value|);
    var objectKey := GenerateR2ObjectKey(draws.keyUuid, draws.millis);
    var info, sent := UploadFromBase64(services.r2, services.put, base64Data, objectKey, Some(JpegContentType));
    if info.Ok? {
      result.SetR2ObjectKey(Some(objectKey));
      var presignedUrl := GetPresignedUrl(services.r2, services.presign, objectKey, services.r2.presignedUrlExpiration);
      if presignedUrl.Ok? {
        result.SetPresignedUrl(Some(presignedUrl.value));
        var png := services.qrPng(presignedUrl.value, QrSize, QrSize);
        if png.Ok? {
          result.SetQrCodeBase64(Some(QrPrefix + Encode(png.value)));
        }
      }
    }
    return Ok(result);
  }

  // ------------------------------------------------------------ entry points

  /** The generation call produced a picture URL worth downloading: not null, not "". */
  predicate HasPictureUrl(api: Result<Option<string>, Exception>)
  {
    api.Ok? && api.value.Some? && api.value.value != []
  }

  /** A failure as an entry point passes it on: `generateCartoonImage` rethrows its
      BailianApiExceptions unchanged, `generateCartoonImageFromUrl` wraps every failure in
      one with the from-URL prefix. */
  function Rethrown(fromUrl: bool, e: Exception): Exception
  {
    if fromUrl then BailianApi(FromUrlPrefix + e.message) else e
  }

  /** How a generation ends once the API call gave `api`: the number of polls it made, a
      download exactly when it named a picture, a failure passed on, null without a
      picture, and otherwise what `downloadAndSaveCartoonImage` gives: a failed check or
      a failed save leaves the files alone; a good save writes the bytes to
      `cartoon_{uuid}.jpeg` and returns the local URL, the size and the enrichment.
      `files0`/`files1` are the files before and after, `failing` whether the disk fails. */
  predicate GenerationOutcome(services: Services, api: (Result<Option<string>, Exception>, nat),
                              files0: map<string, seq<byte>>, files1: map<string, seq<byte>>, failing: bool,
                              draws: Draws, fromUrl: bool,
                              r: Result<Option<CartoonImageResult>, Exception>, polls: nat, downloaded: bool)
    reads if r.Ok? && r.value.Some? then {r.value.value} else {}
  {
    polls == api.1 && polls <= MaxAttempts &&
    (downloaded <==> HasPictureUrl(api.0)) &&
    (api.0.Err? ==> r == Err(Rethrown(fromUrl, api.0.error)) && files1 == files0) &&
    (api.0.Ok? && !downloaded ==> r == Ok(None) && files1 == files0) &&
    (downloaded ==>
       var url := api.0.value.value;
       var check := CheckDownload(url, services.download(url));
       (check.Err? ==> r == Err(Rethrown(fromUrl, check.error)) && files1 == files0) &&
       (check.Ok? ==>
          var fileName := CartoonFileName(draws.fileUuid);
          var (key, presigned, qr) := Enrichment(services, Encode(check.value), GenerateR2ObjectKey(draws.keyUuid, draws.millis));
          (r.Ok? <==> !failing) &&
          (r.Err? ==> r == Err(Rethrown(fromUrl, BailianApi(SaveCartoonPrefix + SaveFailedPrefix + IoErrorMessage))) &&
                      files1 == files0) &&
          (r.Ok? ==> r.value.Some? && files1 == files0[Resolve(UploadDir, fileName) := check.value] &&
                     r.value.value.Fields() ==
                       ResultFields(Some(GetImageUrl(fileName)), None, presigned, qr, key, |check.value|))))
  }

  /** Wrapping the failure of an outcome of `generateCartoonImage` gives the outcome of
      `generateCartoonImageFromUrl`. */
  lemma RethrowFromUrl(services: Services, api: (Result<Option<string>, Exception>, nat),
                       files0: map<string, seq<byte>>, files1: map<string, seq<byte>>, failing: bool, draws: Draws,
                       r: Result<Option<CartoonImageResult>, Exception>, polls: nat, downloaded: bool)
    requires GenerationOutcome(services, api, files0, files1, failing, draws, false, r, polls, downloaded)
    ensures var wrapped := if r.Err? then Err(BailianApi(FromUrlPrefix + r.error.message)) else r;
            GenerationOutcome(services, api, files0, files1, failing, draws, true, wrapped, polls, downloaded)
  {
  }

  /** `generateCartoonImage(userImagePath)`: reads the photo, posts it as a JPEG data URI,
      and downloads and saves the cartoon when the API names one. Returns null (None)
      without downloading when it does not. */
  method GenerateCartoonImage(services: Services, disk: Disk, userImagePath: string, draws: Draws)
    returns (r: Result<Option<CartoonImageResult>, Exception>, polls: nat, downloaded: bool)
    modifies disk
    ensures r.Err? ==> r.error.BailianApi?
    ensures !downloaded ==> unchanged(disk)
    ensures r.Ok? && r.value.Some? ==> fresh(r.value.value)
    ensures userImagePath !in old(disk.files) ==>
              r == Err(BailianApi(GeneratePrefix + userImagePath)) && polls == 0 && !downloaded
    ensures userImagePath in old(disk.files) ==>
              GenerationOutcome(services, ApiResult(services, Some(DataUriJpegPrefix + Encode(old(disk.files[userImagePath])))),
                                old(disk.files), disk.files, disk.failing, draws, false, r, polls, downloaded)
  {
    polls, downloaded := 0, false;
    var imageBytes := disk.ReadAllBytes(userImagePath);
    if imageBytes.Err? {
      return Err(BailianApi(GeneratePrefix + imageBytes.error)), polls, downloaded;
    }
    var base64Image := Encode(imageBytes.value);
    var cartoonImageUrl;
    cartoonImageUrl, polls := CallCartoonApi(services, Some(DataUriJpegPrefix + base64Image));
    ApiResultBounds(services, Some(DataUriJpegPrefix + base64Image));
    if cartoonImageUrl.Err? {
      return Err(cartoonImageUrl.error), polls, downloaded;
    }
    if cartoonImageUrl.value.None? || cartoonImageUrl.value.value == [] {
      return Ok(None), polls, downloaded;
    }
    downloaded := true;
    var result := DownloadAndSave(services, disk, cartoonImageUrl.value.value, draws);
    if result.Err? {
      return Err(result.error), polls, downloaded;
    }
    return Ok(Some(result.value)), polls, downloaded;
  }

  /** Whether `generateCartoonImageFromUrl` takes the local route: a local URL that names
      an existing path of the upload directory. */
  predicate TakesLocalRoute(services: Services, disk: Disk, userImageUrl: Option<string>)
    reads disk
  {
    IsLocalUrl(userImageUrl) &&
    ExtractLocalPath(services.urlPath, userImageUrl.value).Some? &&
    disk.Exists(ExtractLocalPath(services.urlPath, userImageUrl.value).value)
  }

  /** `generateCartoonImageFromUrl(userImageUrl)`: a local URL whose file exists goes
      through `generateCartoonImage`; any other URL is posted as it is. Every failure,
      including those already wrapped, is rethrown with the from-URL prefix. */
  method GenerateCartoonImageFromUrl(services: Services, disk: Disk, userImageUrl: Option<string>, draws: Draws)
    returns (r: Result<Option<CartoonImageResult>, Exception>, polls: nat, downloaded: bool)
    modifies disk
    ensures r.Err? ==> r.error.BailianApi? && StartsWith(r.error.message, FromUrlPrefix)
    ensures polls <= MaxAttempts
    ensures !downloaded ==> unchanged(disk)
    ensures r.Ok? && r.value.Some? ==> fresh(r.value.value)
    ensures old(TakesLocalRoute(services, disk, userImageUrl)) &&
            ExtractLocalPath(services.urlPath, userImageUrl.value).value !in old(disk.files) ==>
              var path := ExtractLocalPath(services.urlPath, userImageUrl.value).value;
              r == Err(BailianApi(FromUrlPrefix + (GeneratePrefix + path))) && polls == 0 && !downloaded
    ensures old(TakesLocalRoute(services, disk, userImageUrl)) &&
            ExtractLocalPath(services.urlPath, userImageUrl.value).value in old(disk.files) ==>
              var path := ExtractLocalPath(services.urlPath, userImageUrl.value).value;
              GenerationOutcome(services, ApiResult(services, Some(DataUriJpegPrefix + Encode(old(disk.files[path])))),
                                old(disk.files), disk.files, disk.failing, draws, true, r, polls, downloaded)
    ensures !old(TakesLocalRoute(services, disk, userImageUrl)) ==>
              GenerationOutcome(services, ApiResult(services, userImageUrl),
                                old(disk.files), disk.files, disk.failing, draws, true, r, polls, downloaded)
  {
    if IsLocalUrl(userImageUrl) {
      var localImagePath := ExtractLocalPath(services.urlPath, userImageUrl.value);
      if localImagePath.Some? && disk.Exists(localImagePath.value) {
        ghost var files0 := disk.files;
        r, polls, downloaded := GenerateCartoonImage(services, disk, localImagePath.value, draws);
        if localImagePath.value in files0 {
          RethrowFromUrl(services, ApiResult(services, Some(DataUriJpegPrefix + Encode(files0[localImagePath.value]))),
                         files0, disk.files, disk.failing, draws, r, polls, downloaded);
        }
        if r.Err? {
          r := Err(BailianApi(FromUrlPrefix + r.error.message));
        }
        return;
      }
    }
    downloaded := false;
    var cartoonImageUrl;
    cartoonImageUrl, polls := CallCartoonApi(services, userImageUrl);
    ApiResultBounds(services, userImageUrl);
    if cartoonImageUrl.Err? {
      return Err(BailianApi(FromUrlPrefix + cartoonImageUrl.error.message)), polls, downloaded;
    }
    if cartoonImageUrl.value.None? || cartoonImageUrl.value.value == [] {
      return Ok(None), polls, downloaded;
    }
    downloaded := true;
    var result := DownloadAndSave(services, disk, cartoonImageUrl.value.value, draws);
    if result.Err? {
      return Err(BailianApi(FromUrlPrefix + result.error.message)), polls, downloaded;
    }
    return Ok(Some(result.value)), polls, downloaded;
  }
}
