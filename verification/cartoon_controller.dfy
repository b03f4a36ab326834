/** `webcam.controller.CartoonImageController`: the two cartoon endpoints. Each answers
    with a map holding `success`, `requestId` and either `data` or `error`: 400 for a
    missing argument, 500 when the service gives no result or throws, 200 otherwise. The
    request id is an input. */
module CartoonController {
  import opened Support
  import opened Json
  import opened Exceptions
  import opened FileSystem
  import opened Dto
  import opened ApiResponses
  import CartoonService

  const ImageUrlRequired: string := "imageUrl参数不能为空"
  const FilePathRequired: string := "filePath参数不能为空"
  const NoSuchFilePrefix: string := "指定的文件不存在: "
  const GenerationFailed: string := "生成卡通图片失败"
  const GenerationErrorPrefix: string := "生成卡通图片时发生错误: "

  /** The five keys of `data`. */
  const DataKeys: set<string> := {"localUrl", "r2ObjectKey", "presignedUrl", "qrCodeBase64", "fileSize"}

  /** A possibly-null string as the JSON it is written as. */
  function Nullable(s: Option<string>): (j: Json)
    ensures s.None? <==> j == JNull
    ensures s.Some? ==> j == JStr(s.value)
  {
    if s.Some? then JStr(s.value) else JNull
  }

  /** The `data` map of a success: exactly the five keys, even where a value is null, each
      holding its field of the result; the R2 public URL is not among them. */
  function ResultData(fields: ResultFields): (data: map<string, Json>)
    ensures data.Keys == DataKeys
    ensures data["localUrl"] == Nullable(fields.localUrl) && data["r2ObjectKey"] == Nullable(fields.r2ObjectKey)
    ensures data["presignedUrl"] == Nullable(fields.presignedUrl) && data["qrCodeBase64"] == Nullable(fields.qrCodeBase64)
    ensures data["fileSize"].JNum? && data["fileSize"].value == fields.fileSize as real
  {
    map["localUrl" := Nullable(fields.localUrl),
        "r2ObjectKey" := Nullable(fields.r2ObjectKey),
        "presignedUrl" := Nullable(fields.presignedUrl),
        "qrCodeBase64" := Nullable(fields.qrCodeBase64),
        "fileSize" := IntNode(fields.fileSize)]
  }

  /** A failure body: `success` false, the error text and the request id. */
  function FailureBody(error: string, requestId: string): (body: map<string, Json>)
    ensures body.Keys == {"success", "error", "requestId"}
    ensures body["success"] == JBool(false) && body["error"] == JStr(error) && body["requestId"] == JStr(requestId)
  {
    map["success" := JBool(false), "error" := JStr(error), "requestId" := JStr(requestId)]
  }

  /** A success body: `success` true, the data map and the request id. */
  function SuccessBody(fields: ResultFields, requestId: string): (body: map<string, Json>)
    ensures body.Keys == {"success", "data", "requestId"}
    ensures body["success"] == JBool(true) && body["data"] == JObj(ResultData(fields)) && body["requestId"] == JStr(requestId)
  {
    map["success" := JBool(true), "data" := JObj(ResultData(fields)), "requestId" := JStr(requestId)]
  }

  /** The reply to what the service did: a thrown exception and a null result are 500s
      with their error text, a result is a 200 with its data. */
  predicate Answers(reply: ResponseEntity<map<string, Json>>, outcome: Result<Option<CartoonImageResult>, Exception>, requestId: string)
    reads if outcome.Ok? && outcome.value.Some? then {outcome.value.value} else {}
  {
    match outcome
    case Err(e) => reply == ResponseEntity(500, map[], FailureBody(GenerationErrorPrefix + e.message, requestId))
    case Ok(None) => reply == ResponseEntity(500, map[], FailureBody(GenerationFailed, requestId))
    case Ok(Some(result)) => reply == ResponseEntity(200, map[], SuccessBody(result.Fields(), requestId))
  }

  /** Every reply carries the request id, and `success` is true exactly for a 200. */
  lemma RepliesCarryRequestId(reply: ResponseEntity<map<string, Json>>, outcome: Result<Option<CartoonImageResult>, Exception>, requestId: string)
    requires Answers(reply, outcome, requestId)
    ensures "requestId" in reply.body && reply.body["requestId"] == JStr(requestId)
    ensures reply.body["success"] == JBool(reply.status == 200)
    ensures reply.status == 200 <==> outcome.Ok? && outcome.value.Some?
  {
  }

  /** The body of a 500 or 400 in the order the handler puts its entries. */
  method PutFailure(error: string, requestId: string) returns (response: map<string, Json>)
    ensures response == FailureBody(error, requestId)
  {
    response := map[];
    response := response["success" := JBool(false)];
    response := response["error" := JStr(error)];
    response := response["requestId" := JStr(requestId)];
  }

  /** What the service's outcome is answered with. */
  method Answer(outcome: Result<Option<CartoonImageResult>, Exception>, requestId: string)
    returns (reply: ResponseEntity<map<string, Json>>)
    ensures Answers(reply, outcome, requestId)
  {
    if outcome.Err? {
      var response := PutFailure(GenerationErrorPrefix + outcome.error.message, requestId);
      return ResponseEntity(500, map[], response);
    }
    var result := outcome.value;
    if result.None? {
      var response := PutFailure(GenerationFailed, requestId);
      return ResponseEntity(500, map[], response);
    }
    var response: map<string, Json> := map[];
    response := response["success" := JBool(true)];
    response := response["data" := JObj(ResultData(result.value.Fields()))];
    response := response["requestId" := JStr(requestId)];
    return ResponseEntity(200, map[], response);
  }

  /** `generateCartoonImage(imageUrl)` (POST /api/cartoon/generate). `outcome` is what the
      service returned or threw, None when it was not called. */
  method GenerateCartoonImage(services: CartoonService.Services, disk: Disk, imageUrl: Option<string>,
                              requestId: string, draws: CartoonService.Draws)
    returns (reply: ResponseEntity<map<string, Json>>, outcome: Option<Result<Option<CartoonImageResult>, Exception>>)
    modifies disk
    ensures imageUrl.None? || imageUrl.value == [] ==>
              reply == ResponseEntity(400, map[], FailureBody(ImageUrlRequired, requestId)) &&
              outcome.None? && unchanged(disk)
    ensures imageUrl.Some? && imageUrl.value != [] ==> outcome.Some? && Answers(reply, outcome.value, requestId)
  {
    if imageUrl.None? || imageUrl.value == [] {
      var response := PutFailure(ImageUrlRequired, requestId);
      return ResponseEntity(400, map[], response), None;
    }
    var result, _, _ := CartoonService.GenerateCartoonImageFromUrl(services, disk, imageUrl, draws);
    outcome := Some(result);
    reply := Answer(result, requestId);
  }

  /** `generateCartoonImageFromFile(filePath)` (POST /api/cartoon/generate-from-file). An
      empty path or one that does not exist is refused before the service is called. */
  method GenerateCartoonImageFromFile(services: CartoonService.Services, disk: Disk, filePath: Option<string>,
                                      requestId: string, draws: CartoonService.Draws)
    returns (reply: ResponseEntity<map<string, Json>>, outcome: Option<Result<Option<CartoonImageResult>, Exception>>)
    modifies disk
    ensures filePath.None? || filePath.value == [] ==>
              reply == ResponseEntity(400, map[], FailureBody(FilePathRequired, requestId)) &&
              outcome.None? && unchanged(disk)
    ensures filePath.Some? && filePath.value != [] && !old(disk.Exists(filePath.value)) ==>
              reply == ResponseEntity(400, map[], FailureBody(NoSuchFilePrefix + filePath.value, requestId)) &&
              outcome.None? && unchanged(disk)
    ensures filePath.Some? && filePath.value != [] && old(disk.Exists(filePath.value)) ==>
              outcome.Some? && Answers(reply, outcome.value, requestId)
  {
    if filePath.None? || filePath.value == [] {
      var response := PutFailure(FilePathRequired, requestId);
      return ResponseEntity(400, map[], response), None;
    }
    var path := filePath.value;
    if !disk.Exists(path) {
      var response := PutFailure(NoSuchFilePrefix + filePath.value, requestId);
      return ResponseEntity(400, map[], response), None;
    }
    var result, _, _ := CartoonService.GenerateCartoonImage(services, disk, path, draws);
    outcome := Some(result);
    reply := Answer(result, requestId);
  }
}
