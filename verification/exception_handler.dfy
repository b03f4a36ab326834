/** `webcam.exception.GlobalExceptionHandler`: turns an exception escaping a controller
    into an error reply. Spring picks the handler of the exception's kind; the six handlers
    differ only in status, error code, error detail and the text under `msg.error`, which
    are tabulated here. The request id and the two clock readings are inputs. */
module ExceptionHandler {
  import opened Support
  import opened Json
  import opened Exceptions
  import opened ApiResponses

  const BadRequest: int := 400
  const InternalServerError: int := 500
  const ServiceUnavailable: int := 503

  const ImageProcessingPrefix: string := "图像处理失败: "
  const FaceApiPrefix: string := "人脸识别服务调用失败: "
  const FileStoragePrefix: string := "文件保存失败: "
  const InvalidParameterPrefix: string := "参数错误: "
  const FileSizeExceededDetail: string := "上传文件大小超过限制，请选择较小的图片（建议小于10MB）"
  const SystemErrorPrefix: string := "系统错误，请稍后重试。如问题持续存在，请联系技术支持并提供RequestId: "
  const SystemErrorMessage: string := "系统错误，请稍后重试"

  /** The exception kinds with a handler of their own; every other kind (BailianApiException
      among them) reaches the catch-all handler. */
  predicate HasOwnHandler(e: Exception)
  {
    e.ImageProcessing? || e.FacePlusPlusApi? || e.FileStorage? || e.MaxUploadSizeExceeded? || e.IllegalArgument?
  }

  /** The HTTP status and error code of each handler. */
  function Classify(e: Exception): (r: (int, string))
    ensures r.0 in {BadRequest, InternalServerError, ServiceUnavailable}
    ensures r.0 == BadRequest <==> e.ImageProcessing? || e.MaxUploadSizeExceeded? || e.IllegalArgument?
    ensures r.0 == ServiceUnavailable <==> e.FacePlusPlusApi?
    ensures !HasOwnHandler(e) ==> r == (InternalServerError, "INTERNAL_SERVER_ERROR")
  {
    match e
    case ImageProcessing(_) => (BadRequest, "IMAGE_PROCESSING_ERROR")
    case FacePlusPlusApi(_) => (ServiceUnavailable, "FACE_API_ERROR")
    case FileStorage(_) => (InternalServerError, "FILE_STORAGE_ERROR")
    case MaxUploadSizeExceeded(_) => (BadRequest, "FILE_SIZE_EXCEEDED")
    case IllegalArgument(_) => (BadRequest, "INVALID_PARAMETER")
    case BailianApi(_) => (InternalServerError, "INTERNAL_SERVER_ERROR")
    case Other(_) => (InternalServerError, "INTERNAL_SERVER_ERROR")
  }

  /** Each handler has a code of its own, and the code alone tells the status: a client
      can read the status back from the X-Error-Code header. */
  lemma CodeDeterminesHandler(e1: Exception, e2: Exception)
    requires Classify(e1).1 == Classify(e2).1
    ensures Classify(e1).0 == Classify(e2).0
    ensures HasOwnHandler(e1) <==> HasOwnHandler(e2)
    ensures HasOwnHandler(e1) ==> e1.ImageProcessing? == e2.ImageProcessing? && e1.FacePlusPlusApi? == e2.FacePlusPlusApi? &&
                                  e1.FileStorage? == e2.FileStorage? && e1.IllegalArgument? == e2.IllegalArgument?
  {
    var c1, c2 := Classify(e1).1, Classify(e2).1;
    assert |"IMAGE_PROCESSING_ERROR"| == 22 && |"FACE_API_ERROR"| == 14 && |"FILE_STORAGE_ERROR"| == 18;
    assert |"FILE_SIZE_EXCEEDED"| == 18 && |"INVALID_PARAMETER"| == 17 && |"INTERNAL_SERVER_ERROR"| == 21;
    assert "FILE_STORAGE_ERROR"[6] != "FILE_SIZE_EXCEEDED"[6];
  }

  /** The error detail: a fixed prefix and the exception's message for the specific
      handlers, a fixed text for an oversized upload, and for the catch-all a fixed text
      naming the request id (the message itself is not disclosed). */
  function Detail(e: Exception, requestId: string): (r: string)
    ensures HasOwnHandler(e) && !e.MaxUploadSizeExceeded? ==> EndsWith(r, e.message)
    ensures e.MaxUploadSizeExceeded? ==> r == FileSizeExceededDetail
    ensures !HasOwnHandler(e) ==> StartsWith(r, SystemErrorPrefix) && EndsWith(r, requestId)
  {
    var r := match e
      case ImageProcessing(m) => ImageProcessingPrefix + m
      case FacePlusPlusApi(m) => FaceApiPrefix + m
      case FileStorage(m) => FileStoragePrefix + m
      case MaxUploadSizeExceeded(_) => FileSizeExceededDetail
      case IllegalArgument(m) => InvalidParameterPrefix + m
      case BailianApi(_) => SystemErrorPrefix + requestId
      case Other(_) => SystemErrorPrefix + requestId;
    assert HasOwnHandler(e) && !e.MaxUploadSizeExceeded? ==> r[|r| - |e.message|..] == e.message;
    assert !HasOwnHandler(e) ==> r[..|SystemErrorPrefix|] == SystemErrorPrefix && r[|r| - |requestId|..] == requestId;
    r
  }

  /** The text put under `msg.error`: the detail itself, except that the catch-all puts a
      shorter fixed text. */
  function MsgError(e: Exception, requestId: string): (r: string)
    ensures HasOwnHandler(e) ==> r == Detail(e, requestId)
    ensures !HasOwnHandler(e) ==> r == SystemErrorMessage
  {
    if HasOwnHandler(e) then Detail(e, requestId) else SystemErrorMessage
  }

  /** The catch-all reply never depends on the exception's message: two unexpected
      exceptions of any text give the same detail and msg. */
  lemma CatchAllHidesMessage(e1: Exception, e2: Exception, requestId: string)
    requires !HasOwnHandler(e1) && !HasOwnHandler(e2)
    ensures Detail(e1, requestId) == Detail(e2, requestId) && MsgError(e1, requestId) == MsgError(e2, requestId)
    ensures Classify(e1) == Classify(e2)
  {
  }

  /** The handler Spring picks for `e`. `created` is the time `ApiResponse.error` reads the
      clock, `now` the time the handler resets the timestamp. */
  method Handle(e: Exception, requestId: string, created: int, now: int) returns (reply: ResponseEntity<ApiResponse>)
    ensures fresh(reply.body)
    ensures reply.status == Classify(e).0
    ensures reply.headers == map["X-Request-Id" := requestId, "X-Error-Code" := Classify(e).1]
    ensures reply.body.Fields() ==
              ResponseFields(Some(FailureResult), Some(JObj(map["error" := JStr(MsgError(e, requestId))])), now, None,
                             Some(Classify(e).1), Some(Detail(e, requestId)), Some(requestId))
  {
    var (status, code) := Classify(e);
    var response := ApiResponse.ErrorOf(Some(code), Some(Detail(e, requestId)), created);
    response.SetRequestId(Some(requestId));
    response.SetTimestamp(now);
    var errorMsg: map<string, Json> := map[];
    if HasOwnHandler(e) {
      errorMsg := errorMsg["error" := JStr(response.errorDetail.value)];
    } else {
      errorMsg := errorMsg["error" := JStr(SystemErrorMessage)];
    }
    response.SetMsg(Some(JObj(errorMsg)));
    reply := ResponseEntity(status, map["X-Request-Id" := requestId, "X-Error-Code" := response.errorCode.value], response);
  }
}
