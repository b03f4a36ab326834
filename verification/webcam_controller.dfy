/** `webcam.controller.WebcamController`: the upload endpoint. It validates the posted
    image, saves it under a fresh name, runs face detection on the saved file and answers
    with the detected attributes plus the image's URL. The face detector (the
    `FaceRecognitionService` interface), the two UUIDs and the clock are inputs. */
module WebcamController {
  import opened Support
  import opened Json
  import opened Exceptions
  import opened Base64
  import opened FileSystem
  import opened ImageStorage
  import opened ApiResponses

  const JpegSuffix: string := ".jpeg"

  /** The per-request inputs: the request id, the UUID that names the saved file, the
      time the request started and the time the response is built (milliseconds). */
  datatype RequestDraws = RequestDraws(requestId: string, fileUuid: string, startTime: int, now: int)

  /** `UUID.randomUUID() + ".jpeg"` */
  function SavedFileName(uuid: string): (r: string)
    ensures StartsWith(r, uuid) && EndsWith(r, JpegSuffix) && |r| == |uuid| + |JpegSuffix|
  {
    var r := uuid + JpegSuffix;
    assert r[|r| - |JpegSuffix|..] == JpegSuffix;
    r
  }

  /** The response's msg: a copy of what the detector found (an empty map for null) with
      `img` set to the saved image's URL. Never empty, so the "no face" branch that tests
      it for emptiness cannot be taken. */
  function ResponseMsg(detected: Option<map<string, Json>>, fileName: string): (r: map<string, Json>)
    ensures r.Keys == (if detected.Some? then detected.value.Keys else {}) + {"img"}
    ensures r["img"] == JStr(GetImageUrl(fileName))
    ensures detected.Some? ==> forall k :: k in detected.value && k != "img" ==> r[k] == detected.value[k]
    ensures |r| > 0
  {
    var faceAttributes := if detected.None? then map[] else detected.value;
    var r := faceAttributes["img" := JStr(GetImageUrl(fileName))];
    assert "img" in r;
    r
  }

  /** The posted image passes validation. */
  predicate Valid(imageData: string)
  {
    ValidateImageData(Some(imageData)).Ok?
  }

  /** The Base64 payload of the posted image. */
  function Payload(imageData: string): string
  {
    ExtractBase64Data(Some(imageData)).value
  }

  /** Saving the payload succeeds on a disk that does not fail. */
  predicate Saved(failing: bool, imageData: string)
  {
    !failing && Decode(Payload(imageData)).Some?
  }

  /** Where the image named by `uuid` is saved. */
  function SavedPath(uuid: string): string
  {
    Resolve(UploadDir, SavedFileName(uuid))
  }

  /** The fixed headers of the success reply. */
  function ReplyHeaders(requestId: string, processingTime: Option<int>): map<string, string>
  {
    map["X-Request-Id" := requestId,
        "X-Processing-Time" := if processingTime.Some? then IntToString(processingTime.value) else "null",
        "Pragma" := "No-cache",
        "Cache-Control" := "no-cache, no-store, must-revalidate",
        "Expires" := "0"]
  }

  const NoFaceCode: string := "NO_FACE_DETECTED"
  const NoFaceDetail: string := "未检测到人脸，请确保照片中有人脸且清晰可见"

  /** The reply `processImage` builds from the attributes: a timed success stamped with
      the request id, turned into a NO_FACE_DETECTED failure when the attributes are
      empty, under the fixed headers and status 200 either way. */
  method SuccessReply(faceAttributes: map<string, Json>, draws: RequestDraws) returns (reply: ResponseEntity<ApiResponse>)
    ensures fresh(reply.body) && reply.status == 200
    ensures reply.headers == ReplyHeaders(draws.requestId, Some(draws.now - draws.startTime))
    ensures |faceAttributes| > 0 ==>
              reply.body.Fields() ==
                ResponseFields(Some(SuccessResult), Some(JObj(faceAttributes)), draws.now, Some(draws.now - draws.startTime),
                               None, None, Some(draws.requestId))
    ensures |faceAttributes| == 0 ==>
              reply.body.Fields() ==
                ResponseFields(Some(FailureResult), None, draws.now, Some(draws.now - draws.startTime),
                               Some(NoFaceCode), Some(NoFaceDetail), Some(draws.requestId))
  {
    var response := ApiResponse.TimedSuccessOf(Some(JObj(faceAttributes)), Some(draws.startTime), draws.now);
    response.SetRequestId(Some(draws.requestId));
    if |faceAttributes| == 0 {
      response.SetResult(Some(FailureResult));
      response.SetMsg(None);
      response.SetErrorCode(Some(NoFaceCode));
      response.SetErrorDetail(Some(NoFaceDetail));
    }
    reply := ResponseEntity(200, ReplyHeaders(draws.requestId, response.processingTime), response);
  }

  /** `processImage(imageData)`. Every exception a step throws is rethrown unchanged:
      invalid input before anything is saved, a decode or I/O failure from saving, and
      whatever the detector throws. */
  method ProcessImage(imageData: string, disk: Disk, detect: string -> Result<Option<map<string, Json>>, Exception>,
                      draws: RequestDraws)
    returns (r: Result<ResponseEntity<ApiResponse>, Exception>)
    modifies disk
    ensures ValidateImageData(Some(imageData)).Err? ==>
              r == Err(ValidateImageData(Some(imageData)).error) &&
              disk.files == old(disk.files) && disk.dirs == old(disk.dirs)
    ensures Valid(imageData) && !Saved(disk.failing, imageData) ==>
              disk.files == old(disk.files) &&
              r == Err(if Decode(Payload(imageData)).None? && (old(disk.Exists(UploadDir)) || !disk.failing)
                       then ImageProcessing(DecodeFailedMessage)
                       else FileStorage(SaveFailedPrefix + IoErrorMessage))
    ensures Valid(imageData) && Saved(disk.failing, imageData) ==>
              disk.files == old(disk.files)[SavedPath(draws.fileUuid) := Decode(Payload(imageData)).value]
    ensures Valid(imageData) && Saved(disk.failing, imageData) && detect(SavedPath(draws.fileUuid)).Err? ==>
              r == Err(detect(SavedPath(draws.fileUuid)).error)
    ensures Valid(imageData) && Saved(disk.failing, imageData) && detect(SavedPath(draws.fileUuid)).Ok? ==>
              r.Ok? && fresh(r.value.body) && r.value.status == 200 &&
              r.value.headers == ReplyHeaders(draws.requestId, Some(draws.now - draws.startTime))
    ensures Valid(imageData) && Saved(disk.failing, imageData) && detect(SavedPath(draws.fileUuid)).Ok? && r.Ok? ==>
              r.value.body.Fields() ==
                ResponseFields(Some(SuccessResult),
                               Some(JObj(ResponseMsg(detect(SavedPath(draws.fileUuid)).value, SavedFileName(draws.fileUuid)))),
                               draws.now, Some(draws.now - draws.startTime), None, None, Some(draws.requestId))
  {
    var startTime := draws.startTime;
    var requestId := draws.requestId;
    var valid := ValidateImageData(Some(imageData));
    if valid.Err? {
      return Err(valid.error);
    }
    var base64Data := ExtractBase64Data(Some(imageData)).value;
    var fileName := SavedFileName(draws.fileUuid);
    var filePath := SaveBase64Image(disk, base64Data, fileName);
    if filePath.Err? {
      return Err(filePath.error);
    }
    var detected := detect(filePath.value);
    if detected.Err? {
      return Err(detected.error);
    }
    var faceAttributes := ResponseMsg(detected.value, fileName);
    var reply := SuccessReply(faceAttributes, draws);
    r := Ok(reply);
  }
}
