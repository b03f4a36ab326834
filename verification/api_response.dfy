/** `webcam.controller.ApiResponse`: the uniform response body. `result` is "1" for
    success and "0" for failure; the error fields are set only on failure. The payload
    `msg` is held as the JSON it is written as (a map, or a plain message string), and
    `LocalDateTime.now()` is an input in milliseconds. */
module ApiResponses {
  import opened Support
  import opened Json

  const SuccessResult: string := "1"
  const FailureResult: string := "0"

  /** Spring's `ResponseEntity`: status, headers and body. */
  datatype ResponseEntity<B> = ResponseEntity(status: int, headers: map<string, string>, body: B)

  /** All fields of a response at once. */
  datatype ResponseFields = ResponseFields(
    result: Option<string>,
    msg: Option<Json>,
    timestamp: int,
    processingTime: Option<int>,
    errorCode: Option<string>,
    errorDetail: Option<string>,
    requestId: Option<string>)

  /** `ChronoUnit.MILLIS.between(startTime, timestamp)` when a start time is given. */
  function ElapsedSince(startTime: Option<int>, timestamp: int): (r: Option<int>)
    ensures r.Some? <==> startTime.Some?
    ensures r.Some? ==> startTime.value + r.value == timestamp
  {
    if startTime.Some? then Some(timestamp - startTime.value) else None
  }

  class ApiResponse {
    var result: Option<string>
    var msg: Option<Json>
    var timestamp: int
    var processingTime: Option<int>
    var errorCode: Option<string>
    var errorDetail: Option<string>
    var requestId: Option<string>

    function Fields(): ResponseFields
      reads this
    {
      ResponseFields(result, msg, timestamp, processingTime, errorCode, errorDetail, requestId)
    }

    /** `ApiResponse()`: only the timestamp is set. */
    constructor (now: int)
      ensures Fields() == ResponseFields(None, None, now, None, None, None, None)
    {
      timestamp := now;
      result, msg, processingTime := None, None, None;
      errorCode, errorDetail, requestId := None, None, None;
    }

    /** `ApiResponse(data)`: a success carrying `data`. */
    constructor Success(data: Option<Json>, now: int)
      ensures Fields() == ResponseFields(Some(SuccessResult), data, now, None, None, None, None)
    {
      timestamp := now;
      result, msg, processingTime := Some(SuccessResult), data, None;
      errorCode, errorDetail, requestId := None, None, None;
    }

    /** `ApiResponse(data, startTime)`: a success that also records the milliseconds from
        `startTime` to its own timestamp, when a start time is given. */
    constructor Timed(data: Option<Json>, startTime: Option<int>, now: int)
      ensures Fields() == ResponseFields(Some(SuccessResult), data, now, ElapsedSince(startTime, now), None, None, None)
    {
      timestamp := now;
      result, msg := Some(SuccessResult), data;
      processingTime := if startTime.Some? then Some(now - startTime.value) else None;
      errorCode, errorDetail, requestId := None, None, None;
    }

    /** `ApiResponse(errorCode, errorDetail)`: a failure with both error fields and no msg. */
    constructor Failure(errorCode: Option<string>, errorDetail: Option<string>, now: int)
      ensures Fields() == ResponseFields(Some(FailureResult), None, now, None, errorCode, errorDetail, None)
    {
      timestamp := now;
      result, msg, processingTime := Some(FailureResult), None, None;
      this.errorCode, this.errorDetail, requestId := errorCode, errorDetail, None;
    }

    /** `ApiResponse.success(data)` */
    static method SuccessOf(data: Option<Json>, now: int) returns (r: ApiResponse)
      ensures fresh(r)
      ensures r.Fields() == ResponseFields(Some(SuccessResult), data, now, None, None, None, None)
    {
      r := new ApiResponse.Success(data, now);
    }

    /** `ApiResponse.success(data, startTime)` */
    static method TimedSuccessOf(data: Option<Json>, startTime: Option<int>, now: int) returns (r: ApiResponse)
      ensures fresh(r)
      ensures r.Fields() == ResponseFields(Some(SuccessResult), data, now, ElapsedSince(startTime, now), None, None, None)
    {
      r := new ApiResponse.Timed(data, startTime, now);
    }

    /** `ApiResponse.error(errorCode, errorDetail)` */
    static method ErrorOf(errorCode: Option<string>, errorDetail: Option<string>, now: int) returns (r: ApiResponse)
      ensures fresh(r)
      ensures r.Fields() == ResponseFields(Some(FailureResult), None, now, None, errorCode, errorDetail, None)
    {
      r := new ApiResponse.Failure(errorCode, errorDetail, now);
    }

    /** `ApiResponse.error(errorMessage)`: the old format, a failure whose msg is the message
        itself and whose error fields stay absent. */
    static method ErrorMessageOf(errorMessage: Option<string>, now: int) returns (r: ApiResponse)
      ensures fresh(r)
      ensures r.Fields() == ResponseFields(Some(FailureResult), if errorMessage.Some? then Some(JStr(errorMessage.value)) else None,
                                           now, None, None, None, None)
    {
      r := new ApiResponse(now);
      r.result := Some(FailureResult);
      r.msg := if errorMessage.Some? then Some(JStr(errorMessage.value)) else None;
    }

    method SetResult(result: Option<string>)
      modifies this`result
      ensures Fields() == old(Fields()).(result := result)
    {
      this.result := result;
    }

    method SetMsg(msg: Option<Json>)
      modifies this`msg
      ensures Fields() == old(Fields()).(msg := msg)
    {
      this.msg := msg;
    }

    method SetTimestamp(timestamp: int)
      modifies this`timestamp
      ensures Fields() == old(Fields()).(timestamp := timestamp)
    {
      this.timestamp := timestamp;
    }

    method SetProcessingTime(processingTime: Option<int>)
      modifies this`processingTime
      ensures Fields() == old(Fields()).(processingTime := processingTime)
    {
      this.processingTime := processingTime;
    }

    method SetErrorCode(errorCode: Option<string>)
      modifies this`errorCode
      ensures Fields() == old(Fields()).(errorCode := errorCode)
    {
      this.errorCode := errorCode;
    }

    method SetErrorDetail(errorDetail: Option<string>)
      modifies this`errorDetail
      ensures Fields() == old(Fields()).(errorDetail := errorDetail)
    {
      this.errorDetail := errorDetail;
    }

    method SetRequestId(requestId: Option<string>)
      modifies this`requestId
      ensures Fields() == old(Fields()).(requestId := requestId)
    {
      this.requestId := requestId;
    }
  }
}
