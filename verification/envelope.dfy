/**
 * The standard response envelope of the REST handlers: a success body
 * carrying the data, and an error body that, for server errors only,
 * carries a fresh request id under which it asks for the error to be
 * logged.
 * `now` stands for the ISO time stamp and `newId` for the generated id.
 */
module ResponseEnvelope {
  import opened Values

  datatype Outcome = SuccessStatus | ErrorStatus

  /** `StandardResponse`: an absent `data` or `requestId` is left out of the JSON. */
  datatype Envelope = Envelope(
    status: Outcome,
    message: string,
    data: Option<Json>,
    requestId: Option<string>,
    timestamp: Millis)

  type Millis = int

  /** The error-log record the error path asks the logger to write, keyed by its request id. */
  datatype ErrorLog = ErrorLog(requestId: string, message: string)

  /** What a handler sends: the HTTP status and the envelope, plus the log record it requests. */
  datatype Reply = Reply(httpStatus: int, body: Envelope, log: Option<ErrorLog>)

  const DefaultMessage := "Success"
  const DefaultErrorStatus := 400

  /**
   * `ResponseUtil.success`: status 200, the `success` status, the message
   * (`"Success"` when none is given), the data as given, and no request id.
   */
  function Success(data: Option<Json>, message: Option<string>, now: Millis): (r: Reply)
    ensures r.httpStatus == 200 && r.body.status == SuccessStatus
    ensures r.body.data == data
    ensures r.body.message == message.GetOr(DefaultMessage)
    ensures r.body.requestId.None? && r.log.None?
  {
    Reply(200, Envelope(SuccessStatus, message.GetOr(DefaultMessage), data, None, now), None)
  }

  /**
   * `ResponseUtil.error`: the `error` status with the message and no data,
   * HTTP status 400 unless one is given; a server error gets a fresh request
   * id in the body and an error-log record under the same id.
   */
  function Error(message: string, httpStatus: Option<int>, isServerError: Option<bool>, newId: string, now: Millis): (r: Reply)
    ensures r.httpStatus == httpStatus.GetOr(DefaultErrorStatus)
    ensures r.body.status == ErrorStatus && r.body.message == message && r.body.data.None?
    ensures r.body.requestId.Some? <==> isServerError == Some(true)
    ensures r.body.requestId.Some? ==> r.body.requestId.value == newId
  {
    var server := isServerError.GetOr(false);
    var requestId := if server then Some(newId) else None;
    var log := if server then Some(ErrorLog(newId, message)) else None;
    Reply(httpStatus.GetOr(DefaultErrorStatus), Envelope(ErrorStatus, message, None, requestId, now), log)
  }

  /**
   * The reply and the error log it asks for agree: the reply carries a
   * request id exactly when it asks for an `ErrorLog`, under that id and
   * with the reply's message. Whether the log is then written is outside
   * the reply.
   */
  predicate Traceable(r: Reply)
  {
    && (r.body.requestId.Some? <==> r.log.Some?)
    && (r.log.Some? ==> r.log.value.requestId == r.body.requestId.value && r.log.value.message == r.body.message)
  }

  /** Every reply either helper builds is traceable, and only server-error replies ask for a log. */
  lemma RepliesTraceable(data: Option<Json>, message: Option<string>, text: string, httpStatus: Option<int>,
                         isServerError: Option<bool>, newId: string, now: Millis)
    ensures Traceable(Success(data, message, now))
    ensures Traceable(Error(text, httpStatus, isServerError, newId, now))
    ensures Error(text, httpStatus, isServerError, newId, now).log.Some? <==> isServerError == Some(true)
  {
  }

  /** The two helpers never build the same body: success and error are told apart by `status`. */
  lemma SuccessIsNotError(data: Option<Json>, message: Option<string>, text: string, httpStatus: Option<int>,
                          isServerError: Option<bool>, newId: string, now: Millis)
    ensures Success(data, message, now).body != Error(text, httpStatus, isServerError, newId, now).body
  {
  }
}
