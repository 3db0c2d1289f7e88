/** The HTTP layer of the quote API: the JSON envelope every response is
    wrapped in (handler.go) and the status each handler picks for the quote
    service's outcome (quote.go, healthcheck.go). */
module Handler {
  import opened GoErrors
  import QuoteData
  import Validate

  const StatusOK: int := 200
  const StatusBadRequest: int := 400
  const StatusInternalServerError: int := 500
  const StatusNotImplemented: int := 501

  /** http.StatusText: the reason phrase of net/http's table of registered
      statuses, and "" for a code the table does not know. */
  function StatusText(code: int): (text: string)
    ensures code == StatusOK ==> text == "OK"
    ensures code == StatusBadRequest ==> text == "Bad Request"
    ensures code == StatusInternalServerError ==> text == "Internal Server Error"
    ensures code == StatusNotImplemented ==> text == "Not Implemented"
    ensures text != "" ==> 100 <= code <= 511
  {
    match code
    case 100 => "Continue"
    case 101 => "Switching Protocols"
    case 102 => "Processing"
    case 103 => "Early Hints"
    case 200 => "OK"
    case 201 => "Created"
    case 202 => "Accepted"
    case 203 => "Non-Authoritative Information"
    case 204 => "No Content"
    case 205 => "Reset Content"
    case 206 => "Partial Content"
    case 207 => "Multi-Status"
    case 208 => "Already Reported"
    case 226 => "IM Used"
    case 300 => "Multiple Choices"
    case 301 => "Moved Permanently"
    case 302 => "Found"
    case 303 => "See Other"
    case 304 => "Not Modified"
    case 305 => "Use Proxy"
    case 307 => "Temporary Redirect"
    case 308 => "Permanent Redirect"
    case 400 => "Bad Request"
    case 401 => "Unauthorized"
    case 402 => "Payment Required"
    case 403 => "Forbidden"
    case 404 => "Not Found"
    case 405 => "Method Not Allowed"
    case 406 => "Not Acceptable"
    case 407 => "Proxy Authentication Required"
    case 408 => "Request Timeout"
    case 409 => "Conflict"
    case 410 => "Gone"
    case 411 => "Length Required"
    case 412 => "Precondition Failed"
    case 413 => "Request Entity Too Large"
    case 414 => "Request URI Too Long"
    case 415 => "Unsupported Media Type"
    case 416 => "Requested Range Not Satisfiable"
    case 417 => "Expectation Failed"
    case 418 => "I'm a teapot"
    case 421 => "Misdirected Request"
    case 422 => "Unprocessable Entity"
    case 423 => "Locked"
    case 424 => "Failed Dependency"
    case 425 => "Too Early"
    case 426 => "Upgrade Required"
    case 428 => "Precondition Required"
    case 429 => "Too Many Requests"
    case 431 => "Request Header Fields Too Large"
    case 451 => "Unavailable For Legal Reasons"
    case 500 => "Internal Server Error"
    case 501 => "Not Implemented"
    case 502 => "Bad Gateway"
    case 503 => "Service Unavailable"
    case 504 => "Gateway Timeout"
    case 505 => "HTTP Version Not Supported"
    case 506 => "Variant Also Negotiates"
    case 507 => "Insufficient Storage"
    case 508 => "Loop Detected"
    case 510 => "Not Extended"
    case 511 => "Network Authentication Required"
    case _ => ""
  }

  /** The non-error values the handlers hand to respond. */
  datatype Payload =
    | QuoteResponse(quote: QuoteData.Info)
    | QuotesResponse(quotes: seq<QuoteData.Info>)
    | Text(text: string)

  /** respond's `data interface{}` argument: nil, an error, or a payload. */
  datatype Data = Nil | ErrorData(err: Error) | PayloadData(payload: Payload)

  /** The value under the envelope's "error" key. */
  datatype ErrorValue = FieldErrorsValue(fields: seq<FieldError>) | ErrorText(text: string)

  /** The JSON envelope: "code" and "success" are always present, "data" and
      "error" only when set. */
  datatype Envelope = Envelope(code: int, success: bool, data: Option<Payload>, error: Option<ErrorValue>)

  /** What respond writes: the HTTP status and the envelope as the body. */
  datatype Response = Response(status: int, body: Envelope)

  /** The "error" entry for an error: the FieldErrors on its chain if there
      is one, and otherwise its text. */
  function ErrorEntry(err: Error): (v: ErrorValue)
    ensures AsFieldErrors(err).Some? ==> v == FieldErrorsValue(AsFieldErrors(err).value)
    ensures AsFieldErrors(err).None? ==> v == ErrorText(Message(err))
  {
    match AsFieldErrors(err)
    case Some(ferrors) => FieldErrorsValue(ferrors)
    case None => ErrorText(Message(err))
  }

  /** respond: the status is written and echoed as "code"; an error sets
      "error" and success false, anything else sets success true and, unless
      it is nil, "data". */
  function Respond(status: int, data: Data): (r: Response)
    ensures r.status == status && r.body.code == status
    ensures r.body.success <==> !data.ErrorData?
    ensures r.body.error.Some? <==> data.ErrorData?
    ensures r.body.data.Some? <==> data.PayloadData?
    ensures data.ErrorData? ==> r.body.error.value == ErrorEntry(data.err)
    ensures data.PayloadData? ==> r.body.data.value == data.payload
  {
    var envelope := Envelope(status, false, None, None);
    var envelope :=
      if data.ErrorData? then envelope.(error := Some(ErrorEntry(data.err)), success := false)
      else if data.PayloadData? then envelope.(data := Some(data.payload), success := true)
      else envelope.(success := true);
    Response(status, envelope)
  }

  /** A validation failure reaches the client as its list of field errors,
      even when wrapped. */
  lemma FieldErrorsReported(context: string, fields: seq<FieldError>)
    ensures Respond(StatusBadRequest, ErrorData(Wrapped(context, FieldErrors(fields)))).body.error
              == Some(FieldErrorsValue(fields))
  {
    assert AsFieldErrors(Wrapped(context, FieldErrors(fields))) == Some(fields);
  }

  const InternalServerError: Error := Fresh("internal server error")

  /** handleGetQuote: a not-found error is reported as such with 400, any
      other error as an opaque 500, and a quote with 200. */
  function HandleGetQuote(outcome: Result<QuoteData.Info>): (r: Response)
    ensures r.status == StatusBadRequest <==> outcome.Err? && Is(outcome.error, QuoteNotFound)
    ensures r.status == StatusInternalServerError <==> outcome.Err? && !Is(outcome.error, QuoteNotFound)
    ensures r.status == StatusOK <==> outcome.Ok?
    ensures r.body.success <==> outcome.Ok?
    ensures r.status == StatusBadRequest ==>
              r.body.error == Some(ErrorText(Message(outcome.error)))
    ensures r.status == StatusInternalServerError ==>
              r.body.error == Some(ErrorText("internal server error"))
    ensures outcome.Ok? ==> r.body.data == Some(QuoteResponse(outcome.value))
  {
    if outcome.Err? && Is(outcome.error, QuoteNotFound) then
      Respond(StatusBadRequest, ErrorData(outcome.error))
    else if outcome.Err? then
      Respond(StatusInternalServerError, ErrorData(InternalServerError))
    else
      Respond(StatusOK, PayloadData(QuoteResponse(outcome.value)))
  }

  /** handleListQuotes: any error is an opaque 500; a listing is 200 with
      every quote. */
  function HandleListQuotes(outcome: Result<seq<QuoteData.Info>>): (r: Response)
    ensures r.status == StatusOK <==> outcome.Ok?
    ensures outcome.Err? ==> r.status == StatusInternalServerError
    ensures outcome.Err? ==> r.body.error == Some(ErrorText("internal server error")) && !r.body.success
    ensures outcome.Ok? ==> r.body.success && r.body.data == Some(QuotesResponse(outcome.value))
  {
    if outcome.Err? then
      Respond(StatusInternalServerError, ErrorData(InternalServerError))
    else
      Respond(StatusOK, PayloadData(QuotesResponse(outcome.value)))
  }

  /** handleAddQuote: not implemented. The status text is a string, not an
      error, so the envelope reports success. */
  function HandleAddQuote(): (r: Response)
    ensures r.status == StatusNotImplemented && r.body.code == StatusNotImplemented
    ensures r.body.success && r.body.error.None?
    ensures r.body.data == Some(Text("Not Implemented"))
  {
    Respond(StatusNotImplemented, PayloadData(Text(StatusText(StatusNotImplemented))))
  }

  /** handleHealthCheck: 200 with neither data nor error. */
  function HandleHealthCheck(): (r: Response)
    ensures r == Response(StatusOK, Envelope(StatusOK, true, None, None))
  {
    Respond(StatusOK, Nil)
  }

  /** GET of a malformed ID is a 500: QueryByID's ErrInvalidID is not
      ErrNotFound, whatever the table holds. */
  lemma GetMalformedID(rows: seq<QuoteData.Row>, id: QuoteData.ID, fault: Option<Error>)
    requires !Validate.IsUUID(id.value)
    ensures HandleGetQuote(QuoteData.Fetch(rows, id, fault)).status == StatusInternalServerError
    ensures HandleGetQuote(QuoteData.Fetch(rows, id, fault)).body.error
              == Some(ErrorText("internal server error"))
  {
  }

  /** GET of a well-formed ID with no quote is a 400 saying "not found". */
  lemma GetMissingQuote(rows: seq<QuoteData.Row>, id: QuoteData.ID)
    requires Validate.IsUUID(id.value)
    requires forall i :: 0 <= i < |rows| ==> rows[i].quoteId != id
    ensures HandleGetQuote(QuoteData.Fetch(rows, id, None)).status == StatusBadRequest
    ensures HandleGetQuote(QuoteData.Fetch(rows, id, None)).body.error == Some(ErrorText("not found"))
  {
    QuoteData.FetchNotFoundIff(rows, id, None);
  }

  /** GET of a quote just inserted under a fresh ID is a 200 carrying it. */
  lemma GetAfterInsert(rows: seq<QuoteData.Row>, info: QuoteData.Info)
    requires Validate.IsUUID(info.id.value)
    requires forall i :: 0 <= i < |rows| ==> rows[i].quoteId != info.id
    ensures HandleGetQuote(QuoteData.Fetch(rows + [QuoteData.Flatten(info)], info.id, None))
              == Response(StatusOK, Envelope(StatusOK, true, Some(QuoteResponse(info)), None))
  {
    QuoteData.FetchAfterInsert(rows, info);
  }
}
