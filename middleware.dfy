/** The API's global exception handler (`opencore/interface/middleware.py`):
    every exception becomes one `{"error": {code, message, details}}` body. */
module Middleware {
  import opened Wrappers
  import opened Text
  import opened Json

  /** The exceptions the handler tells apart. */
  datatype Exc =
    | ValidationError(errors: string)          // RequestValidationError; `str(exc.errors())`
    | HttpException(status: int, detail: string)
    | Unexpected(text: string)                 // anything else; `str(exc)`

  datatype ErrorDetails = ErrorDetails(code: string, message: string, details: Option<string>)

  datatype ErrorResponse = ErrorResponse(status: int, error: ErrorDetails)

  const ValidationCode := "UNPROCESSABLE_ENTITY"
  const ValidationMessage := "Request validation failed."
  const InternalCode := "INTERNAL_SERVER_ERROR"
  const InternalMessage := "An unexpected error occurred."
  const HttpPrefix := "HTTP_"

  /** `f"HTTP_{status_code}"` */
  function HttpCode(status: int): string {
    HttpPrefix + IntToString(status)
  }

  /** `global_exception_handler`, with `settings.is_dev` as `isDev`. Details
      appear only for validation errors and, in development mode only, for
      unexpected exceptions; only an `HTTPException` picks its own status. */
  function Handle(exc: Exc, isDev: bool): (r: ErrorResponse)
    ensures r.error.details.Some? ==> exc.ValidationError? || (exc.Unexpected? && isDev)
    ensures !exc.HttpException? ==> r.status == 422 || r.status == 500
  {
    match exc
    case ValidationError(errors) =>
      ErrorResponse(422, ErrorDetails(ValidationCode, ValidationMessage, Some(errors)))
    case HttpException(status, detail) =>
      ErrorResponse(status, ErrorDetails(HttpCode(status), detail, None))
    case Unexpected(text) =>
      ErrorResponse(500, ErrorDetails(InternalCode, InternalMessage, if isDev then Some(text) else None))
  }

  /** The code names the class of the exception: the three kinds never share
      a code, so a client can tell them apart from the body alone. */
  lemma HandleClassifies(exc: Exc, isDev: bool)
    ensures Handle(exc, isDev).error.code == ValidationCode <==> exc.ValidationError?
    ensures Handle(exc, isDev).error.code == InternalCode <==> exc.Unexpected?
    ensures StartsWith(Handle(exc, isDev).error.code, HttpPrefix) <==> exc.HttpException?
  {
    var code := Handle(exc, isDev).error.code;
    if exc.HttpException? {
      assert code[0] == 'H' && ValidationCode[0] == 'U' && InternalCode[0] == 'I';
      assert code[..|HttpPrefix|] == HttpPrefix;
    } else {
      assert code[0] != 'H' && HttpPrefix[0] == 'H';
    }
  }

  /** The HTTP status and the body agree: a validation error answers 422, an
      unexpected one 500, and an `HTTPException` keeps its own status, which
      its code carries as digits that read back to it. */
  lemma HandleStatus(exc: Exc, isDev: bool)
    ensures exc.ValidationError? ==> Handle(exc, isDev).status == 422
    ensures exc.Unexpected? ==> Handle(exc, isDev).status == 500
    ensures exc.HttpException? ==>
      && Handle(exc, isDev).status == exc.status
      && ParseInt(Handle(exc, isDev).error.code[|HttpPrefix|..]) == Some(exc.status)
  {
    if exc.HttpException? {
      var code := Handle(exc, isDev).error.code;
      assert code[|HttpPrefix|..] == IntToString(exc.status);
      ParseIntOfIntToString(exc.status);
    }
  }

  /** What the body reveals: an `HTTPException`'s detail is its message, and
      the text of an unexpected exception reaches the client only in
      development mode. */
  lemma HandleDetails(exc: Exc, isDev: bool)
    ensures exc.HttpException? ==>
      Handle(exc, isDev).error.message == exc.detail && Handle(exc, isDev).error.details == None
    ensures exc.ValidationError? ==> Handle(exc, isDev).error.details == Some(exc.errors)
    ensures exc.Unexpected? ==>
      && Handle(exc, isDev).error.message == InternalMessage
      && (Handle(exc, isDev).error.details == Some(exc.text) <==> isDev)
      && (!isDev ==> Handle(exc, isDev).error.details == None)
  {
  }

  /** `ErrorResponse(...).model_dump()`: the body sent to the client. */
  function Body(e: ErrorDetails): Json {
    Object(map["error" := Object(map[
      "code" := Str(e.code),
      "message" := Str(e.message),
      "details" := if e.details.Some? then Str(e.details.value) else Null])])
  }

  /** Reading a body back the way a client does (`body["error"]["code"]`,
      ...); `None` when the body does not have the envelope's shape. */
  function ReadBody(j: Json): (r: Option<ErrorDetails>)
  {
    if j.Object? && "error" in j.fields && j.fields["error"].Object? then
      var f := j.fields["error"].fields;
      if "code" in f && f["code"].Str? && "message" in f && f["message"].Str? && "details" in f then
        match f["details"]
        case Null => Some(ErrorDetails(f["code"].s, f["message"].s, None))
        case Str(d) => Some(ErrorDetails(f["code"].s, f["message"].s, Some(d)))
        case _ => None
      else None
    else None
  }

  /** Every response body has the envelope's shape and reads back to the
      details it was built from. */
  lemma ReadBodyOfBody(e: ErrorDetails)
    ensures ReadBody(Body(e)) == Some(e)
    ensures Body(e).fields.Keys == {"error"} && Body(e).fields["error"].fields.Keys == {"code", "message", "details"}
  {
  }
}
