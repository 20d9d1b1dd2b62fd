/** The global error handler of controllers/errorController.js: the
    defaults it writes into the error, the translation of database and token
    errors into operational errors in production, and the response each
    environment sends.

    Errors are values. An error's `name`, `code`, `path`, `value`,
    `keyValue` and `errors` are what the database driver or the token
    library put there; a field the error does not have is `None`. */
module ErrorController {
  import opened Wrappers
  import opened Text

  /** An error object as the handler sees it. `keyValue` holds the keys of
      the `keyValue` object in order, and `errors` the `message` of each
      value of the `errors` object. */
  datatype ErrorValue = ErrorValue(
    name: Option<string>,
    message: string,
    code: Option<int>,
    statusCode: Option<int>,
    status: Option<string>,
    isOperational: bool,
    path: Option<string>,
    value: Option<string>,
    keyValue: Option<seq<string>>,
    errors: Option<seq<Option<string>>>)

  /** `new AppError(message, statusCode)`. utils/appError.js is not part of
      this model, so whether its errors are operational and which `status`
      it derives from the status code are parameters. */
  datatype AppErrorClass = AppErrorClass(operational: bool, statusFor: int -> string) {
    function New(message: string, statusCode: int): (e: ErrorValue)
      ensures e.message == message && e.statusCode == Some(statusCode)
      ensures e.status == Some(statusFor(statusCode)) && e.isOperational == operational
      ensures e.keyValue.None? && e.errors.None?
    {
      ErrorValue(None, message, None, Some(statusCode), Some(statusFor(statusCode)), operational,
                 None, None, None, None)
    }
  }

  /** What a template literal prints for a missing value. */
  function Display(v: Option<string>): string {
    match v
    case Some(s) => s
    case None => "undefined"
  }

  /** `Array.prototype.join` prints a missing element as nothing. */
  function JoinMessages(ms: seq<Option<string>>, sep: string): string {
    Join(seq(|ms|, i requires 0 <= i < |ms| => ms[i].GetOr("")), sep)
  }

  const ConvertTypeError := "TypeError: Cannot convert undefined or null to object"
  const ExpiredMessage := "Token got expired Please Login Again"
  const InvalidTokenMessage := "Invalid token Please Login Again"
  const GenericMessage := "Something went very wrong!"
  const DuplicateCode := 11000

  // ---------------------------------------------------------------------
  // The handle* translations

  /** `handleCastErrorDB`: a 400 naming the path and the value. */
  function HandleCastErrorDB(e: ErrorValue, app: AppErrorClass): (r: ErrorValue)
    ensures r.statusCode == Some(400) && r.isOperational == app.operational
  {
    app.New("Invalid " + Display(e.path) + ": " + Display(e.value) + ".", 400)
  }

  /** `handleDuplicateFieldsDB`: a 400 naming the first duplicated key.
      `Object.keys` throws when the error has no `keyValue`; an empty one
      names `undefined`. */
  function HandleDuplicateFieldsDB(e: ErrorValue, app: AppErrorClass): (r: Result<ErrorValue, string>)
    ensures r.Failure? <==> e.keyValue.None?
    ensures r.Failure? ==> r.error == ConvertTypeError
    ensures r.Success? ==> r.value.statusCode == Some(400)
  {
    match e.keyValue
    case None => Failure(ConvertTypeError)
    case Some(keys) =>
      var first := if keys == [] then None else Some(keys[0]);
      Success(app.New("Duplicate field value: " + Display(first) + ". Please use another value!", 400))
  }

  /** `handleValidationErrorDB`: a 400 listing every field message.
      `Object.values` throws when the error has no `errors`. */
  function HandleValidationErrorDB(e: ErrorValue, app: AppErrorClass): (r: Result<ErrorValue, string>)
    ensures r.Failure? <==> e.errors.None?
    ensures r.Failure? ==> r.error == ConvertTypeError
    ensures r.Success? ==> r.value.statusCode == Some(400)
  {
    match e.errors
    case None => Failure(ConvertTypeError)
    case Some(ms) => Success(app.New("Invalid input data. " + JoinMessages(ms, ". "), 400))
  }

  function HandleJWTExpiredTokenError(app: AppErrorClass): (r: ErrorValue)
    ensures r.statusCode == Some(401) && r.message == ExpiredMessage
  {
    app.New(ExpiredMessage, 401)
  }

  function HandleJWTInvalidTokenError(app: AppErrorClass): (r: ErrorValue)
    ensures r.statusCode == Some(401) && r.message == InvalidTokenMessage
  {
    app.New(InvalidTokenMessage, 401)
  }

  // ---------------------------------------------------------------------
  // Responses

  /** The JSON body of a response. The development body carries the whole
      error; its stack trace is not modelled. */
  datatype Body =
    | DevBody(status: string, error: ErrorValue, message: string)
    | ProdBody(status: string, message: string)

  /** What the error view is rendered with: the error itself or a text. */
  datatype ViewMsg = ErrorObject(err: ErrorValue) | Text(text: string)

  datatype Response =
    | JsonResponse(statusCode: int, body: Body)
    | ErrorPage(statusCode: int, msg: ViewMsg)
    /** The handler threw: Express's own final handler takes over. */
    | Thrown(message: string)
    | NoResponse

  predicate IsApi(url: string) {
    StartsWith(url, "/api")
  }

  /** An error on which the defaults have been written. */
  predicate Defaulted(e: ErrorValue) {
    e.statusCode.Some? && e.status.Some?
  }

  /** `sendErrorDev`: everything about the error, at its status code. */
  function SendErrorDev(e: ErrorValue, url: string): (r: Response)
    requires Defaulted(e)
    ensures r.JsonResponse? <==> IsApi(url)
    ensures r.JsonResponse? ==> r == JsonResponse(e.statusCode.value, DevBody(e.status.value, e, e.message))
    ensures !r.JsonResponse? ==> r == ErrorPage(e.statusCode.value, ErrorObject(e))
  {
    if StartsWith(url, "/api") then
      JsonResponse(e.statusCode.value, DevBody(e.status.value, e, e.message))
    else
      ErrorPage(e.statusCode.value, ErrorObject(e))
  }

  /** `sendErrorProd`: an operational error shows its message at its status;
      any other error shows a generic message, as a 500 on the API but at
      the error's own status on a page. */
  function SendErrorProd(e: ErrorValue, url: string): (r: Response)
    requires Defaulted(e)
    ensures r.JsonResponse? <==> IsApi(url)
    ensures r.ErrorPage? <==> !IsApi(url)
    ensures e.isOperational && IsApi(url) ==>
      r == JsonResponse(e.statusCode.value, ProdBody(e.status.value, e.message))
    ensures e.isOperational && !IsApi(url) ==> r == ErrorPage(e.statusCode.value, Text(e.message))
    ensures !e.isOperational && IsApi(url) ==> r == JsonResponse(500, ProdBody("error", GenericMessage))
    ensures !e.isOperational && !IsApi(url) ==> r == ErrorPage(e.statusCode.value, Text(GenericMessage))
  {
    if StartsWith(url, "/api") then
      if e.isOperational then JsonResponse(e.statusCode.value, ProdBody(e.status.value, e.message))
      else JsonResponse(500, ProdBody("error", GenericMessage))
    else if e.isOperational then ErrorPage(e.statusCode.value, Text(e.message))
    else ErrorPage(e.statusCode.value, Text(GenericMessage))
  }

  // ---------------------------------------------------------------------
  // The global handler

  /** `err.statusCode = err.statusCode || 500; err.status = err.status || 'error'`:
      a missing or falsy (0, empty) value is replaced. */
  function WithDefaults(err: ErrorValue): (e: ErrorValue)
    ensures Defaulted(e)
    ensures e.statusCode == (if err.statusCode.None? || err.statusCode == Some(0) then Some(500) else err.statusCode)
    ensures e.status == (if err.status.None? || err.status == Some("") then Some("error") else err.status)
    ensures e.(statusCode := err.statusCode, status := err.status) == err
  {
    var code := match err.statusCode
      case Some(c) => if c != 0 then Some(c) else Some(500)
      case None => Some(500);
    var status := match err.status
      case Some(s) => if s != "" then Some(s) else Some("error")
      case None => Some("error");
    err.(statusCode := code, status := status)
  }

  predicate IsDuplicateKey(e: ErrorValue) {
    e.code == Some(DuplicateCode)
  }

  /** The production translation as a decision table on the error's name
      and on whether it carries the duplicate-key code. Every test reads
      the original error, but each translation is applied to the result of
      the previous one: a cast or duplicate-key translation gives an error
      without `keyValue` or `errors`, so a later duplicate-key or validation
      translation throws, while the token translations ignore their input
      and replace it. */
  function Classify(e: ErrorValue, app: AppErrorClass): Result<ErrorValue, string> {
    var dup := IsDuplicateKey(e);
    if e.name == Some("CastError") then
      if dup then Failure(ConvertTypeError) else Success(HandleCastErrorDB(e, app))
    else if e.name == Some("ValidationError") then
      if dup then Failure(ConvertTypeError) else HandleValidationErrorDB(e, app)
    else if e.name == Some("TokenExpiredError") then
      if dup && e.keyValue.None? then Failure(ConvertTypeError) else Success(HandleJWTExpiredTokenError(app))
    else if e.name == Some("JsonWebTokenError") then
      if dup && e.keyValue.None? then Failure(ConvertTypeError) else Success(HandleJWTInvalidTokenError(app))
    else if dup then HandleDuplicateFieldsDB(e, app)
    else Success(e)
  }

  /** The translations of the production branch, run in source order on
      the copy of the error; a translation that throws ends the chain. */
  method Translate(err: ErrorValue, app: AppErrorClass) returns (r: Result<ErrorValue, string>)
    ensures r == Classify(err, app)
  {
    // The spread copy keeps every field the translations read; the
    // message, which a spread would not copy, is assigned back.
    var error := err.(message := err.message);
    if err.name == Some("CastError") {
      error := HandleCastErrorDB(error, app);
    }
    if err.code == Some(DuplicateCode) {
      var d := HandleDuplicateFieldsDB(error, app);
      if d.Failure? {
        return Failure(d.error);
      }
      error := d.value;
    }
    if err.name == Some("ValidationError") {
      var v := HandleValidationErrorDB(error, app);
      if v.Failure? {
        return Failure(v.error);
      }
      error := v.value;
    }
    if err.name == Some("TokenExpiredError") {
      error := HandleJWTExpiredTokenError(app);
    }
    if err.name == Some("JsonWebTokenError") {
      error := HandleJWTInvalidTokenError(app);
    }
    r := Success(error);
  }

  /** The exported handler. It writes the defaults into `err` (returned as
      `errAfter`) and then, in development, reports it as it is; in
      production it reports the translated copy, or throws what a
      translation threw; in any other environment it sends nothing. */
  method GlobalErrorHandler(err: ErrorValue, url: string, env: Option<string>, app: AppErrorClass)
    returns (errAfter: ErrorValue, resp: Response)
    ensures errAfter == WithDefaults(err)
    ensures env == Some("development") ==> resp == SendErrorDev(errAfter, url)
    ensures env == Some("production") ==>
      resp == match Classify(errAfter, app)
              case Success(e) => SendErrorProd(e, url)
              case Failure(m) => Thrown(m)
    ensures env != Some("development") && env != Some("production") ==> resp == NoResponse
  {
    errAfter := err;
    if errAfter.statusCode.None? || errAfter.statusCode == Some(0) {
      errAfter := errAfter.(statusCode := Some(500));
    }
    if errAfter.status.None? || errAfter.status == Some("") {
      errAfter := errAfter.(status := Some("error"));
    }
    if env == Some("development") {
      resp := SendErrorDev(errAfter, url);
    } else if env == Some("production") {
      var error := Translate(errAfter, app);
      match error
      case Success(e) =>
        ClassifyKeepsDefaults(errAfter, app);
        resp := SendErrorProd(e, url);
      case Failure(m) =>
        resp := Thrown(m);
    } else {
      resp := NoResponse;
    }
  }

  /** Every translation of a defaulted error is defaulted. */
  lemma ClassifyKeepsDefaults(e: ErrorValue, app: AppErrorClass)
    requires Defaulted(e)
    ensures Classify(e, app).Success? ==> Defaulted(Classify(e, app).value)
  {
  }

  // ---------------------------------------------------------------------
  // Properties

  /** A cast error in production becomes a 400 naming the path and value. */
  lemma CastErrorIs400(e: ErrorValue, app: AppErrorClass)
    requires e.name == Some("CastError") && !IsDuplicateKey(e)
    ensures Classify(e, app).Success?
    ensures Classify(e, app).value.statusCode == Some(400)
    ensures Classify(e, app).value.message == "Invalid " + Display(e.path) + ": " + Display(e.value) + "."
  {
  }

  /** A duplicate-key error names the first key of `keyValue`. */
  lemma DuplicateKeyIs400(e: ErrorValue, app: AppErrorClass, first: string, rest: seq<string>)
    requires IsDuplicateKey(e) && e.keyValue == Some([first] + rest)
    requires e.name !in {Some("CastError"), Some("ValidationError"), Some("TokenExpiredError"), Some("JsonWebTokenError")}
    ensures Classify(e, app) == Success(app.New("Duplicate field value: " + first + ". Please use another value!", 400))
  {
  }

  /** A validation error lists the field messages joined by `. `. */
  lemma ValidationErrorIs400(e: ErrorValue, app: AppErrorClass, ms: seq<Option<string>>)
    requires e.name == Some("ValidationError") && !IsDuplicateKey(e) && e.errors == Some(ms)
    ensures Classify(e, app) == Success(app.New("Invalid input data. " + JoinMessages(ms, ". "), 400))
  {
  }

  /** The token errors become 401s with their own messages, whatever came
      before them, as long as nothing before them threw. */
  lemma TokenErrorsAre401(e: ErrorValue, app: AppErrorClass)
    requires e.name == Some("TokenExpiredError") || e.name == Some("JsonWebTokenError")
    requires !IsDuplicateKey(e) || e.keyValue.Some?
    ensures Classify(e, app).Success? && Classify(e, app).value.statusCode == Some(401)
    ensures Classify(e, app).value.message ==
      if e.name == Some("TokenExpiredError") then ExpiredMessage else InvalidTokenMessage
  {
  }

  /** The tests are independent `if`s: a duplicate-key cast error is first
      translated as a cast error and then handed, without its `keyValue`,
      to the duplicate-key translation, which throws. */
  lemma LaterTranslationSeesEarlierResult(e: ErrorValue, app: AppErrorClass)
    requires e.name == Some("CastError") && IsDuplicateKey(e)
    ensures HandleDuplicateFieldsDB(HandleCastErrorDB(e, app), app).Failure?
    ensures Classify(e, app) == Failure(ConvertTypeError)
  {
  }

  /** An error no test matches reaches the response unchanged. */
  lemma UnmatchedErrorPassesThrough(e: ErrorValue, app: AppErrorClass)
    requires e.name !in {Some("CastError"), Some("ValidationError"), Some("TokenExpiredError"), Some("JsonWebTokenError")}
    requires !IsDuplicateKey(e)
    ensures Classify(e, app) == Success(e)
  {
  }

  /** In production, an error that is not operational never shows its own
      message: on the API it is a 500, on a page it keeps its status. */
  lemma ProductionHidesProgrammingErrors(err: ErrorValue, url: string, app: AppErrorClass)
    requires !err.isOperational && !IsDuplicateKey(err)
    requires err.name !in {Some("CastError"), Some("ValidationError"), Some("TokenExpiredError"), Some("JsonWebTokenError")}
    ensures var e := WithDefaults(err);
      match Classify(e, app)
      case Success(c) => SendErrorProd(c, url) ==
        if IsApi(url) then JsonResponse(500, ProdBody("error", GenericMessage))
        else ErrorPage(e.statusCode.value, Text(GenericMessage))
      case Failure(_) => false
  {
    UnmatchedErrorPassesThrough(WithDefaults(err), app);
  }

  /** When neither the error nor the app's `AppError` is operational, no
      translation makes it one: whatever the production branch sends
      carries the generic message, never the error's own. */
  lemma NonOperationalStaysHidden(err: ErrorValue, url: string, app: AppErrorClass)
    requires !err.isOperational && !app.operational
    ensures var e := WithDefaults(err);
      Classify(e, app).Success? ==>
        var c := Classify(e, app).value;
        && !c.isOperational && Defaulted(c)
        && (IsApi(url) ==> SendErrorProd(c, url) == JsonResponse(500, ProdBody("error", GenericMessage)))
        && (!IsApi(url) ==> SendErrorProd(c, url) == ErrorPage(c.statusCode.value, Text(GenericMessage)))
  {
    ClassifyKeepsDefaults(WithDefaults(err), app);
  }

  /** An operational error with neither a status code nor a status is
      reported on the API as a 500 with status `error` and its message. */
  lemma DefaultsReachTheResponse(err: ErrorValue, url: string)
    requires err.statusCode.None? && err.status.None? && err.isOperational && IsApi(url)
    ensures SendErrorProd(WithDefaults(err), url) == JsonResponse(500, ProdBody("error", err.message))
  {
  }
}
