/**
 * The error taxonomy of the question-and-answer service and its terminal responder
 * (`return_error`), which turns every rejection of a request into exactly one
 * HTTP status and message, plus one log event.
 *
 * A warp rejection is modelled as the sequence of causes it holds; `r.find::<T>()`
 * yields the first cause of type T. Errors that come from foreign crates (argon2,
 * reqwest, sqlx, warp's own CORS and body filters) are carried as the text they
 * display, or, for sqlx, as the SQLSTATE code a database error reports.
 */
module HandleErrors {
  import opened Basics
  import opened IntText

  // Status codes of section 15 of RFC 9110.
  const UNAUTHORIZED: int := 401
  const FORBIDDEN: int := 403
  const NOT_FOUND: int := 404
  const UNPROCESSABLE_ENTITY: int := 422
  const INTERNAL_SERVER_ERROR: int := 500

  /** PostgreSQL SQLSTATE 23505, `unique_violation`. */
  const DUPLICATE_KEY: int := 23505

  /** The status and message a third-party API answered with. */
  datatype ApiLayerError = ApiLayerError(status: U16, message: string)

  datatype ArgonError = ArgonError(description: string)
  datatype ReqwestError = ReqwestError(description: string)
  datatype MiddlewareError = MiddlewareError(description: string)

  /** `sqlx::Error`: a database error, with the SQLSTATE code it may report, or any other kind. */
  datatype SqlxError = Database(code: Option<string>) | NonDatabase(description: string)

  datatype Error =
    | ParseError(kind: IntErrorKind)
    | MissingParameters
    | WrongPassword
    | ArgonLibraryError(argon: ArgonError)
    | DatabaseQueryError(sqlx: SqlxError)
    | ReqwestAPIError(reqwest: ReqwestError)
    | MiddlewareReqwestAPIError(middleware: MiddlewareError)
    | ClientError(api: ApiLayerError)
    | ServerError(api: ApiLayerError)
    | CannotDecryptToken
    | Unauthorized

  /** `Display` of `APILayerError`. */
  function ApiLayerErrorText(e: ApiLayerError): string {
    "Status: " + NatText(e.status) + ", Message: " + e.message
  }

  /** `Display` of `Error`. */
  function ErrorText(e: Error): string {
    match e
    case ParseError(kind) => "Cannot parse parameter: " + Description(kind)
    case MissingParameters => "Missing parameter."
    case WrongPassword => "Wrong password."
    case ArgonLibraryError(_) => "Cannot verify password."
    case DatabaseQueryError(_) => "Cannot update, invalid data."
    case ReqwestAPIError(err) => "External API error: " + err.description
    case MiddlewareReqwestAPIError(err) => "External API error: " + err.description
    case ClientError(err) => "External client error: " + ApiLayerErrorText(err)
    case ServerError(err) => "External server error: " + ApiLayerErrorText(err)
    case CannotDecryptToken => "Cannot decrypt token"
    case Unauthorized => "No permission to change the underlying resource."
  }

  /**
   * The provider's status and message both survive in the text: two different errors
   * never print alike, because the status is all digits and ends at the first comma.
   */
  lemma ApiLayerTextInjective(a: ApiLayerError, b: ApiLayerError)
    requires ApiLayerErrorText(a) == ApiLayerErrorText(b)
    ensures a == b
  {
    var x, y := NatText(a.status), NatText(b.status);
    var u, v := x + (", Message: " + a.message), y + (", Message: " + b.message);
    assert ApiLayerErrorText(a) == "Status: " + u;
    assert ApiLayerErrorText(b) == "Status: " + v;
    assert u == ApiLayerErrorText(a)[8..] == v;
    DigitsThenSeparator(x, y, a.message, b.message);
  }

  /** A run of digits followed by ", Message: " splits only one way. */
  lemma DigitsThenSeparator(x: string, y: string, m1: string, m2: string)
    requires AllDigits(x) && AllDigits(y)
    requires x + (", Message: " + m1) == y + (", Message: " + m2)
    ensures x == y && m1 == m2
  {
    var t := x + (", Message: " + m1);
    DigitRunStopsAt(x, ", Message: " + m1);
    DigitRunStopsAt(y, ", Message: " + m2);
    assert x == t[..|x|] == y;
    assert m1 == t[|x| + 11..] == m2;
  }

  /** Which kind a `ParseIntError` text belongs to can be read off its length and two characters. */
  lemma DescriptionSignature(k: IntErrorKind)
    ensures k == (if |Description(k)| == 29 then InvalidDigit
                  else if Description(k)[0] == 'c' then Empty
                  else if Description(k)[11] == 'l' then PosOverflow
                  else NegOverflow)
  {
  }

  /** Which error without a reply of its own a text belongs to can be read off its length. */
  lemma FallThroughSignature(e: Error)
    requires !Prioritised(e)
    ensures e.MissingParameters? <==> |ErrorText(e)| == 18
    ensures e.ArgonLibraryError? <==> |ErrorText(e)| == 23
    ensures e.CannotDecryptToken? <==> |ErrorText(e)| == 20
    ensures e.ParseError? ==> |ErrorText(e)| >= 24 && ErrorText(e)[24..] == Description(e.kind)
  {
  }

  /**
   * The text of an error that has no reply of its own tells which error it was: equal
   * texts mean equal errors, except that the argon2 detail is never printed.
   */
  lemma DisplayIdentifiesFallThrough(e1: Error, e2: Error)
    requires !Prioritised(e1) && !Prioritised(e2)
    requires ErrorText(e1) == ErrorText(e2)
    ensures e1.ArgonLibraryError? <==> e2.ArgonLibraryError?
    ensures !e1.ArgonLibraryError? ==> e1 == e2
  {
    FallThroughSignature(e1);
    FallThroughSignature(e2);
    if e1.ParseError? && e2.ParseError? {
      DescriptionSignature(e1.kind);
      DescriptionSignature(e2.kind);
    }
  }

  /**
   * One cause inside a rejection: a custom `Error`, warp's CORS and body-deserialisation
   * rejections (carried as their display text), or any other rejection (warp's built-in
   * ones, a bare `APILayerError`), which `return_error` does not look for.
   */
  datatype Cause =
    | Custom(error: Error)
    | CorsForbidden(text: string)
    | BodyDeserializeError(text: string)
    | OtherRejection(text: string)

  type Rejection = seq<Cause>

  /** `warp::reject::custom(e)`. */
  function Reject(e: Error): (r: Rejection)
    ensures FirstError(r) == Some(e)
    ensures Find(r, CorsForbiddenType).None? && Find(r, BodyDeserializeType).None?
  {
    [Custom(e)]
  }

  /** The type argument of `Rejection::find`. */
  datatype RejectType = ErrorType | CorsForbiddenType | BodyDeserializeType

  predicate HasType(c: Cause, t: RejectType) {
    match t
    case ErrorType => c.Custom?
    case CorsForbiddenType => c.CorsForbidden?
    case BodyDeserializeType => c.BodyDeserializeError?
  }

  /** `r.find::<T>()`: the first cause of type T, if any. */
  function Find(r: Rejection, t: RejectType): (o: Option<Cause>)
    ensures o.None? <==> forall i :: 0 <= i < |r| ==> !HasType(r[i], t)
    ensures o.Some? ==> exists i :: 0 <= i < |r| && r[i] == o.value && HasType(r[i], t) &&
                                    forall j :: 0 <= j < i ==> !HasType(r[j], t)
  {
    if r == [] then None
    else if HasType(r[0], t) then Some(r[0])
    else
      var o := Find(r[1..], t);
      assert forall i :: 1 <= i < |r| ==> r[i] == r[1..][i - 1];
      o
  }

  /** `r.find::<Error>()`, as the first seven branches of `return_error` call it. */
  function FirstError(r: Rejection): (o: Option<Error>)
    ensures o.None? <==> forall i :: 0 <= i < |r| ==> !r[i].Custom?
  {
    match Find(r, ErrorType)
    case Some(c) => Some(c.error)
    case None => None
  }

  datatype Level = WARN | ERROR

  datatype LogEvent = LogEvent(level: Level, message: string)

  datatype StatusReply = StatusReply(body: string, status: int)

  /**
   * What `return_error` does with one rejection: it replies (always `Ok`, with one status
   * and message) after logging one event, or it panics after logging.
   */
  datatype Outcome =
    | Responded(reply: StatusReply, log: LogEvent)
    | Panicked(log: LogEvent, message: string)

  /** A rejection that holds none of the causes `return_error` looks for. */
  ghost predicate Unrecognised(r: Rejection) {
    forall i :: 0 <= i < |r| ==> r[i].OtherRejection?
  }

  /** The first seven branches: the first custom error is one of these variants. */
  predicate Prioritised(e: Error) {
    e.DatabaseQueryError? || e.ReqwestAPIError? || e.Unauthorized? || e.WrongPassword? ||
    e.MiddlewareReqwestAPIError? || e.ClientError? || e.ServerError?
  }

  /** A failure of the moderation provider or of the HTTP client that calls it. */
  predicate ExternalFault(e: Error) {
    e.ReqwestAPIError? || e.MiddlewareReqwestAPIError? || e.ClientError? || e.ServerError?
  }

  /** The four fixed bodies of the 500 replies; none mentions what the provider answered. */
  const GENERIC_SERVER_ERRORS: set<string> :=
    {"Internal server error ONE", "Internal server error.", "Internal server error TWO", "Internal server error THREE"}

  /** A database error whose code `unwrap().parse::<i32>().unwrap()` cannot turn into a number. */
  predicate UnusableCode(e: SqlxError) {
    e.Database? && (e.code.None? || ParseI32(e.code.value).Err?)
  }

  /** The database branch of `return_error`. */
  function DatabaseQueryReply(e: SqlxError): (o: Outcome)
    ensures o.log == LogEvent(ERROR, "Database query error")
    ensures o.Panicked? <==> UnusableCode(e)
    ensures o.Responded? ==> o.reply.status == UNPROCESSABLE_ENTITY
    ensures o.Responded? && o.reply.body == "Account already exists" <==>
              e.Database? && e.code.Some? && ParseI32(e.code.value) == Ok(DUPLICATE_KEY)
    ensures o.Responded? && o.reply.body != "Account already exists" ==> o.reply.body == "Cannot update data"
  {
    var log := LogEvent(ERROR, "Database query error");
    match e
    case Database(code) =>
      if code.None? then Panicked(log, "called `Option::unwrap()` on a `None` value")
      else (
        match ParseI32(code.value)
        case Err(kind) =>
          Panicked(log, "called `Result::unwrap()` on an `Err` value: ParseIntError { kind: " + KindName(kind) + " }")
        case Ok(n) =>
          if n == DUPLICATE_KEY then Responded(StatusReply("Account already exists", UNPROCESSABLE_ENTITY), log)
          else Responded(StatusReply("Cannot update data", UNPROCESSABLE_ENTITY), log))
    case NonDatabase(_) => Responded(StatusReply("Cannot update data", UNPROCESSABLE_ENTITY), log)
  }

  /** `return_error`: the prioritised chain of `find` tests, ending in "Route not found". */
  function ReturnError(r: Rejection): (o: Outcome)
    ensures o.Panicked? <==> FirstError(r).Some? && FirstError(r).value.DatabaseQueryError? &&
                             UnusableCode(FirstError(r).value.sqlx)
    ensures o.Responded? ==>
              o.reply.status in {UNAUTHORIZED, FORBIDDEN, NOT_FOUND, UNPROCESSABLE_ENTITY, INTERNAL_SERVER_ERROR}
    ensures o.log.level == WARN <==> Unrecognised(r)
    ensures o.Responded? && o.reply.status == NOT_FOUND <==> Unrecognised(r)
    ensures FirstError(r).Some? && ExternalFault(FirstError(r).value) ==>
              o.Responded? && o.reply.status == INTERNAL_SERVER_ERROR && o.reply.body in GENERIC_SERVER_ERRORS
  {
    var first := FirstError(r);
    if first.Some? && first.value.DatabaseQueryError? then
      DatabaseQueryReply(first.value.sqlx)
    else if first.Some? && first.value.ReqwestAPIError? then
      Responded(StatusReply("Internal server error ONE", INTERNAL_SERVER_ERROR),
                LogEvent(ERROR, first.value.reqwest.description))
    else if first == Some(Unauthorized) then
      Responded(StatusReply("No permission to change underlying resource", UNAUTHORIZED),
                LogEvent(ERROR, "Not matching accound id"))
    else if first == Some(WrongPassword) then
      Responded(StatusReply("Wrong email/password combination.", UNAUTHORIZED),
                LogEvent(ERROR, "Entered wrong password."))
    else if first.Some? && first.value.MiddlewareReqwestAPIError? then
      Responded(StatusReply("Internal server error.", INTERNAL_SERVER_ERROR),
                LogEvent(ERROR, first.value.middleware.description))
    else if first.Some? && first.value.ClientError? then
      Responded(StatusReply("Internal server error TWO", INTERNAL_SERVER_ERROR),
                LogEvent(ERROR, ApiLayerErrorText(first.value.api)))
    else if first.Some? && first.value.ServerError? then
      Responded(StatusReply("Internal server error THREE", INTERNAL_SERVER_ERROR),
                LogEvent(ERROR, ApiLayerErrorText(first.value.api)))
    else if Find(r, CorsForbiddenType).Some? then
      var text := Find(r, CorsForbiddenType).value.text;
      Responded(StatusReply(text, FORBIDDEN), LogEvent(ERROR, "CORS forbidden error: " + text))
    else if Find(r, BodyDeserializeType).Some? then
      var text := Find(r, BodyDeserializeType).value.text;
      Responded(StatusReply(text, UNPROCESSABLE_ENTITY), LogEvent(ERROR, "Cannot deserizalize request body: " + text))
    else if first.Some? then
      Responded(StatusReply(ErrorText(first.value), UNPROCESSABLE_ENTITY), LogEvent(ERROR, ErrorText(first.value)))
    else
      Responded(StatusReply("Route not found", NOT_FOUND), LogEvent(WARN, "Requested route was not found"))
  }

  /** The status each kind of cause is answered with when it is alone in a rejection. */
  function CauseStatus(c: Cause): int {
    match c
    case Custom(e) =>
      if e.Unauthorized? || e.WrongPassword? then UNAUTHORIZED
      else if ExternalFault(e) then INTERNAL_SERVER_ERROR
      else UNPROCESSABLE_ENTITY
    case CorsForbidden(_) => FORBIDDEN
    case BodyDeserializeError(_) => UNPROCESSABLE_ENTITY
    case OtherRejection(_) => NOT_FOUND
  }

  /** A rejection of one cause is answered with the status of that cause's kind. */
  lemma SingleCauseStatus(c: Cause)
    ensures ReturnError([c]).Responded? ==> ReturnError([c]).reply.status == CauseStatus(c)
    ensures ReturnError([c]).Panicked? ==> c.Custom? && c.error.DatabaseQueryError?
  {
  }

  /** The branches whose replies carry no detail answer with fixed texts, whatever else the rejection holds. */
  lemma FixedReplies(r: Rejection)
    ensures FirstError(r) == Some(Unauthorized) ==>
              ReturnError(r) == Responded(StatusReply("No permission to change underlying resource", UNAUTHORIZED),
                                          LogEvent(ERROR, "Not matching accound id"))
    ensures FirstError(r) == Some(WrongPassword) ==>
              ReturnError(r) == Responded(StatusReply("Wrong email/password combination.", UNAUTHORIZED),
                                          LogEvent(ERROR, "Entered wrong password."))
    ensures Unrecognised(r) ==>
              ReturnError(r) == Responded(StatusReply("Route not found", NOT_FOUND), LogEvent(WARN, "Requested route was not found"))
  {
  }

  /** The first custom error of a rejection is the one at the first index holding one. */
  lemma {:induction false} FirstErrorAt(r: Rejection, i: nat)
    requires i < |r| && r[i].Custom?
    requires forall j :: 0 <= j < i ==> !r[j].Custom?
    ensures FirstError(r) == Some(r[i].error)
    decreases i
  {
    if i > 0 {
      assert !r[0].Custom?;
      assert r[1..][i - 1] == r[i];
      FirstErrorAt(r[1..], i - 1);
    }
  }

  /**
   * The database branch comes first: when the first custom error of a rejection is a
   * DatabaseQueryError, every other cause is ignored.
   */
  lemma DatabaseErrorWins(r: Rejection, i: nat, e: SqlxError)
    requires i < |r| && r[i] == Custom(DatabaseQueryError(e))
    requires forall j :: 0 <= j < i ==> !r[j].Custom?
    ensures ReturnError(r) == DatabaseQueryReply(e) == ReturnError(Reject(DatabaseQueryError(e)))
  {
    FirstErrorAt(r, i);
  }

  /** The priority is among the first custom error only: an earlier Unauthorized shadows a database error. */
  lemma EarlierErrorShadowsDatabase(e: SqlxError)
    ensures ReturnError([Custom(Unauthorized), Custom(DatabaseQueryError(e))]) ==
            Responded(StatusReply("No permission to change underlying resource", UNAUTHORIZED),
                      LogEvent(ERROR, "Not matching accound id"))
  {
    FirstErrorAt([Custom(Unauthorized), Custom(DatabaseQueryError(e))], 0);
  }

  /** The index of the first cause of type t, when there is one. */
  lemma FirstIndexOf(r: Rejection, t: RejectType) returns (i: nat)
    requires Find(r, t).Some?
    ensures i < |r| && r[i] == Find(r, t).value && HasType(r[i], t)
  {
    i :| 0 <= i < |r| && r[i] == Find(r, t).value && HasType(r[i], t) &&
         forall j :: 0 <= j < i ==> !HasType(r[j], t);
  }

  lemma ErrorCauseDecides(r: Rejection, i: nat)
    requires i < |r| && r[i].Custom? && FirstError(r) == Some(r[i].error)
    requires Prioritised(r[i].error) || (Find(r, CorsForbiddenType).None? && Find(r, BodyDeserializeType).None?)
    ensures ReturnError(r) == ReturnError([r[i]])
  {
    FirstErrorAt([r[i]], 0);
  }

  /** With no prioritised custom error, a CORS refusal is answered 403 with its own text. */
  lemma CorsBranch(r: Rejection)
    requires Find(r, CorsForbiddenType).Some?
    requires FirstError(r).None? || !Prioritised(FirstError(r).value)
    ensures var text := Find(r, CorsForbiddenType).value.text;
            ReturnError(r) == Responded(StatusReply(text, FORBIDDEN), LogEvent(ERROR, "CORS forbidden error: " + text))
  {
  }

  /** With no prioritised custom error and no CORS refusal, a body error is answered 422 with its own text. */
  lemma BodyBranch(r: Rejection)
    requires Find(r, BodyDeserializeType).Some? && Find(r, CorsForbiddenType).None?
    requires FirstError(r).None? || !Prioritised(FirstError(r).value)
    ensures var text := Find(r, BodyDeserializeType).value.text;
            ReturnError(r) == Responded(StatusReply(text, UNPROCESSABLE_ENTITY),
                                        LogEvent(ERROR, "Cannot deserizalize request body: " + text))
  {
  }

  lemma CorsCauseDecides(r: Rejection, k: nat)
    requires k < |r| && Find(r, CorsForbiddenType) == Some(r[k])
    requires FirstError(r).None? || !Prioritised(FirstError(r).value)
    ensures ReturnError(r) == ReturnError([r[k]])
  {
    assert FirstError([r[k]]).None?;
    assert Find([r[k]], CorsForbiddenType) == Some(r[k]);
    CorsBranch(r);
    CorsBranch([r[k]]);
  }

  lemma BodyCauseDecides(r: Rejection, k: nat)
    requires k < |r| && Find(r, BodyDeserializeType) == Some(r[k]) && Find(r, CorsForbiddenType).None?
    requires FirstError(r).None? || !Prioritised(FirstError(r).value)
    ensures ReturnError(r) == ReturnError([r[k]])
  {
    assert FirstError([r[k]]).None?;
    assert Find([r[k]], CorsForbiddenType).None?;
    assert Find([r[k]], BodyDeserializeType) == Some(r[k]);
    BodyBranch(r);
    BodyBranch([r[k]]);
  }

  /** However many causes a rejection holds, its reply is the reply to one of them alone. */
  lemma OneCauseDecides(r: Rejection)
    ensures Unrecognised(r) || exists i :: 0 <= i < |r| && ReturnError(r) == ReturnError([r[i]])
  {
    var first := FirstError(r);
    var cors := Find(r, CorsForbiddenType);
    var body := Find(r, BodyDeserializeType);
    if first.Some? && (Prioritised(first.value) || (cors.None? && body.None?)) {
      var i := FirstIndexOf(r, ErrorType);
      ErrorCauseDecides(r, i);
    } else if cors.Some? {
      var k := FirstIndexOf(r, CorsForbiddenType);
      CorsCauseDecides(r, k);
    } else if body.Some? {
      var k := FirstIndexOf(r, BodyDeserializeType);
      BodyCauseDecides(r, k);
    }
  }

  /** The four remaining variants fall through to 422 with their `Display` text, unless a CORS or body cause is present. */
  lemma FallThroughShowsDisplay(r: Rejection, e: Error)
    requires FirstError(r) == Some(e) && !Prioritised(e)
    requires Find(r, CorsForbiddenType).None? && Find(r, BodyDeserializeType).None?
    ensures ReturnError(r) == Responded(StatusReply(ErrorText(e), UNPROCESSABLE_ENTITY), LogEvent(ERROR, ErrorText(e)))
    ensures e == CannotDecryptToken ==> ReturnError(r).reply == StatusReply("Cannot decrypt token", UNPROCESSABLE_ENTITY)
  {
  }

  /** A failing moderation provider gets a fixed 500 reply; its status and message reach only the log. */
  lemma ProviderDetailOnlyLogged(a: ApiLayerError, b: ApiLayerError)
    ensures ReturnError(Reject(ClientError(a))).reply == ReturnError(Reject(ClientError(b))).reply ==
            StatusReply("Internal server error TWO", INTERNAL_SERVER_ERROR)
    ensures ReturnError(Reject(ServerError(a))).reply == ReturnError(Reject(ServerError(b))).reply ==
            StatusReply("Internal server error THREE", INTERNAL_SERVER_ERROR)
    ensures ReturnError(Reject(ClientError(a))).log == LogEvent(ERROR, ApiLayerErrorText(a))
    ensures ReturnError(Reject(ServerError(a))).log == LogEvent(ERROR, ApiLayerErrorText(a))
  {
  }

  /** SQLSTATE 23505 (`unique_violation`) is answered as a duplicate account. */
  lemma UniqueViolationReply()
    ensures DatabaseQueryReply(Database(Some("23505"))).reply == StatusReply("Account already exists", UNPROCESSABLE_ENTITY)
  {
    NatTextStep(2, 3);
    NatTextStep(23, 5);
    NatTextStep(235, 0);
    NatTextStep(2350, 5);
    assert I32Text(23505) == "23505";
    I32TextRoundTrip(23505);
  }

  /** SQLSTATE 23503 (`foreign_key_violation`) is answered as a generic failed update. */
  lemma ForeignKeyViolationReply()
    ensures DatabaseQueryReply(Database(Some("23503"))).reply == StatusReply("Cannot update data", UNPROCESSABLE_ENTITY)
  {
    NatTextStep(2, 3);
    NatTextStep(23, 5);
    NatTextStep(235, 0);
    NatTextStep(2350, 3);
    assert I32Text(23503) == "23503";
    I32TextRoundTrip(23503);
  }

  /** SQLSTATE 42P01 (`undefined_table`) is not a decimal number: the responder panics on it. */
  lemma UnusableSqlStatePanics()
    ensures DatabaseQueryReply(Database(Some("42P01"))).Panicked?
    ensures DatabaseQueryReply(Database(None)).Panicked?
  {
    assert !IsDigit("42P01"[2]);
    assert SignAndDigits("42P01", true).1 == "42P01";
  }

  /**
   * The responder with the database branch made total: a code that is missing or not
   * a number is answered like any other failed query, instead of panicking.
   */
  function ReturnErrorChecked(r: Rejection): (o: Outcome)
    ensures o.Responded?
    ensures !ReturnError(r).Panicked? ==> o == ReturnError(r)
    ensures ReturnError(r).Panicked? ==>
              o == Responded(StatusReply("Cannot update data", UNPROCESSABLE_ENTITY), ReturnError(r).log)
  {
    match ReturnError(r)
    case Panicked(log, _) => Responded(StatusReply("Cannot update data", UNPROCESSABLE_ENTITY), log)
    case Responded(reply, log) => Responded(reply, log)
  }

  /** The corrected responder still tells a duplicate apart from every other database failure. */
  lemma CheckedDuplicateDistinct(r: Rejection)
    requires FirstError(r).Some? && FirstError(r).value.DatabaseQueryError?
    ensures var e := FirstError(r).value.sqlx;
            ReturnErrorChecked(r).reply.status == UNPROCESSABLE_ENTITY &&
            (ReturnErrorChecked(r).reply.body == "Account already exists" <==>
              e.Database? && e.code.Some? && ParseI32(e.code.value) == Ok(DUPLICATE_KEY))
    ensures ReturnErrorChecked(r).reply.body != "Account already exists" ==>
              ReturnErrorChecked(r).reply.body == "Cannot update data"
  {
  }
}
