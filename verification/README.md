# Question-and-answer web service: error responder, configuration and question handlers

This project models, in Dafny, the core of a small question-and-answer web service
built on warp and PostgreSQL:

- **The error crate** (`handle-errors`): the service-wide `Error` enum, the
  `APILayerError` record of the moderation provider, both `Display` texts, the
  `DUPLICATE_KEY` constant and `return_error`, the responder that turns every rejected
  request into an HTTP status, a body text and one log event.
- **Start-up configuration** (`Config::new`): environment variables laid over what the
  command line parser produced, with the two `u16` parses it performs.
- **The question handlers** (`get_questions`, `add_question`, `update_question`,
  `delete_question`): what each asks of the store and of the moderation gateway, in
  what order, and what it replies or rejects with.

Module layout:

| file | module | contents |
|---|---|---|
| `basics.dfy` | `Basics` | `Option` and `Result` |
| `int_text.dfy` | `IntText` | Rust's `str::parse` for `u16` and `i32`, and decimal `to_string` |
| `handle_errors.dfy` | `HandleErrors` | the error types, their texts, rejections and `return_error` |
| `config.dfy` | `Configuration` | `Config` and `Config::new` |
| `types.dfy` | `Types` | the question, answer, account and session records |
| `question_routes.dfy` | `QuestionRoutes` | the store and moderation gateway as recording objects, and the four handlers |

How the pieces are represented:

- A warp `Rejection` is a sequence of causes: custom errors, a CORS refusal, a body that
  did not deserialize, or anything else (an unmatched route, a wrong method).
  `Rejection::find::<T>()` is the first cause of type `T`.
- `return_error` returns an `Outcome`: either a reply (body and status) with the one log
  event it emits (level and message), or a panic with the log event emitted before it
  and the panic message.
- `Config::new` is a function from the environment (a map of names to values) and the
  parsed command line to a configuration, a `ParseError`, or a panic with its message.
- `str::parse::<u16>()` and `str::parse::<i32>()` follow the standard library's
  `from_str_radix`:
  - an empty string is `Empty`;
  - a leading `+` is accepted;
  - a leading `-` is accepted only for `i32`;
  - a lone sign is `InvalidDigit`;
  - digits are read left to right, and the first bad digit or overflow decides the error.

  Their meaning is proved against a reference definition: the result is `Ok` exactly when
  the text is a literal whose value is in range, and that value is the literal's value.
- The store and the moderation gateway are objects that record every call made on them
  (`Store.calls`, `Moderator.checked`). They answer through functions of everything asked
  before, so any database or moderation behaviour can be plugged in. The handlers are
  methods over them. Their contracts give the new call log in full, so they say which
  calls a handler makes and in what order, and which it does not make after a failure.

Where the service's documentation and the code disagree, the model follows the code:

- `CannotDecryptToken` has no branch of its own in `return_error`. It falls through to
  the generic custom-error branch and is answered 422 with "Cannot decrypt token", not
  401.
- Every branch of `return_error` logs at ERROR, except the route-not-found branch, which
  logs at WARN.
- Only the first custom error of a rejection is ever looked at. If a rejection carries
  `Unauthorized` first and a database error second, it is answered 401; the database
  branch is never taken.
- `update_question` sends neither the title nor the content to the moderation gateway: an
  update is stored as submitted, unlike a new question (`QuestionRoutes.UpdateQuestion`
  gives the store call as the only call made).

## Model

| member | source | states |
|---|---|---|
| IntText.Accumulate | src/config.rs:50 | the digit loop of `from_str_radix`: on success every character is a digit and the value lies in the target range; a failure is never `Empty` |
| IntText.AccumulateValue | src/config.rs:50 | on all-digit text, the digit loop equals its reference definition: the overflow in its direction when the value leaves the range, and the value otherwise |
| IntText.AccumulateReads | src/config.rs:50 | on any text, the digits before the first non-digit are read as the reference reading says; if they leave the range that overflow is reported, otherwise a non-digit after them is `InvalidDigit` |
| IntText.ParseIntMeaning | src/config.rs:48-52 | a parse succeeds exactly on an in-range literal, with the literal's value; it fails with `Empty` exactly on the empty text; an all-digit literal out of range fails with an overflow of the right sign; it fails with `InvalidDigit` exactly on a lone sign or a non-digit reached before the range is left |
| IntText.ParseU16 | src/config.rs:66-68 | `parse::<u16>()`: `Ok` exactly on a u16 literal (no minus sign), with its value; `Empty` exactly on ""; `InvalidDigit` exactly on a lone sign or a non-digit reached in range |
| IntText.ParseI32 | handle-errors/src/lib.rs:76 | `parse::<i32>()`: `Ok` exactly on an i32 literal, with its value; `Empty` exactly on ""; `InvalidDigit` exactly on a lone sign or a non-digit reached in range |
| IntText.NatText | src/config.rs:57 | `to_string` of an unsigned number: non-empty, all digits, denotes the number, and starts with '0' only for zero |
| IntText.I32Text | src/routes/question.rs:198 | `{}` formatting of an i32: non-empty, with a leading '-' exactly for negative numbers |
| IntText.U16TextRoundTrip | src/config.rs:57-68 | parsing the decimal text of a u16 gives back the same u16 |
| IntText.I32TextRoundTrip | src/routes/question.rs:198 | parsing the decimal text of an i32 gives back the same i32 |
| HandleErrors.Reject | src/routes/question.rs:71 | `warp::reject::custom(e)`: `find::<Error>()` on it yields `e`, and it holds no CORS refusal and no body error |
| HandleErrors.ApiLayerTextInjective | handle-errors/src/lib.rs:37-41 | the `Display` text of a provider error, "Status: " + status + ", Message: " + message, determines both the status and the message: different errors never print alike |
| HandleErrors.DisplayIdentifiesFallThrough | handle-errors/src/lib.rs:43-62 | among the errors without a reply of their own, equal `Display` texts mean equal errors, except that the argon2 detail is never printed |
| HandleErrors.Find | handle-errors/src/lib.rs:133-145 | `find::<T>()` is `None` exactly when no cause has type T, and otherwise the first cause of type T |
| HandleErrors.FirstError | handle-errors/src/lib.rs:72-127 | `find::<Error>()` is `None` exactly when no cause is a custom error |
| HandleErrors.DatabaseQueryReply | handle-errors/src/lib.rs:72-92 | a database failure always logs "Database query error" at ERROR; it panics exactly when the error carries no code or a code that is not an i32; otherwise it is answered 422, with "Account already exists" exactly when the code is 23505 and "Cannot update data" for every other code and every non-database sqlx error |
| HandleErrors.ReturnError | handle-errors/src/lib.rs:69-157 | the status is one of 401, 403, 404, 422, 500; it panics exactly on a first custom error that is a database error with an unusable code; it answers 404 and logs at WARN exactly when no cause is a custom error, a CORS refusal or a body error; an external-call or moderation failure gives 500 with one of four fixed texts |
| HandleErrors.SingleCauseStatus | handle-errors/src/lib.rs:69-157 | a one-cause rejection is answered with the status of that cause's kind, and only a database error can panic |
| HandleErrors.FixedReplies | handle-errors/src/lib.rs:103-156 | whatever else a rejection holds, a first custom error `Unauthorized` gets 401 "No permission to change underlying resource", `WrongPassword` gets 401 "Wrong email/password combination.", each with its log line; a rejection with no recognised cause gets 404 "Route not found" and a WARN log |
| HandleErrors.FirstErrorAt | handle-errors/src/lib.rs:72-127 | the custom error examined is the one at the lowest index holding a custom error |
| HandleErrors.DatabaseErrorWins | handle-errors/src/lib.rs:72-92 | when the first custom error is a database error, the reply is the database branch's, whatever else the rejection holds |
| HandleErrors.EarlierErrorShadowsDatabase | handle-errors/src/lib.rs:72-108 | an `Unauthorized` cause before a database error gets 401 "No permission to change underlying resource"; the database branch does not run |
| HandleErrors.ErrorCauseDecides | handle-errors/src/lib.rs:72-150 | the first custom error decides the reply when it has a branch of its own, or when no CORS or body cause is present |
| HandleErrors.CorsCauseDecides | handle-errors/src/lib.rs:133-138 | otherwise the first CORS refusal decides the reply |
| HandleErrors.BodyCauseDecides | handle-errors/src/lib.rs:139-144 | otherwise, with no CORS refusal, the first body error decides the reply |
| HandleErrors.OneCauseDecides | handle-errors/src/lib.rs:69-157 | every rejection that is not an unmatched route is answered exactly as one of its causes alone would be |
| HandleErrors.FallThroughShowsDisplay | handle-errors/src/lib.rs:145-150 | the variants without a branch of their own are answered 422 with their `Display` text, which is also logged; for `CannotDecryptToken` that is "Cannot decrypt token" |
| HandleErrors.ProviderDetailOnlyLogged | handle-errors/src/lib.rs:121-132 | a moderation client or server error gets a fixed 500 reply, whatever the provider's status and message; they reach only the log, as "Status: …, Message: …" |
| HandleErrors.UniqueViolationReply | handle-errors/src/lib.rs:67-80 | SQLSTATE 23505 is answered 422 "Account already exists" |
| HandleErrors.ForeignKeyViolationReply | handle-errors/src/lib.rs:81-86 | SQLSTATE 23503 is answered 422 "Cannot update data" |
| HandleErrors.UnusableSqlStatePanics | handle-errors/src/lib.rs:76 | SQLSTATE 42P01, and a database error without a code, make the responder panic |
| HandleErrors.ReturnErrorChecked | handle-errors/src/lib.rs:72-92 | the corrected responder always replies; it agrees with `return_error` wherever that does not panic, and answers 422 "Cannot update data" where it does |
| HandleErrors.CheckedDuplicateDistinct | handle-errors/src/lib.rs:72-92 | under the corrected responder a database failure is always 422, "Account already exists" exactly when its code parses to 23505, and "Cannot update data" otherwise |
| Configuration.MinimalEnvLoadsDefaults | src/config.rs:9-71 | with only the two keys and the password set, the configuration is clap's defaults (log level "warn", port 8080, user "omid", host "localhost", database port 5432, database "rustwebdev") with the environment's password |
| Configuration.NewConfig | src/config.rs:34-71 | it panics exactly when the API key or the token key is missing, or when PORT is fine and POSTGRES_PASSWORD is missing; every error is a `ParseError`; a loaded password is the environment's, and the log level is the command line's |
| Configuration.MissingApiKeyPanicsFirst | src/config.rs:40-42 | without BAD_WORDS_API_KEY it panics with "BadWords API key not set.", whatever else is set |
| Configuration.MissingPasetoKeyPanics | src/config.rs:44-46 | with the API key but without PASETO_KEY it panics with "Paseto key not set." |
| Configuration.CompleteEnvLoads | src/config.rs:48-71 | with both keys, a password and well-formed ports, it loads, and every field is the environment's value when set; otherwise the port is 8080 and the other fields are the command line's |
| Configuration.InvalidPortFails | src/config.rs:48-52 | a PORT that is not a u16 literal is a `ParseError` with the parse's own kind (`Empty` for ""), before the password is looked up |
| Configuration.CliPasswordUnused | src/config.rs:55 | the command line's database password never affects the outcome |
| Configuration.InvalidDbPortFails | src/config.rs:66-68 | a POSTGRES_PORT that is not a u16 literal is a `ParseError` with the parse's kind |
| Configuration.TestEnvPanics | src/config.rs:78-101 | with nothing set, and with the test's environment, `Config::new` panics, the latter with "Paseto key not set." |
| Configuration.TestEnvWithPasetoKeyLoads | src/config.rs:103-115 | with the test's environment plus PASETO_KEY, it returns exactly the record the test expects |
| QuestionRoutes.Store.GetQuestions | src/routes/question.rs:66-68 | records the listing query and returns the database's answer to it |
| QuestionRoutes.Store.AddQuestion | src/routes/question.rs:160 | records the insert and returns the database's answer to it |
| QuestionRoutes.Store.UpdateQuestion | src/routes/question.rs:178 | records the update and returns the database's answer to it |
| QuestionRoutes.Store.DeleteQuestion | src/routes/question.rs:196 | records the delete and returns the database's answer to it |
| QuestionRoutes.Moderator.CheckProfanity | src/routes/question.rs:92 | records the text sent for moderation and returns the gateway's verdict on it |
| QuestionRoutes.DeletedMessage | src/routes/question.rs:196-200 | the delete reply reads "Question " + id + " deleted", and the id parses back out of it |
| QuestionRoutes.GetQuestions | src/routes/question.rs:52-72 | without query parameters the default page is listed; with them, a pagination error rejects and the store is not called; otherwise exactly one listing query with the extracted limit and offset is made, and its answer is replied as JSON or rejected |
| QuestionRoutes.AddQuestion | src/routes/question.rs:88-163 | the title is moderated, then the content; a failed title stops before the content is sent; either failure rejects with that error and makes no store call; otherwise exactly one insert is made, of the moderated title and content with the original tags, and its answer is replied or rejected |
| QuestionRoutes.UpdateQuestion | src/routes/question.rs:173-181 | exactly one update is made, with the body and id unchanged, and its answer is replied or rejected |
| QuestionRoutes.DeleteQuestion | src/routes/question.rs:195-202 | exactly one delete is made; success is a 200 reply naming the id, failure rejects with the store's error |
| QuestionRoutes.ModerationFailureAnswered | src/routes/question.rs:92-106 | a moderation failure rejected by `add_question` reaches the client as 500 with one of the fixed server-error texts, under the corrected responder too |
| QuestionRoutes.EchoScenario | src/routes/question.rs:88-163 | with a gateway that accepts every text unchanged, a new question is moderated title-then-content, stored unchanged, and returned with the id the store gave it |

## Left out

- `tracing` output other than the one `event!` of `return_error`: the `#[instrument]` spans and the INFO events of `get_questions` are not modelled. The `println!` of each moderation verdict in `add_question` is not modelled either.
- Asynchrony and concurrency: every `.await` is taken as an ordinary call that returns once, in program order.
- The store's SQL queries are not part of this model; `src/store.rs` as given holds only the connection pool. The database's answers are an input function of the calls made before.
- The moderation client (`check_profanity`) and `extract_pagination` with `Pagination::default()` are not part of this model, and neither are the authentication routes (`auth`, token encryption, password hashing). Their answers are inputs.
- The `Session` that `src/main.rs` passes to the question routes after `auth()` does not appear in the handlers' signatures, so no ownership check is modelled. `src/main.rs` also names an `Error::MigrationError` that the enum does not declare. The routing and wiring of `src/main.rs` is not part of this model.
- `src/routes/answer.rs` and the integration tests are not part of this model. Their records are in `Types`.
- The texts of the library errors wrapped by `Error` (argon2, reqwest, reqwest-middleware, sqlx) are a free description string. Only the SQLSTATE code of a sqlx database error is modelled, because `return_error` reads it.
- `env::var` failing on a value that is not valid Unicode is not modelled: the environment maps names to strings.
- HTTP headers and JSON serialization are not modelled: a JSON reply is the value it serializes.
- QuestionRoutes.Store.GetQuestions: the `limit` and `offset` types of the listing query are not shown, so they are unbounded integers.

## Findings

| source | as written | input that shows it | evidently intended | confidence | as-written member | corrected member |
|---|---|---|---|---|---|---|
| handle-errors/src/lib.rs:76 | `err.code().unwrap().parse::<i32>().unwrap()` panics when a database error has no code or a code that is not a decimal number | a query failing with SQLSTATE `42P01` (undefined table), or any of the many SQLSTATEs with letters | a failed query is answered 422 "Cannot update data", and only 23505 is answered "Account already exists" | high for the panic (SQLSTATEs are five characters from digits and upper-case letters), not executed | HandleErrors.UnusableSqlStatePanics | HandleErrors.ReturnErrorChecked |
| src/config.rs:80 | the test's environment leaves `PASETO_KEY` commented out, so `Config::new().unwrap()` at line 113 meets the "Paseto key not set." panic instead of returning the expected record | the environment of `set_env` (lines 78-86) | the test sets `PASETO_KEY` too and `Config::new` returns the record of lines 103-111 | high, not executed | Configuration.TestEnvPanics | Configuration.TestEnvWithPasetoKeyLoads |
