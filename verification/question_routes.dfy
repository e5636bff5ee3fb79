/**
 * The question handlers. Each one calls the store (and, for a new question, the
 * moderation gateway) and turns the answer into a reply or a rejection.
 *
 * The store's queries, `check_profanity` and `extract_pagination` are not part of this
 * model; their answers are given as functions of everything asked of them before, and
 * the objects that stand for them record every call, so that what a handler does NOT
 * call can be stated.
 */
module QuestionRoutes {
  import opened Basics
  import opened IntText
  import opened HandleErrors
  import opened Types

  const OK: int := 200

  /** The page of questions to list: an optional limit and an offset. */
  datatype Pagination = Pagination(limit: Option<int>, offset: int)

  /** A call made on the store, with its arguments. */
  datatype StoreCall =
    | GetQuestionsCall(limit: Option<int>, offset: int)
    | AddQuestionCall(newQuestion: NewQuestion)
    | UpdateQuestionCall(question: Question, id: I32)
    | DeleteQuestionCall(id: I32)

  /** How the database answers each query, given the calls made before it. */
  datatype Backend = Backend(
    list: (seq<StoreCall>, Option<int>, int) -> Result<seq<Question>, Error>,
    add: (seq<StoreCall>, NewQuestion) -> Result<Question, Error>,
    update: (seq<StoreCall>, Question, I32) -> Result<Question, Error>,
    delete: (seq<StoreCall>, I32) -> Result<(), Error>)

  /** The store handed to every handler: it forwards each query and records it. */
  class Store {
    var calls: seq<StoreCall>
    const backend: Backend

    constructor (backend: Backend)
      ensures this.backend == backend && calls == []
    {
      this.backend := backend;
      calls := [];
    }

    method GetQuestions(limit: Option<int>, offset: int) returns (r: Result<seq<Question>, Error>)
      modifies this
      ensures calls == old(calls) + [GetQuestionsCall(limit, offset)]
      ensures r == backend.list(old(calls), limit, offset)
    {
      r := backend.list(calls, limit, offset);
      calls := calls + [GetQuestionsCall(limit, offset)];
    }

    method AddQuestion(newQuestion: NewQuestion) returns (r: Result<Question, Error>)
      modifies this
      ensures calls == old(calls) + [AddQuestionCall(newQuestion)]
      ensures r == backend.add(old(calls), newQuestion)
    {
      r := backend.add(calls, newQuestion);
      calls := calls + [AddQuestionCall(newQuestion)];
    }

    method UpdateQuestion(question: Question, id: I32) returns (r: Result<Question, Error>)
      modifies this
      ensures calls == old(calls) + [UpdateQuestionCall(question, id)]
      ensures r == backend.update(old(calls), question, id)
    {
      r := backend.update(calls, question, id);
      calls := calls + [UpdateQuestionCall(question, id)];
    }

    method DeleteQuestion(id: I32) returns (r: Result<(), Error>)
      modifies this
      ensures calls == old(calls) + [DeleteQuestionCall(id)]
      ensures r == backend.delete(old(calls), id)
    {
      r := backend.delete(calls, id);
      calls := calls + [DeleteQuestionCall(id)];
    }
  }

  /** The moderation gateway (`check_profanity`): the texts sent so far and how it answers the next. */
  class Moderator {
    var checked: seq<string>
    const verdict: (seq<string>, string) -> Result<string, Error>

    constructor (verdict: (seq<string>, string) -> Result<string, Error>)
      ensures this.verdict == verdict && checked == []
    {
      this.verdict := verdict;
      checked := [];
    }

    method CheckProfanity(text: string) returns (r: Result<string, Error>)
      modifies this
      ensures checked == old(checked) + [text]
      ensures r == verdict(old(checked), text)
    {
      r := verdict(checked, text);
      checked := checked + [text];
    }
  }

  /** `Pagination::default()` and `extract_pagination`. */
  datatype Paging = Paging(defaults: Pagination, extract: map<string, string> -> Result<Pagination, Error>)

  /** A successful reply: a JSON list of questions, one JSON question, or a text with a status. */
  datatype Reply = QuestionsJson(questions: seq<Question>) | QuestionJson(question: Question) | WithStatus(body: string, status: int)

  /** The text of a successful delete, which names the deleted id so that it can be read back. */
  function DeletedMessage(id: I32): (s: string)
    ensures |s| >= 17 && s[..9] == "Question " && s[|s| - 8..] == " deleted"
    ensures ParseI32(s[9..|s| - 8]) == Ok(id)
  {
    var s := "Question " + I32Text(id) + " deleted";
    assert s[9..|s| - 8] == I32Text(id);
    I32TextRoundTrip(id);
    s
  }

  /** `get_questions`: the default page unless query parameters were given, then the store. */
  method GetQuestions(params: map<string, string>, store: Store, paging: Paging) returns (r: Result<Reply, Rejection>)
    modifies store
    ensures |params| != 0 && paging.extract(params).Err? ==>
              r == Err(Reject(paging.extract(params).error)) && store.calls == old(store.calls)
    ensures |params| == 0 || paging.extract(params).Ok? ==>
              var page := if |params| == 0 then paging.defaults else paging.extract(params).value;
              var res := store.backend.list(old(store.calls), page.limit, page.offset);
              && store.calls == old(store.calls) + [GetQuestionsCall(page.limit, page.offset)]
              && r == (if res.Ok? then Ok(QuestionsJson(res.value)) else Err(Reject(res.error)))
  {
    var pagination := paging.defaults;
    if |params| != 0 {
      var extracted := paging.extract(params);
      if extracted.Err? {
        return Err(Reject(extracted.error));
      }
      pagination := extracted.value;
    }
    var res := store.GetQuestions(pagination.limit, pagination.offset);
    match res {
      case Ok(questions) => r := Ok(QuestionsJson(questions));
      case Err(e) => r := Err(Reject(e));
    }
  }

  /**
   * `add_question`: moderate the title, then the content, then store the question with
   * both moderated texts and the original tags. The first failure is returned as it is,
   * and nothing after it runs: no content check after a failed title, no store call
   * after either failure.
   */
  method AddQuestion(store: Store, moderator: Moderator, newQuestion: NewQuestion) returns (r: Result<Reply, Rejection>)
    modifies store, moderator
    ensures var title := moderator.verdict(old(moderator.checked), newQuestion.title);
            title.Err? ==>
              && r == Err(Reject(title.error))
              && moderator.checked == old(moderator.checked) + [newQuestion.title]
              && store.calls == old(store.calls)
    ensures var title := moderator.verdict(old(moderator.checked), newQuestion.title);
            var content := moderator.verdict(old(moderator.checked) + [newQuestion.title], newQuestion.content);
            title.Ok? ==>
              && moderator.checked == old(moderator.checked) + [newQuestion.title, newQuestion.content]
              && (content.Err? ==> r == Err(Reject(content.error)) && store.calls == old(store.calls))
              && (content.Ok? ==>
                    var cleaned := NewQuestion(title.value, content.value, newQuestion.tags);
                    var res := store.backend.add(old(store.calls), cleaned);
                    && store.calls == old(store.calls) + [AddQuestionCall(cleaned)]
                    && r == (if res.Ok? then Ok(QuestionJson(res.value)) else Err(Reject(res.error))))
  {
    var title := moderator.CheckProfanity(newQuestion.title);
    if title.Err? {
      return Err(Reject(title.error));
    }
    var content := moderator.CheckProfanity(newQuestion.content);
    if content.Err? {
      return Err(Reject(content.error));
    }
    var question := NewQuestion(title.value, content.value, newQuestion.tags);
    var res := store.AddQuestion(question);
    match res {
      case Ok(saved) => r := Ok(QuestionJson(saved));
      case Err(e) => r := Err(Reject(e));
    }
  }

  /** `update_question`: the id and the body go to the store unchanged; nothing is moderated or checked first. */
  method UpdateQuestion(id: I32, store: Store, question: Question) returns (r: Result<Reply, Rejection>)
    modifies store
    ensures store.calls == old(store.calls) + [UpdateQuestionCall(question, id)]
    ensures var res := store.backend.update(old(store.calls), question, id);
            r == (if res.Ok? then Ok(QuestionJson(res.value)) else Err(Reject(res.error)))
  {
    var res := store.UpdateQuestion(question, id);
    match res {
      case Ok(updated) => r := Ok(QuestionJson(updated));
      case Err(e) => r := Err(Reject(e));
    }
  }

  /** `delete_question`: on success a 200 reply naming the id, otherwise the store's error. */
  method DeleteQuestion(id: I32, store: Store) returns (r: Result<Reply, Rejection>)
    modifies store
    ensures store.calls == old(store.calls) + [DeleteQuestionCall(id)]
    ensures var res := store.backend.delete(old(store.calls), id);
            r == (if res.Ok? then Ok(WithStatus(DeletedMessage(id), OK)) else Err(Reject(res.error)))
  {
    var res := store.DeleteQuestion(id);
    match res {
      case Ok(_) => r := Ok(WithStatus(DeletedMessage(id), OK));
      case Err(e) => r := Err(Reject(e));
    }
  }

  /** Whatever the moderation gateway fails with, the client is answered 500 with a fixed text, by either responder. */
  lemma ModerationFailureAnswered(e: Error)
    requires ExternalFault(e)
    ensures ReturnError(Reject(e)).Responded?
    ensures ReturnError(Reject(e)).reply.status == INTERNAL_SERVER_ERROR
    ensures ReturnError(Reject(e)).reply.body in GENERIC_SERVER_ERRORS
    ensures ReturnErrorChecked(Reject(e)) == ReturnError(Reject(e))
  {
    FirstErrorAt(Reject(e), 0);
  }

  /**
   * A question submitted to a gateway that accepts every text unchanged and a store that
   * gives the first question id 1 is stored as submitted and returned with that id.
   */
  method EchoScenario() returns (r: Result<Reply, Rejection>, calls: seq<StoreCall>, checked: seq<string>)
    ensures calls == [AddQuestionCall(NewQuestion("Hi", "World", None))]
    ensures checked == ["Hi", "World"]
    ensures r == Ok(QuestionJson(Question(QuestionId(1), "Hi", "World", None)))
  {
    var backend := Backend(
      (h: seq<StoreCall>, limit: Option<int>, offset: int) => Ok([]),
      (h: seq<StoreCall>, q: NewQuestion) => Ok(Question(QuestionId(if |h| < I32_MAX then |h| + 1 else I32_MAX), q.title, q.content, q.tags)),
      (h: seq<StoreCall>, q: Question, id: I32) => Ok(q),
      (h: seq<StoreCall>, id: I32) => Ok(()));
    var store := new Store(backend);
    var moderator := new Moderator((h: seq<string>, text: string) => Ok(text));
    r := AddQuestion(store, moderator, NewQuestion("Hi", "World", None));
    calls := store.calls;
    checked := moderator.checked;
  }
}
