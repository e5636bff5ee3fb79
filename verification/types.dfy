/** The records the service exchanges: questions, answers, accounts and sessions. */
module Types {
  import opened Basics
  import opened IntText

  datatype QuestionId = QuestionId(value: I32)

  datatype Question = Question(id: QuestionId, title: string, content: string, tags: Option<seq<string>>)

  /** A question as submitted, before the store assigns it an id. */
  datatype NewQuestion = NewQuestion(title: string, content: string, tags: Option<seq<string>>)

  datatype AnswerId = AnswerId(value: I32)

  datatype Answer = Answer(id: AnswerId, content: string, questionId: QuestionId)

  datatype NewAnswer = NewAnswer(content: string, questionId: QuestionId)

  datatype AccountId = AccountId(value: I32)

  /** An account; its id is absent until the store has inserted it. */
  datatype Account = Account(id: Option<AccountId>, email: string, password: string)

  datatype NewAccount = NewAccount(email: string, password: string)

  /** The claims of a session token: expiry (seconds since the epoch, UTC) and the account acting. */
  datatype Session = Session(exp: int, accountId: AccountId)
}
