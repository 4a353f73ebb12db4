/** The JSON bodies exchanged between the app and the lesson service,
    as the endpoints produce them and the app reads them. */
module Wire {

  datatype Option<+T> = None | Some(value: T)

  /** A lesson record of the mock lesson table. */
  datatype Lesson = Lesson(language: string, title: string, content: string, quizId: string)

  /** The value of the `lesson` field of a `GET /lesson/{lang}` reply:
      the table entry, or an object holding only an `error` text. */
  datatype LessonReply = Found(lesson: Lesson) | NotFound(error: string)

  /** One multiple-choice question; `answer` is meant to be one of `options`. */
  datatype Question = Question(question: string, options: seq<string>, answer: string)

  /** The value of the `answer` or `error` field of a `POST /explain-ai/` reply. */
  datatype ExplainReply = Answer(text: string) | Error(message: string)

  /** The outcome of one HTTP request as the client sees it: the parsed body,
      or a rejected request (transport failure or non-success status). */
  datatype Response<+T> = Ok(body: T) | NetworkError

  /** A question is well formed when its answer is one of its options. */
  predicate WellFormed(q: Question) {
    q.answer in q.options
  }
}
