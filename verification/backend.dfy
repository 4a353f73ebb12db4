/** The lesson service: two constant tables and the three lookup endpoints
    that serve them. Request routing and CORS are not modelled. */
module Backend {
  import opened Wire
  import opened Text

  const EnglishLesson := Lesson(
    "English",
    "Welcome to the Platform",
    "Hello! This is your first lesson on simple English grammar. We will learn about verbs and nouns today.",
    "quiz-eng-101")

  const TamilLesson := Lesson(
    "Tamil",
    "அறிமுகம் (Introduction)",
    "வணக்கம்! இன்று நாம் தமிழ் எழுத்துக்களைப் பற்றி கற்போம். இது உங்கள் முதல் பாடம்.",
    "quiz-tamil-101")

  /** The lesson table, keyed by lower-case language name. */
  const MockLessons: map<string, Lesson> := map["english" := EnglishLesson, "tamil" := TamilLesson]

  const EnglishQuiz := [
    Question("What is a noun?",
             ["An action word", "A naming word", "A describing word", "None of the above"],
             "A naming word"),
    Question("Which of these is a verb?", ["Run", "Table", "Happy", "Blue"], "Run")
  ]

  const TamilQuiz := [
    Question("தமிழ் எழுத்துக்களின் எண்ணிக்கை எவ்வளவு?", ["247", "200", "180", "300"], "247"),
    Question("தமிழ் எது?", ["Language", "Fruit", "Animal", "Place"], "Language")
  ]

  /** The quiz table, keyed like the lesson table. */
  const MockQuizzes: map<string, seq<Question>> := map["english" := EnglishQuiz, "tamil" := TamilQuiz]

  const NotReadyAnswer := "AI model is not ready. Please try later."

  /** `GET /lesson/{lang}`: the table entry for the lower-cased name, or an
      error object that repeats the name as it was requested. */
  function GetLesson(lang: string): (r: LessonReply)
    ensures r.Found? <==> Lower(lang) in MockLessons
    ensures r.Found? ==> r.lesson == MockLessons[Lower(lang)] && Lower(r.lesson.language) == Lower(lang)
    ensures r.NotFound? ==> r.error == "No lesson found for " + lang
  {
    var key := Lower(lang);
    if key in MockLessons then
      MockLanguagesMatchKeys();
      Found(MockLessons[key])
    else
      NotFound("No lesson found for " + lang)
  }

  /** `GET /quiz/{lang}`: the table quiz for the lower-cased name, else an empty list. */
  function GetQuiz(lang: string): (r: seq<Question>)
    ensures Lower(lang) in MockQuizzes ==> r == MockQuizzes[Lower(lang)]
    ensures Lower(lang) !in MockQuizzes ==> r == []
    ensures forall i :: 0 <= i < |r| ==> WellFormed(r[i]) && |r[i].options| == 4 && r[i].answer != ""
  {
    var key := Lower(lang);
    MockQuizzesWellFormed();
    if key in MockQuizzes then MockQuizzes[key] else []
  }

  /** What the summarisation model does with a question: a summary, or an exception. */
  datatype Summary = Summarized(text: string) | Raised(message: string)

  /** The `question` field of the request body, `""` when it is absent. */
  function QuestionOf(request: map<string, string>): (q: string)
    ensures "question" !in request ==> q == ""
    ensures "question" in request ==> q == request["question"]
  {
    if "question" in request then request["question"] else ""
  }

  /** `POST /explain-ai/`. `ready` stands for "the model loaded at start-up";
      `summarize` is the model, called only when it is ready. */
  function ExplainAi(request: map<string, string>, ready: bool, summarize: string -> Summary): (r: ExplainReply)
    ensures !ready ==> r == Answer(NotReadyAnswer)
    ensures ready && summarize(QuestionOf(request)).Summarized? ==> r == Answer(summarize(QuestionOf(request)).text)
    ensures ready && summarize(QuestionOf(request)).Raised? ==> r == Error(summarize(QuestionOf(request)).message)
  {
    var question := QuestionOf(request);
    if !ready then Answer(NotReadyAnswer)
    else match summarize(question)
      case Summarized(text) => Answer(text)
      case Raised(message) => Error(message)
  }

  /** Lower-case spellings of the same name get the same lesson. */
  lemma GetLessonCaseInsensitive(a: string, b: string)
    requires Lower(a) == Lower(b)
    requires Lower(a) in MockLessons
    ensures GetLesson(a) == GetLesson(b)
    ensures GetLesson(a).Found?
  {
  }

  /** The only names served are the casings of "english" and "tamil". */
  lemma GetLessonFoundExactly(lang: string)
    ensures GetLesson(lang).Found? <==> Lower(lang) == "english" || Lower(lang) == "tamil"
    ensures GetQuiz(lang) != [] <==> GetLesson(lang).Found?
  {
  }

  /** Without a loaded model the reply is fixed and the model is never consulted. */
  lemma ExplainNotReadyIgnoresModel(request: map<string, string>, f: string -> Summary, g: string -> Summary)
    ensures ExplainAi(request, false, f) == ExplainAi(request, false, g) == Answer(NotReadyAnswer)
  {
  }

  /** Both tables have the keys "english" and "tamil" and no others. */
  lemma MockTablesShareKeys()
    ensures MockLessons.Keys == MockQuizzes.Keys == {"english", "tamil"}
  {
  }

  /** Each lesson's `language`, lower-cased, is its own table key. */
  lemma MockLanguagesMatchKeys()
    ensures forall k :: k in MockLessons ==> Lower(MockLessons[k].language) == k
  {
  }

  /** Every quiz question has four options, one of which is its non-empty answer. */
  lemma MockQuizzesWellFormed()
    ensures forall k, i :: k in MockQuizzes && 0 <= i < |MockQuizzes[k]| ==>
      WellFormed(MockQuizzes[k][i]) && |MockQuizzes[k][i].options| == 4 && MockQuizzes[k][i].answer != ""
  {
  }
}
