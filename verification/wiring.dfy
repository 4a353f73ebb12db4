/** The app talking to the lesson service of this repository: the services
    the session is given are the backend endpoints, and the facts the app
    relies on about their replies. */
module Wiring {
  import opened Wire
  import opened Text
  import opened Scoring
  import opened Backend
  import opened Session

  /** `GET /lesson/{lang}` served by the backend, with no network failure. */
  function BackendLessons(lang: string): Response<Option<LessonReply>> {
    Ok(Some(GetLesson(lang)))
  }

  /** `GET /quiz/{lang}` served by the backend, with no network failure. */
  function BackendQuizzes(lang: string): Response<Option<seq<Question>>> {
    Ok(Some(GetQuiz(lang)))
  }

  /** The `answer` field of an explain reply, absent for an error reply. */
  function AnswerField(reply: ExplainReply): Option<string> {
    match reply
    case Answer(text) => Some(text)
    case Error(_) => None
  }

  /** `POST /explain-ai/` served by the backend for a question typed in the app. */
  function BackendExplain(ready: bool, summarize: string -> Summary, question: string): Response<Option<string>> {
    Ok(AnswerField(ExplainAi(map["question" := question], ready, summarize)))
  }

  /** The progress key the app derives from a served lesson is the requested
      name, lower-cased: results for "Tamil" and "tamil" land on one record. */
  lemma ProgressKeyIsRequestedName(lang: string)
    requires GetLesson(lang).Found?
    ensures LanguageKey(Some(GetLesson(lang))) == Some(Lower(lang))
  {
  }

  /** Retry after a served lesson fetches that lesson's language again. */
  lemma RetryRefetchesServedLanguage(lang: string)
    requires GetLesson(lang).Found?
    ensures RetryTarget(Some(GetLesson(lang))) == Some(Lower(lang))
    ensures GetLesson(Lower(lang)) == GetLesson(lang)
  {
    MockTablesShareKeys();
    LowerIdempotent(lang);
  }

  /** Whenever the backend serves a non-empty quiz it also serves a lesson
      with a language, so submitting it never reaches the TypeError path. */
  lemma ServedQuizHasLanguage(lang: string)
    requires GetQuiz(lang) != []
    ensures LanguageKey(Some(GetLesson(lang))).Some?
  {
    GetLessonFoundExactly(lang);
  }

  /** Every served quiz can be answered with full marks by picking each answer. */
  lemma ServedQuizWinnable(lang: string, sel: Selections)
    requires forall i: nat :: i < |GetQuiz(lang)| ==> i in sel && sel[i] == GetQuiz(lang)[i].answer
    ensures Score(GetQuiz(lang), sel) == |GetQuiz(lang)|
  {
    ScoreAllCorrect(GetQuiz(lang), sel);
  }

  /** With the model not loaded the app shows the backend's fixed reply. */
  lemma NotReadyReplyShown(summarize: string -> Summary, question: string)
    ensures AiReplyText(BackendExplain(false, summarize, question)) == NotReadyAnswer
  {
  }

  /** A model failure reaches the app as a reply without an answer, shown as "No response". */
  lemma ModelFailureShownAsNoResponse(summarize: string -> Summary, question: string)
    requires summarize(question).Raised?
    ensures AiReplyText(BackendExplain(true, summarize, question)) == NoResponseText
  {
  }

  /** A first run against the backend: answer both English questions right and
      submit; the English record holds 2 of 2 and is what is stored. */
  method FirstRunEnglish(now: int) returns (record: ProgressRecord, stored: Option<ProgressMap>)
    ensures record == ProgressRecord(2, 2, true, now)
    ensures stored == Some(map["english" := record])
  {
    var s := new LessonSession.Startup(Store(None, None), BackendLessons, BackendQuizzes);
    assert Lower("english") == "english";
    assert s.quiz == EnglishQuiz;
    s.SelectAnswer(0, "A naming word");
    s.SelectAnswer(1, "Run");
    ScoreAllCorrect(s.quiz, s.selectedAnswers);
    assert LanguageKey(s.lesson) == Some("english") by {
      ProgressKeyIsRequestedName("english");
    }
    var outcome := s.SubmitQuiz(now);
    record := s.progress["english"];
    stored := s.store.progress;
  }
}
