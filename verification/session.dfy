/** The app's lesson session: the state held by the root screen component and
    the handlers that change it. Each HTTP endpoint is a parameter that maps
    the request to its outcome; the device key-value store is the `store` field. */
module Session {
  import opened Wire
  import opened Text
  import opened Scoring

  /** The outcome of the most recent quiz submission for one language. */
  datatype ProgressRecord = ProgressRecord(lastScore: nat, totalQuestions: nat, completed: bool, timestamp: int)

  /** Progress per lower-cased language name. */
  type ProgressMap = map<string, ProgressRecord>

  /** The two keys the app keeps on the device; a stored progress blob is read
      back as the map that was written. */
  datatype Store = Store(lastLessonLang: Option<string>, progress: Option<ProgressMap>)

  type LessonService = string -> Response<Option<LessonReply>>
  type QuizService = string -> Response<Option<seq<Question>>>
  type ExplainService = string -> Response<Option<string>>

  /** What pressing "Submit Quiz" did: nothing but an alert, a TypeError
      thrown half-way, or a scored submission. */
  datatype SubmitOutcome = NoQuiz | Crashed | Scored(score: nat)

  const DefaultLanguage := "english"
  const LoadErrorMessage := "Could not load lesson. Check backend & network."
  const ThinkingText := "Thinking..."
  const NoResponseText := "No response"
  const AiErrorText := "Error fetching AI response"

  /** The characters `String.prototype.trim` removes: white space and line terminators. */
  predicate IsJsWhitespace(c: char) {
    var n := c as int;
    n == 0x09 || n == 0x0B || n == 0x0C || n == 0x20 || n == 0xA0 || n == 0xFEFF
    || n == 0x1680 || 0x2000 <= n <= 0x200A || n == 0x202F || n == 0x205F || n == 0x3000
    || n == 0x0A || n == 0x0D || n == 0x2028 || n == 0x2029
  }

  /** `s` without its leading white space. */
  function TrimStart(s: string): string {
    if s != [] && IsJsWhitespace(s[0]) then TrimStart(s[1..]) else s
  }

  /** `s` without its trailing white space. */
  function TrimEnd(s: string): string {
    if s != [] && IsJsWhitespace(s[|s| - 1]) then TrimEnd(s[..|s| - 1]) else s
  }

  /** `s.trim()`. */
  function Trim(s: string): string {
    TrimEnd(TrimStart(s))
  }

  ghost predicate AllWhitespace(s: string) {
    forall i :: 0 <= i < |s| ==> IsJsWhitespace(s[i])
  }

  /** Trimming the front leaves nothing exactly for an all-white-space text,
      and otherwise leaves a text that starts with a non-white-space character. */
  lemma {:induction false} TrimStartEmpty(s: string)
    ensures TrimStart(s) == "" <==> AllWhitespace(s)
    ensures TrimStart(s) != "" ==> !IsJsWhitespace(TrimStart(s)[0])
  {
    if s != [] && IsJsWhitespace(s[0]) {
      TrimStartEmpty(s[1..]);
      assert AllWhitespace(s[1..]) ==> AllWhitespace(s) by {
        if AllWhitespace(s[1..]) {
          forall i | 0 <= i < |s| ensures IsJsWhitespace(s[i]) {
            if i > 0 { assert s[i] == s[1..][i - 1]; }
          }
        }
      }
      assert AllWhitespace(s) ==> AllWhitespace(s[1..]) by {
        if AllWhitespace(s) {
          forall i | 0 <= i < |s[1..]| ensures IsJsWhitespace(s[1..][i]) {
            assert s[1..][i] == s[i + 1];
          }
        }
      }
    }
  }

  /** Trimming the back leaves nothing exactly for an all-white-space text. */
  lemma {:induction false} TrimEndEmpty(s: string)
    ensures TrimEnd(s) == "" <==> AllWhitespace(s)
  {
    if s != [] && IsJsWhitespace(s[|s| - 1]) {
      var front := s[..|s| - 1];
      TrimEndEmpty(front);
      assert AllWhitespace(front) <==> AllWhitespace(s) by {
        assert forall i :: 0 <= i < |front| ==> front[i] == s[i];
      }
    }
  }

  /** `!s.trim()`: true exactly when the text is empty or white space only. */
  function IsBlank(s: string): (b: bool)
    ensures b <==> forall i :: 0 <= i < |s| ==> IsJsWhitespace(s[i])
  {
    TrimStartEmpty(s);
    TrimEndEmpty(TrimStart(s));
    Trim(s) == ""
  }

  /** `lesson.language.toLowerCase()`, or None where evaluating it throws
      (no lesson, or a lesson object without a `language`). */
  function LanguageKey(lesson: Option<LessonReply>): (key: Option<string>)
    ensures key.Some? <==> lesson.Some? && lesson.value.Found?
    ensures key.Some? ==> key.value == Lower(lesson.value.lesson.language)
  {
    match lesson
    case Some(Found(l)) => Some(Lower(l.language))
    case _ => None
  }

  /** `savedLang || "english"`: the language fetched at start-up. */
  function StartLanguage(saved: Option<string>): (lang: string)
    ensures lang != ""
    ensures saved.Some? && saved.value != "" ==> lang == saved.value
    ensures saved.None? || saved.value == "" ==> lang == DefaultLanguage
  {
    if saved.Some? && saved.value != "" then saved.value else DefaultLanguage
  }

  /** The language the Retry button fetches, `(lesson && lesson.language.toLowerCase()) || "english"`;
      None when that expression throws, and then nothing is fetched. */
  function RetryTarget(lesson: Option<LessonReply>): (target: Option<string>)
    ensures target.Some? ==> target.value != ""
    ensures lesson.None? ==> target == Some(DefaultLanguage)
    ensures lesson.Some? && lesson.value.NotFound? ==> target.None?
    ensures lesson.Some? && lesson.value.Found? ==>
      target == Some(if Lower(lesson.value.lesson.language) == "" then DefaultLanguage else Lower(lesson.value.lesson.language))
  {
    if lesson.None? then Some(DefaultLanguage)
    else match LanguageKey(lesson)
      case None => None
      case Some(key) => Some(if key == "" then DefaultLanguage else key)
  }

  /** `progress[lang]?.lastScore ?? null`. */
  function RecordedScore(progress: ProgressMap, lang: string): (s: Option<nat>)
    ensures s.Some? <==> lang in progress
    ensures s.Some? ==> s.value == progress[lang].lastScore
  {
    if lang in progress then Some(progress[lang].lastScore) else None
  }

  /** `quizRes.data.quiz || []`: a missing quiz is empty; any list, even an
      empty one, is truthy and kept as sent. */
  function QuizOrEmpty(body: Option<seq<Question>>): (quiz: seq<Question>)
    ensures body.Some? ==> quiz == body.value
    ensures quiz == [] <==> body.None? || body.value == []
  {
    if body.Some? then body.value else []
  }

  /** The text shown after an explain request, `res.data.answer || "No response"`,
      or the fixed error text when the request failed. Never empty. */
  function AiReplyText(res: Response<Option<string>>): (text: string)
    ensures text != ""
    ensures res.NetworkError? ==> text == AiErrorText
    ensures res.Ok? && res.body.Some? && res.body.value != "" ==> text == res.body.value
    ensures res.Ok? && (res.body.None? || res.body.value == "") ==> text == NoResponseText
  {
    match res
    case NetworkError => AiErrorText
    case Ok(answer) => if answer.Some? && answer.value != "" then answer.value else NoResponseText
  }

  class LessonSession {
    var lesson: Option<LessonReply>
    var quiz: seq<Question>
    var selectedAnswers: Selections
    var aiInput: string
    var aiAnswer: string
    var progress: ProgressMap
    var loading: bool
    var error: Option<string>
    var resultModalVisible: bool
    var lastScore: Option<nat>
    var submitting: bool
    var store: Store

    /** The in-memory progress is the stored blob when there is one, and empty otherwise. */
    ghost predicate StoreMirrorsProgress()
      reads this
    {
      if store.progress.Some? then store.progress.value == progress else progress == map[]
    }

    /** Between events: no fetch is in flight, the only error text is the load
        error, the progress map agrees with the store, and the error screen
        never holds a lesson error object (a failed fetch keeps the lesson of
        a lesson screen that rendered, and that is never an error object). */
    ghost predicate Valid()
      reads this
    {
      && !loading
      && (error.None? || error == Some(LoadErrorMessage))
      && StoreMirrorsProgress()
      && (error.Some? ==> RenderableLesson())
    }

    /** The lesson screen renders `lesson.language.toLowerCase()` for any
        truthy lesson, which throws for a lesson error object. */
    ghost predicate RenderableLesson()
      reads this
    {
      lesson.None? || lesson.value.Found?
    }

    /** The lesson screen is rendered: the language buttons, the quiz, the
        question box and the result dialog exist only on it. */
    ghost predicate OnLessonScreen()
      reads this
    {
      !loading && error.None? && RenderableLesson()
    }

    /** The controls of the lesson screen can be pressed: the screen is rendered
        and the result dialog, whose overlay covers the whole screen, is closed. */
    ghost predicate OnLessonControls()
      reads this
    {
      OnLessonScreen() && !resultModalVisible
    }

    /** The error screen is rendered: its only control is Retry. */
    ghost predicate OnErrorScreen()
      reads this
    {
      !loading && error.Some?
    }

    /** The lesson, quiz, answers and load status are as before. */
    twostate predicate LessonStateKept()
      reads this
    {
      && lesson == old(lesson) && quiz == old(quiz) && selectedAnswers == old(selectedAnswers)
      && loading == old(loading) && error == old(error)
      && store.lastLessonLang == old(store.lastLessonLang)
    }

    /** The progress, the stored blob and the result display are as before. */
    twostate predicate ResultStateKept()
      reads this
    {
      && progress == old(progress) && store.progress == old(store.progress)
      && lastScore == old(lastScore) && resultModalVisible == old(resultModalVisible)
      && submitting == old(submitting)
    }

    /** The question box and the answer text are as before. */
    twostate predicate AiStateKept()
      reads this
    {
      aiInput == old(aiInput) && aiAnswer == old(aiAnswer)
    }

    /** The state after `fetchLesson(lang)` with the services given, where `seen`
        is the progress map the handler's closure reads. */
    twostate predicate LoadedFrom(lang: string, lessons: LessonService, quizzes: QuizService, seen: ProgressMap)
      reads this
    {
      && !loading && selectedAnswers == map[] && aiAnswer == ""
      && aiInput == old(aiInput)
      && progress == old(progress) && store.progress == old(store.progress)
      && resultModalVisible == old(resultModalVisible) && submitting == old(submitting)
      && if lessons(lang).Ok? && quizzes(lang).Ok? then
           && lesson == lessons(lang).body && quiz == QuizOrEmpty(quizzes(lang).body)
           && error == None && store.lastLessonLang == Some(lang)
           && lastScore == RecordedScore(seen, lang)
         else
           && lesson == old(lesson) && quiz == old(quiz) && error == Some(LoadErrorMessage)
           && store.lastLessonLang == old(store.lastLessonLang) && lastScore == old(lastScore)
    }

    /** The start-up effect: restore progress from the store, then fetch the saved
        language or "english". The handler it calls was created on the first
        render, so it reads the initial empty progress map. */
    constructor Startup(saved: Store, lessons: LessonService, quizzes: QuizService)
      ensures Valid()
      ensures progress == (if saved.progress.Some? then saved.progress.value else map[])
      ensures store.progress == saved.progress
      ensures selectedAnswers == map[] && aiInput == "" && aiAnswer == ""
      ensures lastScore == None && !resultModalVisible && !submitting
      ensures var lang := StartLanguage(saved.lastLessonLang);
        if lessons(lang).Ok? && quizzes(lang).Ok? then
          && lesson == lessons(lang).body && quiz == QuizOrEmpty(quizzes(lang).body)
          && error == None && store.lastLessonLang == Some(lang)
        else
          && lesson == None && quiz == [] && error == Some(LoadErrorMessage)
          && store.lastLessonLang == saved.lastLessonLang
    {
      lesson := None;
      quiz := [];
      selectedAnswers := map[];
      aiInput := "";
      aiAnswer := "";
      progress := map[];
      loading := true;
      error := None;
      resultModalVisible := false;
      lastScore := None;
      submitting := false;
      store := saved;
      new;
      if saved.progress.Some? {
        progress := saved.progress.value;
      }
      Load(StartLanguage(saved.lastLessonLang), lessons, quizzes, map[]);
    }

    /** `fetchLesson` as created on some render, reading `seen` as its progress map. */
    method Load(lang: string, lessons: LessonService, quizzes: QuizService, seen: ProgressMap)
      requires StoreMirrorsProgress()
      requires RenderableLesson()
      modifies this
      ensures Valid()
      ensures LoadedFrom(lang, lessons, quizzes, seen)
    {
      loading := true;
      error := None;
      selectedAnswers := map[];
      aiAnswer := "";
      var lessonRes := lessons(lang);
      var quizRes := if lessonRes.Ok? then quizzes(lang) else NetworkError;
      if lessonRes.Ok? && quizRes.Ok? {
        lesson := lessonRes.body;
        quiz := QuizOrEmpty(quizRes.body);
        selectedAnswers := map[];
        loading := false;
        store := store.(lastLessonLang := Some(lang));
        lastScore := RecordedScore(seen, lang);
      } else {
        loading := false;
        error := Some(LoadErrorMessage);
      }
    }

    /** A language button of the lesson screen: fetch `lang` with the current progress map. */
    method FetchLesson(lang: string, lessons: LessonService, quizzes: QuizService)
      requires Valid()
      requires OnLessonControls()
      modifies this
      ensures Valid()
      ensures LoadedFrom(lang, lessons, quizzes, old(progress))
    {
      Load(lang, lessons, quizzes, progress);
    }

    /** The Retry button, shown only on the error screen. The lesson there is
        never an error object, so the target expression never throws. */
    method Retry(lessons: LessonService, quizzes: QuizService) returns (target: Option<string>)
      requires Valid()
      requires OnErrorScreen()
      modifies this
      ensures Valid()
      ensures target == RetryTarget(old(lesson))
      ensures target.Some? && LoadedFrom(target.value, lessons, quizzes, old(progress))
    {
      target := RetryTarget(lesson);
      Load(target.value, lessons, quizzes, progress);
    }

    /** Pressing an option: record its text for question `qIndex`. Option
        buttons exist only for the questions of the loaded quiz. */
    method SelectAnswer(qIndex: nat, optionText: string)
      requires Valid()
      requires OnLessonControls()
      requires qIndex < |quiz| && optionText in quiz[qIndex].options
      modifies this
      ensures Valid()
      ensures selectedAnswers == old(selectedAnswers)[qIndex := optionText]
      // the one-slot update, spelled out: every other slot is kept, and
      // re-selecting the option already chosen changes nothing
      ensures forall i :: i in old(selectedAnswers) && i != qIndex ==>
        i in selectedAnswers && selectedAnswers[i] == old(selectedAnswers)[i]
      ensures old(qIndex in selectedAnswers && selectedAnswers[qIndex] == optionText) ==>
        selectedAnswers == old(selectedAnswers)
      ensures lesson == old(lesson) && quiz == old(quiz) && loading == old(loading) && error == old(error)
      ensures store == old(store)
      ensures ResultStateKept() && AiStateKept()
    {
      selectedAnswers := selectedAnswers[qIndex := optionText];
    }

    /** "Submit Quiz": mark the quiz, record the result under the lesson's
        lower-cased language, save the progress and show the result. The
        button is disabled while `submitting`, which only a completed
        submission clears. */
    method SubmitQuiz(now: int) returns (outcome: SubmitOutcome)
      requires Valid()
      requires OnLessonControls()
      requires !submitting
      modifies this
      ensures Valid()
      ensures LessonStateKept() && AiStateKept()
      ensures old(quiz) == [] ==> outcome == NoQuiz && ResultStateKept() && store == old(store)
      ensures old(quiz) != [] && LanguageKey(old(lesson)).None? ==>
        && outcome == Crashed && submitting
        && progress == old(progress) && store == old(store)
        && lastScore == old(lastScore) && resultModalVisible == old(resultModalVisible)
      ensures old(quiz) != [] && LanguageKey(old(lesson)).Some? ==>
        var key := LanguageKey(old(lesson)).value;
        var score := Score(old(quiz), old(selectedAnswers));
        && outcome == Scored(score)
        && progress == old(progress)[key := ProgressRecord(score, |old(quiz)|, true, now)]
        && store == old(store).(progress := Some(progress))
        && lastScore == Some(score) && resultModalVisible && !submitting
      // consequences of the merge above, spelled out: the score is bounded
      // by the quiz length and every other language keeps its record
      ensures outcome.Scored? ==> outcome.score <= |quiz|
      ensures forall k :: k in old(progress) && Some(k) != LanguageKey(old(lesson)) ==>
        k in progress && progress[k] == old(progress)[k]
    {
      if |quiz| == 0 {
        return NoQuiz;
      }
      submitting := true;
      var score := CountScore(quiz, selectedAnswers);
      var key := LanguageKey(lesson);
      if key.None? {
        return Crashed;
      }
      var newProgress := progress[key.value := ProgressRecord(score, |quiz|, true, now)];
      progress := newProgress;
      store := store.(progress := Some(newProgress));
      lastScore := Some(score);
      submitting := false;
      resultModalVisible := true;
      outcome := Scored(score);
    }

    /** Typing in the question box. */
    method SetAiInput(text: string)
      requires Valid()
      requires OnLessonControls()
      modifies this
      ensures Valid()
      ensures aiInput == text && aiAnswer == old(aiAnswer)
      ensures LessonStateKept() && ResultStateKept() && store == old(store)
    {
      aiInput := text;
    }

    /** "Ask AI": send the question unless it is blank, and show the reply. */
    method AskAi(explain: ExplainService) returns (asked: bool)
      requires Valid()
      requires OnLessonControls()
      modifies this
      ensures Valid()
      ensures asked <==> !IsBlank(old(aiInput))
      ensures !asked ==> AiStateKept()
      ensures asked ==> aiInput == old(aiInput) && aiAnswer == AiReplyText(explain(aiInput))
      ensures LessonStateKept() && ResultStateKept() && store == old(store)
    {
      if IsBlank(aiInput) {
        return false;
      }
      aiAnswer := ThinkingText;
      var res := explain(aiInput);
      aiAnswer := AiReplyText(res);
      asked := true;
    }

    /** "Clear": empty the question box and the answer. */
    method ClearAi()
      requires Valid()
      requires OnLessonControls()
      modifies this
      ensures Valid()
      ensures aiInput == "" && aiAnswer == ""
      ensures LessonStateKept() && ResultStateKept() && store == old(store)
    {
      aiInput := "";
      aiAnswer := "";
    }

    /** "Close", "Continue" or the back gesture on the result dialog. */
    method CloseResult()
      requires Valid()
      requires OnLessonScreen()
      requires resultModalVisible
      modifies this
      ensures Valid()
      ensures !resultModalVisible
      ensures progress == old(progress) && store == old(store) && lastScore == old(lastScore)
      ensures submitting == old(submitting)
      ensures LessonStateKept() && AiStateKept()
    {
      resultModalVisible := false;
    }
  }
}
