# Multilingual learning assistant — lesson session model

This project models the two halves of a small language-learning app in Dafny.

- **The lesson service** (`backend/main.py`). It holds two constant tables: lessons and multiple-choice quizzes, keyed by lower-case language name. Its endpoints look a language up case-insensitively. `GET /lesson/{lang}` falls back to an error object. `GET /quiz/{lang}` falls back to an empty list. `POST /explain-ai/` answers with a fixed text when the summarisation model did not load.
- **The app's lesson session** (`frontend/App.js`). This is the state of the root screen: the lesson, the quiz, the selected answers, the per-language progress, the AI question and answer, the loading and error flags, the last score and the result dialog. A key-value store on the device keeps `lastLessonLang` and `progress`. The handlers are start-up, fetching a lesson, selecting an option, submitting the quiz, asking the AI, clearing the AI box, Retry and closing the result dialog.

Files:

- `text.dfy`: ASCII lower-casing.
- `wire.dfy`: the JSON bodies both sides exchange.
- `backend.dfy`: the tables and endpoints.
- `scoring.dfy`: the marking rule, the marking loop and the lemmas about them.
- `session.dfy`: the session as a class whose methods are the handlers.
- `wiring.dfy`: the app run against this backend.

How the outside world is modelled:

- Each HTTP endpoint is a parameter of type `string -> Response<…>`, so the model shows which language or question was sent. `Response` is either the parsed body or `NetworkError`.
- The device store is the `store` field. Storing the progress blob and reading it back gives the same map, so JSON serialisation is the identity.
- `Date.now()` is the `now` parameter of `SubmitQuiz`.
- Whether the model loaded is the `ready` parameter of `ExplainAi`, and the model itself is the `summarize` parameter.

Every handler runs as one atomic step. `loading` is set and cleared inside the step, so the invariant `Valid()` includes `!loading`.

## Behaviour worth noting

- **Startup reads an empty progress map.** The start-up effect calls the `fetchLesson` created on the first render, and that function captured the initial empty `progress`. So the `lastScore` it sets comes from an empty map and stays `null`, even when the saved progress has a record for that language. `LessonSession.Load` takes the map its closure sees as the parameter `seen`. The constructor passes `map[]`, and the buttons and Retry pass the current map.
- **Late responses are not ignored.** Nothing in the code discards a stale response or keeps requests in order, so the model adds no such rule.
- **A lesson error object breaks the lesson screen.** The lesson service answers an unknown language with an object that has only an `error` field (`backend/main.py:79`). The app installs it as the lesson, and the lesson screen then evaluates `lesson.language.toLowerCase()` while rendering the progress line (`frontend/App.js:142`, `frontend/App.js:186`). That throws, so no screen and no handler remains. The model states this as `RenderableLesson()`, which `OnLessonScreen()` requires, so no lesson-screen handler can run in that state.
- **Retry never throws.** The Retry expression would throw for a lesson error object. But a failed fetch keeps the lesson of a lesson screen that rendered, so the error screen never holds one. `Valid()` keeps this as an invariant, and `LessonSession.Retry` proves that it always has a language to fetch.
- **The submit handler can throw.** It reads `lesson.language.toLowerCase()`. On the lesson screen the lesson is either absent or a found lesson, so this throws only when a quiz arrived without a lesson. The model returns `Crashed` in that case and leaves `submitting` set. `Wiring.ServedQuizHasLanguage` shows this cannot happen against this backend.
- **Retry goes back to the loaded lesson, not the failed one.** A failed fetch keeps the previous lesson, and Retry targets that lesson's language (`frontend/App.js:169`). So if English is loaded and switching to Tamil fails, Retry reloads "english", not "tamil".
- **The screen decides which handlers can run.** The handler bodies check only for an empty quiz and a blank question. Which controls exist depends on what is rendered.
  - While loading, no control exists.
  - The error screen has only Retry.
  - The lesson screen has the language buttons, an option button for each option of each loaded question, Submit, the question box, Ask AI and Clear.
  - Submit is disabled while `submitting` is set. Only a completed submission clears that flag.
  - The result dialog opens on top of the lesson screen, and its overlay fills the whole screen. While it is open, the only controls are Close, Continue and the back gesture, and all three close it.
  - The model states each of these as a precondition:
    - `OnErrorScreen()` for Retry.
    - `OnLessonControls()` for the lesson-screen controls: the lesson screen is rendered and the dialog is closed.
    - `!submitting` for Submit.
    - `resultModalVisible` for closing the dialog.
    - A rendered question index and one of that question's options for selecting an answer.
  - So once the submit handler has thrown, the quiz can never be submitted again. A shown score also cannot outlive its quiz, because no fetch can start while the dialog is open.

## Model

| member | source | states |
|---|---|---|
| Text.Lower | backend/main.py:76 | the result has the input's length, contains no ASCII capital, and keeps every character that is not an ASCII capital |
| Text.LowerIdempotent | frontend/App.js:169 | lower-casing an already lower-cased name changes nothing, so the name Retry lower-cases is lower-cased to itself again by the lesson lookup |
| Backend.GetLesson | backend/main.py:74-79 | a lesson is found exactly when the lower-cased name is a table key; a found lesson is that entry, and its language lower-cases to the requested name lower-cased; otherwise the reply is the error object naming the request as typed, and the function never fails |
| Backend.GetQuiz | backend/main.py:81-86 | the table quiz for a known lower-cased name, `[]` for anything else; every question served has four options, and its non-empty answer is one of them |
| Backend.QuestionOf | backend/main.py:90 | the request's `question` field, or `""` when it is absent |
| Backend.ExplainAi | backend/main.py:88-97 | without a loaded model the reply is the fixed not-ready answer; with one it is the model's summary of the question, or an `error` reply when the model raises |
| Backend.GetLessonCaseInsensitive | backend/main.py:76-78 | any two spellings of a known name that lower-case alike get the same found lesson |
| Backend.GetLessonFoundExactly | backend/main.py:74-86 | a lesson is found iff the name lower-cases to "english" or "tamil", and the quiz is non-empty iff a lesson is found |
| Backend.ExplainNotReadyIgnoresModel | backend/main.py:91-92 | when not ready, the reply is the fixed text whatever the model would do, so the model is not consulted |
| Backend.MockTablesShareKeys | backend/main.py:17-58 | the lesson and quiz tables have the same key set, {"english", "tamil"} |
| Backend.MockLanguagesMatchKeys | backend/main.py:17-30 | each lesson's `language`, lower-cased, equals its table key |
| Backend.MockQuizzesWellFormed | backend/main.py:33-58 | every quiz question has exactly four options, and its non-empty answer is one of them |
| Scoring.Score | frontend/App.js:100-103 | the score of a quiz is at most the number of its questions |
| Scoring.ScoreCountsCorrect | frontend/App.js:100-103 | the score equals the number of indices below the quiz length whose selection is non-empty and equal to that question's answer; unanswered and empty selections count as wrong |
| Scoring.ScoreWithoutSelections | frontend/App.js:102 | with no selections the score is 0 |
| Scoring.ScoreAllCorrect | frontend/App.js:100-103 | selecting every question's non-empty answer scores full marks |
| Scoring.ScoreAfterSelect | frontend/App.js:88-103 | changing the selection of question k changes the score only by whether question k is right before and after |
| Scoring.CountScore | frontend/App.js:100-103 | the marking loop returns exactly the score |
| Session.LanguageKey | frontend/App.js:105 | the progress key is the lesson's language lower-cased, and it exists exactly when a lesson with a language is loaded |
| Session.StartLanguage | frontend/App.js:41-46 | start-up fetches the saved language when one is saved and non-empty, otherwise "english"; never the empty name |
| Session.RetryTarget | frontend/App.js:169 | the Retry expression gives "english" with no lesson, the lower-cased language of a loaded lesson ("english" if that is empty), and nothing for a lesson error object, where it throws |
| Session.IsBlank | frontend/App.js:124 | `!text.trim()` holds exactly when every character of the text is JavaScript white space or a line terminator, including the empty text |
| Session.TrimStartEmpty | frontend/App.js:124 | trimming leading white space leaves nothing exactly for an all-white-space text, and otherwise leaves a text that starts with a non-white-space character |
| Session.TrimEndEmpty | frontend/App.js:124 | trimming trailing white space leaves nothing exactly for an all-white-space text |
| Session.QuizOrEmpty | frontend/App.js:66 | a missing quiz becomes the empty quiz, and a quiz that was sent, even an empty one, is kept as sent |
| Session.RecordedScore | frontend/App.js:70 | the last score recorded for the language, present exactly when the progress map has that key |
| Session.AiReplyText | frontend/App.js:128-136 | the shown text is never empty: the reply's answer when non-empty, "No response" when the answer is missing or empty, the fixed error text when the request failed |
| Session.LessonSession.Startup | frontend/App.js:39-48 | the progress is restored verbatim when stored, otherwise empty; the saved language or "english" is fetched; on success the lesson and quiz come from that fetch and the language is stored; on failure no lesson, empty quiz and the load error; the last score stays empty and the invariant holds |
| Session.LessonSession.Load | frontend/App.js:57-78 | selections and AI answer are cleared and loading ends; on success the lesson and quiz are installed (a missing quiz as empty), the error is cleared, `lastLessonLang` is stored and the last score is read from the closure's progress map; on failure the lesson, quiz and last score stay and the error is the fixed message; progress and its stored copy are untouched |
| Session.LessonSession.FetchLesson | frontend/App.js:188-189 | a language button, pressable only on the lesson screen with the result dialog closed, loads that language, reading the current progress |
| Session.LessonSession.Retry | frontend/App.js:169 | on the error screen only, Retry always has a target, because the error screen never holds a lesson error object, and loads `RetryTarget` of the lesson kept from before the failure |
| Session.LessonSession.SelectAnswer | frontend/App.js:88-91 | pressing one of the options of a rendered question, with the dialog closed: only the slot of question `qIndex` changes, to the option text; every other slot is kept; selecting the same option again changes nothing; all other state is kept |
| Session.LessonSession.SubmitQuiz | frontend/App.js:94-121 | callable on the lesson screen with the dialog closed and while not `submitting`, as the disabled button allows; an empty quiz changes nothing; without a lesson (a quiz that arrived without one) the handler throws after setting `submitting`; otherwise the progress map gets `{score, quiz length, completed, now}` under the lower-cased language, overwriting any earlier record, every other key is kept, the stored blob becomes the new map, the last score is the score (at most the quiz length) and the result dialog opens |
| Session.LessonSession.SetAiInput | frontend/App.js:248 | with the lesson controls pressable, typing replaces the question text and nothing else |
| Session.LessonSession.AskAi | frontend/App.js:123-137 | with the lesson controls pressable, a request is made iff the question is not blank by `trim`; a blank question changes nothing; otherwise the question is sent as typed and the answer becomes the reply text |
| Session.LessonSession.ClearAi | frontend/App.js:255 | with the lesson controls pressable, the question box and the answer are emptied and nothing else changes |
| Session.LessonSession.CloseResult | frontend/App.js:276-296 | while the dialog is shown, its Close, Continue or back gesture hides it and nothing else changes |
| Wiring.ProgressKeyIsRequestedName | backend/main.py:17-30 | for a served lesson, the app's progress key is the requested name lower-cased |
| Wiring.RetryRefetchesServedLanguage | frontend/App.js:169 | after a served lesson, Retry requests that lesson's own language, which the backend resolves to the same lesson |
| Wiring.ServedQuizHasLanguage | backend/main.py:74-86 | whenever a non-empty quiz is served, the served lesson has a language, so submitting it cannot throw |
| Wiring.ServedQuizWinnable | backend/main.py:33-58 | every served quiz scores full marks when each answer is selected |
| Wiring.NotReadyReplyShown | backend/main.py:91-92 | with the model not loaded, the app shows the backend's not-ready text |
| Wiring.ModelFailureShownAsNoResponse | backend/main.py:96-97 | a model exception reaches the app as a reply without `answer`, shown as "No response" |
| Wiring.FirstRunEnglish | frontend/App.js:94-121 | starting with an empty store against the backend, answering both English questions right and submitting records 2 of 2 under "english", and that record is the whole stored progress |

## Left out

- Rendering, styles, layout, animation values and the per-option colour feedback. These are presentation only.
- The `submitting` spinner's intermediate value and the "Thinking..." text. Each handler runs as one step, so these transient values never show in a final state.
- Interleaving of concurrent handlers and out-of-order HTTP responses. Each handler runs to completion before the next event.
- Failures of the device store, and JSON that does not parse. Stored values are modelled as read back exactly as written.
- Alerts and console logging. They change no state.
- Unicode case mapping. `Text.Lower` maps only A–Z, while `str.lower` and `toLowerCase` map every cased character. All table keys and language names here are ASCII.
- Loading the summarisation model and running it. Both are foreign calls, so they are the `ready` and `summarize` parameters of `Backend.ExplainAi`.
- The `GET /` greeting and the FastAPI and CORS setup. These are framework plumbing.
- The base URL of the service. It only addresses the requests, which are modelled as function parameters.
