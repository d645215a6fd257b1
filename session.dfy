/** The Streamlit session of app.py: the values kept in `st.session_state`
    across reruns, the analytics file, and the page actions that change them.
    Each page action is a method of `ResearchSession`; the views the pages
    show (recent history, export rows, preview, metrics) are functions of the
    state. */
module Session {
  import opened PyStr
  import opened Assistant
  import opened Analytics

  datatype Option<T> = None | Some(value: T)

  /** The keys of `st.session_state` that `initialize_session_state` sets. */
  datatype Key = DocText | Summary | KeyPoints | Insights | Questions | UserAnswers | Feedback | SessionHistory | SessionAnalytics

  const AllKeys: set<Key> := {DocText, Summary, KeyPoints, Insights, Questions, UserAnswers, Feedback, SessionHistory, SessionAnalytics}

  /** One answered question of the Interactive Q&A page (app.py:242-246). */
  datatype HistoryEntry = HistoryEntry(question: string, answer: string)

  /** The counters of `st.session_state.analytics` (app.py:42-47). */
  datatype SessionCounters = SessionCounters(documentsProcessed: int, questionsAsked: int, sessionsStarted: int)

  /** One row of the question-and-answer export (app.py:90-94). */
  datatype QaRow = QaRow(question: string, userAnswer: string, feedback: string)

  /** The figures `display_document_metrics` shows (app.py:110-117). */
  datatype DocMetrics = DocMetrics(characters: nat, words: nat, sentences: nat, keyPoints: nat)

  /** The whole session state as a value: which keys are set, and their values
      (a value whose key is not set means nothing). */
  datatype State = State(
    present: set<Key>,
    docText: string,
    summary: string,
    keyPoints: seq<string>,
    insights: string,
    questions: seq<string>,
    userAnswers: seq<string>,
    feedback: seq<string>,
    history: seq<HistoryEntry>,
    counters: SessionCounters)

  /** `initialize_session_state` (app.py:23-47) on a state value. */
  function InitState(s: State): State {
    State(
      s.present + AllKeys,
      if DocText in s.present then s.docText else "",
      if Summary in s.present then s.summary else "",
      if KeyPoints in s.present then s.keyPoints else [],
      if Insights in s.present then s.insights else "",
      if Questions in s.present then s.questions else [],
      if UserAnswers in s.present then s.userAnswers else [],
      if Feedback in s.present then s.feedback else [],
      if SessionHistory in s.present then s.history else [],
      if SessionAnalytics in s.present then s.counters else SessionCounters(0, 0, 0))
  }

  /** Initialising sets every key, keeps the value of each key already set,
      and gives each missing key its default. */
  lemma InitOnlyMissing(s: State)
    ensures InitState(s).present == s.present + AllKeys
    ensures DocText in s.present ==> InitState(s).docText == s.docText
    ensures DocText !in s.present ==> InitState(s).docText == ""
    ensures Summary in s.present ==> InitState(s).summary == s.summary
    ensures Summary !in s.present ==> InitState(s).summary == ""
    ensures KeyPoints in s.present ==> InitState(s).keyPoints == s.keyPoints
    ensures KeyPoints !in s.present ==> InitState(s).keyPoints == []
    ensures Insights in s.present ==> InitState(s).insights == s.insights
    ensures Insights !in s.present ==> InitState(s).insights == ""
    ensures Questions in s.present ==> InitState(s).questions == s.questions
    ensures Questions !in s.present ==> InitState(s).questions == []
    ensures UserAnswers in s.present ==> InitState(s).userAnswers == s.userAnswers
    ensures UserAnswers !in s.present ==> InitState(s).userAnswers == []
    ensures Feedback in s.present ==> InitState(s).feedback == s.feedback
    ensures Feedback !in s.present ==> InitState(s).feedback == []
    ensures SessionHistory in s.present ==> InitState(s).history == s.history
    ensures SessionHistory !in s.present ==> InitState(s).history == []
    ensures SessionAnalytics in s.present ==> InitState(s).counters == s.counters
    ensures SessionAnalytics !in s.present ==> InitState(s).counters == SessionCounters(0, 0, 0)
    ensures AllKeys <= s.present ==> InitState(s) == s
  {
  }

  /** Initialising twice is initialising once. */
  lemma InitIdempotent(s: State)
    ensures InitState(InitState(s)) == InitState(s)
  {
    InitOnlyMissing(InitState(s));
  }

  /** `[""] * n` */
  function Blanks(n: nat): (r: seq<string>)
    ensures |r| == n && forall k :: 0 <= k < n ==> r[k] == ""
  {
    seq(n, _ => "")
  }

  /** `s[::-1]`: the same elements, last first. */
  function Reverse<T>(s: seq<T>): (r: seq<T>)
    ensures |r| == |s|
    ensures forall k :: 0 <= k < |s| ==> r[k] == s[|s| - 1 - k]
  {
    if s == [] then [] else [s[|s| - 1]] + Reverse(s[..|s| - 1])
  }

  /** How many history entries the Q&A page shows. */
  const RecentCount: nat := 5

  /** `reversed(session_history[-5:])` (app.py:254): the last five entries,
      newest first. */
  function Recent(h: seq<HistoryEntry>): (r: seq<HistoryEntry>)
    ensures |r| == if |h| < RecentCount then |h| else RecentCount
    ensures forall k :: 0 <= k < |r| ==> r[k] == h[|h| - 1 - k]
  {
    Reverse(if |h| > RecentCount then h[|h| - RecentCount..] else h)
  }

  /** After one more answer, the view starts with it and goes on with what was
      shown before, less its oldest entry when five were shown. */
  lemma RecentAfterAppend(h: seq<HistoryEntry>, e: HistoryEntry)
    ensures Recent(h + [e])[0] == e
    ensures Recent(h + [e])[1..] == Recent(h)[..|Recent(h + [e])| - 1]
  {
    var r, q := Recent(h + [e]), Recent(h);
    assert |r| - 1 <= |q|;
    forall k | 0 <= k < |r| - 1
      ensures r[1..][k] == q[k]
    {
      assert (h + [e])[|h + [e]| - 1 - (k + 1)] == h[|h| - 1 - k];
    }
  }

  /** How many characters of the document the export keeps. */
  const PreviewLength: nat := 1000

  /** The `document_text` of the export (app.py:74): the text when it has at
      most 1000 characters, else its first 1000 followed by `...`. */
  function Preview(text: string): (r: string)
    ensures |text| <= PreviewLength ==> r == text
    ensures |text| > PreviewLength ==>
      |r| == PreviewLength + 3 && r[..PreviewLength] == text[..PreviewLength] && r[PreviewLength..] == "..."
  {
    if |text| > PreviewLength then text[..PreviewLength] + "..." else text
  }

  /** The figures of app.py:110-117 for a document and its key points. */
  function MetricsOf(text: string, keyPoints: seq<string>): DocMetrics {
    DocMetrics(|text|, |Words(text)|, |Split(text, '.')|, |keyPoints|)
  }

  /** There are never more words than characters. */
  lemma {:induction false} WordsFromBound(s: string, i: nat)
    requires i <= |s|
    ensures |WordsFrom(s, i)| <= |s| - i
    decreases |s| - i
  {
    var start := SkipSpace(s, i);
    if start < |s| {
      WordsFromBound(s, TokenEnd(s, start));
    }
  }

  /** The sentence count is one more than the number of dots, the words are
      the non-empty whitespace-free tokens, and there are no more of them than
      characters. */
  lemma MetricsSpec(text: string, keyPoints: seq<string>)
    ensures MetricsOf(text, keyPoints).characters == |text|
    ensures MetricsOf(text, keyPoints).sentences == Count(text, '.') + 1
    ensures MetricsOf(text, keyPoints).words <= |text|
    ensures forall w :: w in Words(text) ==> w != [] && HasNoSpace(w)
    ensures MetricsOf(text, keyPoints).keyPoints == |keyPoints|
  {
    SplitCount(text, '.');
    WordsFromBound(text, 0);
  }

  // The fixed parts of the evaluation prompt (app.py:295-300).
  const EvalLead: string := "Evaluate this answer based on the document.\n\nQuestion: "
  const EvalMid: string := "\nUser Answer: "
  const EvalTail: string := "\n\nProvide constructive feedback and a score out of 10."

  /** The prompt Challenge Mode sends as the question to `answer_question`. */
  function EvalPrompt(question: string, answer: string): string {
    EvalLead + question + EvalMid + answer + EvalTail
  }

  /** How many questions Challenge Mode asks for (app.py:272). */
  const ChallengeSize: int := 5

  /** `generate_summary`'s default `max_words`, which app.py:190 relies on. */
  const SummaryWords: int := 150

  /** The Challenge Mode questions are five, or one of the fixed lists of three. */
  lemma ChallengeCount(model: Model, api: bool, text: string)
    ensures var qs := QuestionsOf(model, api, text, ChallengeSize);
      |qs| == 5 || (|qs| == 3 && (qs == UnavailableQuestions || qs == FallbackQuestions))
  {
    QuestionCount(model, api, text, ChallengeSize);
  }

  /** A browser session of the app: `st.session_state`, a dictionary the pages
      update in place, is the field `state`, which every page action reassigns;
      the contents of the analytics file as this session reads and writes it
      are the field `analyticsFile`. */
  class ResearchSession {
    var state: State
    /** The contents of `analytics.json`; empty while the file does not exist. */
    var analyticsFile: Counters

    /** A new browser session: no key is set yet, and the analytics file holds
        `file`, which is `map[]` while no file exists. */
    constructor (file: Counters)
      ensures state.present == {} && analyticsFile == file
    {
      state := State({}, "", "", [], "", [], [], [], [], SessionCounters(0, 0, 0));
      analyticsFile := file;
    }

    /** Every key is set, as after `initialize_session_state`, which `main`
        calls before any page runs (app.py:134). */
    predicate Ready()
      reads this
    {
      AllKeys <= state.present
    }

    /** The challenge lists have one entry per question. */
    predicate Aligned()
      reads this
    {
      |state.userAnswers| == |state.questions| && |state.feedback| == |state.questions|
    }

    /** app.py:23-47: every missing key gets its default, and the keys already
        set keep their values (`InitOnlyMissing`). */
    method Initialize()
      modifies this
      ensures state == InitState(old(state))
      ensures analyticsFile == old(analyticsFile)
      ensures Ready()
    {
      state := InitState(state);
    }

    /** The analytics update of app.py:176-178 and 237-239: read the file,
        increment one counter, write the file back. */
    method RecordUse(key: string)
      modifies this
      ensures analyticsFile == Bump(old(analyticsFile), key)
      ensures state == old(state)
    {
      var analytics := analyticsFile;
      analytics := analytics[key := Get(analytics, key) + 1];
      analyticsFile := analytics;
    }

    /** A run of the Document Analysis page with a file in the uploader
        (app.py:170-178): `extracted` is what `process_document` returned for
        the file. Streamlit runs this on every rerun of the page while the file
        stays there, so each button press on the page comes after one. */
    method UploadDocument(extracted: string)
      requires Ready()
      modifies this
      ensures state == old(state).(docText := extracted)
      ensures analyticsFile == Bump(old(analyticsFile), DocumentsProcessed)
    {
      state := state.(docText := extracted);
      RecordUse(DocumentsProcessed);
    }

    /** The Generate Summary button (app.py:188-191). */
    method Summarise(model: Model, api: bool)
      requires Ready()
      modifies this
      ensures state == old(state).(summary := SummaryOf(model, api, old(state).docText, SummaryWords))
      ensures analyticsFile == old(analyticsFile)
    {
      var summary := GenerateSummary(model, api, state.docText, SummaryWords);
      state := state.(summary := summary);
    }

    /** The Extract Key Points button (app.py:198-201). */
    method FindKeyPoints(model: Model, api: bool)
      requires Ready()
      modifies this
      ensures state == old(state).(keyPoints := ExtractKeyPoints(model, api, old(state).docText))
      ensures analyticsFile == old(analyticsFile)
    {
      state := state.(keyPoints := ExtractKeyPoints(model, api, state.docText));
    }

    /** The Generate Insights button (app.py:210-213). */
    method FindInsights(model: Model, api: bool)
      requires Ready()
      modifies this
      ensures state == old(state).(insights := GenerateInsights(model, api, old(state).docText))
      ensures analyticsFile == old(analyticsFile)
    {
      state := state.(insights := GenerateInsights(model, api, state.docText));
    }

    /** The Get Answer button of the Interactive Q&A page (app.py:222-246): with
        a document and a non-empty question, the answer is recorded as one new
        history entry and `questions_asked` goes up by one; otherwise nothing
        happens. */
    method AskQuestion(model: Model, api: bool, question: string)
      requires Ready()
      modifies this
      ensures old(state).docText == [] || question == [] ==>
        state == old(state) && analyticsFile == old(analyticsFile)
      ensures old(state).docText != [] && question != [] ==>
        && state == old(state).(history := old(state).history
             + [HistoryEntry(question, AnswerQuestion(model, api, old(state).docText, question))])
        && analyticsFile == Bump(old(analyticsFile), QuestionsAsked)
    {
      if state.docText != [] && question != [] {
        var answer := AnswerQuestion(model, api, state.docText, question);
        RecordUse(QuestionsAsked);
        state := state.(history := state.history + [HistoryEntry(question, answer)]);
      }
    }

    /** The Generate Challenge Questions button (app.py:264-275): with a document
        and no questions yet, five questions are asked for, and every answer
        and every feedback starts empty. */
    method GenerateChallenge(model: Model, api: bool)
      requires Ready()
      modifies this
      ensures old(state).docText == [] || old(state).questions != [] ==> state == old(state)
      ensures old(state).docText != [] && old(state).questions == [] ==>
        var qs := QuestionsOf(model, api, old(state).docText, ChallengeSize);
        state == old(state).(questions := qs, userAnswers := Blanks(|qs|), feedback := Blanks(|qs|))
      ensures old(state).docText != [] && old(state).questions == [] ==> Aligned()
      ensures analyticsFile == old(analyticsFile)
    {
      if state.docText != [] && state.questions == [] {
        var qs := GenerateQuestions(model, api, state.docText, ChallengeSize);
        state := state.(questions := qs, userAnswers := Blanks(|qs|), feedback := Blanks(|qs|));
      }
    }

    /** The answer box of question `i` (app.py:285-289): only that answer
        changes, and the lists keep their lengths. */
    method SetAnswer(i: nat, answer: string)
      requires Ready()
      requires i < |state.questions| && i < |state.userAnswers|
      modifies this
      ensures old(state).docText == [] ==> state == old(state)
      ensures old(state).docText != [] ==> state == old(state).(userAnswers := old(state).userAnswers[i := answer])
      ensures |state.userAnswers| == |old(state).userAnswers|
      ensures analyticsFile == old(analyticsFile)
      ensures old(Aligned()) ==> Aligned()
    {
      if state.docText != [] {
        state := state.(userAnswers := state.userAnswers[i := answer]);
      }
    }

    /** The Evaluate button of question `i` (app.py:292-302): the feedback at
        `i` is replaced by the model's evaluation only when the answer is not
        blank; no other entry changes. */
    method Evaluate(model: Model, api: bool, i: nat)
      requires Ready()
      requires i < |state.questions| && i < |state.userAnswers| && i < |state.feedback|
      modifies this
      ensures old(state).docText == [] || Strip(old(state).userAnswers[i]) == [] ==> state == old(state)
      ensures old(state).docText != [] && Strip(old(state).userAnswers[i]) != [] ==>
        var s := old(state);
        state == s.(feedback := s.feedback[i := AnswerQuestion(model, api, s.docText, EvalPrompt(s.questions[i], s.userAnswers[i]))])
      ensures analyticsFile == old(analyticsFile)
      ensures old(Aligned()) ==> Aligned()
    {
      if state.docText != [] && Strip(state.userAnswers[i]) != [] {
        var verdict := AnswerQuestion(model, api, state.docText, EvalPrompt(state.questions[i], state.userAnswers[i]));
        state := state.(feedback := state.feedback[i := verdict]);
      }
    }

    /** The Q&A rows of the export (app.py:87-94): none unless there are
        questions and answers; otherwise one row per position of all three
        lists, as `zip` pairs them. */
    method ExportRows() returns (rows: Option<seq<QaRow>>)
      requires Ready()
      ensures rows.None? <==> state.questions == [] || state.userAnswers == []
      ensures rows.Some? ==>
        && |rows.value| == Min(Min(|state.questions|, |state.userAnswers|), |state.feedback|)
        && forall k :: 0 <= k < |rows.value| ==>
          rows.value[k] == QaRow(state.questions[k], state.userAnswers[k], state.feedback[k])
    {
      var s := state;
      if s.questions == [] || s.userAnswers == [] {
        return None;
      }
      var n := Min(Min(|s.questions|, |s.userAnswers|), |s.feedback|);
      var qa: seq<QaRow> := [];
      var k := 0;
      while k < n
        invariant 0 <= k <= n
        invariant |qa| == k
        invariant forall j :: 0 <= j < k ==> qa[j] == QaRow(s.questions[j], s.userAnswers[j], s.feedback[j])
      {
        qa := qa + [QaRow(s.questions[k], s.userAnswers[k], s.feedback[k])];
        k := k + 1;
      }
      rows := Some(qa);
    }

    /** The `document_text` the export saves (app.py:74). */
    function ExportPreview(): string
      reads this
    {
      Preview(state.docText)
    }

    /** The metrics shown when there is a document (app.py:105-117). */
    function Metrics(): Option<DocMetrics>
      reads this
    {
      if state.docText == [] then None else Some(MetricsOf(state.docText, state.keyPoints))
    }

    /** The Session History of the Q&A page (app.py:252-254). */
    function RecentHistory(): seq<HistoryEntry>
      reads this
    {
      Recent(state.history)
    }
  }

  function Min(a: int, b: int): int {
    if a <= b then a else b
  }
}
