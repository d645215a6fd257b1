/** The functions of utils.py that put a prompt to the language model and
    post-process its reply. The model is a parameter: a function from the
    prompt to the model's reply, which is either the response text or the
    message of the exception the call raised. `api` is the module-level
    `API_AVAILABLE` flag. */
module Assistant {
  import opened PyStr
  import opened Context
  import opened QuestionParser

  /** What one `model.generate_content(prompt)` call ends in: `response.text`,
      or `str(e)` for the exception it raised. */
  datatype Reply = Answered(text: string) | Raised(message: string)

  /** The remote model, as a function of the prompt. */
  type Model = string -> Reply

  /** The string every text-returning function gives when the API is not
      configured (utils.py:57, 83, 179). */
  const Unavailable: string := "API not available. Please check your Google API key configuration in Streamlit Cloud secrets."

  const SummaryError: string := "Summary error: "
  const AnswerError: string := "Answer error: "
  const KeyPointsError: string := "Error extracting key points: "
  const InsightsError: string := "Error generating insights: "

  /** The questions given when the API is unavailable or the call fails
      (utils.py:107-111 and 151-155). */
  const UnavailableQuestions: seq<string> := [
    "What is the primary goal of the document?",
    "What technologies or methods are discussed?",
    "What are the main findings or recommendations?"
  ]

  /** The questions given when fewer than requested could be parsed
      (utils.py:142-146). */
  const FallbackQuestions: seq<string> := [
    "What is the primary goal or main topic of this document?",
    "What are the key findings or conclusions presented?",
    "What methodologies or approaches are discussed in the document?"
  ]

  /** The reply's text, or the error prefix followed by the exception's message. */
  function Relay(r: Reply, prefix: string): string {
    match r
    case Answered(t) => t
    case Raised(m) => prefix + m
  }

  // The fixed parts of the prompts (utils.py:68, 74, 93-96, 120-122, 168, 187-191).
  const SummaryLead: string := "Summarize the following text in approximately "
  const SummaryTail: string := " words:\n\n"
  const AnswerLead: string := "You are a helpful research assistant. Use the following document to answer the question.\n\nDocument:\n"
  const AnswerMid: string := "\n\nQuestion: "
  const AnswerTail: string := "\n\nPlease provide a clear and accurate answer based on the document content."
  const QuestionLead: string := "Based on the following document, generate "
  const QuestionMid: string := " thoughtful questions that would help someone understand the key concepts and main points.\n\nDocument:\n"
  const QuestionAsk: string := "\n\nGenerate "
  const QuestionTail: string := " questions:"
  const KeyPointsLead: string := "Extract 5-7 key points from the following document. Format as a bulleted list:\n\n"
  const InsightsLead: string := "Analyze the following document and provide 3-4 insights about:\n1. Main themes and patterns\n2. Potential implications\n3. Areas for further research\n\nDocument:\n"

  /** The prompt of utils.py:68 and 74. */
  function SummaryPrompt(maxWords: int, text: string): string {
    SummaryLead + IntToString(maxWords) + SummaryTail + text
  }

  /** The prompt of utils.py:92-97. */
  function AnswerPrompt(context: string, question: string): string {
    AnswerLead + context + AnswerMid + question + AnswerTail
  }

  /** The prompt of utils.py:119-123. */
  function QuestionPrompt(context: string, n: int): string {
    QuestionLead + IntToString(n) + QuestionMid + context + QuestionAsk + IntToString(n) + QuestionTail
  }

  /** The prompt of utils.py:167-169. */
  function KeyPointsPrompt(context: string): string {
    KeyPointsLead + context
  }

  /** The prompt of utils.py:186-192. */
  function InsightsPrompt(context: string): string {
    InsightsLead + context
  }

  // ---------------------------------------------------------------------
  // generate_summary

  /** The chunk summaries, or the first failure: the loop of utils.py:67-70
      stops at the first call that raises. */
  datatype Collected = AllAnswered(texts: seq<string>) | FirstFailure(message: string)

  function CollectFrom(rs: seq<Reply>, i: nat): Collected
    requires i <= |rs|
    decreases |rs| - i
  {
    if i == |rs| then AllAnswered([])
    else match rs[i]
      case Raised(m) => FirstFailure(m)
      case Answered(t) =>
        match CollectFrom(rs, i + 1)
        case AllAnswered(ts) => AllAnswered([t] + ts)
        case FirstFailure(m) => FirstFailure(m)
  }

  function Collect(rs: seq<Reply>): Collected {
    CollectFrom(rs, 0)
  }

  /** When every reply is an answer, the collected texts are the answers in order. */
  lemma {:induction false} CollectFromAnswered(rs: seq<Reply>, i: nat)
    requires i <= |rs|
    requires forall k :: i <= k < |rs| ==> rs[k].Answered?
    ensures CollectFrom(rs, i).AllAnswered?
    ensures |CollectFrom(rs, i).texts| == |rs| - i
    ensures forall k :: 0 <= k < |rs| - i ==> CollectFrom(rs, i).texts[k] == rs[i + k].text
    decreases |rs| - i
  {
    if i < |rs| {
      CollectFromAnswered(rs, i + 1);
      var ts := CollectFrom(rs, i + 1).texts;
      assert CollectFrom(rs, i).texts == [rs[i].text] + ts;
    }
  }

  /** The first reply that is an exception decides the outcome. */
  lemma {:induction false} CollectFromFailure(rs: seq<Reply>, i: nat, k: nat)
    requires i <= k < |rs|
    requires forall j :: i <= j < k ==> rs[j].Answered?
    requires rs[k].Raised?
    ensures CollectFrom(rs, i) == FirstFailure(rs[k].message)
    decreases k - i
  {
    if i < k {
      CollectFromFailure(rs, i + 1, k);
    }
  }

  /** The outcome from position `i` on is all answers exactly when no call
      from there on raised. */
  lemma {:induction false} CollectFromIff(rs: seq<Reply>, i: nat)
    requires i <= |rs|
    ensures CollectFrom(rs, i).AllAnswered? <==> forall k :: i <= k < |rs| ==> rs[k].Answered?
    decreases |rs| - i
  {
    if i < |rs| {
      CollectFromIff(rs, i + 1);
    }
  }

  /** The outcome is all answers exactly when no call raised, and then the
      texts are the answers in order. */
  lemma CollectSpec(rs: seq<Reply>)
    ensures Collect(rs).AllAnswered? <==> forall k :: 0 <= k < |rs| ==> rs[k].Answered?
    ensures Collect(rs).AllAnswered? ==>
      |Collect(rs).texts| == |rs| && forall k :: 0 <= k < |rs| ==> Collect(rs).texts[k] == rs[k].text
  {
    CollectFromIff(rs, 0);
    if forall k :: 0 <= k < |rs| ==> rs[k].Answered? {
      CollectFromAnswered(rs, 0);
    }
  }

  /** The replies to the summary prompts of the chunks, in chunk order. */
  function ChunkReplies(model: Model, maxWords: int, chunks: seq<string>): (rs: seq<Reply>)
    ensures |rs| == |chunks|
  {
    seq(|chunks|, k requires 0 <= k < |chunks| => model(SummaryPrompt(maxWords, chunks[k])))
  }

  /** What the chunk loop of utils.py:67-72 returns: the chunk summaries
      joined by blank lines, or the first exception behind `Summary error: `. */
  function CombinedSummary(model: Model, maxWords: int, chunks: seq<string>): string {
    match Collect(ChunkReplies(model, maxWords, chunks))
    case AllAnswered(ts) => Join(ts, "\n\n")
    case FirstFailure(m) => SummaryError + m
  }

  /** What `generate_summary(text, max_words)` returns (utils.py:54-78). */
  function SummaryOf(model: Model, api: bool, text: string, maxWords: int): string {
    if !api then Unavailable
    else
      var t := Normalize(text);
      if |t| > Budget then CombinedSummary(model, maxWords, FirstChunks(Chunks(t)))
      else Relay(model(SummaryPrompt(maxWords, t)), SummaryError)
  }

  /** The loop of utils.py:65-72 over the chunks to summarise. */
  method SummariseChunks(model: Model, maxWords: int, chunks: seq<string>) returns (summary: string)
    ensures summary == CombinedSummary(model, maxWords, chunks)
  {
    ghost var rs := ChunkReplies(model, maxWords, chunks);
    var summaries: seq<string> := [];
    var i := 0;
    while i < |chunks|
      invariant 0 <= i <= |chunks|
      invariant |summaries| == i
      invariant forall k :: 0 <= k < i ==> rs[k] == Answered(summaries[k])
    {
      var r := model(SummaryPrompt(maxWords, chunks[i]));
      if r.Raised? {
        CollectFromFailure(rs, 0, i);
        return SummaryError + r.message;
      }
      summaries := summaries + [r.text];
      i := i + 1;
    }
    CollectFromAnswered(rs, 0);
    assert Collect(rs).texts == summaries;
    summary := Join(summaries, "\n\n");
  }

  /** utils.py:54-78, with the loop over the first three chunks. */
  method GenerateSummary(model: Model, api: bool, text: string, maxWords: int) returns (summary: string)
    ensures summary == SummaryOf(model, api, text, maxWords)
  {
    if !api {
      return Unavailable;
    }
    var t := Normalize(text);
    if |t| > Budget {
      var chunks := FirstChunks(Chunks(t));
      summary := SummariseChunks(model, maxWords, chunks);
    } else {
      summary := Relay(model(SummaryPrompt(maxWords, t)), SummaryError);
    }
  }

  /** A long document is summarised chunk by chunk: when no call fails, the
      summary is the summaries of its first two or three chunks, in order,
      separated by blank lines; each chunk is a non-empty slice of at most
      30000 characters, and the chunks summarised are the whole normalised
      text when it has at most 90000 characters and its first 90000 otherwise. */
  lemma LongSummary(model: Model, text: string, maxWords: int)
    requires |Normalize(text)| > Budget
    requires forall k :: 0 <= k < |FirstChunks(Chunks(Normalize(text)))| ==>
      model(SummaryPrompt(maxWords, FirstChunks(Chunks(Normalize(text)))[k])).Answered?
    ensures var chunks := FirstChunks(Chunks(Normalize(text)));
      && 2 <= |chunks| <= MaxChunks
      && (forall k :: 0 <= k < |chunks| ==> 0 < |chunks[k]| <= Budget)
      && (|Normalize(text)| <= MaxChunks * Budget ==> Join(chunks, "") == Normalize(text))
      && (|Normalize(text)| > MaxChunks * Budget ==>
            |chunks| == MaxChunks && Join(chunks, "") == Normalize(text)[..MaxChunks * Budget])
      && SummaryOf(model, true, text, maxWords)
         == Join(seq(|chunks|, k requires 0 <= k < |chunks| => model(SummaryPrompt(maxWords, chunks[k])).text), "\n\n")
  {
    var t := Normalize(text);
    var chunks := FirstChunks(Chunks(t));
    SummarisedChunks(t);
    AllChunksAnswered(model, maxWords, chunks);
  }

  /** When no chunk call raises, the chunk loop joins the replies in order. */
  lemma AllChunksAnswered(model: Model, maxWords: int, chunks: seq<string>)
    requires forall k :: 0 <= k < |chunks| ==> model(SummaryPrompt(maxWords, chunks[k])).Answered?
    ensures CombinedSummary(model, maxWords, chunks)
      == Join(seq(|chunks|, k requires 0 <= k < |chunks| => model(SummaryPrompt(maxWords, chunks[k])).text), "\n\n")
  {
    var rs := ChunkReplies(model, maxWords, chunks);
    CollectFromAnswered(rs, 0);
    assert Collect(rs).texts == seq(|chunks|, k requires 0 <= k < |chunks| => model(SummaryPrompt(maxWords, chunks[k])).text);
  }

  // ---------------------------------------------------------------------
  // answer_question, extract_key_points, generate_insights

  /** What `answer_question(text, question)` returns (utils.py:80-102). */
  function AnswerQuestion(model: Model, api: bool, text: string, question: string): string {
    if !api then Unavailable
    else Relay(model(AnswerPrompt(PromptContext(text), question)), AnswerError)
  }

  /** What `extract_key_points(text)` returns (utils.py:157-174). */
  function ExtractKeyPoints(model: Model, api: bool, text: string): seq<string> {
    if !api then [Unavailable]
    else match model(KeyPointsPrompt(PromptContext(text)))
      case Answered(t) => Split(t, '\n')
      case Raised(m) => [KeyPointsError + m]
  }

  /** What `generate_insights(text)` returns (utils.py:176-197). */
  function GenerateInsights(model: Model, api: bool, text: string): string {
    if !api then Unavailable
    else Relay(model(InsightsPrompt(PromptContext(text))), InsightsError)
  }

  /** The key points are the lines of the response: joined with newlines they
      give the response back, and there is one more of them than the response
      has newlines. */
  lemma KeyPointsRoundTrip(model: Model, text: string)
    requires model(KeyPointsPrompt(PromptContext(text))).Answered?
    ensures var t := model(KeyPointsPrompt(PromptContext(text))).text;
      && Join(ExtractKeyPoints(model, true, text), "\n") == t
      && |ExtractKeyPoints(model, true, text)| == Count(t, '\n') + 1
  {
    var t := model(KeyPointsPrompt(PromptContext(text))).text;
    JoinSplit(t, '\n');
    SplitCount(t, '\n');
  }

  // ---------------------------------------------------------------------
  // generate_questions

  /** `s[:n]`, with Python's meaning for a negative `n`. */
  function PyTake<T>(s: seq<T>, n: int): (r: seq<T>)
    ensures |r| <= |s| && r == s[..|r|]
    ensures 0 <= n ==> |r| == if n <= |s| then n else |s|
    ensures n < 0 ==> |r| == if -n <= |s| then |s| + n else 0
  {
    if 0 <= n then (if n <= |s| then s[..n] else s)
    else if -n <= |s| then s[..|s| + n]
    else []
  }

  /** utils.py:141-148: the fixed list when fewer than `n` questions were
      parsed, else the first `n`. */
  function ChooseQuestions(parsed: seq<string>, n: int): seq<string> {
    if |parsed| < n then FallbackQuestions else PyTake(parsed, n)
  }

  /** utils.py:125-155 from the model's reply on: an exception gives the
      static list, a response is parsed with `str(n)` as the numbering tag. */
  function QuestionsFromReply(reply: Reply, n: int): seq<string> {
    match reply
    case Raised(_) => UnavailableQuestions
    case Answered(t) => ChooseQuestions(Parsed(Split(t, '\n'), IntToString(n)), n)
  }

  /** What `generate_questions(text, n)` returns (utils.py:104-155). */
  function QuestionsOf(model: Model, api: bool, text: string, n: int): seq<string> {
    if !api then UnavailableQuestions
    else QuestionsFromReply(model(QuestionPrompt(PromptContext(text), n)), n)
  }

  /** utils.py:104-155, with the parsing loop of `ParseQuestions`. */
  method GenerateQuestions(model: Model, api: bool, text: string, n: int) returns (questions: seq<string>)
    ensures questions == QuestionsOf(model, api, text, n)
  {
    if !api {
      return UnavailableQuestions;
    }
    var reply := model(QuestionPrompt(PromptContext(text), n));
    if reply.Raised? {
      return UnavailableQuestions;
    }
    questions := ParseQuestions(reply.text, n);
    if |questions| < n {
      questions := FallbackQuestions;
    } else {
      questions := PyTake(questions, n);
    }
  }

  /** Fewer than `n` parsed questions give the fixed list; otherwise the
      choice is a prefix of the parsed questions, in their order, and for a
      non-negative `n` exactly `n` of them. */
  lemma ChoiceSpec(parsed: seq<string>, n: int)
    ensures |parsed| < n ==> ChooseQuestions(parsed, n) == FallbackQuestions
    ensures |parsed| >= n ==>
      var qs := ChooseQuestions(parsed, n);
      && qs == parsed[..|qs|]
      && (forall q :: q in qs ==> q in parsed)
      && (0 <= n ==> |qs| == n)
    ensures 0 <= n ==> |ChooseQuestions(parsed, n)| == n || ChooseQuestions(parsed, n) == FallbackQuestions
  {
    if |parsed| >= n {
      var qs := ChooseQuestions(parsed, n);
      forall q | q in qs
        ensures q in parsed
      {
        var j :| 0 <= j < |qs| && qs[j] == q;
        assert parsed[j] == q;
      }
    }
  }

  /** `generate_questions` with a non-negative count returns `n` questions or
      one of the two fixed lists of three. */
  lemma QuestionCount(model: Model, api: bool, text: string, n: int)
    requires 0 <= n
    ensures var qs := QuestionsOf(model, api, text, n);
      && (|qs| == n || qs == UnavailableQuestions || qs == FallbackQuestions)
      && (|qs| == n || |qs| == 3)
  {
    if api {
      var reply := model(QuestionPrompt(PromptContext(text), n));
      if reply.Answered? {
        ChoiceSpec(Parsed(Split(reply.text, '\n'), IntToString(n)), n);
      }
    }
  }

  /** Unless `generate_questions` gives one of its fixed lists, the API answered
      and what it returns are the first questions parsed from the response,
      in response order, each longer than ten characters and the cleaned text
      of a marked response line. */
  lemma ReturnedQuestions(model: Model, api: bool, text: string, n: int)
    ensures var qs := QuestionsOf(model, api, text, n);
      qs != UnavailableQuestions && qs != FallbackQuestions ==>
        var reply := model(QuestionPrompt(PromptContext(text), n));
        && api && reply.Answered?
        && var lines := Split(reply.text, '\n');
           && qs == Parsed(lines, IntToString(n))[..|qs|]
           && forall q :: q in qs ==> |q| > MinLength && FromMarkedLine(q, lines, IntToString(n))
  {
    var qs := QuestionsOf(model, api, text, n);
    if qs != UnavailableQuestions && qs != FallbackQuestions {
      var reply := model(QuestionPrompt(PromptContext(text), n));
      var lines := Split(reply.text, '\n');
      var parsed := Parsed(lines, IntToString(n));
      ChoiceSpec(parsed, n);
      ParsedSource(lines, IntToString(n));
      assert qs == ChooseQuestions(parsed, n);
    }
  }

  /** With five questions requested, as Challenge Mode does, a line numbered
      `4.` is not taken as a question: the tag is `"5"` and `4.` is not among
      the fixed markers. */
  lemma FourthLineRejected(line: string)
    requires |Strip(line)| >= 2 && Strip(line)[0] == '4' && Strip(line)[1] == '.'
    ensures IntToString(5) == "5"
    ensures Parsed([line], IntToString(5)) == []
  {
    assert IntToString(5) == "5";
    assert !IsMarked(Strip(line), "5");
    var ps := MapLines(PickRule("5"), [line]);
    assert ps[0] == Pick(line, "5") == [];
    assert Flatten(ps, 0) == [];
  }

  // ---------------------------------------------------------------------
  // The fallbacks

  /** With the API unavailable every function gives its fixed sentinel,
      whatever the model and the document. */
  lemma ApiUnavailable(model: Model, text: string, question: string, n: int, maxWords: int)
    ensures SummaryOf(model, false, text, maxWords) == Unavailable
    ensures AnswerQuestion(model, false, text, question) == Unavailable
    ensures GenerateInsights(model, false, text) == Unavailable
    ensures ExtractKeyPoints(model, false, text) == [Unavailable]
    ensures QuestionsOf(model, false, text, n) == UnavailableQuestions
  {
  }

  /** When the model call raises, each function reports the exception's
      message behind its own prefix. */
  lemma CallFails(model: Model, text: string, question: string)
    ensures model(AnswerPrompt(PromptContext(text), question)).Raised? ==>
      AnswerQuestion(model, true, text, question) == AnswerError + model(AnswerPrompt(PromptContext(text), question)).message
    ensures model(InsightsPrompt(PromptContext(text))).Raised? ==>
      GenerateInsights(model, true, text) == InsightsError + model(InsightsPrompt(PromptContext(text))).message
    ensures model(KeyPointsPrompt(PromptContext(text))).Raised? ==>
      ExtractKeyPoints(model, true, text) == [KeyPointsError + model(KeyPointsPrompt(PromptContext(text))).message]
  {
  }

  /** An exception from the question call gives the same list as an
      unavailable API. */
  lemma QuestionCallFails(message: string, n: int)
    ensures QuestionsFromReply(Raised(message), n) == UnavailableQuestions
  {
  }
}
