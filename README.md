# Intelligent research assistant: a Dafny model of its text handling and session

The application is a Streamlit front end over a remote language model. A
user uploads a document. They can then ask for a summary, key points and
insights, ask questions about the document, and answer generated challenge
questions, which the model grades. This project models the logic around the
model calls and proves what that logic guarantees:

- **`pystr.dfy`** (`PyStr`): the Python string operations the code relies on.
  These are `str.isspace`, `strip`, `split(sep)`, `split()`, `join` and
  `startswith`, and `str(n)` for an integer.
- **`context.dfy`** (`Context`): the preparation of a document for a prompt.
  This covers whitespace normalisation (`re.sub(r"\s+", " ", text).strip()`),
  truncation to the 30000-character budget, and the 30000-character chunks of
  `generate_summary`.
- **`questions.dfy`** (`QuestionParser`): the line parser of
  `generate_questions`, as the loop the source runs.
- **`client.dfy`** (`Assistant`): `generate_summary`, `answer_question`,
  `generate_questions`, `extract_key_points` and `generate_insights`.
  - Each is given as a function stating what it returns.
  - The two functions built around loops also have the imperative method the
    source runs: `GenerateSummary` and `GenerateQuestions`.
  - Each method is proved equal to its function.
  - The remote model is a parameter `model: string -> Reply`. A reply is the
    response text, or the message of the exception the call raised.
  - `API_AVAILABLE` is the boolean parameter `api`.
- **`analytics.dfy`** (`Analytics`): the counters of `analytics.json`, with
  their read, increment and write-back.
- **`session.dfy`** (`Session`): `st.session_state` and the page actions that
  change it.
  - It is a class, `ResearchSession`.
  - Its field `state` is the session dictionary, as a record of the keys set
    and their values. Every action that changes the session dictionary
    reassigns it.
  - Its field `analyticsFile` is the in-memory contents of the analytics
    file.
  - The views the pages show are functions of the state: recent history,
    export rows and preview, and document metrics.

`generate_questions` returns its fixed three-question list when fewer
questions than requested are parsed (utils.py:141-146). So Challenge Mode,
which asks for five, gets five questions or three (`Session.ChallengeCount`).

## Model

| member | source | states |
|---|---|---|
| PyStr.StripSpec | utils.py:132 | `strip()` removes exactly the leading and trailing whitespace: the result is a slice of the input, everything cut off is whitespace, and the result neither starts nor ends with whitespace |
| Context.Normalize | utils.py:60 | `re.sub(r"\s+", " ", text).strip()`; its properties are those of the next three rows |
| Context.NormalizeIsNormal | utils.py:60 | the normalised text has no leading or trailing whitespace, and its only whitespace characters are single `' '` separators |
| Context.NormalizeIsJoinOfWords | utils.py:60 | normalising is joining the whitespace-separated words with one space |
| Context.NormalizeIdempotent | utils.py:60 | normalising normalised text changes nothing |
| Context.Truncate | utils.py:86-90 | the context is a prefix of the text of at most 30000 characters; it is the whole text when that is short enough, and exactly 30000 characters otherwise |
| Context.FirstChunks | utils.py:67 | `chunks[:3]`: a prefix of the chunks; all of them when there are at most three, and exactly three otherwise |
| Context.ChunksShape | utils.py:63-64 | the chunks concatenate back to the text; each chunk is non-empty with at most 30000 characters; all but the last have exactly 30000; a text over 30000 characters gives at least two |
| Context.FirstThreeChunks | utils.py:64-67 | a text over 90000 characters contributes exactly three chunks, which together are its first 90000 characters |
| Context.SummarisedChunks | utils.py:63-67 | at most three chunks are summarised, each non-empty with at most 30000 characters, at least two for a long text; they are the whole text when it has at most 90000 characters, and otherwise exactly three making up its first 90000 |
| QuestionParser.MarkedPrefixes | utils.py:133 | the marker test is exactly "non-empty and starts with `str(n)`, `•`, `-`, `1.`, `2.` or `3.`" |
| QuestionParser.DropNumberSpec | utils.py:135 | the result of `re.sub(r'^\d+\.\s*', '', line)` is a suffix of the line, and every character cut away is a digit, a dot, a bullet or whitespace; what is left starts with no whitespace when the line does not |
| QuestionParser.DropNumberRemoves | utils.py:135 | a line made of a non-empty run of digits, a dot, whitespace and a rest that does not start with whitespace becomes exactly that rest |
| QuestionParser.DropNumberKeeps | utils.py:135 | a line that does not start with a digit is returned unchanged |
| QuestionParser.DropNumberKeepsUndotted | utils.py:135 | a line whose leading digits are followed by neither a digit nor a dot is returned unchanged |
| QuestionParser.DropBulletSpec | utils.py:136 | the result of `re.sub(r'^[•\-]\s*', '', question)` is a suffix of its input, and every character cut away is a digit, a dot, a bullet or whitespace; what is left starts with no whitespace when the input does not |
| QuestionParser.DropBulletRemoves | utils.py:136 | a text made of `•` or `-`, whitespace and a rest that does not start with whitespace becomes exactly that rest |
| QuestionParser.DropBulletKeeps | utils.py:136 | a text that does not start with `•` or `-` is returned unchanged |
| QuestionParser.CleanSpec | utils.py:135-136 | a cleaned question is a suffix of its line with only digits, dots, bullets and whitespace cut from the front, and it starts with no whitespace when the line does not |
| QuestionParser.CleanNumbered | utils.py:135-136 | a numbered line loses its number, dot and the whitespace after them, and then is cleaned of a bullet that may follow |
| QuestionParser.CleanBulleted | utils.py:135-136 | a bulleted line loses exactly its bullet and the whitespace after it |
| QuestionParser.ExamineLine | utils.py:132-138 | one pass of the loop body appends the line's question, if any, to those found so far |
| QuestionParser.HarvestLines | utils.py:129-138 | the loop over the lines returns the questions of the lines, in line order |
| QuestionParser.ParseQuestions | utils.py:128-138 | the parser splits the response on `'\n'` and takes `str(num_questions)` as the numbering tag |
| QuestionParser.ParsedAppend | utils.py:131-138 | parsing goes line by line: the questions of two blocks of lines are those of the first followed by those of the second, so response-line order is kept |
| QuestionParser.ParsedSource | utils.py:131-138 | every parsed question is longer than ten characters and is the cleaned text of a stripped line that starts with an accepted marker; there are no more questions than lines |
| QuestionParser.ParsedComplete | utils.py:131-138 | every marked line whose cleaned text is longer than ten characters gives that text as a question |
| Assistant.CollectSpec | utils.py:67-70 | the chunk loop succeeds exactly when no call raises, and its texts are then the replies in chunk order |
| Assistant.SummaryOf | utils.py:54-78 | what `generate_summary` returns; `GenerateSummary`, `LongSummary` and `ApiUnavailable` state its properties |
| Assistant.GenerateSummary | utils.py:54-78 | the looped summary equals `SummaryOf`, with the sentinel when the API is unavailable and the first exception reported behind `Summary error: ` |
| Assistant.SummariseChunks | utils.py:65-72 | the loop over the chunks equals `CombinedSummary`: the chunk summaries joined by `"\n\n"`, or the first exception behind `Summary error: ` |
| Assistant.AllChunksAnswered | utils.py:67-72 | when no chunk call raises, the result is the replies to the chunk prompts, in chunk order, joined by `"\n\n"` |
| Assistant.LongSummary | utils.py:63-72 | a long text is summarised as two or three chunks, the whole text up to 90000 characters and its first 90000 beyond, with the chunk summaries joined by `"\n\n"` in chunk order |
| Assistant.AnswerQuestion | utils.py:80-102 | what `answer_question` returns; `ApiUnavailable` and `CallFails` state its fallbacks |
| Assistant.ExtractKeyPoints | utils.py:157-174 | what `extract_key_points` returns; `KeyPointsRoundTrip`, `ApiUnavailable` and `CallFails` state its properties |
| Assistant.GenerateInsights | utils.py:176-197 | what `generate_insights` returns; `ApiUnavailable` and `CallFails` state its fallbacks |
| Assistant.KeyPointsRoundTrip | utils.py:171-172 | the key points joined with `'\n'` give the response back, and there is one more of them than the response has newlines |
| Assistant.PyTake | utils.py:148 | `questions[:n]` is a prefix of the list, of length `n` capped by the list's length; a negative `n` drops `-n` elements from the end |
| Assistant.ChoiceSpec | utils.py:140-148 | fewer than `n` parsed questions give the fixed list; otherwise the result is a prefix of the parsed questions and, for `n >= 0`, exactly `n` of them |
| Assistant.QuestionsOf | utils.py:104-155 | what `generate_questions` returns; `GenerateQuestions`, `QuestionCount` and `ReturnedQuestions` state its properties |
| Assistant.GenerateQuestions | utils.py:104-155 | the imperative `generate_questions` equals `QuestionsOf`: the sentinel list without the API or on an exception, else the parsed questions chosen as above |
| Assistant.QuestionCount | utils.py:104-155 | for `n >= 0` the result has `n` questions or is one of the two fixed lists of three |
| Assistant.ReturnedQuestions | utils.py:125-148 | unless the result is a fixed list, the API answered and the result is the first parsed questions of the response, in order, each longer than ten characters and the cleaned text of a marked response line |
| Assistant.FourthLineRejected | utils.py:133 | with five questions requested the tag is `"5"`, and a line numbered `4.` gives no question |
| Assistant.ApiUnavailable | utils.py:56-57 | without the API, summary, answer and insights return the sentinel string, key points a one-element list holding it, and questions the fixed three (also utils.py:82-83, 106-111, 159-160, 178-179) |
| Assistant.CallFails | utils.py:101-102 | a failing model call makes answer, insights and key points report the exception's message behind their own prefixes (also utils.py:173-174, 196-197) |
| Assistant.QuestionCallFails | utils.py:149-155 | a failing question call gives the same fixed list as an unavailable API |
| Analytics.Bump | app.py:177 | the increment adds the key when it is missing and changes no other counter |
| Analytics.BumpGet | app.py:177 | after an increment the counter reads one more, a missing counter counting as zero, and every other counter reads as before |
| Analytics.BumpCommutes | app.py:176-178 | increments of two counters give the same file in either order |
| Analytics.BumpTimesGet | app.py:237-239 | `n` increments in a row raise the counter by exactly `n` and leave the others alone |
| Analytics.SessionsNeverStarted | app.py:177 | the two increments the app makes leave `sessions_started`, which the sidebar shows (app.py:61), as the file held it (also app.py:238) |
| Session.InitState | app.py:23-47 | `initialize_session_state` on a state value; `InitOnlyMissing` and `InitIdempotent` state its properties |
| Session.InitOnlyMissing | app.py:23-47 | initialisation sets every key; each key already set keeps its value and each missing key gets its default; a fully set state is unchanged |
| Session.InitIdempotent | app.py:23-47 | initialising twice equals initialising once |
| Session.ResearchSession.Initialize | app.py:23-47 | the new session state is the initialised old one, every key is set, and the analytics file is untouched |
| Session.ResearchSession.RecordUse | app.py:176-178 | reading, incrementing and writing back the file is one `Bump`; the session state is unchanged |
| Session.ResearchSession.UploadDocument | app.py:170-178 | one run of the page with a file in the uploader: the document text is replaced, `documents_processed` goes up by exactly one, and nothing else changes |
| Session.ResearchSession.Summarise | app.py:188-191 | only the summary changes, to the summary of the document |
| Session.ResearchSession.FindKeyPoints | app.py:198-201 | only the key points change, to those of the document |
| Session.ResearchSession.FindInsights | app.py:210-213 | only the insights change, to those of the document |
| Session.ResearchSession.AskQuestion | app.py:222-246 | with a document and a non-empty question, exactly one history entry is appended, holding the question and its answer, and `questions_asked` goes up by one; otherwise nothing changes |
| Session.Recent | app.py:254 | the history view has min(5, n) entries, and entry `k` is the `k`-th newest |
| Session.RecentAfterAppend | app.py:242-254 | after a new answer the view starts with it and continues with the previous view, less its oldest entry when five were shown |
| Session.Blanks | app.py:274-275 | `[""] * n` has `n` entries, all empty |
| Session.ResearchSession.GenerateChallenge | app.py:264-275 | with a document and no questions, the questions are those asked for five, and answers and feedback are all-`""` lists of the same length; otherwise nothing changes |
| Session.ChallengeCount | app.py:272 | Challenge Mode gets five questions or one of the fixed lists of three |
| Session.ResearchSession.SetAnswer | app.py:285-289 | only the answer at `i` changes, the list keeps its length, and aligned lists stay aligned |
| Session.ResearchSession.Evaluate | app.py:292-302 | the feedback at `i` becomes the model's grading exactly when the answer is not blank after `strip()`; otherwise nothing changes; lists stay aligned |
| Session.ResearchSession.ExportRows | app.py:87-94 | there are rows exactly when questions and answers are both non-empty; there are min(\|questions\|, \|answers\|, \|feedback\|) of them, and row `k` is the `k`-th question, answer and feedback |
| Session.Preview | app.py:74 | the export keeps a text of at most 1000 characters unchanged, and otherwise its first 1000 characters followed by `...` |
| Session.MetricsOf | app.py:110-117 | the four figures of `display_document_metrics`; `MetricsSpec` states what they are |
| Session.MetricsSpec | app.py:110-117 | characters is the length, words are the non-empty whitespace-free tokens and no more than the characters, sentences is the count of `'.'` plus one, and key points is their number |

## Left out

- The remote model: `genai.configure` and the start-up test call (utils.py:14-38) are not modelled. A call to `generate_content` is the parameter `model`, a deterministic function from prompt to reply. `API_AVAILABLE` is the parameter `api`. Nothing models retries, latency or differing replies to one prompt.
- `process_document` (utils.py:40-52): PDF extraction and UTF-8 decoding are foreign libraries. `UploadDocument` takes the extracted text, or the error string, as its parameter.
- `save_session_data` and `load_session_data` (utils.py:199-218) are modelled as the in-memory map `analyticsFile`. A missing file reads as the empty map. Non-integer JSON values, write failures and concurrent sessions racing on the file are not modelled.
- The analytics file is modelled as the three integer counters the pages use. `start_time` and the uptime display are not modelled, because they read the clock. `sessions_started` is never incremented by the source (`Analytics.SessionsNeverStarted`).
- Each `ResearchSession` holds its own copy of the analytics file, passed to its constructor. Two browser sessions that read and write the same file in turn are not modelled.
- Timestamps in history entries and exports are not modelled, because they read the clock. The export's JSON file and CSV text are not modelled either. What is modelled is the rows and the preview they are built from.
- Streamlit widgets, rendering and plotly charts are not modelled. Reruns are modelled only as the sequence of method calls a page run makes.
- The Document Analysis page runs its upload block (app.py:170-178) on every rerun while a file is in the uploader. A press of Generate Summary, Extract Key Points or Generate Insights is therefore one `UploadDocument` followed by `Summarise`, `FindKeyPoints` or `FindInsights`. So `documents_processed` counts the page's runs with a file, not distinct uploads, and it over-counts uploads. The three actions have no upload guard of their own in the model.
- `Summarise`, `FindKeyPoints` and `FindInsights` read the stored document text. The page passes the text just extracted, which the upload earlier in the same run has stored, so the two are the same.
- `\d` in the question cleaner is modelled as the ASCII digits `0`-`9`. Python's `re` also matches other Unicode decimal digits.
- The page writes every answer box back on every rerun. The model has one text-area update per call, so a rerun is one `SetAnswer` per index.
- config.py and test_setup.py (constants and environment checks) are not part of this model.
