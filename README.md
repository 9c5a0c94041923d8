# Synapse chat page: reply classifier and session history

Synapse is a one-page Streamlit chat front end to Google's Gemini models
(`app.py`). This project models the two parts of that page with exact
behaviour and proves properties of them:

- **The reply classifier**: `generate_gemini_response` (app.py:45-59). The
  remote call `model.generate_content(prompt)` is not modelled. What it
  produced is an input `Outcome`. It is either `Success(text)`, where `text`
  is `None` when the response has no `text` attribute, or `Failure(msg)`,
  where `msg` is `str(e)` of the raised exception. `GeminiReply.Reply` maps
  the outcome to one of four replies:
  - the model's text, unchanged;
  - the fixed retry prompt `I couldn't generate a response. Please try again.`;
  - the fixed warning `⚠️ API rate limit reached. Please wait a moment before trying again.`;
  - `An error occurred: ` followed by the message.
- **The session history**: `st.session_state.messages` becomes the class
  `ChatHistory.Session`, whose `messages` field holds `None` while the key
  is absent and otherwise a `seq<Turn>`. `InitHistory` models
  app.py:36-37. `Submit` models app.py:65-80. `RunScript` models one run of
  the page script: initialise, then handle the input. The pure function
  `AfterSubmit` states the new history. `Replay` extends it to a series of
  runs.

Modules:
- `wrappers.dfy` holds `Option`.
- `text_ops.dfy` holds `TextOps`: ASCII lower-casing, and Python's `sub in s`
  as a scan (`Contains`) that is proved equal to "occurs at some index".
- `gemini_reply.dfy` holds `GeminiReply`: the outcome, the fixed strings,
  the rate-limit test and the reply.
- `chat_history.dfy` holds `ChatHistory`: turns, requests, the session
  class and the lemmas about histories.

The rate-limit test is a plain substring test on the lower-cased message,
as app.py:56 writes it. So a message such as `failed to generate` is
reported as a rate limit, because "generate" contains "rate". The model
keeps this behaviour, and `GenerateCountsAsRateLimit` proves it.

The prompt sent to the model is the current input alone, not the history
(app.py:76). The model id is the session's `selected_model`, or
`gemini-2.0-flash` when there is none (app.py:47). `Submit` returns the
`Request` the page asks the client to make, and its contract states both
facts.

Other revisions of this page send a transcript of the earlier turns to the
model and offer a control that clears the history. `app.py`, which is
modelled here, does neither: it sends the current input alone and only ever
appends to the history. The fixed replies are the exact literals of
app.py:53 and app.py:57.

## Model

| member | source | states |
|---|---|---|
| TextOps.LowerChar | app.py:56 | an ASCII capital becomes the matching small letter; every other character is unchanged |
| TextOps.Lower | app.py:56 | `lower()` keeps the length, lowers each character in place and leaves no ASCII capital |
| TextOps.Contains | app.py:56 | Python's `in`: the empty string is in every string, a longer string is in none, and an occurrence at the start is found |
| TextOps.ContainsCorrect | app.py:56 | the `in` scan is true exactly when the keyword occurs at some index of the string, in both directions |
| GeminiReply.LoweredContains | app.py:56 | `kw in msg.lower()` is true exactly when `kw` occurs at some index of `msg`, in any ASCII case, in both directions |
| GeminiReply.IsRateLimitMessage | app.py:56 | lower-casing and then scanning for "quota", "rate" or "limit" is true exactly when one of the three occurs in the message, in any ASCII case |
| GeminiReply.Reply | app.py:45-59 | non-empty text is returned verbatim; absent or empty text gives the retry prompt; a failure mentioning a keyword gives the warning; any other failure gives the error prefix plus the original message. The four cases cover every outcome |
| GeminiReply.FixedRepliesDistinct | app.py:53-59 | the retry prompt, the warning and every error reply are different strings |
| GeminiReply.FailureReplyIff | app.py:55-59 | a failure's reply is the warning exactly when a keyword is mentioned, and the error template with the un-lowered message exactly when none is |
| GeminiReply.EmptyResponseIsNotAnError | app.py:50-53 | a success without usable text gives the retry prompt, never the warning or an error reply |
| GeminiReply.NoKeywordLetterMeansGenericError | app.py:56-59 | a message with no q, r or l in any case is not rate-limited and gets the error template |
| GeminiReply.CaseDoesNotMatter | app.py:56 | two messages equal up to ASCII case are both rate-limited or both not |
| GeminiReply.GenerateCountsAsRateLimit | app.py:56-57 | `failed to generate` gets the rate-limit warning, because "generate" contains "rate" |
| GeminiReply.MixedCaseRateLimit | app.py:56-57 | `Rate limit exceeded` gets the rate-limit warning |
| GeminiReply.UpperCaseQuota | app.py:56-57 | `QUOTA exceeded` gets the rate-limit warning |
| GeminiReply.GenericErrorExample | app.py:58-59 | `Bad gateway` gets `An error occurred: Bad gateway` |
| ChatHistory.ModelId | app.py:47 | `.get("selected_model", "gemini-2.0-flash")`: the stored selection when there is one, `gemini-2.0-flash` otherwise |
| ChatHistory.Submitted | app.py:65 | `if user_prompt:` is false exactly for `None` and the empty string; a submitted prompt is non-empty |
| ChatHistory.AfterSubmit | app.py:65-80 | an absent or empty input leaves the history unchanged; otherwise it grows by exactly two turns, the user's prompt and then the reply, and the earlier turns stay as they were, in order |
| ChatHistory.AfterSubmitKeepsPairs | app.py:65-80 | a submission keeps the history in (user, assistant) pairs, the user's turn first |
| ChatHistory.Replay | app.py:65-80 | over any series of runs, the earlier history stays a prefix of the history |
| ChatHistory.UserPromptsAfterSubmit | app.py:65-67 | a submission adds its own prompt, and nothing else, to the user turns |
| ChatHistory.ReplayRecordsPromptsInOrder | app.py:65-80 | after any series of runs, the user turns are the earlier ones followed by every non-empty input, in order |
| ChatHistory.ReplayAppendsExchanges | app.py:65-80 | any series of runs appends exactly its exchanges to the history: for each submitted run, its prompt directly followed by the reply to that run's outcome, in order |
| ChatHistory.ReplayKeepsPairs | app.py:65-80 | any series of runs keeps the history in (user, assistant) pairs |
| ChatHistory.Session.constructor | app.py:36 | a new session has no history key and keeps the given model selection |
| ChatHistory.Session.InitHistory | app.py:36-37 | an absent history becomes empty; an existing history is never reset; the model selection is untouched |
| ChatHistory.Session.Submit | app.py:65-80 | the history becomes `AfterSubmit` of the old one; for a non-empty input the page asks the client for exactly one request, carrying that input alone and the selected model (`gemini-2.0-flash` when none is selected); for an absent or empty input it asks for none |
| ChatHistory.Session.RunScript | app.py:36-80 | one run of the page leaves `AfterSubmit` of the existing history, or of an empty one when there was none |

## Left out

- Streamlit rendering and widgets are not modelled: page configuration, title, markdown, chat bubbles, spinner, input box, sidebar and the display loop (app.py:20-28, 39-42, 63, 69-77, 82-87). They are UI with no logic to verify. The text the user typed is the `input` parameter.
- Loading the environment and configuring the client (app.py:9-16) are I/O and configuration of a foreign library. The module-level model object at app.py:16 is never used on the reply path.
- ChatHistory.Session.Submit: treats the submission block as one step. It assumes that the rendering calls between the two appends (app.py:69-77) return normally and that the remote call raises only an `Exception`, which app.py:55 catches. In the page, an interruption or a `BaseException` there leaves the user's turn without a reply, and that turn stays in the session for later runs. The model has no such path, so "exactly two turns" and the (user, assistant) pair invariant of `AfterSubmitKeepsPairs` and `ReplayKeepsPairs` depend on this assumption.
- ChatHistory.Session.Submit: `sent` is the request the page asks the client to make. If building the model object fails (app.py:47), `generate_content` (app.py:48) is never called and nothing reaches the network. The model still reports that request in `sent`, and the failure arrives as the `Failure` outcome.
- The halt when the API key is missing (app.py:31-33) is not modelled. It ends the script before any history is touched.
- The Gemini client and the network call (app.py:47-48) are not modelled. Their result is the `Outcome` parameter. An exception raised while building the model object or while reading `response.text` is a `Failure` outcome, as it is in the source, because both happen inside the `try`.
- TextOps.Lower: lowers only ASCII letters. Python's `str.lower()` uses full Unicode case mapping. For this test the two agree: only ASCII capitals and U+0130 lower to text containing the keywords' letters, and U+0130 lowers to "i" followed by U+0307, which cannot lie inside a match of "quota", "rate" or "limit".
- Response objects whose `text` is not a string are not modelled. `text` is an optional string, and Python's truthiness of it is "present and non-empty".
