# PocketChat core, modelled in Dafny

PocketChat is a small Flask chat front end for a hosted large-language-model
service, built for feature phones and slow networks. This project models the
part of it that is logic rather than glue:

- **Display formatting** (`format_conversation`): a 1:1 map from stored
  conversation entries to display records, with missing keys defaulted, content
  over 500 code points cut to 497 plus `"..."`, and `is_user` set from the role.
- **The completion client** (`get_ai_response`), in three parts: the request
  payload (system instruction, at most 7 history entries cut to 200 code points,
  the user message cut to 500); the reply post-processing (fixed apology for
  missing or empty content, otherwise strip and cap at 300); and the bounded
  retry loop with its two fallback notices. The hosted service is a parameter,
  `Api`, giving the outcome of each attempt for the payload sent.
- **The per-session conversation** (`chat` and `clear_chat`): a `ChatSession`
  class whose `conversation` field is the session's `conversation` key (`None`
  when absent), with `Get`, `Post` and `Clear`; after every POST the
  conversation is trimmed to its latest 16 entries once it exceeds 20.
- **The response-header rewrite** (`after_request`): a `Response` class whose
  header map gets `Cache-Control` by endpoint (`max-age` and `no-cache`, section
  5.2.2 of RFC 9111) and loses `Server` and `Date`.

Modules: `Wrappers` (Option), `Text` (the Python `str` operations used:
`strip()`, `s[:n]`, `lower()`, `in`, and the truncate-with-ellipsis rule),
`Messages` (stored entries and payload messages), `Formatter`, `Completion`,
`Controller` and `Headers`.

Three behaviours of the code worth stating:

- the stored user message is not cut to 500 code points (only the copy sent
  to the service is), see `Downloads/PocketChat/app.py:47-50`;
- `get_ai_response` does not always return a string: with a negative
  `max_retries` its loop runs zero times and it returns `None`
  (`Completion.AiResponse`, `Reply.text == None`);
- a history entry in the window without a `role` or `content` key raises
  `KeyError`, which the catch-all turns into "Sorry, something went wrong.
  Please try again." before any call is made (`Completion.Payload` is `None`).

## Model

| member | source | states |
|---|---|---|
| `Text.StripSpec` | Downloads/PocketChat/app.py:43 | `str.strip()`: the result is the middle of the input after its leading whitespace, everything after it is whitespace, it neither starts nor ends with whitespace, and it is empty exactly when the input is all whitespace (Python's `isspace` code points) |
| `Text.Prefix` | Downloads/PocketChat/chat.py:40 | `s[:n]` is a prefix of `s` of length `min(len(s), n)` |
| `Text.ContainsOccurs` | Downloads/PocketChat/chat.py:83 | the left-to-right scan used for `"timeout" in text` succeeds exactly when the word occurs at some index |
| `Text.Ellipsize` | Downloads/PocketChat/chat.py:105-106 | a string over the limit becomes its first `limit - 3` code points plus `"..."` (length exactly the limit); a string within the limit is unchanged; the result never exceeds the limit |
| `Formatter.DisplayOf` | Downloads/PocketChat/chat.py:101-112 | a missing role becomes `'user'`, missing content `''`; `is_user` holds exactly when the role is absent or `'user'`; content over 500 becomes its first 497 plus `"..."`, content of at most 500 is kept |
| `Formatter.FormatConversation` | Downloads/PocketChat/chat.py:92-114 | an absent or empty conversation gives `[]`; otherwise the result has the same length and, position by position, is the display form of the entry at that position |
| `Completion.HistoryWindow` | Downloads/PocketChat/chat.py:35-37 | `history[-8:][:-1]`: nothing for an absent or empty history; otherwise the `min(len - 1, 7)` entries just before the last one, in order |
| `Completion.PayloadShape` | Downloads/PocketChat/chat.py:26-47 | of `Completion.Payload`: the payload exists exactly when every window entry has both keys; it has window length + 2 entries (at most 9), starts with the fixed system entry, ends with `('user', message[:500])`, and in between keeps each window entry's role with its content cut to its first 200 code points |
| `Completion.ShortenedAllAt` | Downloads/PocketChat/chat.py:37-41 | the history entries are sent one for one, each at its own position, as its role with its content cut to 200 code points |
| `Completion.BuildPayload` | Downloads/PocketChat/chat.py:26-47 | the loop of successive appends builds exactly the payload specified by `Completion.Payload`, and stops with the error outcome at the first entry missing a key |
| `Completion.ProcessReply` | Downloads/PocketChat/chat.py:62-70 | missing or empty content gives "Sorry, I couldn't generate a response."; otherwise the stripped content, or its first 297 code points plus `"..."` when longer than 300; the result is never longer than 300; whitespace-only content gives `""` |
| `Completion.ExhaustedFallback` | Downloads/PocketChat/chat.py:82-86 | the timeout notice exactly when the lower-cased error text contains "timeout", the connection notice exactly when it does not |
| `Completion.RetryFrom` | Downloads/PocketChat/chat.py:50-86 | from attempt `a`, between `a + 1` and `max_retries + 1` attempts are made and a text is always returned |
| `Completion.RetryOutcome` | Downloads/PocketChat/chat.py:50-86 | the loop stops at the first answered attempt and returns its processed reply; every earlier attempt raised; if the last attempt made raised, it was attempt `max_retries` and the fallback is chosen from its error |
| `Completion.AllAttemptsRaise` | Downloads/PocketChat/chat.py:75-86 | when every attempt raises, `max_retries + 1` attempts are made and the result is the fallback for the last error |
| `Completion.ResponseCases` | Downloads/PocketChat/chat.py:16-90 | of `Completion.AiResponse`, the function that specifies `get_ai_response`: without a client: "Sorry, the AI service is not available." and no attempt; a window entry missing a key: the generic error and no attempt; a negative `max_retries`: `None` and no attempt; otherwise at most `max_retries + 1` attempts on the built payload with the first answer or the fallback |
| `Completion.GetAiResponse` | Downloads/PocketChat/chat.py:16-90 | the method with the attempt loop and early returns computes exactly `Completion.AiResponse`, the function that specifies `get_ai_response` |
| `Controller.Trim` | Downloads/PocketChat/app.py:68-70 | the result is a suffix of the input of at most 20 entries: the input itself when it has at most 20, its last 16 otherwise |
| `Controller.AfterPost` | Downloads/PocketChat/app.py:42-70 | after any POST the conversation has at most 20 entries; a blank message leaves a conversation of at most 20 unchanged; after a non-blank message the conversation ends with the assistant entry when the reply is non-empty (preceded by the user entry) and with the user entry otherwise |
| `Controller.Converse` | Downloads/PocketChat/app.py:46-66 | for a non-blank message: the user entry is appended, the reply is requested for the conversation ending with it, the assistant entry is appended exactly when the reply is non-empty, and the notice is raised exactly when it is not |
| `Controller.PostKeepsLatest` | Downloads/PocketChat/app.py:46-70 | a POST appends 0, 1 or 2 entries to the old conversation in order, and the stored result is the whole grown conversation when it has at most 20 entries, its latest 16 otherwise |
| `Controller.SentHistory` | Downloads/PocketChat/app.py:47-54 | the history sent with a new message is the at most 7 entries that precede the new user entry, which is itself not sent as history |
| `Controller.WellFormedPayload` | Downloads/PocketChat/app.py:47-54 | when every stored entry has both keys the payload can always be built, so the request is made |
| `Controller.StoredRequestBuilds` | Downloads/PocketChat/app.py:47-54 | from a session whose stored entries all have both keys, the payload for the conversation extended with a new message can always be built, so the request is made |
| `Controller.PostKeepsWellFormed` | Downloads/PocketChat/app.py:46-70 | a POST keeps every stored entry with both keys |
| `Controller.ChatSession.constructor` | Downloads/PocketChat/app.py:39 | a new session has no conversation |
| `Controller.ChatSession.Get` | Downloads/PocketChat/app.py:36-78 | GET creates an empty conversation when absent, changes nothing else, and shows the formatted conversation |
| `Controller.ChatSession.Post` | Downloads/PocketChat/app.py:42-73 | a blank message makes no request and only the cap applies; otherwise the stripped message is appended untruncated, the reply is requested for the conversation ending with it, a non-empty reply is appended, an empty one raises the notice, and the cap applies; the session invariant is kept: at most 20 entries and both keys in every entry; from a session that keeps it, the payload for a non-blank message can always be built, so the request is made |
| `Controller.ChatSession.Clear` | Downloads/PocketChat/app.py:80-85 | the conversation key is removed |
| `Controller.ClearThenView` | Downloads/PocketChat/app.py:83 | after a clear, the next chat view shows an empty conversation |
| `Headers.Rewritten` | Downloads/PocketChat/app.py:16-29 | `Cache-Control` is `public, max-age=86400` for the static endpoint and `no-cache` otherwise; `Server` and `Date` are absent; every other header is kept with its value and none is added |
| `Headers.RewriteIdempotent` | Downloads/PocketChat/app.py:20-27 | rewriting the headers twice gives the same headers as once |
| `Headers.Response.AfterRequest` | Downloads/PocketChat/app.py:16-29 | the in-place assignment and the two pops leave exactly the rewritten headers |

## Left out

- The Groq client and its `chat.completions.create` call (`Downloads/PocketChat/chat.py:3`, `7-14`, `54-60`): a foreign library and a network call. Whether the client was built is the `clientReady` parameter, and the call is the `Api` parameter, the outcome of each attempt for the payload sent. The model name, `max_tokens`, `temperature` and `timeout` arguments are passed through to the service and have no modelled effect.
- `time.sleep(1)` between attempts: timing only.
- All logging, and `logging.basicConfig`: side effects only.
- The catch-all handler at `Downloads/PocketChat/chat.py:88-90` is modelled only for the one exception the modelled code can raise, a missing `role` or `content` key in the history window.
- The `except` branch at `Downloads/PocketChat/app.py:64-66` and its network-error notice: the modelled `get_ai_response` never raises, so that branch cannot be reached.
- Flask and Werkzeug machinery: `render_template`, `redirect`/`url_for`, `session.modified`, `ProxyFix`, the secret key and `PORT` lookups, the landing route, the 404 and 500 handlers and `app.run`. Flash messages appear only as `Post`'s optional notice; the "Conversation cleared." notice of `/clear` is not modelled.
- `Text.Lower`: lower-cases ASCII letters only, where Python's `str.lower()` is full Unicode lower-casing; the "timeout" test is stated on this ASCII lower-casing.
- `Headers.Rewritten`: headers are a map with exact, single-valued keys; Werkzeug's header names are case-insensitive and may repeat.
- Python's dynamic typing: entries whose role or content is present but not a string, or present with the value `None`, are not modelled.
