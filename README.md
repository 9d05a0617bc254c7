# MediBot core, in Dafny

MediBot is a one-page Streamlit chat application (`main.py`) that forwards a
user's symptoms, and optionally an uploaded image, to a hosted Gemini model
under a fixed "MediBot" persona prompt, and shows the exchange as a chat
transcript. This project models the three pieces of real logic in it and
proves what they promise:

- **Payload builder** (`Payload`): the chat history `get_medibot_reply`
  assembles before calling the model. It is a priming pair (the persona
  prompt with `{language}` filled in, then a fixed acknowledgement turn),
  followed by one entry per transcript message whose role is exactly `user`
  or `assistant` (renamed `model`). Messages with any other role are dropped.
  A non-empty attachment becomes one `inline_data` part (`image/png`)
  appended to the parts of the last entry. `BuildHistory` is the loop as the
  source writes it. It is proved equal to the specification function
  `History`, applied to the rendered prompt `SystemPrompt(language)`. The
  lemmas about `History` state the properties for every rendered prompt.
- **Reply selection** (`Reply`): how the model's outcome becomes the one
  string displayed. Non-empty text is returned verbatim. Otherwise, prompt
  feedback gives a fixed safety apology. Otherwise the fixed "couldn't
  generate" message is returned. Any exception, including the `IndexError`
  from `messages[-1]` on an empty transcript, gives the fixed internal-error
  message. The reply is never empty. It is the model's text or one of these
  three fixed strings.
- **Turn handler** (`Session`): a `ChatSession` class whose `messages` field
  is `st.session_state.messages`. `Submit` is a no-op unless the form was
  submitted and the stripped input is non-empty. Otherwise it appends the
  stripped user message, asks for a reply with the transcript that already
  holds it, and appends exactly one assistant message. It preserves the
  invariant that user and assistant messages alternate, starting with user.
  `PyText` models Python's `str.strip()` (the `str.isspace()` code points)
  that this guard uses.

The remote model (`GenerativeModel`, `start_chat`, `send_message`) is a
parameter `sdk` of type `Sdk`. It maps the history and the latest message's
content to an `SdkOutcome`: a response that may be `None`, with its text and
whether it has prompt feedback, or `Raised` for any exception in the `try`.

One might expect an attachment with an empty transcript to be rejected. The
code instead attaches it: the history always holds the priming pair, so the
image is appended to the acknowledgement turn (`PrimingPair`). The call then
fails at `messages[-1]` and the reply is the internal-error message
(`ReplyFor`).

The newest user message is sent twice: it is the last entry of the history,
and it is also the argument to `send_message` (lines 69-74).
`ImageBindsToNewestQuestion` and `TurnReplyComesFromModel` state both facts.

## Model

| member | source | states |
|---|---|---|
| `PyText.Strip` | main.py:143-144 | `strip()` yields a slice of the input bounded by non-space characters with only whitespace outside it, and is empty exactly when the input is all whitespace |
| `PyText.StripIdempotent` | main.py:143-144 | stripping the already-stripped input changes nothing |
| `Payload.BuildHistory` | main.py:39-58 | the appending loop and the in-place extension of the last entry's parts build exactly `History(SystemPrompt(language), messages, attachment)`, the prompt being the template with `{language}` replaced |
| `Payload.KeptAppend` | main.py:44-48 | the role filter distributes over concatenation, so forwarded messages keep their transcript order |
| `Payload.KeptMembers` | main.py:44-48 | a message is forwarded iff it is in the transcript and its role is exactly "user" or "assistant" |
| `Payload.KeptCount` | main.py:44-48 | the number of forwarded messages equals the number of transcript positions whose role is "user" or "assistant" |
| `Payload.KeptAll` | main.py:44-48 | a transcript holding only user and assistant messages is forwarded whole |
| `Payload.TurnsAreKept` | main.py:44-48 | the loop emits one entry per forwarded message, in order: role "user" stays "user", "assistant" becomes "model", parts are `[content]` |
| `Payload.QuestionTakesImage` | main.py:44-58 | the opening entries come first and unchanged; after them a transcript of forwarded messages ending in a user question yields one entry per message, and the image, if any, joins the question's entry only |
| `Payload.AttachLastOnly` | main.py:51-58 | a non-empty attachment adds one `image/png` inline part to the last entry only; no attachment or an empty string changes nothing |
| `Payload.PrimingPair` | main.py:39-41 | every history has at least two entries: entry 0 is a user turn whose one part is the prompt with the language substituted, entry 1 a model turn with the fixed acknowledgement, carrying the image only when no message is forwarded |
| `Payload.HistoryLength` | main.py:39-48 | the history length is 2 plus the number of messages whose role is "user" or "assistant" |
| `Payload.HistoryEntry` | main.py:44-58 | the k-th forwarded message is entry 2+k with its role mapped and parts `[content]`, plus the image part only when it is the last entry |
| `Payload.AttachmentOnLastEntry` | main.py:51-58 | compared with the history without attachment, every entry but the last is identical and the last gains exactly the image part, and only when the attachment is non-empty |
| `Reply.SelectReply` | main.py:76-86 | the displayed reply is never empty; non-empty response text is returned verbatim whatever else the response carries; otherwise the reply is the fixed string for how the call ended (safety apology with feedback, retry message with nothing usable, internal error on an exception) |
| `Reply.SelectReplyRoundTrip` | main.py:76-86 | when the model's text is not itself a fixed string, the displayed reply tells which way the call ended (text, withheld with feedback, empty, raised), with text taking precedence over feedback |
| `Reply.ReplyFor` | main.py:72-86 | `get_medibot_reply` never fails: an empty transcript gives the internal-error message, and any reply is a fixed string or the text the model returned for the built history and the last message's content |
| `Reply.GetMedibotReply` | main.py:33-86 | the function builds the history, takes the last message's content and selects the reply exactly as `ReplyFor` specifies |
| `Session.ChatSession.constructor` | main.py:106-107 | a new session starts with an empty, hence alternating, transcript |
| `Session.ChatSession.Submit` | main.py:143-150 | a turn is a no-op unless submitted with non-blank input; otherwise it appends the stripped user message and then one assistant message whose reply is computed from the transcript already holding the user message; alternation is preserved |
| `Session.AlternatingRoles` | main.py:144-150 | an alternating transcript has even length, user messages at even positions and assistant messages at odd ones |
| `Session.RolesAlternate` | main.py:144-150 | conversely, even length with user messages at even positions and assistant messages at odd ones is an alternating transcript |
| `Session.AlternatingAllKept` | main.py:44-48 | every message of an alternating transcript has a role the payload builder forwards |
| `Session.AlternatingPair` | main.py:144-150 | appending a user message and then an assistant message keeps a transcript alternating, and only an alternating one |
| `Session.ImageBindsToNewestQuestion` | main.py:39-58 | during a turn the history opens with the plain priming pair, resends every earlier message unchanged, and ends with the new user message, the only entry carrying the image |
| `Session.TurnReplyComesFromModel` | main.py:72-74 | in a turn the reply is selected from the model's outcome for the built history and the new question (so the question is also the `send_message` argument), never from the empty-transcript path |

## Left out

- Streamlit page layout, CSS, columns, spinner, form widgets, `st.rerun`, and the HTML bubble rendering with `html.escape` (main.py:89-141). These are UI calls into the framework.
- `.env` loading, `genai.configure`, and the fatal `st.error`/`st.stop` on a missing key (main.py:10-19). This is process start-up I/O.
- `genai.GenerativeModel`, `start_chat` and `send_message` (main.py:36, 69, 74). This is a remote network SDK. It is the abstract parameter `sdk`, and an exception from any of them, or from reading `response.text`, is the single outcome `Raised`.
- The safety-settings dictionary (main.py:61-66). It is a constant passed to the SDK and is not represented.
- Reading the uploaded file and base64-encoding it (main.py:129-135). This is file I/O plus a standard-library encoder. The attachment is an opaque optional string.
- The `print` of safety ratings and the `st.error` in the `except` branch (main.py:80, 85). They are diagnostic output and do not affect the reply.
- A message record with no `role` or no `content` key. Roles and contents are strings, so a missing role is a role other than "user" or "assistant" and is dropped, as `m.get("role")` returning `None` is.
