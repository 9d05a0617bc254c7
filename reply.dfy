/**
 `get_medibot_reply`: build the history, hand it with the latest message to the
 model, and turn whatever comes back (or the exception raised on the way) into
 the one string shown to the user.
 */
module Reply {
  import opened Wrappers
  import opened Payload

  /** What `send_message` returned: its `text`, and whether `prompt_feedback` is set. */
  datatype Response = Response(text: string, hasPromptFeedback: bool)

  /**
   The outcome of the model calls inside the `try`: a response object, which may
   be `None`, or an exception raised by any of them.
   */
  datatype SdkOutcome = Returned(response: Option<Response>) | Raised

  /**
   The remote model: given the chat history and the content of the latest
   message, what the calls to `GenerativeModel`, `start_chat` and `send_message`
   come to.
   */
  type Sdk = (seq<Entry>, string) -> SdkOutcome

  const SafetyApology := "I'm sorry, I cannot respond to that query. It may have been flagged for safety reasons."
  const NoResponse := "Sorry, I couldn't generate a response. Please try again."
  const InternalError := "An internal error occurred. Please try again."

  /** The replies the code can produce by itself, whatever the model says. */
  predicate IsFixedReply(s: string)
  {
    s == SafetyApology || s == NoResponse || s == InternalError
  }

  /**
   The display string for an outcome: non-empty model text verbatim; else the
   safety apology when there is prompt feedback; else the retry message; and
   the internal-error message when a call raised. Never empty.
   */
  function SelectReply(outcome: SdkOutcome): (r: string)
    ensures r != ""
    ensures IsFixedReply(r) || (outcome.Returned? && outcome.response.Some? && r == outcome.response.value.text)
    ensures Classify(outcome) == ModelText ==> r == ModelTextOf(outcome)
    ensures Classify(outcome) != ModelText ==> KindOfReply(r) == Classify(outcome)
  {
    match outcome
    case Raised => InternalError
    case Returned(response) =>
      if response.Some? && response.value.text != "" then response.value.text
      else if response.Some? && response.value.hasPromptFeedback then SafetyApology
      else NoResponse
  }

  /** The four ways a call can end: with text, withheld for safety, with nothing usable, or raising. */
  datatype ReplyKind = ModelText | Withheld | Empty | Failed

  /** How a call ended: text first, then safety feedback, then nothing usable. */
  function Classify(outcome: SdkOutcome): ReplyKind
  {
    match outcome
    case Raised => Failed
    case Returned(None) => Empty
    case Returned(Some(response)) =>
      if response.text != "" then ModelText
      else if response.hasPromptFeedback then Withheld
      else Empty
  }

  /** Reads back, from a displayed reply, how the call ended. */
  function KindOfReply(s: string): ReplyKind
  {
    if s == SafetyApology then Withheld
    else if s == NoResponse then Empty
    else if s == InternalError then Failed
    else ModelText
  }

  /** The text a response carries, if any (empty when there is none). */
  function ModelTextOf(outcome: SdkOutcome): string
  {
    if outcome.Returned? && outcome.response.Some? then outcome.response.value.text else ""
  }

  /**
   The displayed reply tells how the call ended, unless the model itself
   happened to answer with one of the fixed strings.
   */
  lemma SelectReplyRoundTrip(outcome: SdkOutcome)
    requires !IsFixedReply(ModelTextOf(outcome))
    ensures KindOfReply(SelectReply(outcome)) == Classify(outcome)
    ensures Classify(outcome) == ModelText <==> SelectReply(outcome) == ModelTextOf(outcome)
  {
  }

  /**
   What `get_medibot_reply` returns for `messages`: an empty transcript makes
   `messages[-1]` raise, which the `except` turns into the internal-error
   message; otherwise the model sees the built history and the content of the
   last message.
   */
  function ReplyFor(messages: seq<Message>, language: string, attachment: Option<string>, sdk: Sdk): (r: string)
    ensures r != ""
    ensures messages == [] ==> r == InternalError
    ensures IsFixedReply(r)
            || (messages != []
                && r == ModelTextOf(sdk(History(SystemPrompt(language), messages, attachment), messages[|messages| - 1].content)))
  {
    if messages == [] then InternalError
    else SelectReply(sdk(History(SystemPrompt(language), messages, attachment), messages[|messages| - 1].content))
  }

  /** `get_medibot_reply(messages, language, attachment_b64)`. */
  method GetMedibotReply(messages: seq<Message>, language: string, attachment: Option<string>, sdk: Sdk)
    returns (reply: string)
    ensures reply == ReplyFor(messages, language, attachment, sdk)
  {
    var history := BuildHistory(messages, language, attachment);
    if messages == [] {
      // `messages[-1]` raises IndexError
      reply := InternalError;
      return;
    }
    var latest := messages[|messages| - 1].content;
    var outcome := sdk(history, latest);
    reply := SelectReply(outcome);
  }
}
