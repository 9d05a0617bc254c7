/**
 The chat session: the transcript kept in `st.session_state.messages` and the
 form-submission step that extends it by one user message and its reply.
 */
module Session {
  import opened Wrappers
  import opened PyText
  import opened Payload
  import opened Reply

  /** The language the form handler always asks for. */
  const ReplyLanguage := "English"

  /**
   User and assistant messages strictly alternate, starting with a user
   message, and every user message has its reply: the transcript is a
   sequence of (user, assistant) pairs.
   */
  predicate Alternating(ms: seq<Message>)
    decreases |ms|
  {
    || ms == []
    || (&& |ms| >= 2
        && ms[|ms| - 2].role == UserRole
        && ms[|ms| - 1].role == AssistantRole
        && Alternating(ms[..|ms| - 2]))
  }

  /** In an alternating transcript every message is forwarded to the model, in alternation. */
  lemma {:induction false} AlternatingRoles(ms: seq<Message>)
    requires Alternating(ms)
    ensures |ms| % 2 == 0
    ensures forall i :: 0 <= i < |ms| ==> ms[i].role == (if i % 2 == 0 then UserRole else AssistantRole)
  {
    if ms != [] {
      var n := |ms| - 2;
      AlternatingRoles(ms[..n]);
      forall i | 0 <= i < n
        ensures ms[i].role == (if i % 2 == 0 then UserRole else AssistantRole)
      {
        assert ms[i] == ms[..n][i];
      }
    }
  }

  /** The closed form gives back the alternation: the two formulations agree. */
  lemma {:induction false} RolesAlternate(ms: seq<Message>)
    requires |ms| % 2 == 0
    requires forall i :: 0 <= i < |ms| ==> ms[i].role == (if i % 2 == 0 then UserRole else AssistantRole)
    ensures Alternating(ms)
  {
    if ms != [] {
      var n := |ms| - 2;
      forall i | 0 <= i < n
        ensures ms[..n][i].role == (if i % 2 == 0 then UserRole else AssistantRole)
      {
        assert ms[..n][i] == ms[i];
      }
      RolesAlternate(ms[..n]);
    }
  }

  /** Every message of an alternating transcript has a role the payload builder forwards. */
  lemma AlternatingAllKept(ms: seq<Message>)
    requires Alternating(ms)
    ensures forall i :: 0 <= i < |ms| ==> IsKept(ms[i])
  {
    AlternatingRoles(ms);
  }

  /** A submission starts a turn only when the form was sent and the stripped input is not empty. */
  predicate Accepts(submitted: bool, userInput: string)
  {
    submitted && Strip(userInput) != ""
  }

  class ChatSession {
    /** `st.session_state.messages`, oldest first. */
    var messages: seq<Message>

    /** A new session starts with an empty transcript. */
    constructor ()
      ensures messages == []
      ensures Alternating(messages)
    {
      messages := [];
    }

    /**
     One form submission. An accepted turn appends the stripped user message,
     then asks for a reply with the transcript that already holds it, then
     appends exactly one assistant message carrying that reply; a rejected one
     changes nothing. Alternation is preserved either way.
     */
    method Submit(submitted: bool, userInput: string, attachment: Option<string>, sdk: Sdk)
      modifies this
      ensures !Accepts(submitted, userInput) ==> messages == old(messages)
      ensures Accepts(submitted, userInput) ==>
                var user := Message(UserRole, Strip(userInput));
                messages == old(messages) + [user, Message(AssistantRole, ReplyFor(old(messages) + [user], ReplyLanguage, attachment, sdk))]
      ensures Alternating(old(messages)) ==> Alternating(messages)
    {
      var input := Strip(userInput);
      if submitted && input != "" {
        var userMsg := Message(UserRole, input);
        messages := messages + [userMsg];
        var replyText := GetMedibotReply(messages, ReplyLanguage, attachment, sdk);
        var botMsg := Message(AssistantRole, replyText);
        messages := messages + [botMsg];
        AlternatingPair(old(messages), userMsg.content, replyText);
      }
    }
  }

  /** Appending a user message and then its reply keeps the transcript alternating, and only an alternating one. */
  lemma AlternatingPair(ms: seq<Message>, question: string, answer: string)
    ensures Alternating(ms) <==> Alternating(ms + [Message(UserRole, question), Message(AssistantRole, answer)])
  {
  }

  /**
   During an accepted turn the history opens with the plain priming pair,
   resends the whole alternating transcript, and ends with the new user
   message, the only entry to carry the image.
   */
  lemma ImageBindsToNewestQuestion(prompt: string, ms: seq<Message>, question: string, attachment: Option<string>)
    requires Alternating(ms)
    ensures var h := History(prompt, ms + [Message(UserRole, question)], attachment);
      && |h| == |ms| + 3
      && h[..2] == Priming(prompt)
      && (forall i :: 0 <= i < |ms| ==> h[2 + i] == EntryOf(ms[i]))
      && h[|h| - 1]
         == Entry(UserRole, [Text(question)]
                            + (if HasAttachment(attachment) then [Inline(AttachmentMime, attachment.value)] else []))
  {
    AlternatingAllKept(ms);
    var p := Priming(prompt);
    assert |p| == 2;
    QuestionTakesImage(p, ms, question, attachment);
  }

  /**
   An accepted turn never takes the empty-transcript path: the reply is
   selected from the model's outcome for the built history and the new
   question, which is thus both the last history entry and the argument of
   `send_message`.
   */
  lemma TurnReplyComesFromModel(ms: seq<Message>, question: string, attachment: Option<string>, sdk: Sdk)
    ensures var ms' := ms + [Message(UserRole, question)];
      ReplyFor(ms', ReplyLanguage, attachment, sdk)
      == SelectReply(sdk(History(SystemPrompt(ReplyLanguage), ms', attachment), question))
  {
  }
}
