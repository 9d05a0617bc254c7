/**
 The chat-history payload that `get_medibot_reply` hands to the model's
 `start_chat`: a priming exchange that installs the MediBot persona, one entry
 per transcript message whose role the builder recognises, and an optional
 image attached to the last entry.
 */
module Payload {
  import opened Wrappers

  /** One record of the session transcript, `{"role": ..., "content": ...}`. */
  datatype Message = Message(role: string, content: string)

  /** One part of a history entry: plain text, or an `inline_data` blob. */
  datatype Part = Text(text: string) | Inline(mimeType: string, data: string)

  /** One entry of the chat history, `{"role": ..., "parts": [...]}`. */
  datatype Entry = Entry(role: string, parts: seq<Part>)

  const UserRole := "user"
  const AssistantRole := "assistant"
  /** The model API's name for the assistant side of the chat. */
  const ModelRole := "model"

  /**
   The persona template up to its `{language}` placeholder. (Long lines are
   written as several literals; the text is the concatenation.)
   */
  const PromptPrefix :=
    "You are MediBot, a soft-spoken, empathetic medical advisory assistant.\n"
    + "- Speak in a caring, calm tone.\n"
    + "- Your primary role is to provide general, educational information "
    + "about symptoms and conditions.\n"
    + "- DO NOT provide any diagnoses, prescriptions, or definitive medical "
    + "advice. This is crucial.\n"
    + "- If the user asks an unrelated question, reply gently: "
    + "'\U{26A0}\U{FE0F} I can only help with medical-related queries.'\n"
    + "- For any medical query, always provide information on self-care measures "
    + "and strongly recommend consulting a healthcare professional.\n"
    + "- Use the requested language: "
  /** The persona template after its `{language}` placeholder. */
  const PromptSuffix :=
    ".\n"
    + "- End every response with the disclaimer: "
    + "'\U{26A0}\U{FE0F} This is not a substitute for professional medical consultation.'\n\n"

  const Acknowledgement := "Understood. I will follow all the provided instructions."
  const AttachmentMime := "image/png"

  /** The persona template with `{language}` replaced by `language`. */
  function SystemPrompt(language: string): string
  {
    PromptPrefix + language + PromptSuffix
  }

  /** The two synthetic turns that open every history, given the rendered persona prompt. */
  function Priming(prompt: string): seq<Entry>
  {
    [Entry(UserRole, [Text(prompt)]), Entry(ModelRole, [Text(Acknowledgement)])]
  }

  /** The builder forwards a message only when its role is exactly "user" or "assistant". */
  predicate IsKept(m: Message)
  {
    m.role == UserRole || m.role == AssistantRole
  }

  /** The history entry for a forwarded message: "assistant" is renamed "model". */
  function EntryOf(m: Message): Entry
  {
    Entry(if m.role == UserRole then UserRole else ModelRole, [Text(m.content)])
  }

  /** The forwarded messages of `ms`, in transcript order. */
  function Kept(ms: seq<Message>): seq<Message>
  {
    if ms == [] then []
    else Kept(ms[..|ms| - 1]) + (if IsKept(ms[|ms| - 1]) then [ms[|ms| - 1]] else [])
  }

  /** The positions of `ms` holding a forwarded message. */
  function KeptIndices(ms: seq<Message>): set<nat>
  {
    set i: nat | i < |ms| && IsKept(ms[i])
  }

  /** The entries that the builder's loop appends for `ms`, one step per message. */
  function Turns(ms: seq<Message>): seq<Entry>
  {
    if ms == [] then []
    else Turns(ms[..|ms| - 1]) + (if IsKept(ms[|ms| - 1]) then [EntryOf(ms[|ms| - 1])] else [])
  }

  /** Python truthiness of the attachment: neither `None` nor the empty string. */
  predicate HasAttachment(attachment: Option<string>)
  {
    attachment.Some? && attachment.value != ""
  }

  /** Appends the image part to the parts of the last entry, when there is an image. */
  function Attach(history: seq<Entry>, attachment: Option<string>): seq<Entry>
  {
    if HasAttachment(attachment) && history != [] then
      var last := history[|history| - 1];
      history[|history| - 1 := last.(parts := last.parts + [Inline(AttachmentMime, attachment.value)])]
    else
      history
  }

  /**
   The history built for `messages` and `attachment` once the persona prompt
   has been rendered as `prompt` (`SystemPrompt(language)` in the source).
   */
  function History(prompt: string, messages: seq<Message>, attachment: Option<string>): seq<Entry>
  {
    Attach(Priming(prompt) + Turns(messages), attachment)
  }

  /** The payload-building steps of `get_medibot_reply`. */
  method BuildHistory(messages: seq<Message>, language: string, attachment: Option<string>)
    returns (history: seq<Entry>)
    ensures history == History(SystemPrompt(language), messages, attachment)
  {
    history := [];
    var prompt := SystemPrompt(language);
    history := history + [Entry(UserRole, [Text(prompt)])];
    history := history + [Entry(ModelRole, [Text(Acknowledgement)])];
    for i := 0 to |messages|
      invariant history == Priming(prompt) + Turns(messages[..i])
    {
      assert messages[..i + 1][..i] == messages[..i];
      var m := messages[i];
      if m.role == UserRole {
        history := history + [Entry(UserRole, [Text(m.content)])];
      } else if m.role == AssistantRole {
        history := history + [Entry(ModelRole, [Text(m.content)])];
      }
    }
    assert messages[..|messages|] == messages;
    if HasAttachment(attachment) && history != [] {
      var last := history[|history| - 1];
      history := history[|history| - 1 := last.(parts := last.parts + [Inline(AttachmentMime, attachment.value)])];
    }
  }

  /** Filtering distributes over concatenation: the kept messages keep their order. */
  lemma {:induction false} KeptAppend(a: seq<Message>, b: seq<Message>)
    ensures Kept(a + b) == Kept(a) + Kept(b)
  {
    if b != [] {
      var b' := b[..|b| - 1];
      assert (a + b)[..|a + b| - 1] == a + b';
      KeptAppend(a, b');
    } else {
      assert a + b == a;
    }
  }

  /** The forwarded messages are exactly the messages with a recognised role. */
  lemma {:induction false} KeptMembers(ms: seq<Message>)
    ensures forall m :: m in Kept(ms) <==> m in ms && IsKept(m)
  {
    if ms != [] {
      KeptMembers(ms[..|ms| - 1]);
      assert ms == ms[..|ms| - 1] + [ms[|ms| - 1]];
    }
  }

  /** As many messages are forwarded as there are positions with a recognised role. */
  lemma {:induction false} KeptCount(ms: seq<Message>)
    ensures |Kept(ms)| == |KeptIndices(ms)|
  {
    if ms != [] {
      var n := |ms| - 1;
      KeptCount(ms[..n]);
      if IsKept(ms[n]) {
        assert KeptIndices(ms) == KeptIndices(ms[..n]) + {n};
      } else {
        assert KeptIndices(ms) == KeptIndices(ms[..n]);
      }
    }
  }

  /** A transcript holding only user and assistant messages is forwarded whole. */
  lemma {:induction false} KeptAll(ms: seq<Message>)
    requires forall i :: 0 <= i < |ms| ==> IsKept(ms[i])
    ensures Kept(ms) == ms
  {
    if ms != [] {
      KeptAll(ms[..|ms| - 1]);
    }
  }

  /** The loop's entries are the forwarded messages, one for one, renamed. */
  lemma {:induction false} TurnsAreKept(ms: seq<Message>)
    ensures |Turns(ms)| == |Kept(ms)|
    ensures forall k :: 0 <= k < |Kept(ms)| ==> Turns(ms)[k] == EntryOf(Kept(ms)[k])
  {
    if ms != [] {
      TurnsAreKept(ms[..|ms| - 1]);
    }
  }

  /**
   After any opening entries `p`, a transcript of forwarded messages ending in
   a user question gives one entry per message, and the image, if any, goes
   with the question only.
   */
  lemma {:induction false} QuestionTakesImage(p: seq<Entry>, ms: seq<Message>, question: string, attachment: Option<string>)
    requires forall i :: 0 <= i < |ms| ==> IsKept(ms[i])
    ensures var h := Attach(p + Turns(ms + [Message(UserRole, question)]), attachment);
      && |h| == |p| + |ms| + 1
      && h[..|p|] == p
      && (forall i :: 0 <= i < |ms| ==> h[|p| + i] == EntryOf(ms[i]))
      && h[|h| - 1]
         == Entry(UserRole, [Text(question)]
                            + (if HasAttachment(attachment) then [Inline(AttachmentMime, attachment.value)] else []))
  {
    var ms' := ms + [Message(UserRole, question)];
    assert ms'[..|ms'| - 1] == ms;
    KeptAll(ms);
    TurnsAreKept(ms);
    var base := p + Turns(ms');
    assert base == p + Turns(ms) + [Entry(UserRole, [Text(question)])];
    AttachLastOnly(base, attachment);
  }

  /** The image lands on the last entry only; with no image nothing changes. */
  lemma AttachLastOnly(history: seq<Entry>, attachment: Option<string>)
    requires history != []
    ensures |Attach(history, attachment)| == |history|
    ensures forall i :: 0 <= i < |history| - 1 ==> Attach(history, attachment)[i] == history[i]
    ensures Attach(history, attachment)[|history| - 1].role == history[|history| - 1].role
    ensures Attach(history, attachment)[|history| - 1].parts
            == history[|history| - 1].parts
               + (if HasAttachment(attachment) then [Inline(AttachmentMime, attachment.value)] else [])
  {
  }

  /** Every history opens with the persona prompt and the acknowledgement. */
  lemma PrimingPair(prompt: string, messages: seq<Message>, attachment: Option<string>)
    ensures var h := History(prompt, messages, attachment);
      && |h| >= 2
      && h[0] == Entry(UserRole, [Text(prompt)])
      && h[1].role == ModelRole
      && h[1].parts
         == [Text(Acknowledgement)]
            + (if Kept(messages) == [] && HasAttachment(attachment)
               then [Inline(AttachmentMime, attachment.value)] else [])
  {
  }

  /** The history has two entries more than there are messages with a recognised role. */
  lemma HistoryLength(prompt: string, messages: seq<Message>, attachment: Option<string>)
    ensures |History(prompt, messages, attachment)| == 2 + |KeptIndices(messages)|
  {
    TurnsAreKept(messages);
    KeptCount(messages);
  }

  /**
   The k-th forwarded message becomes entry 2 + k, with "assistant" renamed
   "model" and its content as the one text part; the image, if any, follows
   that part only on the last entry.
   */
  lemma HistoryEntry(prompt: string, messages: seq<Message>, attachment: Option<string>, k: nat)
    requires k < |Kept(messages)|
    ensures var h := History(prompt, messages, attachment); var m := Kept(messages)[k];
      && 2 + k < |h|
      && h[2 + k].role == (if m.role == UserRole then UserRole else ModelRole)
      && h[2 + k].parts
         == [Text(m.content)]
            + (if k == |Kept(messages)| - 1 && HasAttachment(attachment)
               then [Inline(AttachmentMime, attachment.value)] else [])
  {
    TurnsAreKept(messages);
    AttachLastOnly(Priming(prompt) + Turns(messages), attachment);
  }

  /** The image changes nothing but the parts of the last entry. */
  lemma AttachmentOnLastEntry(prompt: string, messages: seq<Message>, attachment: Option<string>)
    ensures var h := History(prompt, messages, attachment); var plain := History(prompt, messages, None);
      && |h| == |plain| >= 2
      && (forall i :: 0 <= i < |h| - 1 ==> h[i] == plain[i])
      && h[|h| - 1].role == plain[|h| - 1].role
      && h[|h| - 1].parts
         == plain[|h| - 1].parts
            + (if HasAttachment(attachment) then [Inline(AttachmentMime, attachment.value)] else [])
    ensures !HasAttachment(attachment) ==> History(prompt, messages, attachment) == History(prompt, messages, None)
  {
  }
}
