/** ViewModels/ChatViewModel.swift: the assistant chat. The history is persisted
    in `UserDefaults`, seeded with a welcome message, grows only by appending,
    and a reply is requested with the last ten messages as context. */
module Chat {
  import opened Basics
  import opened ChatMessageModel
  import opened Storage
  import opened Completions
  import Identity

  const HistoryKey := "chatHistoryMessages_v1"
  const WelcomeText := "Привет 👋 Я помогу спланировать твою поездку: билеты, отели, маршрут по дням. Скажи, откуда ты летишь и куда хочешь?"
  const ReplyFailedText := "Sorry, I couldn't reply."
  const ChatModel := "gpt-4o-mini"
  /** How many of the latest messages a request carries. */
  const ContextSize := 10

  // ---------------------------------------------------------------------------
  // Persistence

  /** `loadHistory`: the stored messages, or none when the key is missing or its
      data does not decode as `[ChatMessageModel]`. */
  function LoadedHistory(entries: map<string, Stored>): (r: seq<ChatMessage>)
    ensures HistoryKey !in entries ==> r == []
    ensures HistoryKey in entries && !entries[HistoryKey].MessagesData? ==> r == []
    ensures HistoryKey in entries && entries[HistoryKey].MessagesData? ==> r == entries[HistoryKey].messages
  {
    if HistoryKey in entries && entries[HistoryKey].MessagesData? then entries[HistoryKey].messages else []
  }

  /** `saveHistory` (encoding the messages does not fail). */
  function SavedHistory(entries: map<string, Stored>, messages: seq<ChatMessage>): map<string, Stored> {
    entries[HistoryKey := MessagesData(messages)]
  }

  /** The saved history is the one loaded back, and saving touches no other key. */
  lemma HistoryRoundTrip(entries: map<string, Stored>, messages: seq<ChatMessage>)
    ensures LoadedHistory(SavedHistory(entries, messages)) == messages
    ensures forall k :: k != HistoryKey && k in entries ==> k in SavedHistory(entries, messages) && SavedHistory(entries, messages)[k] == entries[k]
  {
  }

  // ---------------------------------------------------------------------------
  // The request

  /** One `["role": ..., "content": ...]` entry of the request. */
  datatype RequestMessage = RequestMessage(role: string, content: string)

  datatype ChatRequest = ChatRequest(model: string, messages: seq<RequestMessage>)

  function AsRequestMessage(m: ChatMessage): RequestMessage {
    RequestMessage(if m.sender == User then "user" else "assistant", m.text)
  }

  /** `messages.suffix(10)` mapped to request entries. */
  function RequestWindow(messages: seq<ChatMessage>): (r: seq<RequestMessage>)
    ensures |r| == Min(ContextSize, |messages|)
  {
    var recent := messages[|messages| - Min(ContextSize, |messages|)..];
    seq(|recent|, i requires 0 <= i < |recent| => AsRequestMessage(recent[i]))
  }

  /** The window holds the latest messages, oldest first, each with its sender's
      raw value as role and its text as content; the newest message is last, and
      a history of at most ten messages is sent whole. */
  lemma RequestWindowSpec(messages: seq<ChatMessage>)
    ensures var r := RequestWindow(messages);
      && (forall i :: 0 <= i < |r| ==>
            var m := messages[|messages| - |r| + i];
            r[i].role == m.sender.RawValue() && r[i].content == m.text)
      && (messages != [] ==> r[|r| - 1].content == messages[|messages| - 1].text)
      && (|messages| <= ContextSize ==> |r| == |messages|)
  {
  }

  /** A message appended after a full window pushes the oldest one out. */
  lemma RequestWindowSlides(messages: seq<ChatMessage>, m: ChatMessage)
    requires |messages| >= ContextSize
    ensures RequestWindow(messages + [m]) == RequestWindow(messages)[1..] + [AsRequestMessage(m)]
  {
    var r1 := RequestWindow(messages + [m]);
    var r0 := RequestWindow(messages);
    assert |r1| == |r0[1..] + [AsRequestMessage(m)]|;
    forall i | 0 <= i < |r1| ensures r1[i] == (r0[1..] + [AsRequestMessage(m)])[i] {
      if i < |r1| - 1 {
        assert r1[i] == AsRequestMessage((messages + [m])[|messages| + 1 - ContextSize + i]);
        assert r0[i + 1] == AsRequestMessage(messages[|messages| - ContextSize + i + 1]);
      }
    }
  }

  // ---------------------------------------------------------------------------
  // The reply

  /** The internal `ChatError`. */
  datatype ChatError = NetworkError | BadStatus(code: int) | EmptyResult

  /** What `sendToOpenAI` catches: its own errors, or one thrown by URLSession or
      the decoder (known by its description). */
  datatype ChatFailure = Internal(error: ChatError) | Thrown(description: string)

  /** The assistant's text, or the failure that ends the attempt. The text is
      used as received, untrimmed. */
  function ReplyText(reply: Reply): (r: Result<string, ChatFailure>)
    ensures r.Ok? <==> && reply.Http? && IsSuccessStatus(reply.status) && reply.body.envelope.Ok?
                       && reply.body.envelope.value != []
                       && !AllWhitespace(reply.body.envelope.value[0].content)
    ensures r.Ok? ==> r.value == reply.body.envelope.value[0].content
    ensures r == Err(Internal(NetworkError)) <==> reply.NotHttp?
    ensures reply.Http? && !IsSuccessStatus(reply.status) ==> r == Err(Internal(BadStatus(reply.status)))
  {
    match reply
    case TransportFailure(d) => Err(Thrown(d))
    case NotHttp => Err(Internal(NetworkError))
    case Http(status, body) =>
      if !IsSuccessStatus(status) then Err(Internal(BadStatus(status)))
      else
        match body.envelope
        case Err(d) => Err(Thrown(d))
        case Ok(choices) =>
          match FirstChoiceText(choices)
          case None => Err(Internal(EmptyResult))
          case Some(text) => Ok(text)
  }

  // ---------------------------------------------------------------------------
  // The view model

  class ChatViewModel {
    var messages: seq<ChatMessage>
    var draft: string
    var isSending: bool
    var errorText: Option<string>
    const defaults: Defaults
    const ids: Identity.UuidSource

    ghost predicate Valid()
      reads this, ids
    {
      ids.Valid()
    }

    /** `init`: loads the history; an empty one is replaced by the welcome
        message, which is saved at once. */
    constructor (defaults: Defaults, ids: Identity.UuidSource, now: Date)
      requires ids.Valid()
      modifies defaults, ids
      ensures Valid()
      ensures this.defaults == defaults && this.ids == ids
      ensures draft == "" && !isSending && errorText.None?
      ensures LoadedHistory(old(defaults.entries)) != [] ==>
        messages == LoadedHistory(old(defaults.entries)) && defaults.entries == old(defaults.entries)
        && ids.issued == old(ids.issued)
      ensures LoadedHistory(old(defaults.entries)) == [] ==>
        && |messages| == 1
        && messages[0].sender == Assistant && messages[0].text == WelcomeText && messages[0].timestamp == now
        && messages[0].id !in old(ids.issued) && ids.issued == old(ids.issued) + {messages[0].id}
        && defaults.entries == SavedHistory(old(defaults.entries), messages)
    {
      this.defaults := defaults;
      this.ids := ids;
      var loaded := LoadedHistory(defaults.entries);
      if loaded == [] {
        var welcome := NewMessage(ids, None, Assistant, WelcomeText, now);
        loaded := [welcome];
        defaults.entries := SavedHistory(defaults.entries, loaded);
      }
      messages := loaded;
      draft := "";
      isSending := false;
      errorText := None;
    }

    /** `sendCurrentDraft`: a draft that trims to nothing is ignored; otherwise
        the trimmed text is appended as the user's message and saved, the draft
        and the error are cleared, and the text is returned for the reply task
        the source launches. */
    method SendCurrentDraft(now: Date) returns (sent: Option<string>)
      requires Valid()
      modifies this, defaults, ids
      ensures Valid()
      ensures isSending == old(isSending)
      ensures AllWhitespace(old(draft)) ==>
        && sent.None? && messages == old(messages) && draft == old(draft) && errorText == old(errorText)
        && defaults.entries == old(defaults.entries) && ids.issued == old(ids.issued)
      ensures !AllWhitespace(old(draft)) ==>
        && sent == Some(Trim(old(draft)))
        && draft == "" && errorText.None?
        && |messages| == |old(messages)| + 1 && messages[..|old(messages)|] == old(messages)
        && var m := messages[|old(messages)|];
           && m.sender == User && m.text == Trim(old(draft)) && m.timestamp == now
           && m.id !in old(ids.issued) && ids.issued == old(ids.issued) + {m.id}
           && defaults.entries == SavedHistory(old(defaults.entries), messages)
    {
      var userText := Trim(draft);
      TrimEmptyIff(draft);
      if userText == "" {
        return None;
      }
      draft := "";
      errorText := None;
      var userMessage := NewMessage(ids, None, User, userText, now);
      messages := messages + [userMessage];
      defaults.entries := SavedHistory(defaults.entries, messages);
      sent := Some(userText);
    }

    /** The head of `sendToOpenAI`, up to the network call: the request built
        from the latest messages. */
    method BeginReply() returns (request: ChatRequest)
      modifies this
      ensures isSending
      ensures request == ChatRequest(ChatModel, RequestWindow(messages))
      ensures messages == old(messages) && draft == old(draft) && errorText == old(errorText)
    {
      isSending := true;
      request := ChatRequest(ChatModel, RequestWindow(messages));
    }

    /** The tail of `sendToOpenAI`: a usable reply is appended as the assistant's
        message and saved; any failure sets the apology and changes nothing else. */
    method CompleteReply(reply: Reply, now: Date)
      requires Valid()
      modifies this, defaults, ids
      ensures Valid()
      ensures !isSending && draft == old(draft)
      ensures ReplyText(reply).Ok? ==>
        && |messages| == |old(messages)| + 1 && messages[..|old(messages)|] == old(messages)
        && var m := messages[|old(messages)|];
           && m.sender == Assistant && m.text == ReplyText(reply).value && m.timestamp == now
           && m.id !in old(ids.issued) && ids.issued == old(ids.issued) + {m.id}
           && errorText == old(errorText)
           && defaults.entries == SavedHistory(old(defaults.entries), messages)
      ensures ReplyText(reply).Err? ==>
        && messages == old(messages) && errorText == Some(ReplyFailedText)
        && defaults.entries == old(defaults.entries) && ids.issued == old(ids.issued)
    {
      isSending := false;
      match ReplyText(reply)
      case Err(_) =>
        errorText := Some(ReplyFailedText);
      case Ok(text) =>
        var botMessage := NewMessage(ids, None, Assistant, text, now);
        messages := messages + [botMessage];
        defaults.entries := SavedHistory(defaults.entries, messages);
    }

    /** `sendToOpenAI`, with the reply as an input. */
    method SendToOpenAI(reply: Reply, now: Date) returns (request: ChatRequest)
      requires Valid()
      modifies this, defaults, ids
      ensures Valid()
      ensures request == ChatRequest(ChatModel, RequestWindow(old(messages)))
      ensures !isSending && draft == old(draft)
      ensures ReplyText(reply).Ok? ==>
        && |messages| == |old(messages)| + 1 && messages[..|old(messages)|] == old(messages)
        && var m := messages[|old(messages)|];
           && m.sender == Assistant && m.text == ReplyText(reply).value && m.timestamp == now
           && m.id !in old(ids.issued) && ids.issued == old(ids.issued) + {m.id}
           && errorText == old(errorText)
           && defaults.entries == SavedHistory(old(defaults.entries), messages)
      ensures ReplyText(reply).Err? ==>
        && messages == old(messages) && errorText == Some(ReplyFailedText)
        && defaults.entries == old(defaults.entries) && ids.issued == old(ids.issued)
    {
      request := BeginReply();
      CompleteReply(reply, now);
    }
  }
}
