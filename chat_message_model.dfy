/** ViewModels/ChatMessageModel.swift: one immutable chat message. */
module ChatMessageModel {
  import opened Basics
  import Identity

  datatype Sender = User | Assistant
  {
    function RawValue(): string {
      match this
      case User => "user"
      case Assistant => "assistant"
    }
  }

  /** `Sender(rawValue:)`: defined on exactly "user" and "assistant". */
  function SenderFromRaw(raw: string): (r: Option<Sender>)
    ensures r.Some? <==> raw == "user" || raw == "assistant"
    ensures r.Some? ==> r.value.RawValue() == raw
  {
    if raw == "user" then Some(User)
    else if raw == "assistant" then Some(Assistant)
    else None
  }

  /** All four fields are `let`: a message never changes after it is built. */
  datatype ChatMessage = ChatMessage(id: Uuid, sender: Sender, text: string, timestamp: Date)

  /** The initializer with its defaulted arguments: a fresh id unless one is
      given, and the caller's clock reading (`Date()`) as the timestamp. */
  method NewMessage(ids: Identity.UuidSource, id: Option<Uuid>, sender: Sender, text: string, now: Date)
    returns (m: ChatMessage)
    requires ids.Valid()
    modifies ids
    ensures ids.Valid()
    ensures m.sender == sender && m.text == text && m.timestamp == now
    ensures id.Some? ==> m.id == id.value && ids.issued == old(ids.issued)
    ensures id.None? ==> m.id !in old(ids.issued) && ids.issued == old(ids.issued) + {m.id}
  {
    var uuid: Uuid;
    if id.Some? {
      uuid := id.value;
    } else {
      uuid := ids.Fresh();
    }
    m := ChatMessage(uuid, sender, text, now);
  }

  /** Two messages built with defaulted ids, one after the other, have distinct ids. */
  method TwoDefaultedMessages(ids: Identity.UuidSource, a: Sender, b: Sender, ta: string, tb: string, now: Date)
    returns (first: ChatMessage, second: ChatMessage)
    requires ids.Valid()
    modifies ids
    ensures ids.Valid()
    ensures first.id != second.id
    ensures first.sender == a && first.text == ta && second.sender == b && second.text == tb
  {
    first := NewMessage(ids, None, a, ta, now);
    second := NewMessage(ids, None, b, tb, now);
  }
}
