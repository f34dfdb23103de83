/** `UserDefaults.standard` as the view models use it: a dictionary from key to
    stored value. The JSON encoders and decoders are not modelled; a stored value
    records what was written, and `Corrupt` stands for data that no longer
    decodes as the type its reader expects. */
module Storage {
  import opened Basics
  import opened Models
  import opened ChatMessageModel

  datatype Stored =
    | TripsData(trips: seq<Trip>)                 // JSON-encoded [Trip]
    | MessagesData(messages: seq<ChatMessage>)    // JSON-encoded [ChatMessageModel]
    | UserData(user: UserProfile)                 // JSON-encoded UserProfile
    | UuidText(id: Uuid)                          // the uuidString of an id
    | Text(text: string)                          // any other string
    | Corrupt                                     // data that fails to decode

  class Defaults {
    var entries: map<string, Stored>

    constructor (initial: map<string, Stored>)
      ensures entries == initial
    {
      entries := initial;
    }
  }
}
