/** One round trip to the chat-completions endpoint, as both trip generation and
    the chat assistant observe it. The request itself is sent by URLSession and is
    not modelled; its reply is an input. */
module Completions {
  import opened Basics

  /** `choices[i].message` of the response. */
  datatype Choice = Choice(role: string, content: string)

  /** The body of an HTTP reply: its text if it is valid UTF-8, and the outcome
      of decoding it as `{ choices: [{ message: { role, content } }] }` (on
      failure, the decoder's error description). */
  datatype Body = Body(utf8: Option<string>, envelope: Result<seq<Choice>, string>)

  datatype Reply =
    | TransportFailure(description: string)   // URLSession threw
    | NotHttp                                  // the response is not an HTTPURLResponse
    | Http(status: int, body: Body)

  /** `choices.first?.message.content`, unless it is missing or blank. */
  function FirstChoiceText(choices: seq<Choice>): (r: Option<string>)
    ensures r.Some? <==> choices != [] && !AllWhitespace(choices[0].content)
    ensures r.Some? ==> r.value == choices[0].content
  {
    if choices == [] then None
    else if Trim(choices[0].content) == "" then
      TrimEmptyIff(choices[0].content);
      None
    else
      TrimEmptyIff(choices[0].content);
      Some(choices[0].content)
  }
}
