/** Message shapes shared by the chat widget and the chat endpoint. */
module Messages {

  datatype Option<+T> = None | Some(value: T)

  /** One entry of a message's `parts` list: its `type` tag and its `text`
      field, `None` when the field is absent or is not a string. */
  datatype Part = Part(kind: string, text: Option<string>)

  /** A conversation turn as the chat hook holds it: a role tag and the
      ordered parts (the hook's message `id` only keys the rendering). */
  datatype UIMessage = UIMessage(role: string, parts: seq<Part>)

  /** A message object of the request body: its `content` (`None` when absent
      or empty-falsy) and its `parts` (`None` when absent). */
  datatype WireMessage = WireMessage(content: Option<string>, parts: Option<seq<Part>>)

  /** An element of the `messages` array: `null`/`undefined`, or an object. */
  datatype WireItem = Nullish(isNull: bool) | Object(msg: WireMessage)
}
