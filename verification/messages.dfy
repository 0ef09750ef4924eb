/** The chat message record shared by the browser page and the relay. */
module Messages {

  /** `System` appears only in the list the relay sends upstream; the page itself creates
      `User` and `Assistant` messages only. */
  datatype Role = System | User | Assistant

  datatype Message = Message(role: Role, content: string)

  /** The request body the page posts to the relay: `{ messages, language }`. */
  datatype ChatRequest = ChatRequest(messages: seq<Message>, language: string)
}
