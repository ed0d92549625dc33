/** The chat message record both chat components display. */
module ChatMessages {
  import opened JsStrings

  /** `ChatMessage`; `createdAt` is set only on replies from the server. */
  datatype ChatMessage = ChatMessage(sender: string, text: string, createdAt: Option<string>)

  /** Sender of the messages the user types. */
  const UserSender: string := "Você"

  const GreetingText: string := "Olá! Faça uma pergunta " + "sobre o documento para começar."

  /** The message a send appends before any reply arrives: the typed text,
      untrimmed. */
  function UserMessage(text: string): (m: ChatMessage)
    ensures m.sender == UserSender && m.text == text && m.createdAt == None
  {
    ChatMessage(UserSender, text, None)
  }
}
