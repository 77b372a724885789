/**
 * The record types that `lib/session-manager.ts` declares and that both the
 * messages route and the application context exchange.
 */
module ChatTypes {

  /** `"user" | "assistant"` */
  datatype Sender = User | Assistant

  /** `AppMessage`, as the messages route delivers it to the client. */
  datatype AppMessage = AppMessage(id: string, createdAt: string, role: string, roleType: Sender, content: string)

  /** `ChatSession`, one entry of the sidebar's thread list; `timestamp` in milliseconds. */
  datatype ChatSession = ChatSession(id: string, title: string, lastMessage: string, timestamp: int, messageCount: int)
}
