/** The role-based message shape the analytics read (src/types/chat.ts). */
module ChatMessageTypes {

  /** `'user' | 'assistant' | 'system'`. */
  datatype Role = User | Assistant | System

  /** A message with its epoch-millisecond timestamp. */
  datatype ChatMessage = ChatMessage(id: string, content: string, role: Role, timestamp: int)
}
