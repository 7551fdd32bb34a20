/** The transcript's element type: `Role` (src/openai.rs) and `ChatMessage` (src/main.rs). */
module Chat {

  datatype Role = System | User | Assistant

  datatype ChatMessage = ChatMessage(role: Role, content: string)
}
