/** Chat messages as both the client and the model service see them. */
module Messages {

  datatype Role = System | User | Assistant

  /** `{ role, content }`. */
  datatype Message = Message(role: Role, content: string)

  /** The role as it is spelled on the wire. */
  function RoleName(r: Role): string {
    match r
    case System => "system"
    case User => "user"
    case Assistant => "assistant"
  }

  /** The roles a conversation history may carry: `user` and `assistant`. */
  predicate IsChatRole(r: Role) {
    r == User || r == Assistant
  }
}
