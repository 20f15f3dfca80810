/** The transcript entry shared by the client's components. */
module ChatTypes {

  datatype Role = User | Assistant

  /** `{ role, content }`: one line of the conversation as rendered. */
  datatype Message = Message(role: Role, content: string)
}
