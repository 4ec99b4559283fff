/** The values the client passes between its parts. */
module Records {

  /**
   * What `FileUtils.readFile` returns for a readable file: its path, its text,
   * its size in bytes as the file system reports it, and `extname` of the path.
   * The modification time is not part of this model.
   */
  datatype FileRecord = FileRecord(path: string, content: string, size: nat, extension: string)

  /** The role of a chat message. */
  datatype Role = System | User | Assistant

  /** One `{ role, content }` message, as sent to the chat backend and kept in the conversation. */
  datatype Message = Message(role: Role, content: string)

  /**
   * How an `async` call settles: its promise resolves with a string, or it
   * rejects with an error carrying a message.
   */
  datatype Outcome = Returned(text: string) | Thrown(message: string)
}
