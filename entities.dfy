/** The two records the client caches: users and the messages between them. */
module Entities {

  /** A user as the backend returns it (`_id`, `name`, `createdAt`). */
  datatype User = User(id: string, name: string, createdAt: string)

  /** A message as the backend returns it (`_id`, `sender`, `recipient`,
      `content`, `timestamp`, `isEdited`). Sender and recipient are user NAMES. */
  datatype Message = Message(
    id: string,
    sender: string,
    recipient: string,
    content: string,
    timestamp: string,
    isEdited: bool)
}
