/** The backend as the store and the views see it. Every call of the HTTP
    client either resolves with the parsed JSON body or throws (a network
    failure, or a status outside 200-299); the model receives that outcome as
    an argument instead of performing the call. */
module Api {

  import opened Wrappers

  /** What one awaited backend call produced: the part of the response the
      caller reads, or the message of the error it threw. The store's actions
      read only the body's `data` field and never its `success` flag, so they
      take `Outcome<...>` of that field; the bubble takes the whole body as an
      `Envelope`. */
  datatype Outcome<+T> = Ok(data: T) | Fail(message: string)

  /** The `{success, data}` envelope some callers inspect. */
  datatype Envelope<+T> = Envelope(success: bool, data: T)

  /** A request issued to the backend, with exactly the arguments it carries. */
  datatype Request =
    | GetUsers
    | PostUser(name: string)
    | GetMessagesBetween(user1: string, user2: string)
    | PostMessage(content: string, sender: string, recipient: string)
    | PutMessage(id: string, newContent: string)
    | DeleteMessageRequest(messageId: string)

  /** `response.data || []`: an absent list reads as the empty list. */
  function OrEmpty<T>(data: Option<seq<T>>): seq<T>
  {
    if data.Some? then data.value else []
  }
}
