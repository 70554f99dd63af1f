/** The conversation store's snapshot and its reducer (`chatReducer`): a pure
    transition function from a snapshot and an action to the next snapshot. */
module ChatReducer {

  import opened Wrappers
  import opened Entities
  import Collections

  /** Keys of the `loading` record. */
  const USERS_KEY := "users"
  const MESSAGES_KEY := "messages"
  const SENDING_MESSAGE_KEY := "sendingMessage"
  /** Keys of the `error` record: the send resource is `sendMessage` here,
      not `sendingMessage` as in `loading`. */
  const SEND_MESSAGE_KEY := "sendMessage"

  /** One snapshot of the store. `loading` and `error` are records whose
      fields are addressed by a computed key, so they are maps from the key
      to the field's value; an absent error is `None` (JavaScript's `null`). */
  datatype State = State(
    users: seq<User>,
    messages: seq<Message>,
    selectedUser: Option<User>,
    currentUser: Option<User>,
    loading: map<string, bool>,
    error: map<string, Option<string>>)

  /** The `error` record with all three fields set to null. */
  function NoErrors(): map<string, Option<string>>
  {
    map[USERS_KEY := None, MESSAGES_KEY := None, SEND_MESSAGE_KEY := None]
  }

  /** `initialState`: nothing cached, nothing selected, nothing loading, no errors. */
  function InitialState(): State
  {
    State([], [], None, None,
          map[USERS_KEY := false, MESSAGES_KEY := false, SENDING_MESSAGE_KEY := false],
          NoErrors())
  }

  /** The ten action types, plus any other type string, which the reducer ignores. */
  datatype Action =
    | SetLoading(loadingKey: string, isLoading: bool)
    | SetError(errorKey: string, errorText: Option<string>)
    | SetUsers(newUsers: seq<User>)
    | SetMessages(newMessages: seq<Message>)
    | SetSelectedUser(selected: Option<User>)
    | SetCurrentUser(current: Option<User>)
    | AddMessage(added: Message)
    | UpdateMessage(updated: Message)
    | DeleteMessage(deletedId: string)
    | ClearErrors
    | Unknown(actionType: string)

  /** The message-by-message step of UPDATE_MESSAGE: swap in `updated` where the id matches. */
  function ReplaceIfSameId(updated: Message): Message -> Message
  {
    (m: Message) => if m.id == updated.id then updated else m
  }

  /** The filter test of DELETE_MESSAGE: keep messages with another id. */
  function HasOtherId(id: string): Message -> bool
  {
    (m: Message) => m.id != id
  }

  /** `messages.map(msg => msg._id === updated._id ? updated : msg)` */
  function Replaced(messages: seq<Message>, updated: Message): seq<Message>
  {
    Collections.Map(messages, ReplaceIfSameId(updated))
  }

  /** `messages.filter(msg => msg._id !== id)` */
  function WithoutId(messages: seq<Message>, id: string): seq<Message>
  {
    Collections.Filter(messages, HasOtherId(id))
  }

  /** `chatReducer(state, action)` */
  function Reduce(s: State, a: Action): State
  {
    match a
    case SetLoading(k, v) => s.(loading := s.loading[k := v])
    case SetError(k, e) => s.(error := s.error[k := e])
    case SetUsers(us) => s.(users := us)
    case SetMessages(ms) => s.(messages := ms)
    case SetSelectedUser(u) => s.(selectedUser := u)
    case SetCurrentUser(u) => s.(currentUser := u)
    case AddMessage(m) => s.(messages := s.messages + [m])
    case UpdateMessage(m) => s.(messages := Replaced(s.messages, m))
    case DeleteMessage(id) => s.(messages := WithoutId(s.messages, id))
    case ClearErrors => s.(error := NoErrors())
    case Unknown(_) => s
  }

  /** Every action changes at most the field it is about; nothing else moves. */
  lemma ReduceFrame(s: State, a: Action)
    ensures var r := Reduce(s, a);
      && (r.users != s.users ==> a.SetUsers?)
      && (r.messages != s.messages ==>
            a.SetMessages? || a.AddMessage? || a.UpdateMessage? || a.DeleteMessage?)
      && (r.selectedUser != s.selectedUser ==> a.SetSelectedUser?)
      && (r.currentUser != s.currentUser ==> a.SetCurrentUser?)
      && (r.loading != s.loading ==> a.SetLoading?)
      && (r.error != s.error ==> a.SetError? || a.ClearErrors?)
  {
  }

  /** SET_LOADING and SET_ERROR touch only the field they name; in particular
      setting the `sendMessage` error leaves the `sendingMessage` flag alone. */
  lemma SetFieldOnlyTouchesItsKey(s: State, a: Action, k: string)
    requires a.SetLoading? || a.SetError?
    ensures a.SetLoading? && k != a.loadingKey && k in s.loading ==>
      k in Reduce(s, a).loading && Reduce(s, a).loading[k] == s.loading[k]
    ensures a.SetError? && k != a.errorKey && k in s.error ==>
      k in Reduce(s, a).error && Reduce(s, a).error[k] == s.error[k]
    ensures a.SetLoading? ==> Reduce(s, a).loading[a.loadingKey] == a.isLoading
    ensures a.SetError? ==> Reduce(s, a).error[a.errorKey] == a.errorText
  {
  }

  /** ADD_MESSAGE puts the payload at the tail and keeps every earlier message in place. */
  lemma AddMessageAppends(s: State, m: Message)
    ensures var r := Reduce(s, AddMessage(m));
      && |r.messages| == |s.messages| + 1
      && r.messages[..|s.messages|] == s.messages
      && r.messages[|s.messages|] == m
      && r == s.(messages := r.messages)
  {
  }

  /** UPDATE_MESSAGE keeps the length and the order, replaces every message
      carrying the payload's id by the payload, and leaves the others alone. */
  lemma UpdateMessageReplaces(s: State, m: Message)
    ensures var r := Reduce(s, UpdateMessage(m));
      && |r.messages| == |s.messages|
      && (forall i :: 0 <= i < |s.messages| && s.messages[i].id == m.id ==> r.messages[i] == m)
      && (forall i :: 0 <= i < |s.messages| && s.messages[i].id != m.id ==> r.messages[i] == s.messages[i])
      && r == s.(messages := r.messages)
  {
  }

  /** Updating with an id no message has changes nothing. */
  lemma UpdateAbsentIsNoop(s: State, m: Message)
    requires forall i :: 0 <= i < |s.messages| ==> s.messages[i].id != m.id
    ensures Reduce(s, UpdateMessage(m)) == s
  {
  }

  /** Applying the same UPDATE_MESSAGE twice is applying it once. */
  lemma UpdateMessageIdempotent(s: State, m: Message)
    ensures Reduce(Reduce(s, UpdateMessage(m)), UpdateMessage(m)) == Reduce(s, UpdateMessage(m))
  {
  }

  /** DELETE_MESSAGE keeps exactly the messages with another id, and removes
      at least one message when some message carries the id. */
  lemma DeleteMessageRemoves(s: State, id: string)
    ensures var r := Reduce(s, DeleteMessage(id));
      && (forall i :: 0 <= i < |r.messages| ==> r.messages[i].id != id && r.messages[i] in s.messages)
      && (forall i :: 0 <= i < |s.messages| && s.messages[i].id != id ==> s.messages[i] in r.messages)
      && ((exists i :: 0 <= i < |s.messages| && s.messages[i].id == id) ==> |r.messages| < |s.messages|)
      && r == s.(messages := r.messages)
  {
    if exists i :: 0 <= i < |s.messages| && s.messages[i].id == id {
      var i :| 0 <= i < |s.messages| && s.messages[i].id == id;
      Collections.FilterDropsRejected(s.messages, HasOtherId(id), s.messages[i]);
    }
  }

  /** DELETE_MESSAGE keeps the surviving messages in their relative order:
      it works piece by piece on any split of the list. */
  lemma DeleteMessageKeepsOrder(front: seq<Message>, back: seq<Message>, id: string)
    ensures WithoutId(front + back, id) == WithoutId(front, id) + WithoutId(back, id)
  {
    Collections.FilterConcat(front, back, HasOtherId(id));
  }

  /** Deleting an id no message has changes nothing. */
  lemma DeleteAbsentIsNoop(s: State, id: string)
    requires forall i :: 0 <= i < |s.messages| ==> s.messages[i].id != id
    ensures Reduce(s, DeleteMessage(id)) == s
  {
    Collections.FilterKeepsAll(s.messages, HasOtherId(id));
  }

  /** Applying the same DELETE_MESSAGE twice is applying it once. */
  lemma DeleteMessageIdempotent(s: State, id: string)
    ensures Reduce(Reduce(s, DeleteMessage(id)), DeleteMessage(id)) == Reduce(s, DeleteMessage(id))
  {
    WithoutIdIdempotent(s.messages, id);
  }

  lemma WithoutIdIdempotent(messages: seq<Message>, id: string)
    ensures WithoutId(WithoutId(messages, id), id) == WithoutId(messages, id)
  {
    Collections.FilterIdempotent(messages, HasOtherId(id));
  }

  /** Deleting an id after updating that id is the same as deleting it outright. */
  lemma {:induction false} DeleteAfterUpdate(messages: seq<Message>, m: Message)
    ensures WithoutId(Replaced(messages, m), m.id) == WithoutId(messages, m.id)
  {
    if messages != [] {
      var head, tail := messages[0], messages[1..];
      assert messages == [head] + tail;
      var f := ReplaceIfSameId(m);
      assert Replaced(messages, m) == [f(head)] + Replaced(tail, m);
      DeleteMessageKeepsOrder([f(head)], Replaced(tail, m), m.id);
      DeleteMessageKeepsOrder([head], tail, m.id);
      DeleteAfterUpdate(tail, m);
    }
  }

  /** Sending a message with a fresh id, editing it and deleting it leaves the
      store as it was before the send. */
  lemma SendEditDeleteRestores(s: State, sent: Message, edited: Message)
    requires forall i :: 0 <= i < |s.messages| ==> s.messages[i].id != sent.id
    requires edited.id == sent.id
    ensures Reduce(Reduce(Reduce(s, AddMessage(sent)), UpdateMessage(edited)), DeleteMessage(sent.id)) == s
  {
    var added := s.messages + [sent];
    DeleteAfterUpdate(added, edited);
    DeleteMessageKeepsOrder(s.messages, [sent], sent.id);
    Collections.FilterKeepsAll(s.messages, HasOtherId(sent.id));
    assert WithoutId([sent], sent.id) == [];
  }

  /** CLEAR_ERRORS nulls the three error fields, touches nothing else, and is idempotent. */
  lemma ClearErrorsResets(s: State)
    ensures var r := Reduce(s, ClearErrors);
      && r.error.Keys == {USERS_KEY, MESSAGES_KEY, SEND_MESSAGE_KEY}
      && (forall k :: k in r.error ==> r.error[k] == None)
      && r == s.(error := r.error)
      && Reduce(r, ClearErrors) == r
  {
  }

  /** An action type the reducer does not know returns the state unchanged. */
  lemma UnknownActionIsIdentity(s: State, t: string)
    ensures Reduce(s, Unknown(t)) == s
  {
  }
}
