/** The store provider: the mutable store behind the reducer, its actions
    (each a fixed sequence of dispatches around awaited backend calls) and
    the bridge that mirrors the two selections into local storage. */
module ChatProvider {

  import opened Wrappers
  import opened Entities
  import opened Api
  import ChatReducer

  /** Storage key of the selected peer (`STORAGE_KEYS.SELECTED_USER`). */
  const SELECTED_USER_KEY := "necx_selected_user"
  /** Storage key of the current user, a literal the provider spells out. */
  const CURRENT_USER_KEY := "CURRENT_USER"
  /** The error `sendMessage` throws when a participant is missing. */
  const MISSING_PARTICIPANT := "Both current user and recipient must be selected"

  /** `encode`/`decode` behave like `JSON.stringify`/`JSON.parse` on user
      records: a stored user reads back as itself, and is never the empty
      string. `decode` yields `None` where parsing throws and `Some(None)`
      where the text parses to `null`. */
  ghost predicate IsCodec(encode: User -> string, decode: string -> Option<Option<User>>)
  {
    forall u: User {:trigger encode(u)} :: encode(u) != "" && decode(encode(u)) == Some(Some(u))
  }

  /** `storage` holds `field` under `key`: the key is present exactly when the
      field is non-null, and then holds the field's serialization. */
  ghost predicate Mirrors(storage: map<string, string>, key: string, field: Option<User>, encode: User -> string)
  {
    && (key in storage <==> field.Some?)
    && (field.Some? ==> storage[key] == encode(field.value))
  }

  /** The storage after one persistence effect: `setItem(key, encode(field))`
      when the field is non-null, `removeItem(key)` otherwise. */
  function Persisted(storage: map<string, string>, key: string, field: Option<User>, encode: User -> string): (r: map<string, string>)
    ensures Mirrors(r, key, field, encode)
    ensures forall k :: k != key ==> (k in r <==> k in storage)
    ensures forall k :: k != key && k in r ==> r[k] == storage[k]
  {
    if field.Some? then storage[key := encode(field.value)] else storage - {key}
  }

  /** What the rehydration effect does with one key at start-up. */
  datatype Rehydration =
    | Skip                          // nothing stored, or the empty string
    | Restore(user: Option<User>)   // parsed: dispatch it as the selection
    | Discard                       // does not parse: remove the key

  function Rehydrate(storage: map<string, string>, key: string, decode: string -> Option<Option<User>>): Rehydration
  {
    if key !in storage || storage[key] == "" then Skip
    else match decode(storage[key])
      case None => Discard
      case Some(u) => Restore(u)
  }

  /** The selection that start-up restores from `key`. */
  function Restored(storage: map<string, string>, key: string, decode: string -> Option<Option<User>>): Option<User>
  {
    match Rehydrate(storage, key, decode)
    case Restore(u) => u
    case _ => None
  }

  /** Round trip: a user persisted under a key is restored as that same user. */
  lemma RestoreAfterPersist(storage: map<string, string>, key: string, u: User,
                            encode: User -> string, decode: string -> Option<Option<User>>)
    requires IsCodec(encode, decode)
    ensures Restored(Persisted(storage, key, Some(u), encode), key, decode) == Some(u)
  {
  }

  /** A stored value that does not parse is discarded and restores no selection. */
  lemma CorruptValueIsDiscarded(storage: map<string, string>, key: string, decode: string -> Option<Option<User>>)
    requires key in storage && storage[key] != "" && decode(storage[key]).None?
    ensures Rehydrate(storage, key, decode) == Discard
    ensures Restored(storage, key, decode).None?
  {
  }

  /** Both persistence effects together overwrite whatever their two keys held before. */
  lemma PersistBothIgnoresOldValues(m: map<string, string>, m': map<string, string>,
                                    selected: Option<User>, current: Option<User>, encode: User -> string)
    requires forall k :: k != SELECTED_USER_KEY && k != CURRENT_USER_KEY ==> (k in m <==> k in m')
    requires forall k :: k != SELECTED_USER_KEY && k != CURRENT_USER_KEY && k in m ==> m[k] == m'[k]
    ensures Persisted(Persisted(m, SELECTED_USER_KEY, selected, encode), CURRENT_USER_KEY, current, encode)
         == Persisted(Persisted(m', SELECTED_USER_KEY, selected, encode), CURRENT_USER_KEY, current, encode)
  {
  }

  /** Re-running a persistence effect whose field did not change leaves storage as it is. */
  lemma PersistIsIdempotent(storage: map<string, string>, key: string, field: Option<User>, encode: User -> string)
    requires Mirrors(storage, key, field, encode)
    ensures Persisted(storage, key, field, encode) == storage
  {
  }

  class ChatStore {
    var users: seq<User>
    var messages: seq<Message>
    var selectedUser: Option<User>
    var currentUser: Option<User>
    var loading: map<string, bool>
    var error: map<string, Option<string>>
    /** The browser's local storage. */
    var storage: map<string, string>
    const encode: User -> string
    const decode: string -> Option<Option<User>>

    /** The store's current snapshot. */
    function Snapshot(): ChatReducer.State
      reads this
    {
      ChatReducer.State(users, messages, selectedUser, currentUser, loading, error)
    }

    /** Between actions, storage mirrors both selections. */
    ghost predicate Valid()
      reads this
    {
      && Mirrors(storage, SELECTED_USER_KEY, selectedUser, encode)
      && Mirrors(storage, CURRENT_USER_KEY, currentUser, encode)
    }

    /** Mounting the provider over the local storage `saved`: the initial
        state, then the rehydration effect (which reads both keys, deletes an
        unparsable one and queues the parsed selections), then the two
        persistence effects of the first render (which still see null
        selections), then the queued dispatches and the persistence effects
        of the render that follows them. */
    constructor (saved: map<string, string>, encode: User -> string, decode: string -> Option<Option<User>>)
      ensures Valid()
      ensures this.encode == encode && this.decode == decode
      ensures users == [] && messages == []
      ensures loading == ChatReducer.InitialState().loading && error == ChatReducer.InitialState().error
      ensures selectedUser == Restored(saved, SELECTED_USER_KEY, decode)
      ensures currentUser == Restored(saved, CURRENT_USER_KEY, decode)
      ensures storage == Persisted(Persisted(saved, SELECTED_USER_KEY, selectedUser, encode),
                                   CURRENT_USER_KEY, currentUser, encode)
    {
      var init := ChatReducer.InitialState();
      users, messages := init.users, init.messages;
      selectedUser, currentUser := init.selectedUser, init.currentUser;
      loading, error := init.loading, init.error;
      storage := saved;
      this.encode, this.decode := encode, decode;
      new;
      var savedSelected, savedCurrent := RehydrationEffect();
      PersistSelectedUser();
      PersistCurrentUser();
      ghost var beforeRender := storage;
      RestoreSelections(savedSelected, savedCurrent);
      PersistBothIgnoresOldValues(beforeRender, saved, selectedUser, currentUser, encode);
    }

    /** The rehydration effect: reads both keys once, deletes each key whose
        value does not parse, and returns what is to be dispatched. */
    method RehydrationEffect() returns (selected: Rehydration, current: Rehydration)
      modifies this`storage
      ensures selected == Rehydrate(old(storage), SELECTED_USER_KEY, decode)
      ensures current == Rehydrate(old(storage), CURRENT_USER_KEY, decode)
      ensures storage == old(storage) - (if selected.Discard? then {SELECTED_USER_KEY} else {})
                                      - (if current.Discard? then {CURRENT_USER_KEY} else {})
    {
      selected := Rehydrate(storage, SELECTED_USER_KEY, decode);
      current := Rehydrate(storage, CURRENT_USER_KEY, decode);
      if selected.Discard? {
        storage := storage - {SELECTED_USER_KEY};
      }
      if current.Discard? {
        storage := storage - {CURRENT_USER_KEY};
      }
    }

    /** The queued rehydration dispatches, then the persistence effects of
        the render they cause. */
    method RestoreSelections(selected: Rehydration, current: Rehydration)
      modifies this
      ensures Snapshot() == old(Snapshot()).(
                selectedUser := if selected.Restore? then selected.user else old(selectedUser),
                currentUser := if current.Restore? then current.user else old(currentUser))
      ensures storage == Persisted(Persisted(old(storage), SELECTED_USER_KEY, selectedUser, encode),
                                   CURRENT_USER_KEY, currentUser, encode)
    {
      if selected.Restore? {
        Dispatch(ChatReducer.SetSelectedUser(selected.user));
      }
      if current.Restore? {
        Dispatch(ChatReducer.SetCurrentUser(current.user));
      }
      PersistSelectedUser();
      PersistCurrentUser();
    }

    /** `dispatch(action)`: the snapshot becomes the reducer's result. */
    method Dispatch(a: ChatReducer.Action)
      modifies this
      ensures Snapshot() == ChatReducer.Reduce(old(Snapshot()), a)
      ensures storage == old(storage)
    {
      var next := ChatReducer.Reduce(Snapshot(), a);
      users, messages := next.users, next.messages;
      selectedUser, currentUser := next.selectedUser, next.currentUser;
      loading, error := next.loading, next.error;
    }

    /** The effect that mirrors `selectedUser` into storage. */
    method PersistSelectedUser()
      modifies this`storage
      ensures storage == Persisted(old(storage), SELECTED_USER_KEY, selectedUser, encode)
    {
      storage := Persisted(storage, SELECTED_USER_KEY, selectedUser, encode);
    }

    /** The effect that mirrors `currentUser` into storage. */
    method PersistCurrentUser()
      modifies this`storage
      ensures storage == Persisted(old(storage), CURRENT_USER_KEY, currentUser, encode)
    {
      storage := Persisted(storage, CURRENT_USER_KEY, currentUser, encode);
    }

    /** `fetchUsers()`: loading on, error cleared, one GET of the user list,
        then the list replaced (an absent list reads as empty) or the error
        recorded, and loading off. */
    method FetchUsers(response: Outcome<Option<seq<User>>>) returns (requests: seq<Request>)
      requires Valid()
      modifies this
      ensures Valid()
      ensures requests == [GetUsers]
      ensures loading == old(loading)[ChatReducer.USERS_KEY := false]
      ensures response.Ok? ==>
                users == OrEmpty(response.data) && error == old(error)[ChatReducer.USERS_KEY := None]
      ensures response.Fail? ==>
                users == old(users) && error == old(error)[ChatReducer.USERS_KEY := Some(response.message)]
      ensures messages == old(messages) && selectedUser == old(selectedUser)
      ensures currentUser == old(currentUser) && storage == old(storage)
    {
      Dispatch(ChatReducer.SetLoading(ChatReducer.USERS_KEY, true));
      Dispatch(ChatReducer.SetError(ChatReducer.USERS_KEY, None));
      requests := [GetUsers];
      match response {
        case Ok(data) =>
          Dispatch(ChatReducer.SetUsers(OrEmpty(data)));
        case Fail(msg) =>
          Dispatch(ChatReducer.SetError(ChatReducer.USERS_KEY, Some(msg)));
      }
      Dispatch(ChatReducer.SetLoading(ChatReducer.USERS_KEY, false));
    }

    /** `fetchMessages()`: with both participants set, one GET of the messages
        between their names replaces the list (or records the error); with
        either missing, no request is made and the list is cleared. */
    method FetchMessages(response: Outcome<Option<seq<Message>>>) returns (requests: seq<Request>)
      requires Valid()
      modifies this
      ensures Valid()
      ensures loading == old(loading)[ChatReducer.MESSAGES_KEY := false]
      ensures old(currentUser.None? || selectedUser.None?) ==>
                requests == [] && messages == []
                && error == old(error)[ChatReducer.MESSAGES_KEY := None]
      ensures old(currentUser.Some? && selectedUser.Some?) ==>
                requests == [GetMessagesBetween(old(currentUser.value.name), old(selectedUser.value.name))]
      ensures old(currentUser.Some? && selectedUser.Some?) && response.Ok? ==>
                messages == OrEmpty(response.data)
                && error == old(error)[ChatReducer.MESSAGES_KEY := None]
      ensures old(currentUser.Some? && selectedUser.Some?) && response.Fail? ==>
                messages == old(messages)
                && error == old(error)[ChatReducer.MESSAGES_KEY := Some(response.message)]
      ensures users == old(users) && selectedUser == old(selectedUser)
      ensures currentUser == old(currentUser) && storage == old(storage)
    {
      Dispatch(ChatReducer.SetLoading(ChatReducer.MESSAGES_KEY, true));
      Dispatch(ChatReducer.SetError(ChatReducer.MESSAGES_KEY, None));
      if currentUser.Some? && selectedUser.Some? {
        requests := [GetMessagesBetween(currentUser.value.name, selectedUser.value.name)];
        match response {
          case Ok(data) =>
            Dispatch(ChatReducer.SetMessages(OrEmpty(data)));
          case Fail(msg) =>
            Dispatch(ChatReducer.SetError(ChatReducer.MESSAGES_KEY, Some(msg)));
        }
      } else {
        requests := [];
        Dispatch(ChatReducer.SetMessages([]));
      }
      Dispatch(ChatReducer.SetLoading(ChatReducer.MESSAGES_KEY, false));
    }

    /** `sendMessage({content})`: throws before touching anything when a
        participant is missing; otherwise one POST of the content from the
        current user to the selected user, whose returned message is
        appended at the tail, or whose error is recorded and rethrown. */
    method SendMessage(content: string, response: Outcome<Message>)
      returns (requests: seq<Request>, result: Outcome<Message>)
      requires Valid()
      modifies this
      ensures Valid()
      ensures old(currentUser.None? || selectedUser.None?) ==>
                requests == [] && result == Fail(MISSING_PARTICIPANT)
                && Snapshot() == old(Snapshot()) && storage == old(storage)
      ensures old(currentUser.Some? && selectedUser.Some?) ==>
                && requests == [PostMessage(content, old(currentUser.value.name), old(selectedUser.value.name))]
                && result == response
                && loading == old(loading)[ChatReducer.SENDING_MESSAGE_KEY := false]
                && messages == (if response.Ok? then old(messages) + [response.data] else old(messages))
                && error == old(error)[ChatReducer.SEND_MESSAGE_KEY :=
                                         if response.Fail? then Some(response.message) else None]
      ensures users == old(users) && selectedUser == old(selectedUser)
      ensures currentUser == old(currentUser) && storage == old(storage)
    {
      if currentUser.None? || selectedUser.None? {
        return [], Fail(MISSING_PARTICIPANT);
      }
      Dispatch(ChatReducer.SetLoading(ChatReducer.SENDING_MESSAGE_KEY, true));
      Dispatch(ChatReducer.SetError(ChatReducer.SEND_MESSAGE_KEY, None));
      requests := [PostMessage(content, currentUser.value.name, selectedUser.value.name)];
      match response {
        case Ok(sent) =>
          Dispatch(ChatReducer.AddMessage(sent));
        case Fail(msg) =>
          Dispatch(ChatReducer.SetError(ChatReducer.SEND_MESSAGE_KEY, Some(msg)));
      }
      result := response;
      Dispatch(ChatReducer.SetLoading(ChatReducer.SENDING_MESSAGE_KEY, false));
    }

    /** `createUser({name})`: one POST of the name, then (only if it
        succeeded) one GET of the user list, which replaces `users`; the
        first failure is recorded and rethrown. Resolves with the created
        user the POST returned. */
    method CreateUser(name: string, created: Outcome<Option<User>>, listed: Outcome<Option<seq<User>>>)
      returns (requests: seq<Request>, result: Outcome<Option<User>>)
      requires Valid()
      modifies this
      ensures Valid()
      ensures loading == old(loading)[ChatReducer.USERS_KEY := false]
      ensures created.Fail? ==>
                requests == [PostUser(name)] && result == Fail(created.message)
                && users == old(users)
                && error == old(error)[ChatReducer.USERS_KEY := Some(created.message)]
      ensures created.Ok? ==> requests == [PostUser(name), GetUsers]
      ensures created.Ok? && listed.Ok? ==>
                result == Ok(created.data) && users == OrEmpty(listed.data)
                && error == old(error)[ChatReducer.USERS_KEY := None]
      ensures created.Ok? && listed.Fail? ==>
                result == Fail(listed.message) && users == old(users)
                && error == old(error)[ChatReducer.USERS_KEY := Some(listed.message)]
      ensures messages == old(messages) && selectedUser == old(selectedUser)
      ensures currentUser == old(currentUser) && storage == old(storage)
    {
      Dispatch(ChatReducer.SetLoading(ChatReducer.USERS_KEY, true));
      Dispatch(ChatReducer.SetError(ChatReducer.USERS_KEY, None));
      requests := [PostUser(name)];
      match created {
        case Fail(msg) =>
          Dispatch(ChatReducer.SetError(ChatReducer.USERS_KEY, Some(msg)));
          result := Fail(msg);
        case Ok(user) =>
          requests := requests + [GetUsers];
          match listed {
            case Fail(msg) =>
              Dispatch(ChatReducer.SetError(ChatReducer.USERS_KEY, Some(msg)));
              result := Fail(msg);
            case Ok(data) =>
              Dispatch(ChatReducer.SetUsers(OrEmpty(data)));
              result := Ok(user);
          }
      }
      Dispatch(ChatReducer.SetLoading(ChatReducer.USERS_KEY, false));
    }

    /** `setCurrentUser(user)`: changes only the current user, and its storage key follows. */
    method SetCurrentUser(user: Option<User>)
      requires Valid()
      modifies this
      ensures Valid()
      ensures Snapshot() == old(Snapshot()).(currentUser := user)
      ensures storage == Persisted(old(storage), CURRENT_USER_KEY, user, encode)
    {
      Dispatch(ChatReducer.SetCurrentUser(user));
      PersistCurrentUser();
    }

    /** `selectUser(user)`: sets the peer and empties the message list in
        one step, before any fetch; the peer's storage key follows. */
    method SelectUser(user: Option<User>)
      requires Valid()
      modifies this
      ensures Valid()
      ensures Snapshot() == old(Snapshot()).(selectedUser := user, messages := [])
      ensures storage == Persisted(old(storage), SELECTED_USER_KEY, user, encode)
    {
      Dispatch(ChatReducer.SetSelectedUser(user));
      Dispatch(ChatReducer.SetMessages([]));
      PersistSelectedUser();
    }

    /** `updateMessage(messageId, updated)`: replaces by the id carried in
        `updated`; the separate `messageId` argument is ignored. */
    method UpdateMessage(messageId: string, updated: Message)
      requires Valid()
      modifies this
      ensures Valid()
      ensures Snapshot() == ChatReducer.Reduce(old(Snapshot()), ChatReducer.UpdateMessage(updated))
      ensures storage == old(storage)
    {
      Dispatch(ChatReducer.UpdateMessage(updated));
    }

    /** `deleteMessage(messageId)`: drops every message with that id. */
    method DeleteMessage(messageId: string)
      requires Valid()
      modifies this
      ensures Valid()
      ensures Snapshot() == ChatReducer.Reduce(old(Snapshot()), ChatReducer.DeleteMessage(messageId))
      ensures storage == old(storage)
    {
      Dispatch(ChatReducer.DeleteMessage(messageId));
    }

    /** `clearErrors()`: all three errors back to null, nothing else touched. */
    method ClearErrors()
      requires Valid()
      modifies this
      ensures Valid()
      ensures Snapshot() == old(Snapshot()).(error := ChatReducer.NoErrors())
      ensures storage == old(storage)
    {
      Dispatch(ChatReducer.ClearErrors);
    }
  }
}
