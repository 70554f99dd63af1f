# Chat client store and views, in Dafny

This project models the client side of a small two-party messaging
application. The application keeps one conversation store. The store holds:

- the cached users and messages;
- two selections: the current user ("who I am") and the selected user ("who I talk to");
- a loading flag and an error text for each of three resources (users, messages, sending).

The store changes only through a reducer. Its actions wrap backend calls in a
fixed sequence of dispatches. A persistence bridge mirrors both selections
into the browser's local storage. Four views add small guards around the store.

| file | module | what it models |
|---|---|---|
| `wrappers.dfy` | `Wrappers` | `Option`, JavaScript's `null` |
| `entities.dfy` | `Entities` | the `User` and `Message` records |
| `api.dfy` | `Api` | the outcome of an awaited backend call, the `{success, data}` envelope, the requests issued |
| `collections.dfy` | `Collections` | `Array.prototype.filter` and `map`, with order and membership lemmas |
| `text.dfy` | `Text` | `trim`, `toLowerCase` (ASCII) and `includes` |
| `chat_reducer.dfy` | `ChatReducer` | the snapshot, the actions and the reducer |
| `chat_provider.dfy` | `ChatProvider` | the store as a class: its actions, mount-time rehydration and the persistence effects |
| `message_bubble.dfy` | `MessageBubbleView` | ownership test and the edit/delete state machine |
| `message_input.dfy` | `MessageInputView` | the composer's submit guard and Enter rule |
| `create_user.dfy` | `CreateUserView` | the create-user form |
| `users_page.dfy` | `UsersPageView` | the users search and the page's view precedence |

Modelling choices:

- **Reducer.** The reducer is a pure function, `ChatReducer.Reduce`. The
  `loading` and `error` records are maps from field name to value, so the
  computed-key spread of SET_LOADING and SET_ERROR is a map update. The send
  resource's flag is `sendingMessage` but its error field is `sendMessage`,
  and the model keeps both names.
- **Store.** The provider is the class `ChatProvider.ChatStore`. Its fields
  are the snapshot's fields plus `storage`, the local storage as a
  `map<string, string>`. `Dispatch` replaces the fields by the reducer's
  result. Each action is a method that dispatches in the source's order.
- **Backend calls.** Each backend call becomes an argument of type
  `Outcome`: `Fail(message)` is the thrown error, and a status outside
  200-299 is one of the ways to get it. For the store's calls `Ok` carries
  the body's `data` field (`response.data`), which may be absent. The store
  never reads the body's `success` flag
  (src/context/ChatContext.jsx:176-177, 226-227, 245-248), so a 2xx body
  with `success: false` counts as `Ok`. Only the bubble's calls look at
  `success`, and they receive the whole `Envelope`. Each
  action returns the requests it issued, so "no request" is an empty list.
- **Selection storage keys.** The selected user is stored under
  `necx_selected_user`. The current user is stored under the literal key
  `CURRENT_USER`.
- **JSON.** `JSON.stringify`/`JSON.parse` become the store's `encode` and
  `decode`, given at construction. `decode` yields `None` where parsing
  throws and `Some(None)` where the text parses to `null`.
  `ChatProvider.IsCodec` states the round trip assumed of them.
- **Mount.** The constructor is the provider's mount. The rehydration
  effect runs first. The first render's persistence effects still see null
  selections and remove both keys. Then the queued selections are
  dispatched and mirrored again. The net effect is proved: each key holds
  exactly the restored selection.

Behaviour of the code that is easy to miss:

- The store's `createUser` does not check the name. Only the form trims it
  and rejects a blank one.
- `updateMessage` stores the server's message as given. It does not itself
  set `isEdited`.
- A failed send does change the store: it records `error.sendMessage` and
  toggles the sending flag. It adds no message.
- `fetchMessages` without both participants also raises and lowers the
  messages loading flag.

## Model

| member | source | states |
|---|---|---|
| `ChatReducer.ReduceFrame` | src/context/ChatContext.jsx:39-112 | every action changes at most the field it names; users, messages, each selection, loading and error move only under their own actions |
| `ChatReducer.SetFieldOnlyTouchesItsKey` | src/context/ChatContext.jsx:41-57 | SET_LOADING / SET_ERROR set the named field to the payload and leave every other field of `loading` / `error` as it was |
| `ChatReducer.AddMessageAppends` | src/context/ChatContext.jsx:83-87 | ADD_MESSAGE grows the list by one, keeps every earlier message in place and puts the payload last; nothing else changes |
| `ChatReducer.UpdateMessageReplaces` | src/context/ChatContext.jsx:89-95 | UPDATE_MESSAGE keeps length and order, puts the payload at every position whose id equals the payload's id, and leaves all other positions and fields untouched |
| `ChatReducer.UpdateAbsentIsNoop` | src/context/ChatContext.jsx:89-95 | updating with an id no message carries returns the state unchanged |
| `ChatReducer.UpdateMessageIdempotent` | src/context/ChatContext.jsx:89-95 | applying the same UPDATE_MESSAGE twice equals applying it once |
| `ChatReducer.DeleteMessageRemoves` | src/context/ChatContext.jsx:97-101 | after DELETE_MESSAGE no message has the id, every kept message was there before, every message with another id is kept, and the list is strictly shorter when the id was present |
| `ChatReducer.DeleteMessageKeepsOrder` | src/context/ChatContext.jsx:97-101 | deletion distributes over any split of the list, so survivors keep their relative order |
| `ChatReducer.DeleteAbsentIsNoop` | src/context/ChatContext.jsx:97-101 | deleting an id no message carries returns the state unchanged |
| `ChatReducer.DeleteMessageIdempotent` | src/context/ChatContext.jsx:97-101 | applying the same DELETE_MESSAGE twice equals applying it once |
| `ChatReducer.DeleteAfterUpdate` | src/context/ChatContext.jsx:89-101 | deleting an id after updating that id gives the same list as deleting it directly |
| `ChatReducer.SendEditDeleteRestores` | src/context/ChatContext.jsx:83-101 | adding a message with a fresh id, updating it and deleting it returns exactly the original state |
| `ChatReducer.ClearErrorsResets` | src/context/ChatContext.jsx:101-108 | CLEAR_ERRORS leaves exactly the three error fields, all null, changes no other field, and is idempotent |
| `ChatReducer.UnknownActionIsIdentity` | src/context/ChatContext.jsx:109-110 | an unknown action type returns the state unchanged |
| `Collections.Filter` | src/context/ChatContext.jsx:100 | a filter never lengthens its input; every kept element is from the input and passes the test; every input element that passes is kept |
| `Collections.Map` | src/context/ChatContext.jsx:92-94 | a map keeps the length and puts the image of each element at that element's position |
| `Text.Trim` | src/components/message-input/MessageInput.jsx:10-15 | the trimmed text occurs in the input right after its leading white space, neither starts nor ends with white space, is followed only by white space, and is empty exactly when the input is all white space |
| `Text.ToLower` | src/pages/users-page/UsersPage.jsx:15 | lower-casing keeps the length and lower-cases each character in place |
| `Text.ContainsOccurs` | src/pages/users-page/UsersPage.jsx:15 | `includes` holds exactly when the term occurs at some position of the string |
| `ChatProvider.Persisted` | src/context/ChatContext.jsx:154-168 | after a persistence effect the key is present exactly when the field is non-null and holds its serialization; all other keys are untouched |
| `ChatProvider.RestoreAfterPersist` | src/context/ChatContext.jsx:122-168 | a user persisted under a key is restored as the same user at the next start-up |
| `ChatProvider.CorruptValueIsDiscarded` | src/context/ChatContext.jsx:126-137 | a non-empty stored value that does not parse is discarded and restores no selection |
| `ChatProvider.PersistIsIdempotent` | src/context/ChatContext.jsx:153-168 | re-running a persistence effect whose field is already mirrored leaves storage unchanged |
| `ChatProvider.ChatStore.constructor` | src/context/ChatContext.jsx:118-168 | mount starts from the initial state, restores each selection from its key (null when absent, empty or unparsable), and leaves each key mirroring its selection with other keys untouched |
| `ChatProvider.ChatStore.RehydrationEffect` | src/context/ChatContext.jsx:122-151 | both keys are read once; a key whose value does not parse is removed; nothing else changes |
| `ChatProvider.ChatStore.RestoreSelections` | src/context/ChatContext.jsx:129-168 | the parsed selections are dispatched and both keys then mirror the selections |
| `ChatProvider.ChatStore.Dispatch` | src/context/ChatContext.jsx:119 | the snapshot becomes the reducer's result for the action; storage is untouched |
| `ChatProvider.ChatStore.PersistSelectedUser` | src/context/ChatContext.jsx:154-160 | `necx_selected_user` is set to the selected user's serialization, or removed when there is none |
| `ChatProvider.ChatStore.PersistCurrentUser` | src/context/ChatContext.jsx:162-168 | `CURRENT_USER` is set to the current user's serialization, or removed when there is none |
| `ChatProvider.ChatStore.FetchUsers` | src/context/ChatContext.jsx:171-183 | one GET; users loading ends false; on success users become the data (empty when absent) and the error is null; on failure users are unchanged and the error is the message; nothing else changes |
| `ChatProvider.ChatStore.FetchMessages` | src/context/ChatContext.jsx:185-206 | without both participants: no request, messages emptied, no error; with both: one GET between their names, then messages replaced or the error recorded with messages unchanged; messages loading ends false |
| `ChatProvider.ChatStore.SendMessage` | src/context/ChatContext.jsx:208-238 | a missing participant rejects with no request and no state change; otherwise one POST from current to selected user, exactly the returned message appended on success, messages unchanged and `error.sendMessage` set on failure, `loading.sendingMessage` false at the end |
| `ChatProvider.ChatStore.CreateUser` | src/context/ChatContext.jsx:240-264 | a POST, then a GET of the list only if the POST succeeded; users replaced only when both succeed; the first failure's message is recorded and returned; users loading ends false |
| `ChatProvider.ChatStore.SetCurrentUser` | src/context/ChatContext.jsx:266-268 | only the current user changes, and `CURRENT_USER` then mirrors it |
| `ChatProvider.ChatStore.SelectUser` | src/context/ChatContext.jsx:270-274 | the peer is set and the messages emptied in one action; `necx_selected_user` then mirrors the peer |
| `ChatProvider.ChatStore.UpdateMessage` | src/context/ChatContext.jsx:276-278 | the store applies UPDATE_MESSAGE with the payload; the `messageId` argument plays no part |
| `ChatProvider.ChatStore.DeleteMessage` | src/context/ChatContext.jsx:280-282 | the store applies DELETE_MESSAGE with the id |
| `ChatProvider.ChatStore.ClearErrors` | src/context/ChatContext.jsx:284-286 | only `error` changes, to the three null fields |
| `MessageBubbleView.OwnershipIsByName` | src/components/message-bubble/MessageBubble.jsx:14 | with no current user nothing is own; ownership means the sender equals the current user's name, so users sharing a name own the same messages |
| `MessageBubbleView.EnabledSaveHasContent` | src/components/message-bubble/MessageBubble.jsx:168-171 | an enabled Save button means the trimmed edit text is non-empty |
| `MessageBubbleView.MessageBubble.constructor` | src/components/message-bubble/MessageBubble.jsx:7-11 | a bubble starts out of edit mode with the message's content as edit text, not loading, menu closed |
| `MessageBubbleView.MessageBubble.HandleEdit` | src/components/message-bubble/MessageBubble.jsx:35-72 | unchanged trimmed text: no request, edit mode left; blank text: no request, still editing; otherwise one PUT of the trimmed text and loading ends false; success delivers the returned message and closes edit mode and menu; failure resets the text to the content and delivers nothing |
| `MessageBubbleView.MessageBubble.HandleDelete` | src/components/message-bubble/MessageBubble.jsx:74-95 | no request without confirmation; otherwise one DELETE and loading ends false; the id is handed on exactly when confirmed and the response reports success |
| `MessageBubbleView.MessageBubble.HandleCancel` | src/components/message-bubble/MessageBubble.jsx:97-101 | edit mode left, edit text restored to the content, menu closed |
| `MessageBubbleView.MessageBubble.HandleMenuToggle` | src/components/message-bubble/MessageBubble.jsx:103-105 | the menu flips between open and closed |
| `MessageBubbleView.MessageBubble.HandleEditClick` | src/components/message-bubble/MessageBubble.jsx:107-110 | edit mode entered, menu closed |
| `MessageBubbleView.MessageBubble.HandleDeleteClick` | src/components/message-bubble/MessageBubble.jsx:112-115 | the menu closes, then the delete flow runs |
| `MessageInputView.EnabledButtonSubmits` | src/components/message-input/MessageInput.jsx:47-50 | with the chat page's `disabled` (a participant missing), an enabled send button always passes the submit guard |
| `MessageInputView.MessageInput.constructor` | src/components/message-input/MessageInput.jsx:5 | the text box starts empty |
| `MessageInputView.MessageInput.HandleChange` | src/components/message-input/MessageInput.jsx:37-45 | the text box holds the typed text cut to 1000 characters |
| `MessageInputView.MessageInput.HandleSubmit` | src/components/message-input/MessageInput.jsx:7-24 | something is sent exactly when the trimmed text is non-empty, a current user is set and nothing is loading; the content sent is the trimmed text (1 to 1000 characters); the box is cleared only when the send resolves |
| `MessageInputView.MessageInput.HandleKeyPress` | src/components/message-input/MessageInput.jsx:26-31 | Enter without Shift runs the submit; any other key, or Shift+Enter, sends nothing and keeps the text |
| `CreateUserView.EnabledSubmitHasName` | src/components/create-user/CreateUser.jsx:56-73 | an enabled submit button means a trimmed name of 1 to 50 characters and no submit in flight |
| `CreateUserView.CreateUser.constructor` | src/components/create-user/CreateUser.jsx:5-7 | the form starts closed, with an empty name, not submitting |
| `CreateUserView.CreateUser.Open` | src/components/create-user/CreateUser.jsx:35-38 | the button opens the form |
| `CreateUserView.CreateUser.HandleChange` | src/components/create-user/CreateUser.jsx:51-56 | the name holds the typed text cut to 50 characters |
| `CreateUserView.CreateUser.HandleSubmit` | src/components/create-user/CreateUser.jsx:9-26 | a blank name sends nothing and changes nothing; otherwise the trimmed name (1 to 50 characters) is sent; on success name cleared and form closed, on failure both kept; submitting ends false |
| `CreateUserView.CreateUser.HandleCancel` | src/components/create-user/CreateUser.jsx:28-31 | the name is cleared and the form closed |
| `UsersPageView.FilteredUsersAreMatches` | src/pages/users-page/UsersPage.jsx:14-16 | the shown users are exactly the users whose lower-cased name contains the lower-cased term, and never more than all users |
| `UsersPageView.FilteredUsersKeepOrder` | src/pages/users-page/UsersPage.jsx:14-16 | the search distributes over any split of the list, so shown users keep the list order |
| `UsersPageView.EmptySearchShowsAll` | src/pages/users-page/UsersPage.jsx:14-16 | an empty term shows every user |
| `UsersPageView.SearchIgnoresCase` | src/pages/users-page/UsersPage.jsx:14-16 | terms equal after lower-casing show the same users |
| `UsersPageView.RenderPrecedence` | src/pages/users-page/UsersPage.jsx:18-135 | loading beats a non-empty error, which beats the list; the list shows the search's users, its shown count is at most the total and equals it for an empty term, and the empty-state text appears exactly when nothing is shown |
| `UsersPageView.EmptyTextByTerm` | src/pages/users-page/UsersPage.jsx:78-86 | the empty-state text is the no-match text exactly when a term was typed |

The defining functions below carry no contract of their own; the rows above
give their meaning through the lemmas about them:
`ChatReducer.Reduce` (src/context/ChatContext.jsx:39-112),
`ChatReducer.InitialState` (src/context/ChatContext.jsx:7-22),
`UsersPageView.FilteredUsers` and `UsersPageView.Render`
(src/pages/users-page/UsersPage.jsx:14-135),
`MessageBubbleView.IsOwnMessage` (src/components/message-bubble/MessageBubble.jsx:14)
and `Text.Contains` (`String.prototype.includes`).

## Left out

- The HTTP client (`src/services/api.js`) is not modelled. Its JSON encoding, URL building and `fetch` calls become `Outcome` arguments. Its rule that a status outside 200-299 throws is folded into `Fail`.
- Concurrency is not modelled: overlapping async actions, the race where the last response to land wins, and closures that capture an older snapshot. Each action runs to completion before the next starts.
- Toast notifications and `console` logging have no effect on state and are left out. `window.confirm` becomes the boolean `confirmed`.
- `ChatProvider.ChatStore.SendMessage`: a successful response without `data` would append `undefined` to the messages. The model's send outcome always carries a message.
- `ChatProvider.ChatStore.constructor`: stored text that parses to a non-null value that is not a user (a number, an array) would be dispatched as the selection. The model's `decode` yields only users or null.
- Real `JSON.stringify`/`JSON.parse` are not modelled. They are the store's `encode`/`decode` parameters, and `IsCodec` states the round trip assumed of them.
- `Text.ToLower` lower-cases ASCII letters only. The Unicode case mappings of `toLowerCase` are not modelled.
- `Text.Trim` and the length caps work on `char`s. JavaScript counts UTF-16 code units. Characters outside the Basic Multilingual Plane are not modelled.
- `maxLength` is modelled as cutting typed or pasted input to the limit. A browser blocks keystrokes past the limit instead.
- The bubble effect that resets the edit text when `message.content` changes (src/components/message-bubble/MessageBubble.jsx:17-19) is not modelled. Each bubble's props are fixed here.
- Closing the menu on a click outside it (src/components/message-bubble/MessageBubble.jsx:22-33) is a DOM listener and is not modelled.
- The users page fetches the users on mount. That fetch is `ChatProvider.ChatStore.FetchUsers`.
- The chat page's send handler (src/pages/chat-page/ChatPage.jsx:41-47) catches every rejection. So in the running application `onSendMessage` never rejects and the composer always clears. `MessageInputView.MessageInput.HandleSubmit` models the component as written, with `rejects` as an input.
- The user selector's create handler (src/components/user-selector/UserSelector.jsx:13-19) catches every rejection, and the selector shows only its loading view while `loading.users` is true (lines 21-28), so the create form is unmounted during the request. In the running application the form's failure branch is never observed. `CreateUserView.CreateUser.HandleSubmit` models the component as written, with `rejects` as an input.
- `Entities.Message` always carries a `sender` string. In the source a message with no `sender` counts as the viewer's own when no user is set, because `message.sender === currentUser?.name` compares `undefined` with `undefined` (src/components/message-bubble/MessageBubble.jsx:14). `MessageBubbleView.IsOwnMessage` does not model that case.
- `MessageBubbleView.MessageBubble.HandleEdit`: the model's edit reply always carries a message. In the source a 2xx reply of `{success: true}` without `data` reaches the chat page's update handler, which reads `updatedMessage._id` and throws inside the `try` (src/components/message-bubble/MessageBubble.jsx:47-51, src/pages/chat-page/ChatPage.jsx:53-55). The catch then resets the edit text and leaves edit mode and the menu as they were. The model's success branch does not capture that path.
- Rendering, routing, scrolling, date formatting, the message search component and the `useApi` hook are not part of this model.
