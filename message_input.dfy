/** The message composer: a text box whose content is sent, trimmed, when
    the form is submitted or Enter is pressed without Shift. */
module MessageInputView {

  import opened Wrappers
  import opened Entities
  import opened Text

  /** `maxLength` of the text box (the message length limit). */
  const MAX_LENGTH := 1000

  /** The guard of `handleSubmit`: there is text after trimming, a current
      user, and no send in flight. */
  predicate CanSubmit(message: string, currentUser: Option<User>, loading: bool)
  {
    Trim(message) != "" && currentUser.Some? && !loading
  }

  /** The send button's `disabled`: blank text, a disabled composer, or a send in flight. */
  predicate SendDisabled(message: string, disabled: bool, loading: bool)
  {
    Trim(message) == "" || disabled || loading
  }

  /** The chat page disables the composer unless both participants are set,
      so an enabled send button always passes the submit guard. */
  lemma EnabledButtonSubmits(message: string, currentUser: Option<User>, selectedUser: Option<User>, loading: bool)
    requires !SendDisabled(message, currentUser.None? || selectedUser.None?, loading)
    ensures CanSubmit(message, currentUser, loading)
  {
  }

  /** Enter submits unless Shift is held. */
  predicate SubmitsOnKey(key: string, shiftKey: bool)
  {
    key == "Enter" && !shiftKey
  }

  class MessageInput {
    /** The text box's content. */
    var message: string

    ghost predicate Valid()
      reads this
    {
      |message| <= MAX_LENGTH
    }

    constructor ()
      ensures Valid() && message == ""
    {
      message := "";
    }

    /** Typing into the text box; input beyond `maxLength` is cut off. */
    method HandleChange(value: string)
      modifies this
      ensures Valid()
      ensures message == if |value| <= MAX_LENGTH then value else value[..MAX_LENGTH]
    {
      message := if |value| <= MAX_LENGTH then value else value[..MAX_LENGTH];
    }

    /** `handleSubmit`: when the guard passes, hands `{content: trimmed text}`
        to `onSendMessage`, and clears the text box only if that resolves;
        on rejection the text is kept. `rejects` is the outcome of the
        awaited `onSendMessage`. */
    method HandleSubmit(currentUser: Option<User>, loading: bool, rejects: bool) returns (sent: Option<string>)
      requires Valid()
      modifies this
      ensures Valid()
      ensures sent.Some? <==> CanSubmit(old(message), currentUser, loading)
      ensures sent.Some? ==> sent.value == Trim(old(message)) && 1 <= |sent.value| <= MAX_LENGTH
      ensures message == if sent.Some? && !rejects then "" else old(message)
    {
      if !CanSubmit(message, currentUser, loading) {
        return None;
      }
      var content := Trim(message);
      sent := Some(content);
      if !rejects {
        message := "";
      }
    }

    /** `handleKeyPress`: Enter without Shift runs `handleSubmit`; any other key does nothing. */
    method HandleKeyPress(key: string, shiftKey: bool, currentUser: Option<User>, loading: bool, rejects: bool)
      returns (sent: Option<string>)
      requires Valid()
      modifies this
      ensures Valid()
      ensures !SubmitsOnKey(key, shiftKey) ==> sent == None && message == old(message)
      ensures SubmitsOnKey(key, shiftKey) ==>
                (sent.Some? <==> CanSubmit(old(message), currentUser, loading))
                && (sent.Some? ==> sent.value == Trim(old(message)))
                && message == if sent.Some? && !rejects then "" else old(message)
    {
      sent := None;
      if SubmitsOnKey(key, shiftKey) {
        sent := HandleSubmit(currentUser, loading, rejects);
      }
    }
  }
}
