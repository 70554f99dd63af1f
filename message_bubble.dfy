/** One message in the conversation pane: the ownership test and the
    edit/delete state machine over the bubble's four pieces of view state. */
module MessageBubbleView {

  import opened Wrappers
  import opened Entities
  import opened Api
  import opened Text

  /** A message is the viewer's own when its sender names the current user.
      This compares names only; it is a display decision, not access control. */
  predicate IsOwnMessage(message: Message, currentUser: Option<User>)
  {
    currentUser.Some? && message.sender == currentUser.value.name
  }

  /** Ownership goes by name alone: with no current user nothing is own, and
      two users sharing a name own the same messages. */
  lemma OwnershipIsByName(message: Message, currentUser: Option<User>, other: User)
    ensures currentUser.None? ==> !IsOwnMessage(message, currentUser)
    ensures currentUser.Some? && other.name == currentUser.value.name ==>
              IsOwnMessage(message, Some(other)) == IsOwnMessage(message, currentUser)
    ensures IsOwnMessage(message, currentUser) ==> message.sender == currentUser.value.name
  {
  }

  /** The Save button is disabled while a request is in flight or the text is blank. */
  predicate SaveDisabled(isLoading: bool, editContent: string)
  {
    isLoading || Trim(editContent) == ""
  }

  /** An enabled Save button never leads to the blank-text rejection: its
      trimmed text is non-empty and has no white space at either end. */
  lemma EnabledSaveHasContent(isLoading: bool, editContent: string)
    requires !SaveDisabled(isLoading, editContent)
    ensures !IsBlank(editContent)
    ensures var t := Trim(editContent); |t| > 0 && !IsSpace(t[0]) && !IsSpace(t[|t| - 1])
  {
  }

  class MessageBubble {
    /** The props: the message shown and the viewer. */
    const message: Message
    const currentUser: Option<User>
    var isEditing: bool
    var editContent: string
    var isLoading: bool
    var showMenu: bool

    constructor (message: Message, currentUser: Option<User>)
      ensures this.message == message && this.currentUser == currentUser
      ensures !isEditing && editContent == message.content && !isLoading && !showMenu
    {
      this.message, this.currentUser := message, currentUser;
      isEditing, editContent, isLoading, showMenu := false, message.content, false, false;
    }

    /** `handleEdit`: save the edited text. Unchanged text (after trimming)
        just leaves edit mode; blank text is refused and edit mode stays;
        otherwise one PUT of the trimmed text. On `success` the returned
        message goes to `onMessageUpdate` and edit mode and the menu close;
        on `success: false` or a thrown error the text is reset to the
        message's content. */
    method HandleEdit(response: Outcome<Envelope<Message>>)
      returns (requests: seq<Request>, delivered: Option<Message>)
      modifies this`isEditing, this`editContent, this`isLoading, this`showMenu
      ensures var t := Trim(old(editContent));
        && (t == message.content ==>
              requests == [] && delivered == None && !isEditing
              && editContent == old(editContent) && isLoading == old(isLoading) && showMenu == old(showMenu))
        && (t != message.content && t == "" ==>
              requests == [] && delivered == None && isEditing == old(isEditing)
              && editContent == old(editContent) && isLoading == old(isLoading) && showMenu == old(showMenu))
        && (t != message.content && t != "" ==>
              requests == [PutMessage(message.id, t)] && !isLoading)
        && (t != message.content && t != "" && response.Ok? && response.data.success ==>
              delivered == Some(response.data.data) && !isEditing && !showMenu
              && editContent == old(editContent))
        && (t != message.content && t != "" && !(response.Ok? && response.data.success) ==>
              delivered == None && editContent == message.content
              && isEditing == old(isEditing) && showMenu == old(showMenu))
    {
      requests, delivered := [], None;
      var trimmed := Trim(editContent);
      if trimmed == message.content {
        isEditing := false;
        return;
      }
      if trimmed == "" {
        return;
      }
      isLoading := true;
      requests := [PutMessage(message.id, trimmed)];
      match response {
        case Ok(reply) =>
          if reply.success {
            delivered := Some(reply.data);
            isEditing := false;
            showMenu := false;
          } else {
            editContent := message.content;
          }
        case Fail(_) =>
          editContent := message.content;
      }
      isLoading := false;
    }

    /** `handleDelete`: nothing unless the user confirms; then one DELETE of
        the message, and `onMessageDelete` receives its id only when the
        response reports success. */
    method HandleDelete(confirmed: bool, response: Outcome<Envelope<()>>)
      returns (requests: seq<Request>, deleted: Option<string>)
      modifies this`isLoading
      ensures !confirmed ==> requests == [] && deleted == None && isLoading == old(isLoading)
      ensures confirmed ==> requests == [DeleteMessageRequest(message.id)] && !isLoading
      ensures deleted.Some? <==> confirmed && response.Ok? && response.data.success
      ensures deleted.Some? ==> deleted.value == message.id
    {
      requests, deleted := [], None;
      if !confirmed {
        return;
      }
      isLoading := true;
      requests := [DeleteMessageRequest(message.id)];
      if response.Ok? && response.data.success {
        deleted := Some(message.id);
      }
      isLoading := false;
    }

    /** `handleCancel`: leave edit mode, restore the text, close the menu. */
    method HandleCancel()
      modifies this`isEditing, this`editContent, this`showMenu
      ensures !isEditing && editContent == message.content && !showMenu
    {
      isEditing := false;
      editContent := message.content;
      showMenu := false;
    }

    /** `handleMenuToggle`: open a closed menu, close an open one. */
    method HandleMenuToggle()
      modifies this`showMenu
      ensures showMenu == !old(showMenu)
    {
      showMenu := !showMenu;
    }

    /** `handleEditClick`: enter edit mode and close the menu. */
    method HandleEditClick()
      modifies this`isEditing, this`showMenu
      ensures isEditing && !showMenu
    {
      isEditing := true;
      showMenu := false;
    }

    /** `handleDeleteClick`: close the menu, then run the delete flow. */
    method HandleDeleteClick(confirmed: bool, response: Outcome<Envelope<()>>)
      returns (requests: seq<Request>, deleted: Option<string>)
      modifies this`showMenu, this`isLoading
      ensures !showMenu
      ensures confirmed ==> requests == [DeleteMessageRequest(message.id)] && !isLoading
      ensures !confirmed ==> requests == [] && isLoading == old(isLoading)
      ensures deleted == (if confirmed && response.Ok? && response.data.success then Some(message.id) else None)
    {
      showMenu := false;
      requests, deleted := HandleDelete(confirmed, response);
    }
  }
}
