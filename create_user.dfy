/** The "Create User" form: a button that opens a one-field form whose
    trimmed name is handed to `onCreateUser`. */
module CreateUserView {

  import opened Wrappers
  import opened Text

  /** `maxLength` of the name field. */
  const MAX_NAME_LENGTH := 50

  /** The submit button's `disabled`: a blank name or a submit in flight. */
  predicate SubmitDisabled(name: string, isSubmitting: bool)
  {
    Trim(name) == "" || isSubmitting
  }

  /** An enabled submit button means a name of 1 to 50 characters, with no
      white space at either end, is about to be sent. */
  lemma EnabledSubmitHasName(name: string, isSubmitting: bool)
    requires |name| <= MAX_NAME_LENGTH
    requires !SubmitDisabled(name, isSubmitting)
    ensures 1 <= |Trim(name)| <= MAX_NAME_LENGTH && !isSubmitting
    ensures !IsSpace(Trim(name)[0]) && !IsSpace(Trim(name)[|Trim(name)| - 1])
  {
  }

  class CreateUser {
    var isOpen: bool
    var name: string
    var isSubmitting: bool

    ghost predicate Valid()
      reads this
    {
      |name| <= MAX_NAME_LENGTH
    }

    constructor ()
      ensures Valid() && !isOpen && name == "" && !isSubmitting
    {
      isOpen, name, isSubmitting := false, "", false;
    }

    /** The "Create User" button opens the form. */
    method Open()
      modifies this`isOpen
      ensures isOpen
    {
      isOpen := true;
    }

    /** Typing into the name field; input beyond `maxLength` is cut off. */
    method HandleChange(value: string)
      modifies this`name
      ensures Valid()
      ensures name == if |value| <= MAX_NAME_LENGTH then value else value[..MAX_NAME_LENGTH]
    {
      name := if |value| <= MAX_NAME_LENGTH then value else value[..MAX_NAME_LENGTH];
    }

    /** `handleSubmit`: a blank name is ignored; otherwise `onCreateUser`
        receives `{name: name.trim()}`. If that resolves, the field is
        cleared and the form closes; if it rejects, both stay. Either way
        `isSubmitting` ends false. `rejects` is the awaited outcome. */
    method HandleSubmit(rejects: bool) returns (created: Option<string>)
      requires Valid()
      modifies this
      ensures Valid()
      ensures created.Some? <==> Trim(old(name)) != ""
      ensures created.None? ==> name == old(name) && isOpen == old(isOpen) && isSubmitting == old(isSubmitting)
      ensures created.Some? ==>
                created.value == Trim(old(name)) && 1 <= |created.value| <= MAX_NAME_LENGTH
                && !isSubmitting
                && (if rejects then name == old(name) && isOpen == old(isOpen) else name == "" && !isOpen)
    {
      if Trim(name) == "" {
        return None;
      }
      isSubmitting := true;
      created := Some(Trim(name));
      if !rejects {
        name := "";
        isOpen := false;
      }
      isSubmitting := false;
    }

    /** `handleCancel`: clear the field and close the form. */
    method HandleCancel()
      modifies this`name, this`isOpen
      ensures Valid() && name == "" && !isOpen
    {
      name := "";
      isOpen := false;
    }
  }
}
