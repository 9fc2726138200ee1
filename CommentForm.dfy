/**
 * The comment and reply box: a blank box sends nothing, a sent comment is
 * trimmed, and the box empties only when the comment was accepted.
 */
module CommentForm {
  import opened Text
  import opened Service

  datatype KeyPress = KeyPress(key: string, ctrlKey: bool)

  class CommentBox {
    var content: string
    var isSubmitting: bool

    constructor ()
      ensures content == "" && !isSubmitting
    {
      content := "";
      isSubmitting := false;
    }

    method Change(value: string)
      modifies this`content
      ensures content == value
    {
      content := value;
    }

    /** The button is disabled while the box is blank or a comment is on its way. */
    function SubmitDisabled(): (b: bool)
      reads this
      ensures b <==> AllSpace(content) || isSubmitting
    {
      Trim(content) == "" || isSubmitting
    }

    /**
     * `handleSubmit`; returns what was handed to `onSubmit`, if anything.
     * `reply` is what `onSubmit` answered, or a failure when it threw.  The
     * box empties only on an answer of `true`, and submitting always ends.
     */
    method Submit(reply: Outcome<bool>) returns (sent: Option<string>)
      modifies this`content, this`isSubmitting
      ensures sent.Some? <==> !AllSpace(old(content))
      ensures sent.Some? ==> sent.value == Trim(old(content)) && sent.value != "" && NoEdgeSpace(sent.value)
      ensures sent.None? ==> content == old(content) && isSubmitting == old(isSubmitting)
      ensures sent.Some? ==> !isSubmitting
      ensures sent.Some? ==> content == if reply == Success(true) then "" else old(content)
    {
      if Trim(content) == "" {
        return None;
      }
      isSubmitting := true;
      sent := Some(Trim(content));
      if reply == Success(true) {
        content := "";
      }
      isSubmitting := false;
    }

    /** Ctrl+Enter submits, and only when the box is not blank; other keys do nothing. */
    method KeyDown(press: KeyPress, reply: Outcome<bool>) returns (sent: Option<string>)
      modifies this`content, this`isSubmitting
      ensures sent.Some? <==> press.key == "Enter" && press.ctrlKey && !AllSpace(old(content))
      ensures sent.Some? ==>
        sent.value == Trim(old(content)) && !isSubmitting &&
        content == (if reply == Success(true) then "" else old(content))
      ensures sent.None? ==> content == old(content) && isSubmitting == old(isSubmitting)
    {
      sent := None;
      if press.key == "Enter" && press.ctrlKey {
        if Trim(content) != "" {
          sent := Submit(reply);
        }
      }
    }
  }
}
