/**
 * The post creation form: content with a live character count, anonymity
 * (on by default), tags, and an optional trigger warning that must then be
 * described.
 */
module PostForm {
  import opened Text
  import opened Service
  import opened FeedTypes
  import TagSelector

  const MaxCharCount: nat := 1000
  const ContentRequired := "Please enter some content for your post."
  const WarningTextRequired := "Please provide a description for the trigger warning."
  const CreateFailed := "Failed to create post. Please try again."
  const TagsFailed := "Failed to load tags. You can still create a post without tags."

  /** What the form hands to its `onSubmit`. */
  datatype PostData = PostData(
    content: string,
    isAnonymous: bool,
    tags: seq<string>,
    hasTriggerWarning: bool,
    triggerWarningText: string)

  /** `selectedTags.map(tag => tag.id)` */
  function TagIds(tags: seq<Tag>): (ids: seq<string>)
    ensures |ids| == |tags|
    ensures forall i :: 0 <= i < |tags| ==> ids[i] == tags[i].id
  {
    seq(|tags|, i requires 0 <= i < |tags| => tags[i].id)
  }

  /**
   * The validation in `handleSubmit`, in order: blank content, then a trigger
   * warning without a description.  `None` means the post may be sent.
   */
  function SubmitError(content: string, hasTriggerWarning: bool, triggerWarningText: string): (e: Option<string>)
    ensures AllSpace(content) ==> e == Some(ContentRequired)
    ensures !AllSpace(content) && hasTriggerWarning && AllSpace(triggerWarningText) ==> e == Some(WarningTextRequired)
    ensures e == None <==> !AllSpace(content) && (hasTriggerWarning ==> !AllSpace(triggerWarningText))
  {
    if Trim(content) == "" then Some(ContentRequired)
    else if hasTriggerWarning && Trim(triggerWarningText) == "" then Some(WarningTextRequired)
    else None
  }

  /** The payload: tag ids in selection order, and the warning text only while the warning is on. */
  function Payload(content: string, isAnonymous: bool, tags: seq<Tag>, hasTriggerWarning: bool, triggerWarningText: string): (d: PostData)
    ensures d.content == content && d.isAnonymous == isAnonymous && d.hasTriggerWarning == hasTriggerWarning
    ensures d.tags == TagIds(tags)
    ensures d.triggerWarningText == if hasTriggerWarning then triggerWarningText else ""
  {
    PostData(content, isAnonymous, TagIds(tags), hasTriggerWarning, if hasTriggerWarning then triggerWarningText else "")
  }

  /** A sent payload always has content, and a warning it carries is always described. */
  lemma PayloadValid(content: string, isAnonymous: bool, tags: seq<Tag>, hasTriggerWarning: bool, triggerWarningText: string)
    requires SubmitError(content, hasTriggerWarning, triggerWarningText) == None
    ensures var d := Payload(content, isAnonymous, tags, hasTriggerWarning, triggerWarningText);
      !AllSpace(d.content) && (d.hasTriggerWarning <==> !AllSpace(d.triggerWarningText))
  {
    var d := Payload(content, isAnonymous, tags, hasTriggerWarning, triggerWarningText);
    assert AllSpace("");
  }

  /** A button with no `type`, or with `type="submit"`, submits the form it sits in. */
  predicate SubmitsForm(buttonType: Option<string>)
  {
    buttonType.None? || buttonType == Some("submit")
  }

  /** What a click on a button inside the post form sets off besides its own handler. */
  datatype FormEffect = NoSubmit | Rejected(message: string) | Sent(data: PostData)

  /**
   * The form submission a click on an enabled button of the tag picker causes
   * (the picker disables its add buttons once the selection is full, and a
   * disabled button receives no click).  A submitting button starts the
   * browser's submission: the textarea's
   * `required` stops it while the content is empty, and otherwise
   * `handleSubmit` runs, rejecting the form or handing over the payload.
   * `tags` is the selection that handler sees.
   */
  function ClickSubmission(buttonType: Option<string>, content: string, isAnonymous: bool, tags: seq<Tag>,
                           hasTriggerWarning: bool, triggerWarningText: string): (e: FormEffect)
    ensures !SubmitsForm(buttonType) || content == "" ==> e == NoSubmit
    ensures e.Sent? <==> SubmitsForm(buttonType) && SubmitError(content, hasTriggerWarning, triggerWarningText) == None
    ensures e.Sent? ==> e.data == Payload(content, isAnonymous, tags, hasTriggerWarning, triggerWarningText)
    ensures e.Rejected? ==> Some(e.message) == SubmitError(content, hasTriggerWarning, triggerWarningText)
  {
    if !SubmitsForm(buttonType) || content == "" then NoSubmit
    else match SubmitError(content, hasTriggerWarning, triggerWarningText)
      case Some(m) => Rejected(m)
      case None => Sent(Payload(content, isAnonymous, tags, hasTriggerWarning, triggerWarningText))
  }

  /**
   * As written, a click on an enabled search result, popular tag or "create
   * tag" option also submits the post: with content ready to send, the payload
   * is handed over.
   */
  lemma UntypedPickerButtonsSubmit(content: string, isAnonymous: bool, tags: seq<Tag>,
                                   hasTriggerWarning: bool, triggerWarningText: string)
    requires SubmitError(content, hasTriggerWarning, triggerWarningText) == None
    ensures forall b :: b in {TagSelector.ResultButtonType, TagSelector.CreateOptionButtonType, TagSelector.PopularButtonType} ==>
      ClickSubmission(b, content, isAnonymous, tags, hasTriggerWarning, triggerWarningText)
        == Sent(Payload(content, isAnonymous, tags, hasTriggerWarning, triggerWarningText))
  {
  }

  /**
   * The intended picker buttons are plain buttons, as the remove, cancel and
   * create-tag buttons are: a click on one never submits the post.
   */
  lemma TypedPickerButtonsKeepForm(content: string, isAnonymous: bool, tags: seq<Tag>,
                                   hasTriggerWarning: bool, triggerWarningText: string)
    ensures forall b :: b in {TagSelector.RemoveButtonType, TagSelector.CancelButtonType, TagSelector.CreateButtonType, Some("button")} ==>
      ClickSubmission(b, content, isAnonymous, tags, hasTriggerWarning, triggerWarningText) == NoSubmit
  {
  }

  class PostCreationForm {
    var content: string
    var isAnonymous: bool
    var selectedTags: seq<Tag>
    var availableTags: seq<Tag>
    var hasTriggerWarning: bool
    var triggerWarningText: string
    var loading: bool
    var error: Option<string>
    var charCount: nat

    /** The counter always shows the content's length. */
    ghost predicate Valid()
      reads this
    {
      charCount == |content|
    }

    constructor ()
      ensures Valid()
      ensures content == "" && isAnonymous && selectedTags == [] && availableTags == []
      ensures !hasTriggerWarning && triggerWarningText == "" && !loading && error == None
    {
      content := "";
      isAnonymous := true;
      selectedTags := [];
      availableTags := [];
      hasTriggerWarning := false;
      triggerWarningText := "";
      loading := false;
      error := None;
      charCount := 0;
    }

    /** The tag list loaded on mount; a failure only explains that tags are unavailable. */
    method LoadTags(fetched: Outcome<seq<Tag>>)
      modifies this`availableTags, this`error
      ensures fetched.Success? ==> availableTags == fetched.value && error == old(error)
      ensures fetched.Failure? ==> availableTags == old(availableTags) && error == Some(TagsFailed)
    {
      match fetched {
        case Success(tags) => availableTags := tags;
        case Failure(_) => error := Some(TagsFailed);
      }
    }

    method ContentChange(value: string)
      modifies this`content, this`charCount
      ensures Valid() && content == value
    {
      content := value;
      charCount := |value|;
    }

    method TagsChange(tags: seq<Tag>)
      modifies this`selectedTags
      ensures selectedTags == tags
    {
      selectedTags := tags;
    }

    method WarningTextChange(value: string)
      modifies this`triggerWarningText
      ensures triggerWarningText == value
    {
      triggerWarningText := value;
    }

    method ToggleAnonymity()
      modifies this`isAnonymous
      ensures isAnonymous == !old(isAnonymous)
    {
      isAnonymous := !isAnonymous;
    }

    /** Flips the warning; turning it on starts from an empty description. */
    method ToggleTriggerWarning()
      modifies this`hasTriggerWarning, this`triggerWarningText
      ensures hasTriggerWarning == !old(hasTriggerWarning)
      ensures triggerWarningText == if hasTriggerWarning then "" else old(triggerWarningText)
    {
      var wasOn := hasTriggerWarning;
      hasTriggerWarning := !hasTriggerWarning;
      if !wasOn {
        triggerWarningText := "";
      }
    }

    /** The counter turns to a warning past 80% of the textarea's `maxLength`. */
    function CounterWarning(): (b: bool)
      reads this
      ensures Valid() ==> (b <==> 5 * |content| > 4 * MaxCharCount)
    {
      charCount * 5 > MaxCharCount * 4
    }

    /** The submit button is enabled only with content and while nothing is being sent. */
    function CanSubmit(): (b: bool)
      reads this
      ensures b <==> !loading && !AllSpace(content)
    {
      !(loading || Trim(content) == "")
    }

    /**
     * `handleSubmit`; returns the payload handed to `onSubmit`, if any.  A
     * rejected form only sets its message.  After a successful hand-over the
     * content, tags and warning are cleared and anonymity is kept; a failure
     * sets its message and keeps everything.
     */
    method Submit(outcome: Outcome<()>) returns (sent: Option<PostData>)
      requires Valid()
      modifies this`error, this`loading, this`content, this`selectedTags,
        this`hasTriggerWarning, this`triggerWarningText, this`charCount
      ensures Valid()
      ensures sent.Some? <==> SubmitError(old(content), old(hasTriggerWarning), old(triggerWarningText)) == None
      ensures sent.None? ==>
        error == SubmitError(old(content), old(hasTriggerWarning), old(triggerWarningText)) &&
        loading == old(loading) && content == old(content) && selectedTags == old(selectedTags) &&
        hasTriggerWarning == old(hasTriggerWarning) && triggerWarningText == old(triggerWarningText)
      ensures sent.Some? ==>
        !loading &&
        sent.value == Payload(old(content), isAnonymous, old(selectedTags), old(hasTriggerWarning), old(triggerWarningText))
      ensures sent.Some? && outcome.Success? ==>
        error == None && content == "" && selectedTags == [] && !hasTriggerWarning && triggerWarningText == ""
      ensures sent.Some? && outcome.Failure? ==>
        error == Some(CreateFailed) && content == old(content) && selectedTags == old(selectedTags) &&
        hasTriggerWarning == old(hasTriggerWarning) && triggerWarningText == old(triggerWarningText)
    {
      var problem := SubmitError(content, hasTriggerWarning, triggerWarningText);
      if problem.Some? {
        error := problem;
        return None;
      }
      var data := Send(outcome);
      sent := Some(data);
    }

    /** The hand-over of a valid form and what follows it. */
    method Send(outcome: Outcome<()>) returns (sent: PostData)
      requires Valid()
      modifies this`error, this`loading, this`content, this`selectedTags,
        this`hasTriggerWarning, this`triggerWarningText, this`charCount
      ensures Valid() && !loading
      ensures sent == Payload(old(content), isAnonymous, old(selectedTags), old(hasTriggerWarning), old(triggerWarningText))
      ensures outcome.Success? ==>
        error == None && content == "" && selectedTags == [] && !hasTriggerWarning && triggerWarningText == ""
      ensures outcome.Failure? ==>
        error == Some(CreateFailed) && content == old(content) && selectedTags == old(selectedTags) &&
        hasTriggerWarning == old(hasTriggerWarning) && triggerWarningText == old(triggerWarningText)
    {
      loading := true;
      error := None;
      sent := Payload(content, isAnonymous, selectedTags, hasTriggerWarning, triggerWarningText);
      if outcome.Success? {
        Reset();
      } else {
        error := Some(CreateFailed);
      }
      loading := false;
    }

    /** The reset after a successful submit. */
    method Reset()
      modifies this`content, this`selectedTags, this`hasTriggerWarning, this`triggerWarningText, this`charCount
      ensures Valid()
      ensures content == "" && selectedTags == [] && !hasTriggerWarning && triggerWarningText == ""
    {
      content := "";
      selectedTags := [];
      hasTriggerWarning := false;
      triggerWarningText := "";
      charCount := 0;
    }
  }
}
