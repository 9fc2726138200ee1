/**
 * The tag picker of the post creation form: a capped selection without
 * duplicate ids, a search over the known tags, and creation of a new tag
 * when the search names none.
 */
module TagSelector {
  import opened Text
  import opened Service
  import opened Sequences
  import opened FeedTypes

  const DefaultMaxTags: nat := 5

  /**
   * The `type` attribute of the picker's buttons, `None` where the markup gives
   * none: the remove, cancel and create-tag buttons are plain buttons, while the
   * search results, the "create tag" option and the popular tags carry no type.
   */
  const RemoveButtonType: Option<string> := Some("button")
  const CancelButtonType: Option<string> := Some("button")
  const CreateButtonType: Option<string> := Some("button")
  const ResultButtonType: Option<string> := None
  const CreateOptionButtonType: Option<string> := None
  const PopularButtonType: Option<string> := None
  /** At most this many search results are listed. */
  const ResultLimit: nat := 10

  function TagId(t: Tag): string { t.id }

  predicate HasId(tags: seq<Tag>, id: string)
  {
    exists t :: t in tags && t.id == id
  }

  /** A search result: its lowercase name contains the lowercase term and it is not selected. */
  predicate Matches(t: Tag, term: string, selected: seq<Tag>)
  {
    Contains(Lower(t.name), Lower(term)) && !HasId(selected, t.id)
  }

  /** The available tags that match, in their order and with their repeats. */
  function Matching(available: seq<Tag>, term: string, selected: seq<Tag>): (m: seq<Tag>)
    ensures Subsequence(m, available)
    ensures forall t :: t in m <==> t in available && Matches(t, term, selected)
    ensures forall t :: multiset(m)[t] == if Matches(t, term, selected) then multiset(available)[t] else 0
  {
    Filter((t: Tag) => Matches(t, term, selected), available)
  }

  /**
   * `filteredTags`: the first ten available tags that match, in their order;
   * every match is listed when there are fewer than ten.
   */
  function FilteredTags(available: seq<Tag>, term: string, selected: seq<Tag>): (r: seq<Tag>)
    ensures |r| == if |Matching(available, term, selected)| < ResultLimit then |Matching(available, term, selected)| else ResultLimit
    ensures r == Matching(available, term, selected)[..|r|]
    ensures Subsequence(r, available)
    ensures forall t :: t in r ==> Matches(t, term, selected)
    ensures |r| < ResultLimit ==> forall t :: t in available && Matches(t, term, selected) ==> t in r
  {
    var all := Matching(available, term, selected);
    var r := Take(all, ResultLimit);
    SubsequencePrefix(all, available, |r|);
    assert forall t :: t in r ==> t in all;
    r
  }

  /** With an empty search every unselected tag matches. */
  lemma EmptyTermMatches(t: Tag, selected: seq<Tag>)
    ensures Matches(t, "", selected) <==> !HasId(selected, t.id)
  {
    assert StartsWith(Lower(t.name), Lower(""));
  }

  /** `showCreateOption`. */
  function ShowCreateOption(allowCreation: bool, term: string, available: seq<Tag>, isCreatingTag: bool): (b: bool)
    ensures b <==> (allowCreation && !AllSpace(term) && !isCreatingTag &&
                    forall t :: t in available ==> Lower(t.name) != Lower(term))
  {
    allowCreation && Trim(term) != "" && !isCreatingTag &&
    !exists t :: t in available && Lower(t.name) == Lower(term)
  }

  class TagPicker {
    /** The selection the form owns; every change goes through `onChange`. */
    var selected: seq<Tag>
    var available: seq<Tag>
    const maxTags: nat
    const allowCreation: bool
    var searchTerm: string
    var isCreatingTag: bool
    var newTagName: string

    /** The selection is within the cap and no two selected tags share an id. */
    ghost predicate Valid()
      reads this
    {
      |selected| <= maxTags && UniqueBy(TagId, selected)
    }

    constructor (selected: seq<Tag>, available: seq<Tag>, maxTags: nat := DefaultMaxTags, allowCreation: bool := true)
      ensures this.selected == selected && this.available == available
      ensures this.maxTags == maxTags && this.allowCreation == allowCreation
      ensures searchTerm == "" && !isCreatingTag && newTagName == ""
      ensures |selected| <= maxTags && UniqueBy(TagId, selected) ==> Valid()
    {
      this.selected := selected;
      this.available := available;
      this.maxTags := maxTags;
      this.allowCreation := allowCreation;
      searchTerm := "";
      isCreatingTag := false;
      newTagName := "";
    }

    /**
     * `handleTagSelect`: a full selection or an already selected id leaves the
     * selection as it is; otherwise the tag goes at the end.
     */
    method Select(tag: Tag)
      requires Valid()
      modifies this`selected
      ensures Valid()
      ensures |old(selected)| >= maxTags || HasId(old(selected), tag.id) ==> selected == old(selected)
      ensures |old(selected)| < maxTags && !HasId(old(selected), tag.id) ==> selected == old(selected) + [tag]
    {
      if |selected| >= maxTags {
        return;
      }
      if !exists t :: t in selected && t.id == tag.id {
        assert forall i :: 0 <= i < |selected| ==> selected[i] in selected;
        selected := selected + [tag];
      }
    }

    /** `handleTagRemove`: drops exactly the tags with that id and keeps the others in order. */
    method Remove(tagId: string)
      requires Valid()
      modifies this`selected
      ensures Valid()
      ensures Subsequence(selected, old(selected))
      ensures forall t :: t in selected <==> t in old(selected) && t.id != tagId
      ensures forall t :: multiset(selected)[t] == if t.id != tagId then multiset(old(selected))[t] else 0
    {
      var kept := Filter((t: Tag) => t.id != tagId, selected);
      SubsequenceLength(kept, selected);
      SubsequenceUnique(TagId, kept, selected);
      selected := kept;
    }

    method SearchChange(value: string)
      modifies this`searchTerm
      ensures searchTerm == value
    {
      searchTerm := value;
    }

    /** The "create" button enters creation mode; "cancel" leaves it. */
    method SetCreating(on: bool)
      modifies this`isCreatingTag
      ensures isCreatingTag == on
    {
      isCreatingTag := on;
    }

    method NewTagNameChange(value: string)
      modifies this`newTagName
      ensures newTagName == value
    {
      newTagName := value;
    }

    /**
     * `handleCreateTag`; returns the name sent to the server, if any.  A blank
     * name sends nothing.  A created tag joins the known tags and is selected
     * as by `Select`; the name is cleared and creation mode ends.  A failed
     * call changes nothing.
     */
    method CreateTag(outcome: Outcome<Tag>) returns (sent: Option<string>)
      requires Valid()
      modifies this`selected, this`available, this`newTagName, this`isCreatingTag
      ensures Valid()
      ensures sent.Some? <==> !AllSpace(old(newTagName))
      ensures sent.Some? ==> sent.value == Trim(old(newTagName)) && NoEdgeSpace(sent.value)
      ensures sent.None? || outcome.Failure? ==>
        selected == old(selected) && available == old(available) &&
        newTagName == old(newTagName) && isCreatingTag == old(isCreatingTag)
      ensures sent.Some? && outcome.Success? ==>
        available == old(available) + [outcome.value] &&
        newTagName == "" && !isCreatingTag &&
        selected == (if |old(selected)| >= maxTags || HasId(old(selected), outcome.value.id)
                     then old(selected) else old(selected) + [outcome.value])
    {
      if Trim(newTagName) == "" {
        return None;
      }
      sent := Some(Trim(newTagName));
      match outcome {
        case Success(created) =>
          available := available + [created];
          Select(created);
          newTagName := "";
          isCreatingTag := false;
        case Failure(_) =>
      }
    }

    /** The results listed under the search box. */
    function Results(): (r: seq<Tag>)
      reads this
      ensures Subsequence(r, available) && |r| <= ResultLimit
      ensures forall t :: t in r ==> !HasId(selected, t.id)
    {
      FilteredTags(available, searchTerm, selected)
    }
  }
}
