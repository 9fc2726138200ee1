/**
 * The community directory: communities narrowed by a topic, an activity
 * level and a search term.
 */
module Community {
  import opened Text
  import opened Sequences

  const AllTopics := "All"
  const AnyActivity := "Any Activity"

  /** The fields of a community the page filters by. */
  datatype CommunityInfo = CommunityInfo(
    id: int,
    name: string,
    description: string,
    activity: string,
    tags: seq<string>)

  /** The page's three filter controls. */
  datatype CommunityFilters = CommunityFilters(category: string, activity: string, searchTerm: string)

  /** The controls as the page opens, and as "Reset Filters" sets them again. */
  const ResetFilters := CommunityFilters(AllTopics, AnyActivity, "")

  /** Some tag contains the topic, ignoring case. */
  predicate HasTopic(c: CommunityInfo, category: string)
  {
    exists i :: 0 <= i < |c.tags| && Contains(Lower(c.tags[i]), Lower(category))
  }

  /** The name, the description or some tag contains the term, ignoring case. */
  predicate MatchesSearch(c: CommunityInfo, term: string)
  {
    var t := Lower(term);
    Contains(Lower(c.name), t) || Contains(Lower(c.description), t) ||
    exists i :: 0 <= i < |c.tags| && Contains(Lower(c.tags[i]), t)
  }

  /** All three filters at once: each applies only when it is set. */
  predicate Selected(f: CommunityFilters, c: CommunityInfo)
  {
    (f.category != AllTopics ==> HasTopic(c, f.category)) &&
    (f.activity != AnyActivity ==> c.activity == f.activity) &&
    (f.searchTerm != "" ==> MatchesSearch(c, f.searchTerm))
  }

  function TopicKeep(category: string): CommunityInfo -> bool { c => HasTopic(c, category) }
  function ActivityKeep(activity: string): CommunityInfo -> bool { (c: CommunityInfo) => c.activity == activity }
  function SearchKeep(term: string): CommunityInfo -> bool { c => MatchesSearch(c, term) }
  function TopicGuard(f: CommunityFilters): CommunityInfo -> bool
  {
    c => f.category != AllTopics ==> HasTopic(c, f.category)
  }
  function ActivityGuard(f: CommunityFilters): CommunityInfo -> bool
  {
    (c: CommunityInfo) => f.activity != AnyActivity ==> c.activity == f.activity
  }
  function SearchGuard(f: CommunityFilters): CommunityInfo -> bool
  {
    c => f.searchTerm != "" ==> MatchesSearch(c, f.searchTerm)
  }
  function TopicActivityGuard(f: CommunityFilters): CommunityInfo -> bool
  {
    c => (f.category != AllTopics ==> HasTopic(c, f.category)) && (f.activity != AnyActivity ==> c.activity == f.activity)
  }
  function Keep(f: CommunityFilters): CommunityInfo -> bool { c => Selected(f, c) }

  /** The topic step: the topic filter when a topic is chosen. */
  function ByTopic(communities: seq<CommunityInfo>, f: CommunityFilters): (r: seq<CommunityInfo>)
    ensures r == Filter(TopicGuard(f), communities)
  {
    FilterWhen(f.category != AllTopics, TopicKeep(f.category), TopicGuard(f), communities);
    if f.category != AllTopics then Filter(TopicKeep(f.category), communities) else communities
  }

  /** The activity step: the exact-activity filter when a level is chosen. */
  function ByActivity(communities: seq<CommunityInfo>, f: CommunityFilters): (r: seq<CommunityInfo>)
    ensures r == Filter(ActivityGuard(f), communities)
  {
    FilterWhen(f.activity != AnyActivity, ActivityKeep(f.activity), ActivityGuard(f), communities);
    if f.activity != AnyActivity then Filter(ActivityKeep(f.activity), communities) else communities
  }

  /**
   * The search step: the search filter when a term is typed.  It has the shape
   * of the blog page's search step, over community records.
   */
  function BySearch(communities: seq<CommunityInfo>, f: CommunityFilters): (r: seq<CommunityInfo>)
    ensures r == Filter(SearchGuard(f), communities)
  {
    FilterWhen(f.searchTerm != "", SearchKeep(f.searchTerm), SearchGuard(f), communities);
    if f.searchTerm != "" then Filter(SearchKeep(f.searchTerm), communities) else communities
  }

  /**
   * The filter effect: topic, then activity, then search, each only when set.
   * The result is the single filter by all three conditions, so it keeps
   * exactly the selected communities, in order.
   */
  function FilteredCommunities(communities: seq<CommunityInfo>, f: CommunityFilters): (r: seq<CommunityInfo>)
    ensures r == Filter(Keep(f), communities)
    ensures Subsequence(r, communities)
    ensures forall c :: c in r <==> c in communities && Selected(f, c)
  {
    FilterCompose(TopicGuard(f), ActivityGuard(f), TopicActivityGuard(f), communities);
    FilterCompose(TopicActivityGuard(f), SearchGuard(f), Keep(f), communities);
    BySearch(ByActivity(ByTopic(communities, f), f), f)
  }

  /** With the reset controls every community is listed, in its order. */
  lemma ResetShowsAll(communities: seq<CommunityInfo>)
    ensures FilteredCommunities(communities, ResetFilters) == communities
  {
    FilterAll(Keep(ResetFilters), communities);
  }

  /** Choosing an activity level only hides communities. */
  lemma ActivityNarrows(communities: seq<CommunityInfo>, f: CommunityFilters)
    ensures Subsequence(FilteredCommunities(communities, f), FilteredCommunities(communities, f.(activity := AnyActivity)))
  {
    FilterNarrow(Keep(f), Keep(f.(activity := AnyActivity)), communities);
  }

  /** Different activity levels never share a community. */
  lemma ActivitiesDisjoint(communities: seq<CommunityInfo>, f: CommunityFilters, a: string, b: string)
    requires a != AnyActivity && b != AnyActivity && a != b
    ensures forall c :: c in FilteredCommunities(communities, f.(activity := a)) ==>
      c !in FilteredCommunities(communities, f.(activity := b))
  {
  }
}
