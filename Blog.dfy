/**
 * The blog page: articles narrowed by a category and a search term, and the
 * featured article.
 */
module Blog {
  import opened Text
  import opened Sequences

  const AllCategories := "All Categories"

  /** The fields of an article the page filters and picks by; an article without `featured` is not featured. */
  datatype BlogPost = BlogPost(
    id: int,
    title: string,
    excerpt: string,
    category: string,
    tags: seq<string>,
    featured: bool)

  /** The page's two filter controls. */
  datatype BlogFilters = BlogFilters(activeCategory: string, searchTerm: string)

  /** The controls as the page opens, and as "View All Articles" sets them again. */
  const ResetFilters := BlogFilters(AllCategories, "")

  /** The article's category is the chosen one, or one of its tags is exactly that. */
  predicate InCategory(p: BlogPost, category: string)
  {
    p.category == category || category in p.tags
  }

  /** The title, the excerpt or some tag contains the term, ignoring case. */
  predicate MatchesSearch(p: BlogPost, term: string)
  {
    var t := Lower(term);
    Contains(Lower(p.title), t) || Contains(Lower(p.excerpt), t) ||
    exists i :: 0 <= i < |p.tags| && Contains(Lower(p.tags[i]), t)
  }

  /** Both filters at once: each applies only when it is set. */
  predicate Selected(f: BlogFilters, p: BlogPost)
  {
    (f.activeCategory != AllCategories ==> InCategory(p, f.activeCategory)) &&
    (f.searchTerm != "" ==> MatchesSearch(p, f.searchTerm))
  }

  function CategoryKeep(category: string): BlogPost -> bool { p => InCategory(p, category) }
  function SearchKeep(term: string): BlogPost -> bool { p => MatchesSearch(p, term) }
  function CategoryGuard(f: BlogFilters): BlogPost -> bool
  {
    p => f.activeCategory != AllCategories ==> InCategory(p, f.activeCategory)
  }
  function SearchGuard(f: BlogFilters): BlogPost -> bool
  {
    p => f.searchTerm != "" ==> MatchesSearch(p, f.searchTerm)
  }
  function Keep(f: BlogFilters): BlogPost -> bool { p => Selected(f, p) }

  /** The category step: the category filter when a category is chosen. */
  function ByCategory(posts: seq<BlogPost>, f: BlogFilters): (r: seq<BlogPost>)
    ensures r == Filter(CategoryGuard(f), posts)
  {
    FilterWhen(f.activeCategory != AllCategories, CategoryKeep(f.activeCategory), CategoryGuard(f), posts);
    if f.activeCategory != AllCategories then Filter(CategoryKeep(f.activeCategory), posts) else posts
  }

  /**
   * The search step: the search filter when a term is typed.  The community
   * page has its own search step of the same shape over its own records.
   */
  function BySearch(posts: seq<BlogPost>, f: BlogFilters): (r: seq<BlogPost>)
    ensures r == Filter(SearchGuard(f), posts)
  {
    FilterWhen(f.searchTerm != "", SearchKeep(f.searchTerm), SearchGuard(f), posts);
    if f.searchTerm != "" then Filter(SearchKeep(f.searchTerm), posts) else posts
  }

  /**
   * The filter effect: the category filter when a category is chosen, then
   * the search filter when a term is typed.  The result is the single filter
   * by both conditions, so it keeps exactly the selected articles, in order,
   * each as often as it occurs.
   */
  function FilteredPosts(posts: seq<BlogPost>, f: BlogFilters): (r: seq<BlogPost>)
    ensures r == Filter(Keep(f), posts)
    ensures Subsequence(r, posts)
    ensures forall p :: p in r <==> p in posts && Selected(f, p)
  {
    FilterCompose(CategoryGuard(f), SearchGuard(f), Keep(f), posts);
    BySearch(ByCategory(posts, f), f)
  }

  /** With the reset controls every article is listed, in its order. */
  lemma ResetShowsAll(posts: seq<BlogPost>)
    ensures FilteredPosts(posts, ResetFilters) == posts
  {
    FilterAll(Keep(ResetFilters), posts);
  }

  /** Choosing a category only hides articles: the result is a subsequence of the one for all categories. */
  lemma CategoryNarrows(posts: seq<BlogPost>, f: BlogFilters)
    ensures Subsequence(FilteredPosts(posts, f), FilteredPosts(posts, f.(activeCategory := AllCategories)))
  {
    FilterNarrow(Keep(f), Keep(f.(activeCategory := AllCategories)), posts);
  }

  predicate IsFeatured(p: BlogPost) { p.featured }

  /**
   * `featuredPost`: the first featured article, or the first article when
   * none is featured; there is none only for an empty list.
   */
  function FeaturedPost(posts: seq<BlogPost>): (r: Option<BlogPost>)
    ensures r.None? <==> posts == []
    ensures (exists i :: 0 <= i < |posts| && posts[i].featured) ==>
      r.Some? && r.value.featured &&
      exists i :: 0 <= i < |posts| && posts[i] == r.value && forall j :: 0 <= j < i ==> !posts[j].featured
    ensures (forall i :: 0 <= i < |posts| ==> !posts[i].featured) && posts != [] ==> r == Some(posts[0])
  {
    var found := Find(IsFeatured, posts);
    if found.Some? then found
    else
      assert forall i :: 0 <= i < |posts| ==> posts[i] in posts && !IsFeatured(posts[i]);
      if posts == [] then None
    else Some(posts[0])
  }
}
