/** The profile page: the connoisseur ("tsuu") badge and the grid of the user's posts. */
module Profile {
  import opened Lists
  import opened Types

  /** The hard-coded post count of the user. */
  const TotalPosts: int := 24

  /** The badge is earned at twenty posts. */
  predicate IsTsuu(posts: int)
  {
    posts >= 20
  }

  /** `isTsuu ? min(floor((posts - 20) / 10) + 1, 10) : 1`. */
  function TsuuLevel(posts: int): (level: int)
    ensures 1 <= level <= 10
    ensures posts < 30 ==> level == 1
    ensures 30 <= posts < 110 ==> 10 * level + 10 <= posts < 10 * level + 20
    ensures posts >= 110 <==> level == 10
  {
    if IsTsuu(posts) then Min((posts - 20) / 10 + 1, 10) else 1
  }

  function Min(a: int, b: int): int
  {
    if a < b then a else b
  }

  /** More posts never lower the level. */
  lemma TsuuLevelMonotone(a: int, b: int)
    requires a <= b
    ensures TsuuLevel(a) <= TsuuLevel(b)
  {
  }

  /** The user shown has 24 posts: the badge appears, at level 1. */
  lemma ShownBadge()
    ensures IsTsuu(TotalPosts) && TsuuLevel(TotalPosts) == 1
    ensures TsuuLevel(20) == 1 && TsuuLevel(30) == 2 && TsuuLevel(109) == 9 && TsuuLevel(1000) == 10
  {
  }

  datatype GridFilter = AllPosts | RecipePosts | RestaurantPosts

  /** `filteredPosts`: all posts, or those of the chosen type, in their order. */
  function FilteredPosts(posts: seq<Post>, filter: GridFilter): (r: seq<Post>)
    ensures filter == AllPosts ==> r == posts
    ensures IsSubsequence(r, posts)
    ensures filter == RecipePosts ==> forall p :: p in r <==> p in posts && p.postType == Recipe
    ensures filter == RecipePosts ==>
              forall p :: multiset(r)[p] == if p.postType == Recipe then multiset(posts)[p] else 0
    ensures filter == RestaurantPosts ==> forall p :: p in r <==> p in posts && p.postType == Restaurant
    ensures filter == RestaurantPosts ==>
              forall p :: multiset(r)[p] == if p.postType == Restaurant then multiset(posts)[p] else 0
  {
    match filter
    case AllPosts =>
      SubsequenceOfSelf(posts);
      posts
    case RecipePosts => Filter(posts, (p: Post) => p.postType == Recipe)
    case RestaurantPosts => Filter(posts, (p: Post) => p.postType == Restaurant)
  }

  /** `slice(0, 9)`: at most the first nine. */
  function FirstNine(s: seq<Post>): (r: seq<Post>)
    ensures |r| <= 9 && |r| <= |s| && r == s[..|r|]
    ensures |s| >= 9 ==> |r| == 9
    ensures |s| < 9 ==> r == s
  {
    if |s| <= 9 then s else s[..9]
  }

  class ProfileView {
    var filterType: GridFilter
    var allUserPosts: seq<Post>

    /** The grid holds at most nine posts. */
    ghost predicate Valid()
      reads this
    {
      |allUserPosts| <= 9
    }

    constructor (mock: seq<Post>)
      ensures Valid() && filterType == AllPosts && allUserPosts == FirstNine(mock)
    {
      filterType := AllPosts;
      allUserPosts := FirstNine(mock);
    }

    /** A non-empty fetch replaces the grid with its first nine posts. */
    method ReceiveFetched(fetched: seq<Post>)
      requires Valid()
      modifies this`allUserPosts
      ensures Valid()
      ensures allUserPosts == if |fetched| > 0 then FirstNine(fetched) else old(allUserPosts)
    {
      if |fetched| > 0 {
        allUserPosts := FirstNine(fetched);
      }
    }

    method SelectFilter(f: GridFilter)
      requires Valid()
      modifies this`filterType
      ensures Valid() && filterType == f
    {
      filterType := f;
    }

    /** The grid shown: never more than nine posts, all of them from the user's posts. */
    function Shown(): (r: seq<Post>)
      reads this
      requires Valid()
      ensures |r| <= 9 && IsSubsequence(r, allUserPosts)
    {
      SubsequenceLength(FilteredPosts(allUserPosts, filterType), allUserPosts);
      FilteredPosts(allUserPosts, filterType)
    }
  }
}
