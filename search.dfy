/**
 * The search screen: the filter criteria, the toggles that edit them, and the filter
 * that narrows the fixed list of mock posts.
 */
module Search {
  import opened Optional
  import opened Lists
  import opened Text
  import opened Types

  // ---------------------------------------------------------------- the predicates

  /** `facet?.some(x => selected.includes(x))`: the post has the facet and shares a value with it. */
  predicate SharesValue<T(==)>(facet: Option<seq<T>>, selected: seq<T>)
  {
    facet.Some? && exists x :: x in facet.value && x in selected
  }

  /** A facet selection constrains only when it is non-empty. */
  predicate FacetOk<T(==)>(selected: seq<T>, facet: Option<seq<T>>)
  {
    |selected| == 0 || SharesValue(facet, selected)
  }

  predicate TypeOk(f: FilterOptions, p: Post)
  {
    f.typeFilter == AllTypes || p.postType == f.typeFilter.postType
  }

  predicate SituationOk(f: FilterOptions, p: Post) { FacetOk(f.situation, p.situation) }
  predicate GenreOk(f: FilterOptions, p: Post) { FacetOk(f.genre, p.genre) }
  predicate PriorityOk(f: FilterOptions, p: Post) { FacetOk(f.priority, p.priority) }
  predicate ShopPreferenceOk(f: FilterOptions, p: Post) { FacetOk(f.shopPreference, p.shopPreference) }
  predicate CategoryOk(f: FilterOptions, p: Post) { FacetOk(f.category, p.category) }
  predicate RecipeGenreOk(f: FilterOptions, p: Post) { FacetOk(f.recipeGenre, p.recipeGenre) }
  predicate RecipePreferenceOk(f: FilterOptions, p: Post) { FacetOk(f.recipePreference, p.recipePreference) }

  /** The time ceiling applies to recipe searches only. */
  predicate TimeOk(f: FilterOptions, p: Post)
  {
    f.typeFilter != OfType(Recipe) || p.timeMinutes <= f.maxTime
  }

  /** The budget ceiling always applies. */
  predicate BudgetOk(f: FilterOptions, p: Post)
  {
    p.budget <= f.maxBudget
  }

  /** The lower-cased query `q` occurs in the lower-cased title, description or some tag. */
  predicate MatchesQuery(p: Post, q: string)
  {
    Includes(Lower(p.title), q) || Includes(Lower(p.description), q) ||
    exists t :: t in p.tags && Includes(Lower(t), q)
  }

  /** An empty query constrains nothing. */
  predicate QueryOk(f: FilterOptions, p: Post)
  {
    |f.searchQuery| == 0 || MatchesQuery(p, Lower(f.searchQuery))
  }

  /** A post survives the search iff it passes every criterion; the location is not one of them. */
  predicate Keep(f: FilterOptions, p: Post)
  {
    TypeOk(f, p) && SituationOk(f, p) && GenreOk(f, p) && PriorityOk(f, p) &&
    ShopPreferenceOk(f, p) && CategoryOk(f, p) && RecipeGenreOk(f, p) &&
    RecipePreferenceOk(f, p) && TimeOk(f, p) && BudgetOk(f, p) && QueryOk(f, p)
  }

  /** The search result: the posts of `mock` that `Keep` admits, in their order in `mock`. */
  function SearchResult(mock: seq<Post>, f: FilterOptions): (r: seq<Post>)
    ensures IsSubsequence(r, mock)
    ensures forall i :: 0 <= i < |r| ==> r[i] in mock && Keep(f, r[i])
    ensures forall i :: 0 <= i < |mock| && Keep(f, mock[i]) ==> mock[i] in r
    ensures forall p :: multiset(r)[p] == if Keep(f, p) then multiset(mock)[p] else 0
  {
    var r := Filter(mock, (p: Post) => Keep(f, p));
    assert forall i :: 0 <= i < |r| ==> r[i] in r;
    r
  }

  // ---------------------------------------------------------------- what the result means

  /** With a type selected, every result has that type; `AllTypes` imposes none. */
  lemma ResultHasSelectedType(mock: seq<Post>, f: FilterOptions, t: PostType)
    requires f.typeFilter == OfType(t)
    ensures forall p :: p in SearchResult(mock, f) ==> p.postType == t
  {
  }

  /**
   * For a non-empty facet selection, a kept post has that facet and shares a value
   * with the selection; a post without the facet is dropped.
   */
  lemma ResultSharesFacets(mock: seq<Post>, f: FilterOptions, p: Post)
    requires p in SearchResult(mock, f)
    ensures |f.situation| > 0 ==> p.situation.Some? && exists x :: x in p.situation.value && x in f.situation
    ensures |f.genre| > 0 ==> p.genre.Some? && exists x :: x in p.genre.value && x in f.genre
    ensures |f.priority| > 0 ==> p.priority.Some? && exists x :: x in p.priority.value && x in f.priority
    ensures |f.shopPreference| > 0 ==> p.shopPreference.Some? && exists x :: x in p.shopPreference.value && x in f.shopPreference
    ensures |f.category| > 0 ==> p.category.Some? && exists x :: x in p.category.value && x in f.category
    ensures |f.recipeGenre| > 0 ==> p.recipeGenre.Some? && exists x :: x in p.recipeGenre.value && x in f.recipeGenre
    ensures |f.recipePreference| > 0 ==> p.recipePreference.Some? && exists x :: x in p.recipePreference.value && x in f.recipePreference
  {
  }

  /** The time ceiling binds only recipe searches; the budget ceiling binds every search. */
  lemma ResultCeilings(mock: seq<Post>, f: FilterOptions, p: Post)
    requires p in SearchResult(mock, f)
    ensures f.typeFilter == OfType(Recipe) ==> p.timeMinutes <= f.maxTime
    ensures p.budget <= f.maxBudget
  {
  }

  /** Outside recipe searches a post over the time ceiling can still be found. */
  lemma TimeIgnoredOutsideRecipes(f: FilterOptions, p: Post)
    requires f.typeFilter != OfType(Recipe)
    ensures Keep(f, p) == Keep(f.(maxTime := p.timeMinutes - 1), p)
  {
  }

  /** A non-empty query keeps exactly the posts whose title, description or a tag contains it, ignoring ASCII case. */
  lemma ResultMatchesQuery(mock: seq<Post>, f: FilterOptions, p: Post)
    requires |f.searchQuery| > 0 && p in SearchResult(mock, f)
    ensures Includes(Lower(p.title), Lower(f.searchQuery)) ||
            Includes(Lower(p.description), Lower(f.searchQuery)) ||
            exists t :: t in p.tags && Includes(Lower(t), Lower(f.searchQuery))
  {
  }

  /** A query that occurs literally in a tag always matches, whatever the case of the letters. */
  lemma LiteralTagMatches(p: Post, f: FilterOptions, t: string)
    requires t in p.tags && Includes(t, f.searchQuery)
    ensures QueryOk(f, p)
  {
    IncludesLower(t, f.searchQuery);
  }

  /** The location criterion is stored but never consulted. */
  lemma {:induction false} LocationIgnored(mock: seq<Post>, f: FilterOptions, location: string)
    ensures SearchResult(mock, f.(location := location)) == SearchResult(mock, f)
  {
    var g := f.(location := location);
    forall p: Post
      ensures Keep(g, p) == Keep(f, p)
    {
      SameCriteria(g, f, p);
    }
    FilterAgree(mock, (p: Post) => Keep(g, p), (p: Post) => Keep(f, p));
  }

  /** `Keep` reads every field of the criteria except the location. */
  lemma SameCriteria(f: FilterOptions, g: FilterOptions, p: Post)
    requires f.(location := "") == g.(location := "")
    ensures Keep(f, p) == Keep(g, p)
  {
    assert f.typeFilter == g.typeFilter && f.situation == g.situation && f.genre == g.genre;
    assert f.priority == g.priority && f.shopPreference == g.shopPreference && f.category == g.category;
    assert f.recipeGenre == g.recipeGenre && f.recipePreference == g.recipePreference;
    assert f.maxTime == g.maxTime && f.maxBudget == g.maxBudget && f.searchQuery == g.searchQuery;
  }

  /** The filters the screen starts with: everything admitted up to 120 minutes and 10000 yen. */
  function InitialFilters(): (f: FilterOptions)
    ensures f.typeFilter == AllTypes && f.maxTime == 120 && f.maxBudget == 10000
    ensures |f.situation| == |f.genre| == |f.priority| == |f.shopPreference| == 0
    ensures |f.category| == |f.recipeGenre| == |f.recipePreference| == 0
    ensures f.searchQuery == "" && f.location == ""
  {
    FilterOptions(AllTypes, [], [], [], [], [], [], [], 120, 10000, "", "")
  }

  /** Under the initial filters a post is kept iff it costs at most 10000. */
  lemma InitialKeepsAffordable(p: Post)
    ensures Keep(InitialFilters(), p) <==> p.budget <= 10000
  {
  }

  /** The location buttons: clicking the selected location clears it, any other selects it. */
  function ClickLocation(current: string, clicked: string): (r: string)
    ensures current == clicked ==> r == ""
    ensures current != clicked ==> r == clicked
  {
    if current == clicked then "" else clicked
  }

  // ---------------------------------------------------------------- successive narrowing

  /** Criterion `i` (1 to 11) in the order the screen applies them. */
  predicate Criterion(f: FilterOptions, i: nat, p: Post)
    requires 1 <= i <= 11
  {
    match i
    case 1 => TypeOk(f, p)
    case 2 => SituationOk(f, p)
    case 3 => GenreOk(f, p)
    case 4 => PriorityOk(f, p)
    case 5 => ShopPreferenceOk(f, p)
    case 6 => CategoryOk(f, p)
    case 7 => RecipeGenreOk(f, p)
    case 8 => RecipePreferenceOk(f, p)
    case 9 => TimeOk(f, p)
    case 10 => BudgetOk(f, p)
    case _ => QueryOk(f, p)
  }

  /** The post passes the first `n` criteria. */
  predicate PassesFirst(f: FilterOptions, n: nat, p: Post)
    requires n <= 11
  {
    n == 0 || (PassesFirst(f, n - 1, p) && Criterion(f, n, p))
  }

  /** The list after the first `n` narrowing steps. */
  function Narrowed(mock: seq<Post>, f: FilterOptions, n: nat): seq<Post>
    requires n <= 11
  {
    Filter(mock, (p: Post) => PassesFirst(f, n, p))
  }

  /** Before any step the list is the mock list. */
  lemma StageNone(mock: seq<Post>, f: FilterOptions)
    ensures Narrowed(mock, f, 0) == mock
  {
    FilterKeepsAll(mock, (p: Post) => PassesFirst(f, 0, p));
  }

  /** `step`, applied when `active`, decides criterion `n`. */
  ghost predicate Decides(f: FilterOptions, n: nat, step: Post -> bool, active: bool)
    requires 1 <= n <= 11
  {
    forall p :: Criterion(f, n, p) == (active ==> step(p))
  }

  /** Step `n` filters by `step` when `active`; when `step` decides criterion `n` that gives `Narrowed(mock, f, n)`. */
  lemma StageStep(mock: seq<Post>, f: FilterOptions, n: nat, step: Post -> bool, active: bool)
    requires 1 <= n <= 11 && Decides(f, n, step, active)
    ensures (if active then Filter(Narrowed(mock, f, n - 1), step) else Narrowed(mock, f, n - 1)) == Narrowed(mock, f, n)
  {
    NarrowStage(mock, (p: Post) => PassesFirst(f, n - 1, p), step, active, (p: Post) => PassesFirst(f, n, p));
  }

  /** After all eleven steps the list is the search result. */
  lemma StageAll(mock: seq<Post>, f: FilterOptions)
    ensures Narrowed(mock, f, 11) == SearchResult(mock, f)
  {
    forall p: Post
      ensures PassesFirst(f, 11, p) == Keep(f, p)
    {
      assert PassesFirst(f, 1, p) == TypeOk(f, p);
      assert PassesFirst(f, 2, p) == (TypeOk(f, p) && SituationOk(f, p));
      assert PassesFirst(f, 3, p) == (PassesFirst(f, 2, p) && GenreOk(f, p));
      assert PassesFirst(f, 4, p) == (PassesFirst(f, 2, p) && GenreOk(f, p) && PriorityOk(f, p));
      assert PassesFirst(f, 6, p) == (PassesFirst(f, 4, p) && ShopPreferenceOk(f, p) && CategoryOk(f, p));
      assert PassesFirst(f, 8, p) == (PassesFirst(f, 6, p) && RecipeGenreOk(f, p) && RecipePreferenceOk(f, p));
      assert PassesFirst(f, 10, p) == (PassesFirst(f, 8, p) && TimeOk(f, p) && BudgetOk(f, p));
    }
    FilterAgree(mock, (p: Post) => PassesFirst(f, 11, p), (p: Post) => Keep(f, p));
  }

  // The callbacks `applyFilters` passes to each `filter`, each with the guard under which
  // it runs; each is shown to decide its criterion.

  /** The callback for the type filter, applied when `f.typeFilter != AllTypes`. */
  function TypeStep(f: FilterOptions): (step: Post -> bool)
    ensures Decides(f, 1, step, f.typeFilter != AllTypes)
  {
    (p: Post) => f.typeFilter.OfType? && p.postType == f.typeFilter.postType
  }

  /** The callback for the situation facet, applied when `|f.situation| > 0`. */
  function SituationStep(f: FilterOptions): (step: Post -> bool)
    ensures Decides(f, 2, step, |f.situation| > 0)
  {
    (p: Post) => SharesValue(p.situation, f.situation)
  }

  /** The callback for the restaurant genre facet, applied when `|f.genre| > 0`. */
  function GenreStep(f: FilterOptions): (step: Post -> bool)
    ensures Decides(f, 3, step, |f.genre| > 0)
  {
    (p: Post) => SharesValue(p.genre, f.genre)
  }

  /** The callback for the priority facet, applied when `|f.priority| > 0`. */
  function PriorityStep(f: FilterOptions): (step: Post -> bool)
    ensures Decides(f, 4, step, |f.priority| > 0)
  {
    (p: Post) => SharesValue(p.priority, f.priority)
  }

  /** The callback for the shop preference facet, applied when `|f.shopPreference| > 0`. */
  function ShopPreferenceStep(f: FilterOptions): (step: Post -> bool)
    ensures Decides(f, 5, step, |f.shopPreference| > 0)
  {
    (p: Post) => SharesValue(p.shopPreference, f.shopPreference)
  }

  /** The callback for the recipe category facet, applied when `|f.category| > 0`. */
  function CategoryStep(f: FilterOptions): (step: Post -> bool)
    ensures Decides(f, 6, step, |f.category| > 0)
  {
    (p: Post) => SharesValue(p.category, f.category)
  }

  /** The callback for the recipe genre facet, applied when `|f.recipeGenre| > 0`. */
  function RecipeGenreStep(f: FilterOptions): (step: Post -> bool)
    ensures Decides(f, 7, step, |f.recipeGenre| > 0)
  {
    (p: Post) => SharesValue(p.recipeGenre, f.recipeGenre)
  }

  /** The callback for the recipe preference facet, applied when `|f.recipePreference| > 0`. */
  function RecipePreferenceStep(f: FilterOptions): (step: Post -> bool)
    ensures Decides(f, 8, step, |f.recipePreference| > 0)
  {
    (p: Post) => SharesValue(p.recipePreference, f.recipePreference)
  }

  /** The callback for the time ceiling, applied when `f.typeFilter == OfType(Recipe)`. */
  function TimeStep(f: FilterOptions): (step: Post -> bool)
    ensures Decides(f, 9, step, f.typeFilter == OfType(Recipe))
  {
    (p: Post) => p.timeMinutes <= f.maxTime
  }

  /** The callback for the budget ceiling, applied when `true`. */
  function BudgetStep(f: FilterOptions): (step: Post -> bool)
    ensures Decides(f, 10, step, true)
  {
    (p: Post) => p.budget <= f.maxBudget
  }

  /** The callback for the text query, applied when `|f.searchQuery| > 0`. */
  function QueryStep(f: FilterOptions): (step: Post -> bool)
    ensures Decides(f, 11, step, |f.searchQuery| > 0)
  {
    (p: Post) => MatchesQuery(p, Lower(f.searchQuery))
  }

  /**
   * `if (active) filtered = filtered.filter(step)`, step `n` of the narrowing: from the
   * list after the first `n - 1` criteria it gives the list after the first `n`.
   */
  method NarrowIf(filtered: seq<Post>, step: Post -> bool, active: bool, ghost mock: seq<Post>, ghost f: FilterOptions, ghost n: nat)
    returns (r: seq<Post>)
    requires 1 <= n <= 11 && Decides(f, n, step, active)
    requires filtered == Narrowed(mock, f, n - 1)
    ensures r == Narrowed(mock, f, n)
  {
    r := filtered;
    if active {
      r := Filter(r, step);
    }
    StageStep(mock, f, n, step, active);
  }

  // ---------------------------------------------------------------- the component

  class SearchView {
    /** The fixed mock list every search starts from. */
    const mockPosts: seq<Post>
    var filters: FilterOptions
    /** The displayed list. */
    var posts: seq<Post>
    var showFilters: bool
    var selectedPost: Option<Post>

    constructor (mock: seq<Post>)
      ensures mockPosts == mock && posts == mock
      ensures filters == InitialFilters() && !showFilters && selectedPost == None
    {
      mockPosts := mock;
      posts := mock;
      filters := InitialFilters();
      showFilters := false;
      selectedPost := None;
    }

    /** The result of the mount-time fetch replaces the list when it is non-empty. */
    method ReceiveFetched(fetched: seq<Post>)
      modifies this`posts
      ensures posts == if |fetched| > 0 then fetched else old(posts)
    {
      if |fetched| > 0 {
        posts := fetched;
      }
    }

    method SelectType(t: TypeFilter)
      modifies this`filters
      ensures filters == old(filters).(typeFilter := t)
    {
      filters := filters.(typeFilter := t);
    }

    method ToggleSituation(v: Situation)
      modifies this`filters
      ensures filters == old(filters).(situation := Toggle(old(filters).situation, v))
    {
      filters := filters.(situation := Toggle(filters.situation, v));
    }

    method ToggleGenre(v: RestaurantGenre)
      modifies this`filters
      ensures filters == old(filters).(genre := Toggle(old(filters).genre, v))
    {
      filters := filters.(genre := Toggle(filters.genre, v));
    }

    method TogglePriority(v: Priority)
      modifies this`filters
      ensures filters == old(filters).(priority := Toggle(old(filters).priority, v))
    {
      filters := filters.(priority := Toggle(filters.priority, v));
    }

    method ToggleShopPreference(v: ShopPreference)
      modifies this`filters
      ensures filters == old(filters).(shopPreference := Toggle(old(filters).shopPreference, v))
    {
      filters := filters.(shopPreference := Toggle(filters.shopPreference, v));
    }

    method ToggleCategory(v: RecipeCategory)
      modifies this`filters
      ensures filters == old(filters).(category := Toggle(old(filters).category, v))
    {
      filters := filters.(category := Toggle(filters.category, v));
    }

    method ToggleRecipeGenre(v: RecipeGenre)
      modifies this`filters
      ensures filters == old(filters).(recipeGenre := Toggle(old(filters).recipeGenre, v))
    {
      filters := filters.(recipeGenre := Toggle(filters.recipeGenre, v));
    }

    method ToggleRecipePreference(v: RecipePreference)
      modifies this`filters
      ensures filters == old(filters).(recipePreference := Toggle(old(filters).recipePreference, v))
    {
      filters := filters.(recipePreference := Toggle(filters.recipePreference, v));
    }

    /** The sliders: `parseInt` of a range input's value, which is always a number. */
    method SetMaxTime(minutes: int)
      modifies this`filters
      ensures filters == old(filters).(maxTime := minutes)
    {
      filters := filters.(maxTime := minutes);
    }

    method SetMaxBudget(yen: int)
      modifies this`filters
      ensures filters == old(filters).(maxBudget := yen)
    {
      filters := filters.(maxBudget := yen);
    }

    method SetSearchQuery(q: string)
      modifies this`filters
      ensures filters == old(filters).(searchQuery := q)
    {
      filters := filters.(searchQuery := q);
    }

    method ClickLocationButton(location: string)
      modifies this`filters
      ensures filters == old(filters).(location := ClickLocation(old(filters).location, location))
    {
      filters := filters.(location := ClickLocation(filters.location, location));
    }

    method ToggleFilterPanel()
      modifies this`showFilters
      ensures showFilters == !old(showFilters)
    {
      showFilters := !showFilters;
    }

    method SelectPost(p: Post)
      modifies this`selectedPost
      ensures selectedPost == Some(p)
    {
      selectedPost := Some(p);
    }

    method CloseDetail()
      modifies this`selectedPost
      ensures selectedPost == None
    {
      selectedPost := None;
    }

    /**
     * `applyFilters`: start again from the mock list (never from the displayed or fetched
     * list) and narrow it one criterion at a time; the outcome is the single filter by `Keep`.
     */
    method ApplyFilters()
      modifies this`posts
      ensures posts == SearchResult(mockPosts, filters)
    {
      var f := filters;
      var filtered := mockPosts;
      StageNone(mockPosts, f);
      filtered := NarrowIf(filtered, TypeStep(f), f.typeFilter != AllTypes, mockPosts, f, 1);
      filtered := NarrowIf(filtered, SituationStep(f), |f.situation| > 0, mockPosts, f, 2);
      filtered := NarrowIf(filtered, GenreStep(f), |f.genre| > 0, mockPosts, f, 3);
      filtered := NarrowIf(filtered, PriorityStep(f), |f.priority| > 0, mockPosts, f, 4);
      filtered := NarrowIf(filtered, ShopPreferenceStep(f), |f.shopPreference| > 0, mockPosts, f, 5);
      filtered := NarrowIf(filtered, CategoryStep(f), |f.category| > 0, mockPosts, f, 6);
      filtered := NarrowIf(filtered, RecipeGenreStep(f), |f.recipeGenre| > 0, mockPosts, f, 7);
      filtered := NarrowIf(filtered, RecipePreferenceStep(f), |f.recipePreference| > 0, mockPosts, f, 8);
      filtered := NarrowIf(filtered, TimeStep(f), f.typeFilter == OfType(Recipe), mockPosts, f, 9);
      filtered := NarrowIf(filtered, BudgetStep(f), true, mockPosts, f, 10);
      filtered := NarrowIf(filtered, QueryStep(f), |f.searchQuery| > 0, mockPosts, f, 11);
      StageAll(mockPosts, f);
      posts := filtered;
    }
  }
}
