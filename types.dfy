/**
 * The data model shared by the components: posts, their facets, the search filter
 * and the budget suggestion record. A rating is kept in hundredths of a star
 * (4.25 stars is 425), so the documented range 0.00 to 5.00 is 0 to 500.
 */
module Types {
  import opened Optional

  /** The four kinds of post. */
  datatype PostType = Recipe | Restaurant | FoodWalk | Sightseeing

  /** A filter's type selector: every post, or one kind. */
  datatype TypeFilter = AllTypes | OfType(postType: PostType)

  // Facets of restaurant posts.
  datatype Situation = Date | Family | Senior | Lunch | Dinner
  datatype Priority = ChewyNoodles | RichFlavor | Spicy
  datatype ShopPreference = Relaxing | KidFriendly | Hawaii

  // Facets of recipe posts (`lunch` and `dinner` are
  // also situations: write `RecipeCategory.Lunch` where both are in scope).
  datatype RecipeCategory = Breakfast | Lunch | Dinner | Snack
  datatype RecipePreference = Lemon | SummerVegetables | Curry

  /**
   * `Genre` is the union of the restaurant genres and the recipe genres; the two
   * share `chinese`, which is therefore a single value.
   */
  datatype Genre = Cafe | Korean | Chinese | Ramen | Japanese | Western | Italian

  predicate IsRestaurantGenre(g: Genre)
  {
    g == Cafe || g == Korean || g == Chinese || g == Ramen
  }

  predicate IsRecipeGenre(g: Genre)
  {
    g == Japanese || g == Western || g == Chinese || g == Italian
  }

  type RestaurantGenre = g: Genre | IsRestaurantGenre(g) witness Cafe
  type RecipeGenre = g: Genre | IsRecipeGenre(g) witness Japanese

  /** The string value of a genre, as it appears in the data. */
  function GenreName(g: Genre): string
  {
    match g
    case Cafe => "cafe"
    case Korean => "korean"
    case Chinese => "chinese"
    case Ramen => "ramen"
    case Japanese => "japanese"
    case Western => "western"
    case Italian => "italian"
  }

  /** Every genre is a restaurant genre or a recipe genre, and only `chinese` is both. */
  lemma GenreIsUnion(g: Genre)
    ensures IsRestaurantGenre(g) || IsRecipeGenre(g)
    ensures (IsRestaurantGenre(g) && IsRecipeGenre(g)) <==> g == Chinese
  {
  }

  /** Distinct genres have distinct names, so showing the name loses nothing. */
  lemma GenreNameInjective(g: Genre, h: Genre)
    requires GenreName(g) == GenreName(h)
    ensures g == h
  {
  }

  /**
   * A post. The facet lists are optional (`None` is a missing property); `tags`,
   * `timeMinutes` and `budget` are always present. `createdAt` and `reportDetails`
   * are presentation only and are not represented.
   */
  datatype Post = Post(
    id: string,
    postType: PostType,
    title: string,
    description: string,
    imageUrl: string,
    author: string,
    authorAvatar: string,
    rating: int,
    isExpert: Option<bool>,
    expertLevel: Option<int>,
    situation: Option<seq<Situation>>,
    genre: Option<seq<Genre>>,
    priority: Option<seq<Priority>>,
    shopPreference: Option<seq<ShopPreference>>,
    category: Option<seq<RecipeCategory>>,
    recipeGenre: Option<seq<RecipeGenre>>,
    recipePreference: Option<seq<RecipePreference>>,
    timeMinutes: int,
    budget: int,
    location: Option<string>,
    tags: seq<string>,
    likes: int,
    comments: int,
    isLiked: Option<bool>)

  /** The ranges the type's comments document: rating 0.00 to 5.00, expert level 1 to 10. */
  predicate DocumentedRanges(p: Post)
  {
    0 <= p.rating <= 500 &&
    (p.expertLevel.Some? ==> 1 <= p.expertLevel.value <= 10)
  }

  /**
   * The search criteria. Unlike on a post, every facet list is present (possibly
   * empty); the ceilings, the query and the location are always set.
   */
  datatype FilterOptions = FilterOptions(
    typeFilter: TypeFilter,
    situation: seq<Situation>,
    genre: seq<Genre>,
    priority: seq<Priority>,
    shopPreference: seq<ShopPreference>,
    category: seq<RecipeCategory>,
    recipeGenre: seq<RecipeGenre>,
    recipePreference: seq<RecipePreference>,
    maxTime: int,
    maxBudget: int,
    searchQuery: string,
    location: string)

  datatype MenuItem = MenuItem(name: string, price: int, description: string, category: string)
  datatype ShoppingItem = ShoppingItem(name: string, price: int, quantity: string, category: string)

  /** A budget suggestion lists either menu items or shopping items. */
  datatype SuggestionItems = MenuItems(menu: seq<MenuItem>) | ShoppingItems(shopping: seq<ShoppingItem>)

  datatype BudgetSuggestion = BudgetSuggestion(
    id: string,
    postType: PostType,
    title: string,
    totalBudget: int,
    items: SuggestionItems,
    imageUrl: string,
    location: Option<string>,
    tips: string)
}
