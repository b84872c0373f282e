/**
 * The saved-posts tab: each saved post as a row with its title split, up to two genre
 * pills, a four-way type badge, and clicks routed by post type.
 */
module Saved {
  import opened Types
  import opened RestaurantDetail
  import opened Text

  /** Which of the tab's two handlers a click calls. */
  datatype Route = ToRecipe | ToPost

  /** The image routes a recipe to the recipe handler, when there is one; everything else to the post handler. */
  function ImageRoute(p: Post, hasRecipeHandler: bool): (r: Route)
    ensures r == ToRecipe <==> p.postType == Recipe && hasRecipeHandler
  {
    if p.postType == Recipe && hasRecipeHandler then ToRecipe else ToPost
  }

  /** The row's type badge, one label per post type. */
  function BadgeText(t: PostType): (text: string)
    ensures t == Recipe ==> text == "レシピ"
    ensures t == Restaurant ==> text == "外食"
    ensures t == FoodWalk ==> text == "食べ歩き"
    ensures t == Sightseeing ==> text == "観光"
  {
    if t == Recipe then "レシピ"
    else if t == Restaurant then "外食"
    else if t == FoodWalk then "食べ歩き"
    else "観光"
  }

  /** Unlike the card's two badges, the row tells every type apart. */
  lemma BadgeTextInjective(t: PostType, u: PostType)
    requires BadgeText(t) == BadgeText(u)
    ensures t == u
  {
  }

  /** `post.genre?.slice(0, 2)`, each shown by its label. */
  function ShownGenres(p: Post): (labels: seq<string>)
    ensures p.genre.None? ==> labels == []
    ensures p.genre.Some? ==> |labels| == if |p.genre.value| < 2 then |p.genre.value| else 2
    ensures p.genre.Some? ==> forall k :: 0 <= k < |labels| ==> labels[k] == GenreLabel(p.genre.value[k])
  {
    if p.genre.None? then []
    else
      var gs := p.genre.value;
      var n := if |gs| < 2 then |gs| else 2;
      seq(n, k requires 0 <= k < n => GenreLabel(gs[k]))
  }

  /**
   * The dish line appears under the name iff the title names a dish: the row splits the
   * title as the detail page does, so it shows a dish exactly when that page does.
   */
  function ShowsDishLine(p: Post): (shown: bool)
    ensures shown <==> ShowsRecommendedDish(p.title)
    ensures shown ==> Includes(p.title, Separator)
  {
    |DishName(p.title)| > 0
  }
}
