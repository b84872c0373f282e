/**
 * The application shell: the bottom tabs, the saved-posts list shared by every screen,
 * the type-guarded detail navigation and the order in which screens take precedence.
 */
module Shell {
  import opened Lists
  import opened Optional
  import opened Types
  import Saved

  /** The four bottom-navigation tabs; the plan (budget) tab is the start tab. */
  datatype Tab = PlanTab | SearchTab | SavedTab | ProfileTab

  /** What the shell renders. Each detail screen carries whether its post is saved. */
  datatype Screen =
    | CreatePostScreen
    | RestaurantScreen(post: Post, isSaved: bool)
    | RecipeScreen(post: Post, isSaved: bool)
    | TabScreen(tab: Tab)

  // ---------------------------------------------------------------- the saved list

  /** `savedPosts.some(p => p.id === id)`. */
  predicate IsSaved(saved: seq<Post>, id: string)
  {
    exists p :: p in saved && p.id == id
  }

  /** No two saved posts share an id. */
  ghost predicate UniqueIds(s: seq<Post>)
  {
    forall i, j :: 0 <= i < j < |s| ==> s[i].id != s[j].id
  }

  /**
   * The `setSavedPosts` updater of `handleToggleSave`: a post whose id is saved is removed
   * together with every other entry of that id; a post whose id is not saved is appended.
   */
  function ToggleSaved(saved: seq<Post>, post: Post): (r: seq<Post>)
    ensures IsSaved(saved, post.id) ==>
              IsSubsequence(r, saved) &&
              (forall p :: p in r <==> p in saved && p.id != post.id) &&
              forall p :: multiset(r)[p] == if p.id == post.id then 0 else multiset(saved)[p]
    ensures !IsSaved(saved, post.id) ==> r == saved + [post]
  {
    if IsSaved(saved, post.id) then Filter(saved, (p: Post) => p.id != post.id)
    else saved + [post]
  }

  /** Each toggle flips whether the post's id is saved and leaves every other id as it was. */
  lemma ToggleFlipsSaved(saved: seq<Post>, post: Post, id: string)
    ensures IsSaved(ToggleSaved(saved, post), post.id) == !IsSaved(saved, post.id)
    ensures id != post.id ==> IsSaved(ToggleSaved(saved, post), id) == IsSaved(saved, id)
  {
    var r := ToggleSaved(saved, post);
    if !IsSaved(saved, post.id) {
      assert post in r;
    }
    if id != post.id && IsSaved(saved, id) {
      var q :| q in saved && q.id == id;
      assert q in r;
    }
  }

  /** A filter of a list with unique ids has unique ids. */
  lemma {:induction false} FilterUniqueIds(s: seq<Post>, keep: Post -> bool)
    requires UniqueIds(s)
    ensures UniqueIds(Filter(s, keep))
    decreases |s|
  {
    if |s| > 0 {
      var rest := Filter(s[1..], keep);
      assert UniqueIds(s[1..]) by {
        forall i, j | 0 <= i < j < |s[1..]|
          ensures s[1..][i].id != s[1..][j].id
        {
          assert s[1..][i] == s[i + 1] && s[1..][j] == s[j + 1];
        }
      }
      FilterUniqueIds(s[1..], keep);
      if keep(s[0]) {
        var r := [s[0]] + rest;
        forall i, j | 0 <= i < j < |r|
          ensures r[i].id != r[j].id
        {
          if i == 0 {
            assert r[j] in rest && r[j] in s[1..];
            var k :| 0 <= k < |s[1..]| && s[1..][k] == r[j];
            assert s[k + 1] == r[j];
          } else {
            assert r[i] == rest[i - 1] && r[j] == rest[j - 1];
          }
        }
      }
    }
  }

  /** Starting from a list with unique ids, toggling keeps the ids unique. */
  lemma ToggleKeepsUniqueIds(saved: seq<Post>, post: Post)
    requires UniqueIds(saved)
    ensures UniqueIds(ToggleSaved(saved, post))
  {
    if IsSaved(saved, post.id) {
      FilterUniqueIds(saved, (p: Post) => p.id != post.id);
    } else {
      var r := saved + [post];
      forall i, j | 0 <= i < j < |r|
        ensures r[i].id != r[j].id
      {
        if j == |saved| {
          assert r[i] in saved;
        }
      }
    }
  }

  /** Toggling an unsaved post twice gives back the list. */
  lemma ToggleTwiceUnsaved(saved: seq<Post>, post: Post)
    requires !IsSaved(saved, post.id)
    ensures ToggleSaved(ToggleSaved(saved, post), post) == saved
  {
    var keep := (p: Post) => p.id != post.id;
    assert post in saved + [post];
    FilterAppend(saved, [post], keep);
    FilterKeepsAll(saved, keep);
    assert Filter([post], keep) == [];
    assert saved + [] == saved;
  }

  /** Toggling a saved post twice restores it as saved, but at the end and with its duplicates gone. */
  lemma ToggleTwiceSaved(saved: seq<Post>, post: Post)
    requires IsSaved(saved, post.id)
    ensures ToggleSaved(ToggleSaved(saved, post), post) == Filter(saved, (p: Post) => p.id != post.id) + [post]
    ensures IsSaved(ToggleSaved(ToggleSaved(saved, post), post), post.id)
  {
    var once := ToggleSaved(saved, post);
    assert !IsSaved(once, post.id);
    assert post in once + [post];
  }

  // ---------------------------------------------------------------- the component

  class App {
    var activeTab: Tab
    /** The query the plan tab starts from; the search tab's "edit to plan" action sets it. */
    var budgetSearchQuery: string
    var selectedRestaurant: Option<Post>
    var selectedRecipe: Option<Post>
    var savedPosts: seq<Post>
    var showCreatePost: bool

    /** The saved ids are unique and each open detail screen shows a post of its own type. */
    ghost predicate Valid()
      reads this
    {
      UniqueIds(savedPosts) &&
      (selectedRestaurant.Some? ==> selectedRestaurant.value.postType == Restaurant) &&
      (selectedRecipe.Some? ==> selectedRecipe.value.postType == Recipe)
    }

    constructor ()
      ensures Valid()
      ensures activeTab == PlanTab && budgetSearchQuery == "" && savedPosts == []
      ensures selectedRestaurant == None && selectedRecipe == None && !showCreatePost
    {
      activeTab := PlanTab;
      budgetSearchQuery := "";
      selectedRestaurant := None;
      selectedRecipe := None;
      savedPosts := [];
      showCreatePost := false;
    }

    /**
     * The screen the shell renders: the create-post form when open, else the restaurant
     * detail, else the recipe detail, else the active tab.
     */
    function CurrentScreen(): (s: Screen)
      reads this
      ensures showCreatePost <==> s == CreatePostScreen
      ensures s.RestaurantScreen? <==> !showCreatePost && selectedRestaurant.Some?
      ensures s.RecipeScreen? <==> !showCreatePost && selectedRestaurant.None? && selectedRecipe.Some?
      ensures s.TabScreen? <==> !showCreatePost && selectedRestaurant.None? && selectedRecipe.None?
      ensures s.RestaurantScreen? ==> s.post == selectedRestaurant.value
      ensures s.RecipeScreen? ==> s.post == selectedRecipe.value
      ensures (s.RestaurantScreen? || s.RecipeScreen?) ==> s.isSaved == IsSaved(savedPosts, s.post.id)
      ensures s.TabScreen? ==> s.tab == activeTab
    {
      if showCreatePost then CreatePostScreen
      else if selectedRestaurant.Some? then
        RestaurantScreen(selectedRestaurant.value, IsSaved(savedPosts, selectedRestaurant.value.id))
      else if selectedRecipe.Some? then
        RecipeScreen(selectedRecipe.value, IsSaved(savedPosts, selectedRecipe.value.id))
      else TabScreen(activeTab)
    }

    method SelectTab(t: Tab)
      requires Valid()
      modifies this`activeTab
      ensures Valid() && activeTab == t
    {
      activeTab := t;
    }

    /** `handleEditToPlan`: carry a title to the plan tab and switch to it. */
    method EditToPlan(title: string)
      requires Valid()
      modifies this`budgetSearchQuery, this`activeTab
      ensures Valid() && budgetSearchQuery == title && activeTab == PlanTab
    {
      budgetSearchQuery := title;
      activeTab := PlanTab;
    }

    /** `handleRestaurantClick`: only a restaurant post opens the restaurant detail. */
    method RestaurantClick(post: Post)
      requires Valid()
      modifies this`selectedRestaurant
      ensures Valid()
      ensures selectedRestaurant == if post.postType == Restaurant then Some(post) else old(selectedRestaurant)
      ensures post.postType == Restaurant && !showCreatePost ==>
                CurrentScreen() == RestaurantScreen(post, IsSaved(savedPosts, post.id))
    {
      if post.postType == Restaurant {
        selectedRestaurant := Some(post);
      }
    }

    method CloseRestaurant()
      requires Valid()
      modifies this`selectedRestaurant
      ensures Valid() && selectedRestaurant == None
    {
      selectedRestaurant := None;
    }

    /** `handleRecipeClick`: only a recipe post opens the recipe detail. */
    method RecipeClick(post: Post)
      requires Valid()
      modifies this`selectedRecipe
      ensures Valid()
      ensures selectedRecipe == if post.postType == Recipe then Some(post) else old(selectedRecipe)
      ensures post.postType == Recipe && !showCreatePost && selectedRestaurant.None? ==>
                CurrentScreen() == RecipeScreen(post, IsSaved(savedPosts, post.id))
    {
      if post.postType == Recipe {
        selectedRecipe := Some(post);
      }
    }

    method CloseRecipe()
      requires Valid()
      modifies this`selectedRecipe
      ensures Valid() && selectedRecipe == None
    {
      selectedRecipe := None;
    }

    /** `handleToggleSave`: flip whether the post is saved; the ids stay unique. */
    method ToggleSave(post: Post)
      requires Valid()
      modifies this`savedPosts
      ensures Valid()
      ensures savedPosts == ToggleSaved(old(savedPosts), post)
      ensures IsSaved(savedPosts, post.id) == !IsSaved(old(savedPosts), post.id)
    {
      ToggleKeepsUniqueIds(savedPosts, post);
      ToggleFlipsSaved(savedPosts, post, post.id);
      savedPosts := ToggleSaved(savedPosts, post);
    }

    /**
     * The saved tab's image click, with this shell's handlers: a recipe opens the recipe
     * detail and a restaurant the restaurant detail; a food walk or sightseeing post goes
     * to the restaurant handler, which ignores it.
     */
    method SavedImageClick(post: Post)
      requires Valid()
      modifies this`selectedRestaurant, this`selectedRecipe
      ensures Valid()
      ensures post.postType == Recipe ==> selectedRecipe == Some(post) && selectedRestaurant == old(selectedRestaurant)
      ensures post.postType == Restaurant ==> selectedRestaurant == Some(post) && selectedRecipe == old(selectedRecipe)
      ensures post.postType == FoodWalk || post.postType == Sightseeing ==>
                selectedRestaurant == old(selectedRestaurant) && selectedRecipe == old(selectedRecipe)
    {
      match Saved.ImageRoute(post, true)
      case ToRecipe => RecipeClick(post);
      case ToPost => RestaurantClick(post);
    }

    /** The saved tab's title click always goes to the restaurant handler, so a recipe's title opens nothing. */
    method SavedTitleClick(post: Post)
      requires Valid()
      modifies this`selectedRestaurant
      ensures Valid()
      ensures selectedRestaurant == if post.postType == Restaurant then Some(post) else old(selectedRestaurant)
    {
      RestaurantClick(post);
    }

    /** `handleCreatePost`: the form takes precedence over every other screen. */
    method OpenCreatePost()
      requires Valid()
      modifies this`showCreatePost
      ensures Valid() && showCreatePost && CurrentScreen() == CreatePostScreen
    {
      showCreatePost := true;
    }

    method CloseCreatePost()
      requires Valid()
      modifies this`showCreatePost
      ensures Valid() && !showCreatePost
    {
      showCreatePost := false;
    }
  }
}
