/**
 * The budget planner tab: its search query, preference toggles and number inputs, and
 * the fixed bundles of restaurant orders and shopping lists it suggests.
 */
module Budget {
  import opened Optional
  import opened Lists
  import opened Text

  /** One dish of a restaurant order. */
  datatype OrderItem = OrderItem(name: string, price: int)

  datatype RestaurantOrder = RestaurantOrder(id: string, title: string, items: seq<OrderItem>, totalPrice: int)

  /** A cheaper or better substitute for a shopping line. */
  datatype Alternative = Alternative(name: string, price: int)

  datatype ShoppingLine = ShoppingLine(name: string, quantity: string, price: int, alternatives: seq<Alternative>)

  datatype RecipeOrder = RecipeOrder(id: string, title: string, items: seq<ShoppingLine>, totalPrice: int)

  /** The planner's type selector; it starts at `AllPlans` and no control changes it. */
  datatype PlanType = AllPlans | RecipePlans | RestaurantPlans

  function OrderSum(items: seq<OrderItem>): int
  {
    if |items| == 0 then 0 else items[0].price + OrderSum(items[1..])
  }

  function ShoppingSum(items: seq<ShoppingLine>): int
  {
    if |items| == 0 then 0 else items[0].price + ShoppingSum(items[1..])
  }

  /** The three restaurant orders, with their stated totals. */
  function RestaurantOrders(): (orders: seq<RestaurantOrder>)
    ensures |orders| == 3
    ensures orders[0].totalPrice == 1350 && orders[1].totalPrice == 1380 && orders[2].totalPrice == 1660
  {
    [ RestaurantOrder("1", "バランス重視セット",
        [OrderItem("豚骨ラーメン", 900), OrderItem("餃子（6個）", 300), OrderItem("ウーロン茶", 150)], 1350),
      RestaurantOrder("2", "ヘルシー軽めセット",
        [OrderItem("サラダチキンプレート", 780), OrderItem("ミネストローネスープ", 320), OrderItem("野菜サラダ", 280)], 1380),
      RestaurantOrder("3", "ボリューム満点セット",
        [OrderItem("チーズハンバーグ定食", 1080), OrderItem("から揚げ（3個）", 380), OrderItem("アイスコーヒー", 200)], 1660) ]
  }

  /** The three shopping lists, with their stated totals. */
  function RecipeOrders(): (orders: seq<RecipeOrder>)
    ensures |orders| == 3
    ensures orders[0].totalPrice == 580 && orders[1].totalPrice == 610 && orders[2].totalPrice == 780
  {
    [ RecipeOrder("1", "カルボナーラの買い出しリスト",
        [ ShoppingLine("スパゲッティ", "200g", 150, [Alternative("生パスタ", 200)]),
          ShoppingLine("ベーコン", "80g", 180, [Alternative("パンチェッタ", 250)]),
          ShoppingLine("卵", "2個", 80, []),
          ShoppingLine("粉チーズ", "30g", 120, [Alternative("パルメザンチーズ", 350)]),
          ShoppingLine("にんにく", "1片", 50, []) ], 580),
      RecipeOrder("2", "ヘルシーサラダボウル",
        [ ShoppingLine("サラダチキン", "1パック", 200, [Alternative("蒸し鶏", 180), Alternative("ツナ缶", 120)]),
          ShoppingLine("アボカド", "1個", 180, [Alternative("きゅうり", 45)]),
          ShoppingLine("ミニトマト", "1パック", 120, []),
          ShoppingLine("レタス", "1/2玉", 80, [Alternative("カット野菜", 150)]),
          ShoppingLine("オリーブオイル", "適量", 30, []) ], 610),
      RecipeOrder("3", "チキンカレーの買い出しリスト",
        [ ShoppingLine("鶏もも肉", "300g", 420, [Alternative("鶏むね肉", 280), Alternative("サラダチキン", 300)]),
          ShoppingLine("玉ねぎ", "2個", 100, []),
          ShoppingLine("じゃがいも", "2個", 80, []),
          ShoppingLine("にんじん", "1本", 60, []),
          ShoppingLine("カレールー", "1/2箱", 120, [Alternative("カレー粉＋トマト缶", 200)]) ], 780) ]
  }

  /**
   * Every stated total is the sum of its order's dishes, and of its shopping list's main
   * lines at their listed prices (the alternatives are not counted).
   */
  lemma TotalsAreSums()
    ensures forall k :: 0 <= k < |RestaurantOrders()| ==>
      RestaurantOrders()[k].totalPrice == OrderSum(RestaurantOrders()[k].items)
    ensures forall k :: 0 <= k < |RecipeOrders()| ==>
      RecipeOrders()[k].totalPrice == ShoppingSum(RecipeOrders()[k].items)
  {
  }

  /**
   * An observation about the fixed bundles, not a derived property: the suggestions ignore
   * the budget, so at the default budget of 1500 one order costs more.
   */
  lemma SuggestionOverDefaultBudget()
    ensures exists k :: 0 <= k < |RestaurantOrders()| && RestaurantOrders()[k].totalPrice > 1500
  {
    assert RestaurantOrders()[2].totalPrice > 1500;
  }

  /** The four switches that show or hide an input. */
  datatype Switch = BudgetSwitch | CaloriesSwitch | PreferencesSwitch | PeopleSwitch

  class BudgetView {
    var budget: int
    var calories: int
    var selectedPreferences: seq<string>
    var customPreference: string
    var peopleCount: int
    var selectedType: PlanType
    var searchQuery: string
    var restaurantOrders: seq<RestaurantOrder>
    var recipeOrders: seq<RecipeOrder>
    var showResults: bool
    var budgetEnabled: bool
    var caloriesEnabled: bool
    var preferencesEnabled: bool
    var peopleCountEnabled: bool

    /** The preferences are a set kept as a list, and the type stays at `AllPlans`. */
    ghost predicate Valid()
      reads this
    {
      NoDuplicates(selectedPreferences) && selectedType == AllPlans
    }

    /** The planner opens at 1500 yen, 600 kcal, one person, every input on, no results. */
    constructor (initialSearchQuery: string)
      ensures Valid()
      ensures budget == 1500 && calories == 600 && peopleCount == 1
      ensures selectedPreferences == [] && customPreference == "" && searchQuery == initialSearchQuery
      ensures restaurantOrders == [] && recipeOrders == [] && !showResults
      ensures budgetEnabled && caloriesEnabled && preferencesEnabled && peopleCountEnabled
    {
      budget := 1500;
      calories := 600;
      selectedPreferences := [];
      customPreference := "";
      peopleCount := 1;
      selectedType := AllPlans;
      searchQuery := initialSearchQuery;
      restaurantOrders := [];
      recipeOrders := [];
      showResults := false;
      budgetEnabled := true;
      caloriesEnabled := true;
      preferencesEnabled := true;
      peopleCountEnabled := true;
    }

    /**
     * `handleSearch`: show the results and fill the lists the type selects; with the type
     * always `AllPlans`, both.
     */
    method HandleSearch()
      requires Valid()
      modifies this`showResults, this`restaurantOrders, this`recipeOrders
      ensures Valid() && showResults
      ensures restaurantOrders == RestaurantOrders() && recipeOrders == RecipeOrders()
      ensures ShowsRestaurantOrders() && ShowsRecipeOrders()
    {
      showResults := true;
      if selectedType == RestaurantPlans || selectedType == AllPlans {
        var orders := RestaurantOrders();
        assert |orders| == 3;
        restaurantOrders := orders;
      }
      if selectedType == RecipePlans || selectedType == AllPlans {
        var orders := RecipeOrders();
        assert |orders| == 3;
        recipeOrders := orders;
      }
    }

    /** The restaurant section is shown after a search that selected it and filled it. */
    predicate ShowsRestaurantOrders()
      reads this
    {
      showResults && (selectedType == RestaurantPlans || selectedType == AllPlans) && |restaurantOrders| > 0
    }

    predicate ShowsRecipeOrders()
      reads this
    {
      showResults && (selectedType == RecipePlans || selectedType == AllPlans) && |recipeOrders| > 0
    }

    /** Enter in the query box searches; any other key does nothing. */
    method QueryKeyDown(isEnter: bool)
      requires Valid()
      modifies this`showResults, this`restaurantOrders, this`recipeOrders
      ensures Valid()
      ensures isEnter ==> showResults && restaurantOrders == RestaurantOrders() && recipeOrders == RecipeOrders()
      ensures !isEnter ==> showResults == old(showResults) && restaurantOrders == old(restaurantOrders) &&
                           recipeOrders == old(recipeOrders)
    {
      if isEnter {
        HandleSearch();
      }
    }

    /**
     * `handleSearchQueryChange`: keep the query, and hand it to the parent when the parent
     * listens; the value it hands on is returned.
     */
    method SearchQueryChange(value: string, parentListens: bool) returns (passedOn: Option<string>)
      requires Valid()
      modifies this`searchQuery
      ensures Valid() && searchQuery == value
      ensures passedOn == if parentListens then Some(value) else None
    {
      searchQuery := value;
      passedOn := if parentListens then Some(value) else None;
    }

    /**
     * The effect on a new initial query: a non-empty one becomes the query and starts a
     * search (after a short delay, which cannot change the outcome, since the search reads
     * only the type).
     */
    method InitialQueryChanged(q: string)
      requires Valid()
      modifies this`searchQuery, this`showResults, this`restaurantOrders, this`recipeOrders
      ensures Valid()
      ensures |q| > 0 ==> searchQuery == q && showResults &&
                          restaurantOrders == RestaurantOrders() && recipeOrders == RecipeOrders()
      ensures |q| == 0 ==> searchQuery == old(searchQuery) && showResults == old(showResults) &&
                           restaurantOrders == old(restaurantOrders) && recipeOrders == old(recipeOrders)
    {
      if |q| > 0 {
        searchQuery := q;
        HandleSearch();
      }
    }

    /** `togglePreference`: a selected preference is removed, another one appended. */
    method TogglePreference(pref: string)
      requires Valid()
      modifies this`selectedPreferences
      ensures Valid() && selectedPreferences == Toggle(old(selectedPreferences), pref)
      ensures pref in selectedPreferences <==> pref !in old(selectedPreferences)
    {
      ToggleNoDuplicates(selectedPreferences, pref);
      selectedPreferences := Toggle(selectedPreferences, pref);
    }

    /** Flip one ON/OFF switch; the others keep their state. */
    method FlipSwitch(s: Switch)
      requires Valid()
      modifies this`budgetEnabled, this`caloriesEnabled, this`preferencesEnabled, this`peopleCountEnabled
      ensures Valid()
      ensures budgetEnabled == (old(budgetEnabled) != (s == BudgetSwitch))
      ensures caloriesEnabled == (old(caloriesEnabled) != (s == CaloriesSwitch))
      ensures preferencesEnabled == (old(preferencesEnabled) != (s == PreferencesSwitch))
      ensures peopleCountEnabled == (old(peopleCountEnabled) != (s == PeopleSwitch))
    {
      match s
      case BudgetSwitch => budgetEnabled := !budgetEnabled;
      case CaloriesSwitch => caloriesEnabled := !caloriesEnabled;
      case PreferencesSwitch => preferencesEnabled := !preferencesEnabled;
      case PeopleSwitch => peopleCountEnabled := !peopleCountEnabled;
    }

    /** The budget box: `parseInt(text) || 0`. */
    method TypeBudget(text: string)
      requires Valid()
      modifies this`budget
      ensures Valid() && budget == NumberOr(text, 0)
    {
      budget := NumberOr(text, 0);
    }

    method TypeCalories(text: string)
      requires Valid()
      modifies this`calories
      ensures Valid() && calories == NumberOr(text, 0)
    {
      calories := NumberOr(text, 0);
    }

    /** The people box: `parseInt(text) || 1`, so the count is never zero. */
    method TypePeople(text: string)
      requires Valid()
      modifies this`peopleCount
      ensures Valid() && peopleCount == NumberOr(text, 1) && peopleCount != 0
    {
      peopleCount := NumberOr(text, 1);
    }
  }
}
