/**
 * The create-post form: its tag list, the editable ingredient and step rows of a recipe,
 * and the payload it hands to its parent on submit.
 */
module CreatePost {
  import opened Optional
  import opened Lists
  import opened Text

  /** The three kinds of post the form creates (a purchase is not a feed post type). */
  datatype DraftType = RecipeDraft | RestaurantDraft | PurchaseDraft

  datatype Ingredient = Ingredient(name: string, amount: string)
  datatype Step = Step(description: string)
  datatype IngredientField = NameField | AmountField

  /** The part of the payload that depends on the post type. */
  datatype Details =
    | RecipeDetails(servings: int, calories: int, cookingTips: string,
                    ingredients: seq<Ingredient>, steps: seq<Step>)
    | RestaurantDetails(storeName: string, storeAddress: string, location: string,
                        genre: string, goodPoints: string, badPoints: string)
    | PurchaseDetails(productName: string, purchaseLocation: string, brand: string)

  datatype Payload = Payload(
    draftType: DraftType, title: string, description: string,
    budget: int, timeMinutes: int, tags: seq<string>,
    texture: string, temperature: string, details: Details)

  /** What `handleSubmit` does, in order: hand the payload to the parent, then close. */
  datatype Effect = Submitted(payload: Payload) | Closed

  /** `ing.name && ing.amount`: both cells filled in. */
  predicate Complete(ing: Ingredient)
  {
    |ing.name| > 0 && |ing.amount| > 0
  }

  predicate Written(step: Step)
  {
    |step.description| > 0
  }

  /** Every tag is non-empty and already trimmed, and no tag appears twice. */
  ghost predicate GoodTags(tags: seq<string>)
  {
    NoDuplicates(tags) && forall t :: t in tags ==> |t| > 0 && Trim(t) == t
  }

  /**
   * `handleAddTag` on tags and input: the trimmed input is appended when it is non-empty
   * and new, and the input is cleared; otherwise nothing changes.
   */
  function AddTag(tags: seq<string>, input: string): (r: (seq<string>, string))
    ensures var t := Trim(input);
            if |t| > 0 && t !in tags then r == (tags + [t], "") else r == (tags, input)
  {
    var t := Trim(input);
    if |t| > 0 && t !in tags then (tags + [t], "") else (tags, input)
  }

  /** Adding a tag keeps the tag list good. */
  lemma AddTagKeepsGood(tags: seq<string>, input: string)
    requires GoodTags(tags)
    ensures GoodTags(AddTag(tags, input).0)
  {
    var t := Trim(input);
    if |t| > 0 && t !in tags {
      AppendNoDuplicates(tags, t);
      TrimIdempotent(input);
    }
  }

  /** Removing a tag that was just added gives back the earlier list. */
  lemma RemoveUndoesAdd(tags: seq<string>, input: string)
    requires |Trim(input)| > 0 && Trim(input) !in tags
    ensures RemoveAll(AddTag(tags, input).0, Trim(input)) == tags
  {
    RemoveAllAppended(tags, Trim(input));
  }

  /** Adding the same input twice adds it once. */
  lemma AddTagTwice(tags: seq<string>, input: string)
    ensures var (once, _) := AddTag(tags, input); AddTag(once, input).0 == once
  {
    var once := AddTag(tags, input).0;
    if |Trim(input)| > 0 && Trim(input) !in tags {
      assert Trim(input) in once;
    }
  }

  /** Row `index` with one of its two cells replaced. */
  function SetIngredientField(ing: Ingredient, field: IngredientField, value: string): (r: Ingredient)
    ensures field == NameField ==> r.name == value && r.amount == ing.amount
    ensures field == AmountField ==> r.amount == value && r.name == ing.name
  {
    match field
    case NameField => ing.(name := value)
    case AmountField => ing.(amount := value)
  }

  class CreatePostView {
    var postType: DraftType
    var title: string
    var description: string
    var budget: string
    var timeMinutes: string
    var location: string
    var tags: seq<string>
    var tagInput: string
    var texture: string
    var temperature: string
    var servings: string
    var calories: string
    var cookingTips: string
    var ingredients: seq<Ingredient>
    var steps: seq<Step>
    var storeName: string
    var storeAddress: string
    var genre: string
    var goodPoints: string
    var badPoints: string
    var productName: string
    var purchaseLocation: string
    var brand: string

    ghost predicate Valid()
      reads this
    {
      GoodTags(tags)
    }

    /** A blank recipe form for two servings, with one empty ingredient row and one empty step. */
    constructor ()
      ensures Valid()
      ensures postType == RecipeDraft && servings == "2" && tags == [] && tagInput == ""
      ensures ingredients == [Ingredient("", "")] && steps == [Step("")]
      ensures title == description == budget == timeMinutes == location == ""
      ensures texture == temperature == calories == cookingTips == ""
      ensures storeName == storeAddress == genre == goodPoints == badPoints == ""
      ensures productName == purchaseLocation == brand == ""
    {
      postType := RecipeDraft;
      title := "";
      description := "";
      budget := "";
      timeMinutes := "";
      location := "";
      tags := [];
      tagInput := "";
      texture := "";
      temperature := "";
      servings := "2";
      calories := "";
      cookingTips := "";
      ingredients := [Ingredient("", "")];
      steps := [Step("")];
      storeName := "";
      storeAddress := "";
      genre := "";
      goodPoints := "";
      badPoints := "";
      productName := "";
      purchaseLocation := "";
      brand := "";
    }

    method AddIngredient()
      modifies this`ingredients
      ensures ingredients == old(ingredients) + [Ingredient("", "")]
    {
      ingredients := ingredients + [Ingredient("", "")];
    }

    /**
     * `handleRemoveIngredient`: drop the row at `index` (an index past the end drops none).
     * The remove button exists only while there are two or more rows, so a row always remains.
     */
    method RemoveIngredient(index: int)
      modifies this`ingredients
      ensures ingredients == RemoveAt(old(ingredients), index)
      ensures |old(ingredients)| > 1 ==> |ingredients| >= 1
    {
      ingredients := RemoveAt(ingredients, index);
    }

    /** `handleIngredientChange`: only the chosen cell of the chosen row changes. */
    method ChangeIngredient(index: int, field: IngredientField, value: string)
      requires 0 <= index < |ingredients|
      modifies this`ingredients
      ensures |ingredients| == |old(ingredients)|
      ensures ingredients[index] == SetIngredientField(old(ingredients)[index], field, value)
      ensures forall i :: 0 <= i < |ingredients| && i != index ==> ingredients[i] == old(ingredients)[i]
    {
      ingredients := ingredients[index := SetIngredientField(ingredients[index], field, value)];
    }

    method AddStep()
      modifies this`steps
      ensures steps == old(steps) + [Step("")]
    {
      steps := steps + [Step("")];
    }

    method RemoveStep(index: int)
      modifies this`steps
      ensures steps == RemoveAt(old(steps), index)
      ensures |old(steps)| > 1 ==> |steps| >= 1
    {
      steps := RemoveAt(steps, index);
    }

    method ChangeStep(index: int, value: string)
      requires 0 <= index < |steps|
      modifies this`steps
      ensures |steps| == |old(steps)| && steps[index] == Step(value)
      ensures forall i :: 0 <= i < |steps| && i != index ==> steps[i] == old(steps)[i]
    {
      steps := steps[index := Step(value)];
    }

    /** `handleAddTag`, from the add button or Enter in the tag input. */
    method HandleAddTag()
      requires Valid()
      modifies this`tags, this`tagInput
      ensures Valid()
      ensures (tags, tagInput) == AddTag(old(tags), old(tagInput))
    {
      AddTagKeepsGood(tags, tagInput);
      var t := Trim(tagInput);
      if |t| > 0 && t !in tags {
        tags := tags + [t];
        tagInput := "";
      }
    }

    /** `handleRemoveTag`: the tag is gone and the others stay in order. */
    method HandleRemoveTag(tag: string)
      requires Valid()
      modifies this`tags
      ensures Valid()
      ensures tags == RemoveAll(old(tags), tag) && tag !in tags
    {
      RemoveAllNoDuplicates(tags, tag);
      tags := RemoveAll(tags, tag);
    }

    /**
     * The payload `handleSubmit` builds: the common fields with numbers parsed (0 when
     * blank), and the fields of the chosen type. A recipe's servings fall back to 2 and
     * its calories to 0, and it keeps exactly the complete ingredient rows and written
     * steps, in order, so it never has zero servings.
     */
    function SubmitPayload(): (r: Payload)
      reads this
      ensures r.draftType == postType && r.title == title && r.description == description
      ensures r.tags == tags && r.texture == texture && r.temperature == temperature
      ensures r.budget == NumberOr(budget, 0) && r.timeMinutes == NumberOr(timeMinutes, 0)
      ensures r.details.RecipeDetails? <==> postType == RecipeDraft
      ensures r.details.RestaurantDetails? <==> postType == RestaurantDraft
      ensures r.details.PurchaseDetails? <==> postType == PurchaseDraft
      ensures r.details.RecipeDetails? ==>
                r.details.servings == NumberOr(servings, 2) && r.details.servings != 0 &&
                r.details.calories == NumberOr(calories, 0) &&
                r.details.cookingTips == cookingTips &&
                r.details.ingredients == Filter(ingredients, Complete) &&
                r.details.steps == Filter(steps, Written) &&
                IsSubsequence(r.details.ingredients, ingredients) &&
                (forall ing :: ing in r.details.ingredients <==> ing in ingredients && Complete(ing)) &&
                IsSubsequence(r.details.steps, steps) &&
                (forall st :: st in r.details.steps <==> st in steps && Written(st))
      ensures r.details.RestaurantDetails? ==>
                r.details == RestaurantDetails(storeName, storeAddress, location, genre, goodPoints, badPoints)
      ensures r.details.PurchaseDetails? ==> r.details == PurchaseDetails(productName, purchaseLocation, brand)
    {
      var details :=
        match postType
        case RecipeDraft =>
          RecipeDetails(NumberOr(servings, 2), NumberOr(calories, 0), cookingTips,
                        Filter(ingredients, Complete), Filter(steps, Written))
        case RestaurantDraft =>
          RestaurantDetails(storeName, storeAddress, location, genre, goodPoints, badPoints)
        case PurchaseDraft =>
          PurchaseDetails(productName, purchaseLocation, brand);
      Payload(postType, title, description, NumberOr(budget, 0), NumberOr(timeMinutes, 0),
              tags, texture, temperature, details)
    }

    /** `handleSubmit`: the form's state is left as it was; the parent gets the payload and then closes the form. */
    method Submit() returns (effects: seq<Effect>)
      ensures effects == [Submitted(SubmitPayload()), Closed]
    {
      effects := [Submitted(SubmitPayload()), Closed];
    }
  }
}
