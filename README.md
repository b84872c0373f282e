# Food front end: a Dafny model of its state logic

The application is a React front end for sharing food posts: recipes, restaurant visits,
food walks and sightseeing. Most of it is layout. The parts modelled here are the
sequential, state-updating logic and the display arithmetic behind the layout:

- the post search filter and its facet toggles;
- the saved-posts list and the screen-precedence rules of the application shell;
- the list editing and submit normalisation of the create-post form;
- the good/bad feedback toggles and star distribution of the ratings list;
- the half-star rating input and its submit gate;
- the like toggle of the feed;
- the expert level and post grid of the profile;
- the star counts, type badge and save label of a post card;
- the restaurant/dish title split and the genre and type labels;
- the budget planner's search branching, bundle totals and number inputs.

Modules follow the source files: `Search` (SearchView), `Shell` (App), `CreatePost`,
`RatingList`, `RatingInput`, `Feed`, `Profile`, `Card` (PostCard), `RestaurantDetail`,
`Saved` and `Budget`. `Types` holds the record and enum declarations. `Optional`, `Lists` and
`Text` hold the JavaScript idioms the components share:

- `x || d` on a parsed number;
- `filter`, "remove if present, else append", and removal at an index;
- ASCII `toLowerCase`, `includes`, `trim`, `split(' - ')` and `parseInt`.

A component's state becomes the fields of a class. Each handler becomes a method whose
`ensures` gives the new state in terms of the old one. The update each handler performs is a
function, and the lemmas about that function state the promised properties. Representation
choices:

- Ratings on posts and ratings lists are integer hundredths, so 4.50 is `450`.
- The rating input counts half stars, so 3.5 is `7`.
- Strings are sequences of characters.
- An absent optional field is `None`.
- `parseInt(x) || d` is `Text.NumberOr(x, d)`. This is a concrete model of JavaScript `parseInt`: leading white space, a sign, a `0x` prefix, then the longest run of digits.

## Model

| member | source | states |
|---|---|---|
| Optional.OrDefault | src/components/CreatePostView.tsx:109-110 | `n || d` on a parsed number: a non-zero number is kept; a missing number or 0 gives `d`; the result is 0 only when `d` is |
| Lists.Filter | src/components/SearchView.tsx:178-243 | `filter` keeps exactly the elements satisfying the predicate, each as often as it occurs, in order (a subsequence), and drops every other element |
| Lists.FilterNarrow | src/components/SearchView.tsx:178-243 | filtering by `p` and then by `q` equals filtering once by `p && q` |
| Lists.NarrowStage | src/components/SearchView.tsx:180-243 | a stage that filters only when its criterion is active equals one filter by the conjunction of the criteria so far |
| Lists.FilterNoDuplicates | src/components/CreatePostView.tsx:101-103 | filtering a duplicate-free list leaves it duplicate-free |
| Lists.Toggle | src/components/SearchView.tsx:114-175 | the facet toggle: a present value is removed everywhere (a subsequence without it, every other value kept as often as it occurred), an absent value is appended at the end; other values keep their membership |
| Lists.ToggleNoDuplicates | src/components/BudgetView.tsx:71-75 | a toggle keeps a duplicate-free list duplicate-free |
| Lists.ToggleTwiceAbsent | src/components/SearchView.tsx:114-175 | toggling an absent value twice restores the list |
| Lists.ToggleTwicePresent | src/components/SearchView.tsx:114-175 | toggling a present value twice keeps the members but moves the value to the end |
| Lists.ToggleTwiceMovesToEnd | src/components/SearchView.tsx:114-121 | toggling 1 twice in `[1, 2]` gives `[2, 1]`, so a double toggle is not the identity on a list holding the value |
| Lists.RemoveAll | src/components/CreatePostView.tsx:101-103 | removing every occurrence of `v` leaves no `v` and keeps every other element as often as it occurred, in order |
| Lists.RemoveAllAppended | src/components/CreatePostView.tsx:94-103 | removing a value just appended, that was absent before, restores the list |
| Lists.RemoveAt | src/components/CreatePostView.tsx:70-72 | `filter((_, i) => i !== index)`: one element shorter, the others in order when the index is in range; unchanged otherwise |
| Text.LowerChar | src/components/SearchView.tsx:237-242 | `toLowerCase` on one character: upper-case ASCII moves down by 32, everything else is kept |
| Text.Lower | src/components/SearchView.tsx:237-242 | lower-casing keeps the length and lower-cases each character |
| Text.LowerIdempotent | src/components/SearchView.tsx:237-242 | lower-casing twice equals lower-casing once |
| Text.IndexFrom | src/components/RestaurantDetailPage.tsx:40-41 | the search finds the first occurrence at or after `from`, or reports that none exists |
| Text.IndexOf | src/components/RestaurantDetailPage.tsx:40-41 | the first occurrence of `sub`, or none exactly when `sub` occurs nowhere |
| Text.IncludesIff | src/components/SearchView.tsx:237-242 | `includes` holds exactly when the substring occurs at some position |
| Text.IncludesLower | src/components/SearchView.tsx:237-242 | a literal occurrence survives lower-casing both sides |
| Text.TrimStart | src/components/CreatePostView.tsx:95-96 | drops exactly the leading JavaScript white space |
| Text.TrimEnd | src/components/CreatePostView.tsx:95-96 | drops exactly the trailing JavaScript white space |
| Text.Trim | src/components/CreatePostView.tsx:95-96 | `trim` gives the slice between the leading and trailing white space, with no white space at either end |
| Text.TrimIdempotent | src/components/CreatePostView.tsx:95-96 | trimming an already trimmed string changes nothing |
| Text.Split | src/components/RestaurantDetailPage.tsx:40-41 | `split(' - ')` always yields at least one segment |
| Text.JoinSplit | src/components/RestaurantDetailPage.tsx:40-41 | joining the segments with `' - '` gives back the title |
| Text.SplitSegmentsFree | src/components/RestaurantDetailPage.tsx:40-41 | no segment contains the separator |
| Text.PrefixBeforeFirstIsFree | src/components/RestaurantDetailPage.tsx:40 | the text before the first occurrence does not contain it |
| Text.DigitValue | src/components/CreatePostView.tsx:109 | a digit's value is below the radix |
| Text.DigitRun | src/components/CreatePostView.tsx:109 | the run read is the longest prefix of digits |
| Text.Decimal | src/components/CreatePostView.tsx:109 | decimal digits without a leading zero |
| Text.DecimalValue | src/components/CreatePostView.tsx:109 | the decimal digits of `n` have value `n` |
| Text.DigitRunAll | src/components/CreatePostView.tsx:109 | a string of digits is read to its end |
| Text.ReadsDecimal | src/components/CreatePostView.tsx:109 | the decimal text of `n` has no radix prefix and reads as `n` |
| Text.ParseInt | src/components/CreatePostView.tsx:109 | blank text, and text opening with neither a sign nor a digit, is NaN; only a leading `-` gives a negative number |
| Text.ParseIntRoundTrip | src/components/CreatePostView.tsx:109 | `parseInt` reads back every integer's decimal text |
| Text.ParseIntNaN | src/components/CreatePostView.tsx:109 | `""`, `"-"` and `"abc"` are not numbers |
| Text.ParseIntReadsPrefix | src/components/CreatePostView.tsx:109 | `parseInt` stops at the first non-digit: `"12px"` reads 12 |
| Text.ParseIntHex | src/components/CreatePostView.tsx:109 | a `0x` prefix reads hexadecimal: `"0x1f"` is 31 |
| Text.NumberOr | src/components/CreatePostView.tsx:109-110 | `parseInt(x) || d` is zero only when `d` is |
| Text.NumberOrReadsTyped | src/components/CreatePostView.tsx:109-110 | a typed non-zero number is taken as typed |
| Text.NumberOrFallsBack | src/components/CreatePostView.tsx:109-110 | an empty or non-numeric input gives the fallback |
| Types.GenreIsUnion | src/types/index.ts:5-15 | every genre is a restaurant or a recipe genre, and only `chinese` is both |
| Types.GenreNameInjective | src/types/index.ts:5-15 | distinct genres have distinct names |
| Search.SearchResult | src/components/SearchView.tsx:177-246 | the result is an order-preserving subsequence of the mock posts, and a mock post is in it, as often as in the mock posts, exactly when it passes every active criterion |
| Search.ResultHasSelectedType | src/components/SearchView.tsx:180-182 | with a type selected, every result has that type |
| Search.ResultSharesFacets | src/components/SearchView.tsx:185-226 | for each non-empty facet list, a kept post has that facet and it shares a value with the list |
| Search.ResultCeilings | src/components/SearchView.tsx:229-234 | the time ceiling holds for results when the type is recipe; the budget ceiling always holds |
| Search.TimeIgnoredOutsideRecipes | src/components/SearchView.tsx:229-231 | outside the recipe type, the time ceiling can be anything without changing the decision |
| Search.ResultMatchesQuery | src/components/SearchView.tsx:236-243 | with a non-empty query, a result's lower-cased title, description or some tag contains the lower-cased query |
| Search.LiteralTagMatches | src/components/SearchView.tsx:236-243 | a tag literally containing the query is enough to keep the post past the query test |
| Search.LocationIgnored | src/components/SearchView.tsx:177-246 | the location filter never changes the result |
| Search.SameCriteria | src/components/SearchView.tsx:177-246 | two filters that differ only in location decide every post alike |
| Search.InitialFilters | src/components/SearchView.tsx:82-95 | the initial filter: all types, no facets, 120 minutes, 10000 yen, no query, no location |
| Search.InitialKeepsAffordable | src/components/SearchView.tsx:82-95 | under the initial filter, a post is kept exactly when its budget is at most 10000 |
| Search.ClickLocation | src/components/SearchView.tsx:782 | clicking the selected location clears it; clicking another selects it |
| Search.StageNone | src/components/SearchView.tsx:178 | before any stage, the working list is the mock list |
| Search.StageStep | src/components/SearchView.tsx:180-243 | each stage filters the previous list by its criterion only when the criterion is active |
| Search.StageAll | src/components/SearchView.tsx:178-245 | after all eleven stages, the working list is the search result |
| Search.NarrowIf | src/components/SearchView.tsx:180-243 | one `if (...) filtered = filtered.filter(...)` step moves the working list to the next stage |
| Search.SearchView.constructor | src/components/SearchView.tsx:80-96 | starts with the initial filter, the mock posts shown, no panel and no selection |
| Search.SearchView.ReceiveFetched | src/components/SearchView.tsx:98-108 | a non-empty fetched list replaces the shown posts; an empty one changes nothing |
| Search.SearchView.SelectType | src/components/SearchView.tsx:289-329 | sets the type and nothing else in the filter |
| Search.SearchView.ToggleSituation | src/components/SearchView.tsx:114-121 | toggles the value in the situation facet and leaves the other filter fields unchanged |
| Search.SearchView.ToggleGenre | src/components/SearchView.tsx:123-130 | toggles the value in the genre facet only |
| Search.SearchView.TogglePriority | src/components/SearchView.tsx:132-139 | toggles the value in the priority facet only |
| Search.SearchView.ToggleShopPreference | src/components/SearchView.tsx:141-148 | toggles the value in the shop-preference facet only |
| Search.SearchView.ToggleCategory | src/components/SearchView.tsx:150-157 | toggles the value in the category facet only |
| Search.SearchView.ToggleRecipeGenre | src/components/SearchView.tsx:159-166 | toggles the value in the recipe-genre facet only |
| Search.SearchView.ToggleRecipePreference | src/components/SearchView.tsx:168-175 | toggles the value in the recipe-preference facet only |
| Search.SearchView.SetMaxTime | src/components/SearchView.tsx:416 | sets the time ceiling only |
| Search.SearchView.SetMaxBudget | src/components/SearchView.tsx:769 | sets the budget ceiling only |
| Search.SearchView.SetSearchQuery | src/components/SearchView.tsx:260 | sets the query only |
| Search.SearchView.ClickLocationButton | src/components/SearchView.tsx:782 | the location becomes the click result and nothing else changes |
| Search.SearchView.ToggleFilterPanel | src/components/SearchView.tsx:271 | the filter panel flips |
| Search.SearchView.SelectPost | src/components/SearchView.tsx:110-112 | the clicked post becomes the selection |
| Search.SearchView.CloseDetail | src/components/SearchView.tsx:836 | the selection is cleared |
| Search.SearchView.ApplyFilters | src/components/SearchView.tsx:177-246 | the successive narrowing of the mock list leaves exactly the search result shown |
| Shell.ToggleSaved | src/App.tsx:45-54 | a saved id is removed (every entry with it; every other entry kept, as often as it occurred, in order); an unsaved post is appended once at the end |
| Shell.ToggleFlipsSaved | src/App.tsx:45-58 | a toggle flips `isPostSaved` for that id and leaves every other id's answer unchanged |
| Shell.FilterUniqueIds | src/App.tsx:48 | filtering keeps ids unique |
| Shell.ToggleKeepsUniqueIds | src/App.tsx:45-54 | toggling keeps the saved ids unique |
| Shell.ToggleTwiceUnsaved | src/App.tsx:45-54 | toggling an unsaved post twice restores the list |
| Shell.ToggleTwiceSaved | src/App.tsx:45-54 | toggling a saved post twice keeps it saved but moves it to the end |
| Shell.App.constructor | src/App.tsx:13-18 | opens on the planner tab with nothing saved, selected or open |
| Shell.App.CurrentScreen | src/App.tsx:90-123 | the create-post form wins, then the restaurant detail, then the recipe detail, then the active tab; a detail screen shows whether its post is saved |
| Shell.App.SelectTab | src/App.tsx:164-191 | sets the active tab |
| Shell.App.EditToPlan | src/App.tsx:20-23 | sets the planner query to the title and switches to the planner tab |
| Shell.App.RestaurantClick | src/App.tsx:25-29 | only a restaurant post becomes the selected restaurant; other posts change nothing |
| Shell.App.CloseRestaurant | src/App.tsx:31-33 | clears the selected restaurant |
| Shell.App.RecipeClick | src/App.tsx:35-39 | only a recipe post becomes the selected recipe; other posts change nothing |
| Shell.App.CloseRecipe | src/App.tsx:41-43 | clears the selected recipe |
| Shell.App.ToggleSave | src/App.tsx:45-54 | the saved list becomes its toggle, its ids stay unique, and the post's saved state flips |
| Shell.App.SavedImageClick | src/App.tsx:150-153 | an image click in the saved tab opens a recipe or a restaurant by type; food walk and sightseeing posts open nothing |
| Shell.App.SavedTitleClick | src/App.tsx:150-153 | a title click in the saved tab opens only restaurants |
| Shell.App.OpenCreatePost | src/App.tsx:60-62 | opens the create-post form, which then is the screen |
| Shell.App.CloseCreatePost | src/App.tsx:64-66 | closes the create-post form |
| CreatePost.AddTag | src/components/CreatePostView.tsx:94-99 | a trimmed, non-empty, new tag is appended and the input cleared; otherwise tags and input are unchanged |
| CreatePost.AddTagKeepsGood | src/components/CreatePostView.tsx:94-99 | tags stay duplicate-free, non-empty and trimmed |
| CreatePost.RemoveUndoesAdd | src/components/CreatePostView.tsx:94-103 | removing a tag just added restores the tag list |
| CreatePost.AddTagTwice | src/components/CreatePostView.tsx:94-99 | adding the same input again changes nothing |
| CreatePost.SetIngredientField | src/components/CreatePostView.tsx:74-78 | setting one field of an ingredient keeps the other |
| CreatePost.CreatePostView.constructor | src/components/CreatePostView.tsx:21-55 | starts as a recipe draft with two servings, one blank ingredient, one blank step and empty fields |
| CreatePost.CreatePostView.AddIngredient | src/components/CreatePostView.tsx:66-68 | appends one blank ingredient |
| CreatePost.CreatePostView.RemoveIngredient | src/components/CreatePostView.tsx:70-72 | deletes exactly the entry at the index, keeping the order of the others |
| CreatePost.CreatePostView.ChangeIngredient | src/components/CreatePostView.tsx:74-78 | only the named field of the entry at the index changes |
| CreatePost.CreatePostView.AddStep | src/components/CreatePostView.tsx:80-82 | appends one blank step |
| CreatePost.CreatePostView.RemoveStep | src/components/CreatePostView.tsx:84-86 | deletes exactly the step at the index |
| CreatePost.CreatePostView.ChangeStep | src/components/CreatePostView.tsx:88-92 | only the step at the index changes |
| CreatePost.CreatePostView.HandleAddTag | src/components/CreatePostView.tsx:94-99 | tags and input become the result of adding the input, and tags stay duplicate-free and trimmed |
| CreatePost.CreatePostView.HandleRemoveTag | src/components/CreatePostView.tsx:101-103 | every occurrence of the tag is removed, the rest kept in order |
| CreatePost.CreatePostView.SubmitPayload | src/components/CreatePostView.tsx:105-141 | the payload carries the common fields with `parseInt` fallbacks to 0, and the detail kind matches the post type; a recipe has servings `parseInt` or 2 (so never 0), calories `parseInt` or 0, the tips as typed, and exactly the complete ingredients and written steps, in order; a restaurant carries store name, address, location, genres and good and bad points as entered; a purchase carries product, place and brand |
| CreatePost.CreatePostView.Submit | src/components/CreatePostView.tsx:105-149 | submit always sends the payload and then closes the form, without any required-field check |
| RatingList.GoodClick | src/components/RatingListModal.tsx:91-100 | a good click negates `good` (absent is false), forces `bad` false and leaves every other entry unchanged |
| RatingList.BadClick | src/components/RatingListModal.tsx:102-111 | a bad click negates `bad`, forces `good` false and leaves every other entry unchanged |
| RatingList.ClicksKeepExclusive | src/components/RatingListModal.tsx:91-111 | no entry ever has both flags set |
| RatingList.GoodClickTwice | src/components/RatingListModal.tsx:91-100 | two good clicks restore `good` and leave `bad` false |
| RatingList.BadClickTwice | src/components/RatingListModal.tsx:102-111 | two bad clicks restore `bad` and leave `good` false |
| RatingList.GoodOverridesBad | src/components/RatingListModal.tsx:91-100 | a good click on a disliked rating clears the dislike and sets the like |
| RatingList.GoodClickCounts | src/components/RatingListModal.tsx:201 | after a good click the shown good count is the base count plus one exactly when the like is now on, and the bad count is the base count |
| RatingList.BadClickCounts | src/components/RatingListModal.tsx:214 | after a bad click the shown bad count is the base plus one exactly when the dislike is on, and the good count is the base |
| RatingList.TopTestRedundant | src/components/RatingListModal.tsx:61-62 | the extra test for 5.00 adds nothing: bucket 5 holds exactly the ratings from 5.00 up to 5.99 |
| RatingList.BucketCount | src/components/RatingListModal.tsx:61-62 | a bucket never counts more ratings than there are |
| RatingList.Distribution | src/components/RatingListModal.tsx:60-65 | five buckets, for stars 5 down to 1, each with its count |
| RatingList.BucketsPartition | src/components/RatingListModal.tsx:61-62 | the five bucket counts add up to the number of ratings from 1.00 to 5.99 |
| RatingList.DistributionTotal | src/components/RatingListModal.tsx:60-65 | the counts add up to at most the number of ratings, and to exactly that when every rating is in 1.00..5.99 |
| RatingList.HalfStarUnbucketed | src/components/RatingListModal.tsx:61-62 | a rating of 0.50 falls in no bucket |
| RatingList.RatingListModal.constructor | src/components/RatingListModal.tsx:87-89 | starts with no feedback and no selected rating |
| RatingList.RatingListModal.HandleGoodClick | src/components/RatingListModal.tsx:91-100 | applies a good click and keeps the flags exclusive |
| RatingList.RatingListModal.HandleBadClick | src/components/RatingListModal.tsx:102-111 | applies a bad click and keeps the flags exclusive |
| RatingList.RatingListModal.SelectRating | src/components/RatingListModal.tsx:113-115 | the clicked rating becomes the selection |
| RatingList.RatingListModal.CloseDetail | src/components/RatingListModal.tsx:237 | the selection is cleared |
| RatingInput.HalfValue | src/components/RatingInputModal.tsx:52-54 | star `i`'s left half is worth `i - 0.5`, its right half `i`, both within 0.5..5.0 |
| RatingInput.ShownValue | src/components/RatingInputModal.tsx:77-81 | the hover value when non-zero, else the rating |
| RatingInput.FillsShape | src/components/RatingInputModal.tsx:77-81 | star `i` is full when the value reaches `i`, half when it reaches `i - 0.5`, otherwise empty |
| RatingInput.AtMostOneHalf | src/components/RatingInputModal.tsx:77-81 | at most one star is drawn half filled |
| RatingInput.RatingInputModal.constructor | src/components/RatingInputModal.tsx:11-22 | starts with no rating, no hover and empty fields |
| RatingInput.RatingInputModal.StarClick | src/components/RatingInputModal.tsx:52-72 | a click sets a half-step rating and enables submit |
| RatingInput.RatingInputModal.HoverEnter | src/components/RatingInputModal.tsx:62-70 | entering a half sets the hover value to that half's value |
| RatingInput.RatingInputModal.HoverLeave | src/components/RatingInputModal.tsx:63-71 | leaving resets the hover, so the rating is shown |
| RatingInput.RatingInputModal.RenderStars | src/components/RatingInputModal.tsx:50-88 | the loop draws the five stars of the shown value |
| RatingInput.RatingInputModal.Data | src/components/RatingInputModal.tsx:33-43 | the submitted record carries the rating, title, description, texture, temperature and good and bad points as entered, with budget and time as `parseInt` or 0 |
| RatingInput.RatingInputModal.Submit | src/components/RatingInputModal.tsx:31-47 | nothing happens while the rating is 0; otherwise submit then close, once each; nothing happens exactly when the button is disabled |
| Feed.LikePost | src/components/FeedView.tsx:15-22 | the like flag flips (absent is false), the count moves by one in the matching direction, and nothing else changes |
| Feed.LikePostTwice | src/components/FeedView.tsx:14-24 | liking twice restores a post whose flag is present |
| Feed.Like | src/components/FeedView.tsx:14-24 | the posts with the id are liked, the others unchanged, with length and order kept |
| Feed.LikeTwice | src/components/FeedView.tsx:14-24 | liking twice restores every post's like state and count, and the whole list when every flag is present |
| Feed.FeedView.constructor | src/components/FeedView.tsx:12 | starts with the mock posts |
| Feed.FeedView.HandleLike | src/components/FeedView.tsx:14-24 | the posts become their liked version for the id |
| Feed.FeedView.ReceiveFetched | src/components/FeedView.tsx:26-36 | a non-empty fetched list replaces the posts; an empty one changes nothing |
| Profile.TsuuLevel | src/components/ProfileView.tsx:43-45 | the level lies in 1..10, is 1 below 30 posts, rises by one every 10 posts and is 10 from 110 posts |
| Profile.TsuuLevelMonotone | src/components/ProfileView.tsx:45 | the level never falls as posts increase |
| Profile.ShownBadge | src/components/ProfileView.tsx:40-45 | the profile's 24 posts make it expert at level 1; 20 posts give level 1 and 30 give level 2 |
| Profile.FilteredPosts | src/components/ProfileView.tsx:35-37 | all posts for the whole grid, otherwise the order-preserving subsequence of exactly the posts of that type, each as often as it occurs |
| Profile.FirstNine | src/components/ProfileView.tsx:21 | `slice(0, 9)`: the first nine posts, or all of them when there are fewer |
| Profile.ProfileView.constructor | src/components/ProfileView.tsx:18-21 | starts on the whole grid with the first nine mock posts |
| Profile.ProfileView.ReceiveFetched | src/components/ProfileView.tsx:23-34 | a non-empty fetched list replaces the posts by its first nine |
| Profile.ProfileView.SelectFilter | src/components/ProfileView.tsx:18 | sets the grid filter and keeps the nine-post cap |
| Profile.ProfileView.Shown | src/components/ProfileView.tsx:35-37 | the grid shows at most nine posts, a subsequence of the profile's posts |
| Card.StarCounts | src/components/PostCard.tsx:13-16 | star counts exist for ratings 0.00..5.49; they add up to 5, with at most one half star, and full + half/2 is the rating rounded down to a half |
| Card.DocumentedRatingsDraw | src/types/index.ts:26 | every documented rating 0.00..5.00 draws; 5.00 gives five full stars and 0 five empty ones |
| Card.StarsMonotone | src/components/PostCard.tsx:13-16 | a higher rating never draws fewer filled halves |
| Card.TypeBadge | src/components/PostCard.tsx:56-62 | the badge reads recipe exactly for recipe posts |
| Card.OtherTypesBadgedEatingOut | src/components/PostCard.tsx:56-62 | restaurant, food walk and sightseeing posts all read eating out |
| Card.ExpertBadge | src/components/PostCard.tsx:51-55 | the expert badge shows exactly for expert posts, with the level or 1 when the level is missing or 0 |
| Card.ExpertBadgeDocumented | src/types/index.ts:27-28 | for an expert post with a documented level, the badge shows that level, within 1..10 |
| Card.SaveLabel | src/components/PostCard.tsx:185-198 | the save control appears only with a handler, reading 保存中 exactly when saved |
| RestaurantDetail.RestaurantName | src/components/RestaurantDetailPage.tsx:40 | the text before the first `' - '`, or the whole title without one |
| RestaurantDetail.DishName | src/components/RestaurantDetailPage.tsx:41 | empty without a separator; never contains one |
| RestaurantDetail.TitleParts | src/components/RestaurantDetailPage.tsx:40-41 | with a separator, the name ends where it starts and the dish is the next segment |
| RestaurantDetail.OneSeparatorRoundTrip | src/components/RestaurantDetailPage.tsx:40-41 | with exactly one separator, name, separator and dish give back the title |
| RestaurantDetail.SecondSeparatorDropsRest | src/components/RestaurantDetailPage.tsx:41 | `"A - B - C"` shows `"A"` and `"B"`, dropping the last segment |
| RestaurantDetail.ShowsRecommendedDish | src/components/RestaurantDetailPage.tsx:160 | the recommended-dish section appears only for a title with a separator |
| RestaurantDetail.RecommendedDishIff | src/components/RestaurantDetailPage.tsx:41 | the dish section appears exactly when text follows the first separator and does not open with a second one |
| RestaurantDetail.NoDishWithoutSeparator | src/components/RestaurantDetailPage.tsx:160 | a title without a separator shows no recommended dish |
| RestaurantDetail.GenreLabel | src/components/RestaurantDetailPage.tsx:99-102 | the four restaurant genres get their own labels; any other genre is shown by its name |
| RestaurantDetail.GenreLabelInjective | src/components/RestaurantDetailPage.tsx:99-102 | distinct genres get distinct labels |
| RestaurantDetail.DateBadge | src/components/RestaurantDetailPage.tsx:108 | the date badge needs the post to list situations |
| RestaurantDetail.DateSearchShowsBadge | src/components/RestaurantDetailPage.tsx:108 | every post a search for the date situation alone finds opens with the date badge |
| Saved.ImageRoute | src/components/SavedView.tsx:74-80 | an image click goes to the recipe handler exactly for a recipe post when that handler is given |
| Saved.BadgeText | src/components/SavedView.tsx:100-102 | recipe, restaurant, food walk and sightseeing get their four badges |
| Saved.BadgeTextInjective | src/components/SavedView.tsx:100-102 | distinct types get distinct badges |
| Saved.ShownGenres | src/components/SavedView.tsx:129 | at most the first two genres are shown, in order, with their labels |
| Saved.ShowsDishLine | src/components/SavedView.tsx:115 | a row shows the dish line exactly when the detail page of the same post shows its recommended dish, which needs a separator in the title |
| Budget.RestaurantOrders | src/components/BudgetView.tsx:82-123 | three restaurant orders, totalling 1350, 1380 and 1660 |
| Budget.RecipeOrders | src/components/BudgetView.tsx:128-233 | three shopping lists, totalling 580, 610 and 780 |
| Budget.TotalsAreSums | src/components/BudgetView.tsx:88-94 | each stated total equals the sum of its order's dish prices, or of its list's main line prices without the alternatives |
| Budget.SuggestionOverDefaultBudget | src/components/BudgetView.tsx:82-123 | one suggested order costs more than the default budget of 1500 |
| Budget.BudgetView.constructor | src/components/BudgetView.tsx:35-51 | opens at 1500 yen, 600 kcal, one person, all inputs on, the given query and no results |
| Budget.BudgetView.HandleSearch | src/components/BudgetView.tsx:77-235 | shows the results and, since the type stays all, sets both order lists to the fixed bundles, whatever the budget, people or preferences |
| Budget.BudgetView.QueryKeyDown | src/components/BudgetView.tsx:258-262 | Enter searches; other keys change nothing |
| Budget.BudgetView.SearchQueryChange | src/components/BudgetView.tsx:64-69 | keeps the query and hands it on exactly when the parent listens |
| Budget.BudgetView.InitialQueryChanged | src/components/BudgetView.tsx:54-62 | a non-empty initial query becomes the query and searches; an empty one changes nothing |
| Budget.BudgetView.TogglePreference | src/components/BudgetView.tsx:71-75 | the preference is toggled and the selection stays duplicate-free |
| Budget.BudgetView.FlipSwitch | src/components/BudgetView.tsx:281-416 | flips one of the four input switches and no other |
| Budget.BudgetView.TypeBudget | src/components/BudgetView.tsx:296 | the budget is the typed number or 0 |
| Budget.BudgetView.TypeCalories | src/components/BudgetView.tsx:341 | the calorie target is the typed number or 0 |
| Budget.BudgetView.TypePeople | src/components/BudgetView.tsx:431 | the people count is the typed number or 1, so never 0 |

## Left out

- Network access: `src/api/index.ts` and the fetch effects in SearchView, FeedView and ProfileView are not part of this model. Only their outcome is modelled, a possibly empty list handed to `ReceiveFetched`. The mounted flag and the asynchrony are left out.
- `src/data/mockPosts` is not part of this model. The mock posts are a constructor parameter of the views that start from them.
- `src/data/mockBudgetSuggestions.ts` is not part of this model: no modelled component reads it.
- The budget planner's calorie figures (`Math.floor(calories * 0.9)` and the like) are floating-point products. The orders carry no calorie field.
- The planner's 100 ms delay before the initial search is not modelled; `InitialQueryChanged` searches at once. The search reads only the type, which no control changes, so the delay cannot change the orders.
- The planner's preset buttons and free-text preference field are plain field assignments; they are public fields of `BudgetView` rather than methods.
- Images, descriptions and the reasons given for alternatives in the planner's bundles are not modelled: they are display text.
- Plain text inputs of the forms are public fields. Their `onChange` handlers only copy the value.
- The percentage bar of the rating distribution and all number and date formatting (`toFixed`, `toLocaleString`, `toLocaleDateString`) are floating point or locale formatting.
- PostDetailModal.tsx, RatingDetailModal.tsx and RecipeDetailView.tsx are not part of this model. They present fixed sample data, and their star-drawing copies match `Card.StarCounts`. App passes `onClose` where RecipeDetailView reads `onBack`; that mismatch is not modelled.
- `Text.Lower` does ASCII lower-casing only. JavaScript `toLowerCase` folds all of Unicode.
- `Text.ParseInt` reads integers of any size. JavaScript loses precision beyond 2^53 and does not accept every radix prefix the same way.
- `Shell.App` drops the payload of a submitted post. `handleSubmitPost` sends it to the server and logs it.
- Alerts, console output, `stopPropagation`, layout and styling are left out.
- Post fields `createdAt` and `reportDetails` are not modelled: no modelled logic reads them.
- `CreatePost.CreatePostView.ChangeIngredient` and `CreatePost.CreatePostView.ChangeStep` build fresh values. The source writes into ingredient and step objects that the old list shares; this aliasing is not captured, and no modelled reader can observe it.
- The saved tab's header count (`savedPosts.length`) and its empty state (shown exactly when nothing is saved) are display only and are not modelled.
- PostCard's `onLike` prop is not modelled: the card never calls it.
- PostCard's location line (`post.location && …`, shown for a non-empty location) is display only and is not modelled.
- `Card.StarCounts` returns nothing for a negative rating or one of 5.50 or more, where the source's `Array(n)` would throw.
