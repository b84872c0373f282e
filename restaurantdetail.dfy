/**
 * The restaurant detail page: the title split into restaurant and dish, the genre
 * labels and the badges derived from a post.
 */
module RestaurantDetail {
  import opened Optional
  import opened Text
  import opened Types
  import opened Search

  /** `title.split(' - ')[0]`: the part before the first separator. */
  function RestaurantName(title: string): (name: string)
    ensures |name| <= |title| && name == title[..|name|]
    ensures !Includes(name, Separator)
    ensures IndexOf(title, Separator).None? ==> name == title
    ensures IndexOf(title, Separator).Some? ==> |name| == IndexOf(title, Separator).value
  {
    SplitSegmentsFree(title);
    Split(title)[0]
  }

  /** `title.split(' - ')[1] || ''`: the segment after the first separator, or empty. */
  function DishName(title: string): (dish: string)
    ensures IndexOf(title, Separator).None? ==> dish == ""
    ensures !Includes(dish, Separator)
  {
    SplitSegmentsFree(title);
    var parts := Split(title);
    if |parts| > 1 then parts[1] else ""
  }

  /**
   * With a separator at `i`, the title is the restaurant name, the separator and the
   * rest, and the dish is the rest up to its own first separator.
   */
  lemma TitleParts(title: string)
    requires IndexOf(title, Separator).Some?
    ensures var i := IndexOf(title, Separator).value;
            var rest := title[i + |Separator|..];
            title == RestaurantName(title) + Separator + rest && DishName(title) == RestaurantName(rest)
  {
    var i := IndexOf(title, Separator).value;
    var rest := title[i + |Separator|..];
    AroundOccurrence(title, i);
    assert Split(title) == [title[..i]] + Split(rest);
  }

  /** With exactly one separator, the name and the dish give back the title. */
  lemma OneSeparatorRoundTrip(title: string)
    requires |Split(title)| == 2
    ensures RestaurantName(title) + Separator + DishName(title) == title
  {
    JoinSplit(title);
    var parts := Split(title);
    assert parts[1..] == [parts[1]];
  }

  /** A title with two separators loses its last segment: the dish is only the middle one. */
  lemma SecondSeparatorDropsRest()
    ensures RestaurantName("A - B - C") == "A" && DishName("A - B - C") == "B"
  {
    var t := "A - B - C";
    var rest := t[4..];
    assert t[1..4] == Separator && rest == "B - C" && rest[1..4] == Separator;
    SeparatorAtOne(t);
    SeparatorAtOne(rest);
    TitleParts(t);
    TitleParts(rest);
    assert rest[..1] == "B";
  }

  /** A separator right after a first non-blank character is the first one. */
  lemma SeparatorAtOne(t: string)
    requires |t| >= 4 && t[0] != ' ' && t[1..4] == Separator
    ensures IndexOf(t, Separator) == Some(1)
  {
    assert OccursAt(t, Separator, 1);
    assert t[0..3][0] == t[0];
    assert !OccursAt(t, Separator, 0);
  }

  /** The recommended-dish section appears iff the title names a dish, which needs a separator. */
  function ShowsRecommendedDish(title: string): (shown: bool)
    ensures shown ==> Includes(title, Separator)
  {
    |DishName(title)| > 0
  }

  /**
   * The section appears exactly when, after the first separator, there is text that
   * does not open with a second separator.
   */
  lemma RecommendedDishIff(title: string)
    ensures ShowsRecommendedDish(title) <==>
              IndexOf(title, Separator).Some? &&
              var rest := title[IndexOf(title, Separator).value + |Separator|..];
              |rest| > 0 && !OccursAt(rest, Separator, 0)
  {
    if IndexOf(title, Separator).Some? {
      TitleParts(title);
    }
  }

  lemma NoDishWithoutSeparator(title: string)
    requires !Includes(title, Separator)
    ensures !ShowsRecommendedDish(title)
  {
  }

  /** The genre pill: four genres have Japanese labels; any other shows its raw value. */
  function GenreLabel(g: Genre): (text: string)
    ensures IsRestaurantGenre(g) ==> text != GenreName(g)
    ensures !IsRestaurantGenre(g) ==> text == GenreName(g)
  {
    match g
    case Cafe => "カフェ"
    case Korean => "韓国料理"
    case Chinese => "中華料理"
    case Ramen => "ラーメン"
    case _ => GenreName(g)
  }

  /** Distinct genres get distinct pills, so no two genres look alike. */
  lemma GenreLabelInjective(g: Genre, h: Genre)
    requires GenreLabel(g) == GenreLabel(h)
    ensures g == h
  {
    if IsRestaurantGenre(g) != IsRestaurantGenre(h) {
      assert false;
    }
  }

  /** The date badge: `post.situation?.includes('date')`, so only a post with situations can show it. */
  function DateBadge(p: Post): (shown: bool)
    ensures shown ==> p.situation.Some? && |p.situation.value| > 0
  {
    p.situation.Some? && Date in p.situation.value
  }

  /** Every post found by a search for date situations alone opens with the date badge. */
  lemma DateSearchShowsBadge(mock: seq<Post>, f: FilterOptions, p: Post)
    requires f.situation == [Date] && p in SearchResult(mock, f)
    ensures DateBadge(p)
  {
    ResultSharesFacets(mock, f, p);
  }
}
