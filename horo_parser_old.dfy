/**
 * The earlier horoscope parser: the same cache and retry policy as `HoroParser`,
 * but each reply also carries star ratings for finance, health and love, read
 * from the page's rating blocks. The page is an input: its main-text selectors
 * (a `HoroParser.Page`) and the candidate rating containers, each with its text,
 * its CSS classes and the elements below it.
 */
module HoroParserOld {
  import opened Wrappers
  import opened Text
  import opened Models
  import HoroParser

  /** A rating nobody found. */
  const Unknown: string := "❓"

  /** The star a rating is drawn with, and the one counted in element text. */
  const StarEmoji: char := '⭐'

  /** The other star character counted in element text. */
  const BlackStar: char := '★'

  /** Containers whose lower-cased text is longer than this are article content and skipped. */
  const MaxContainerText: nat := 500

  /** The rule above and below the ratings. */
  const Separator: string := "━━━━━━━━━━━━━━━━━━━━━━"

  // ---------------------------------------------------------------------------
  // `_extract_rating_number`

  /** The four patterns, tried in this order: `(\d)/5`, `(\d)\s*из\s*5`, `(\d)\s*\*`, `:\s*(\d)\s*(?:звез|star)`. */
  datatype Pattern = Slash5 | OutOf5 | Asterisk | ColonStars

  /** The patterns in the order they are tried. */
  const Patterns: seq<Pattern> := [Slash5, OutOf5, Asterisk, ColonStars]

  /** The end of the run of whitespace (`\s*`) starting at `j`. */
  function SkipSpaces(t: string, j: nat): (r: nat)
    requires j <= |t|
    ensures j <= r <= |t|
    ensures forall m :: j <= m < r ==> IsSpace(t[m])
    ensures r == |t| || !IsSpace(t[r])
    decreases |t| - j
  {
    if j < |t| && IsSpace(t[j]) then SkipSpaces(t, j + 1) else j
  }

  /** The lower-case word `w` occurs at `j`, ignoring case (`re.IGNORECASE`). */
  predicate WordAt(t: string, j: nat, w: string)
  {
    j + |w| <= |t| && forall m :: 0 <= m < |w| ==> LowerChar(t[j + m]) == w[m]
  }

  /**
   * Whether pattern `p` matches at position `i`, and if so the position of the
   * captured digit. A `\s*` before a non-whitespace literal takes all the
   * whitespace there is, so no backtracking is needed.
   */
  function MatchAt(p: Pattern, t: string, i: nat): (r: Option<nat>)
    requires i <= |t|
    ensures r.Some? ==> i <= r.value < |t| && IsDigit(t[r.value])
  {
    match p
    case Slash5 =>
      if i + 2 < |t| && IsDigit(t[i]) && t[i + 1] == '/' && t[i + 2] == '5' then Some(i) else None
    case OutOf5 =>
      if i < |t| && IsDigit(t[i]) then
        var j := SkipSpaces(t, i + 1);
        if WordAt(t, j, "из") then
          var k := SkipSpaces(t, j + 2);
          if k < |t| && t[k] == '5' then Some(i) else None
        else None
      else None
    case Asterisk =>
      if i < |t| && IsDigit(t[i]) then
        var j := SkipSpaces(t, i + 1);
        if j < |t| && t[j] == '*' then Some(i) else None
      else None
    case ColonStars =>
      if i < |t| && t[i] == ':' then
        var j := SkipSpaces(t, i + 1);
        if j < |t| && IsDigit(t[j]) then
          var k := SkipSpaces(t, j + 1);
          if WordAt(t, k, "звез") || WordAt(t, k, "star") then Some(j) else None
        else None
      else None
  }

  /** `re.search`: the leftmost position at or after `from` where `p` matches. */
  function FirstMatch(p: Pattern, t: string, from: nat): (r: Option<nat>)
    requires from <= |t|
    ensures r.Some? ==> from <= r.value < |t| && MatchAt(p, t, r.value).Some?
    ensures r.Some? ==> forall m :: from <= m < r.value ==> MatchAt(p, t, m).None?
    ensures r.None? ==> forall m :: from <= m < |t| ==> MatchAt(p, t, m).None?
    decreases |t| - from
  {
    if from == |t| then None
    else if MatchAt(p, t, from).Some? then Some(from)
    else FirstMatch(p, t, from + 1)
  }

  /** `int(match.group(1))` of the leftmost match of `p`, if there is one. */
  function Capture(p: Pattern, t: string): (r: Option<nat>)
    ensures r.Some? ==> exists j :: 0 <= j < |t| && IsDigit(t[j]) && r.value == DigitValue(t[j])
  {
    match FirstMatch(p, t, 0)
    case None => None
    case Some(i) => Some(DigitValue(t[MatchAt(p, t, i).value]))
  }

  /** A digit value that is a rating. */
  predicate InRange(n: nat)
  {
    1 <= n <= 5
  }

  /** The text has a digit whose value is a rating. */
  predicate HasRatingDigit(t: string)
  {
    exists j :: 0 <= j < |t| && IsDigit(t[j]) && InRange(DigitValue(t[j]))
  }

  /** The fallback: the first digit at or after `from` whose value lies in 1..5. */
  function FirstRatingDigit(t: string, from: nat): (r: Option<nat>)
    requires from <= |t|
    ensures r.Some? ==> from <= r.value < |t| && IsDigit(t[r.value]) && InRange(DigitValue(t[r.value]))
    ensures r.Some? ==> forall m :: from <= m < r.value ==> !(IsDigit(t[m]) && InRange(DigitValue(t[m])))
    ensures r.None? ==> forall m :: from <= m < |t| ==> !(IsDigit(t[m]) && InRange(DigitValue(t[m])))
    decreases |t| - from
  {
    if from == |t| then None
    else if IsDigit(t[from]) && InRange(DigitValue(t[from])) then Some(from)
    else FirstRatingDigit(t, from + 1)
  }

  /**
   * The rating found by trying `patterns` in order, a pattern counting only when
   * its leftmost match captures 1..5, then the first digit in 1..5, else 0.
   */
  function RatingFrom(t: string, patterns: seq<Pattern>): (r: nat)
    ensures r <= 5
    ensures r == 0 <==> !HasRatingDigit(t)
    ensures r > 0 ==> exists j :: 0 <= j < |t| && IsDigit(t[j]) && r == DigitValue(t[j])
  {
    if |patterns| == 0 then
      match FirstRatingDigit(t, 0)
      case None => 0
      case Some(k) => DigitValue(t[k])
    else
      var c := Capture(patterns[0], t);
      if c.Some? && InRange(c.value) then c.value else RatingFrom(t, patterns[1..])
  }

  /** `_extract_rating_number(text)`: 0 for empty text, else the first rating the patterns or the fallback find. */
  function ExtractRatingNumber(t: string): (r: nat)
    ensures r <= 5
    ensures t == "" ==> r == 0
    ensures r == 0 <==> !HasRatingDigit(t)
    ensures r > 0 ==> exists j :: 0 <= j < |t| && IsDigit(t[j]) && r == DigitValue(t[j])
  {
    if t == "" then 0 else RatingFrom(t, Patterns)
  }

  /** A pattern whose leftmost match captures 0 or 6..9 does not end the search: the next patterns are tried. */
  lemma OutOfRangeHitSkipped(t: string, k: nat)
    requires t != "" && k < |Patterns|
    requires forall m :: 0 <= m <= k ==> !(Capture(Patterns[m], t).Some? && InRange(Capture(Patterns[m], t).value))
    ensures ExtractRatingNumber(t) == RatingFrom(t, Patterns[k + 1..])
  {
    var m := 0;
    while m <= k
      invariant 0 <= m <= k + 1
      invariant RatingFrom(t, Patterns) == RatingFrom(t, Patterns[m..])
    {
      assert Patterns[m..][1..] == Patterns[m + 1..];
      m := m + 1;
    }
  }

  /** The first pattern whose leftmost match captures 1..5 decides the rating, whatever comes later in the text. */
  lemma FirstInRangePatternWins(t: string, k: nat)
    requires t != "" && k < |Patterns|
    requires forall m :: 0 <= m < k ==> !(Capture(Patterns[m], t).Some? && InRange(Capture(Patterns[m], t).value))
    requires Capture(Patterns[k], t).Some? && InRange(Capture(Patterns[k], t).value)
    ensures ExtractRatingNumber(t) == Capture(Patterns[k], t).value
  {
    if k > 0 {
      OutOfRangeHitSkipped(t, k - 1);
    }
  }

  /** When no pattern captures 1..5, the rating is the first digit of the text in 1..5. */
  lemma FallbackIsFirstRatingDigit(t: string)
    requires t != ""
    requires forall m :: 0 <= m < |Patterns| ==> !(Capture(Patterns[m], t).Some? && InRange(Capture(Patterns[m], t).value))
    ensures FirstRatingDigit(t, 0).Some? ==> ExtractRatingNumber(t) == DigitValue(t[FirstRatingDigit(t, 0).value])
  {
    OutOfRangeHitSkipped(t, |Patterns| - 1);
  }

  // ---------------------------------------------------------------------------
  // `_count_stars_in_element`

  /** An `<img>`: its `src`, `alt` and `title` attributes (empty when absent). */
  datatype Image = Image(src: string, alt: string, title: string)

  /**
   * An element: its `<img>` descendants, the class lists of its `<svg>` descendants,
   * its text (`get_text()`) and its stripped text (`get_text(strip=True)`).
   */
  datatype Element = Element(images: seq<Image>, svgClasses: seq<seq<string>>, text: string, strippedText: string)

  /** An image counts as a star when its source or title mentions `star` or its alt text `звез`, ignoring case. */
  predicate IsStarImage(img: Image)
  {
    Contains(Lower(img.src), "star") || Contains(Lower(img.alt), "звез") || Contains(Lower(img.title), "star")
  }

  /** An `<svg>` counts as a star when its joined classes mention `star`, ignoring case. */
  predicate IsStarSvg(classes: seq<string>)
  {
    Contains(Lower(Join(classes, " ")), "star")
  }

  /** How many of the images are stars. */
  function StarImages(images: seq<Image>): (n: nat)
    ensures n <= |images|
  {
    if |images| == 0 then 0
    else StarImages(images[..|images| - 1]) + (if IsStarImage(images[|images| - 1]) then 1 else 0)
  }

  /** How many of the `<svg>` elements are stars. */
  function StarSvgs(svgs: seq<seq<string>>): (n: nat)
    ensures n <= |svgs|
  {
    if |svgs| == 0 then 0
    else StarSvgs(svgs[..|svgs| - 1]) + (if IsStarSvg(svgs[|svgs| - 1]) then 1 else 0)
  }

  /**
   * The star count of an element: 0 for a missing element; the number of star
   * emoji in its text if there is one, else of black stars if there is one, else
   * the number of star images and star `<svg>`s.
   */
  function StarCount(elem: Option<Element>): (n: nat)
    ensures elem.None? ==> n == 0
    ensures elem.Some? && StarEmoji in elem.value.text ==> n == Count(elem.value.text, StarEmoji) && n > 0
    ensures elem.Some? && StarEmoji !in elem.value.text && BlackStar in elem.value.text ==>
      n == Count(elem.value.text, BlackStar) && n > 0
    ensures elem.Some? && StarEmoji !in elem.value.text && BlackStar !in elem.value.text ==>
      n <= |elem.value.images| + |elem.value.svgClasses|
  {
    match elem
    case None => 0
    case Some(e) =>
      if StarEmoji in e.text then Count(e.text, StarEmoji)
      else if BlackStar in e.text then Count(e.text, BlackStar)
      else StarImages(e.images) + StarSvgs(e.svgClasses)
  }

  /** `_count_stars_in_element(elem)`: counts star images and `<svg>`s, then lets a star count in the text replace that. */
  method CountStarsInElement(elem: Option<Element>) returns (count: nat)
    ensures count == StarCount(elem)
  {
    if elem.None? {
      return 0;
    }
    var e := elem.value;
    count := 0;
    for i := 0 to |e.images|
      invariant count == StarImages(e.images[..i])
    {
      assert e.images[..i + 1][..i] == e.images[..i];
      if IsStarImage(e.images[i]) {
        count := count + 1;
      }
    }
    assert e.images[..|e.images|] == e.images;
    ghost var fromImages := count;
    for i := 0 to |e.svgClasses|
      invariant count == fromImages + StarSvgs(e.svgClasses[..i])
    {
      assert e.svgClasses[..i + 1][..i] == e.svgClasses[..i];
      if IsStarSvg(e.svgClasses[i]) {
        count := count + 1;
      }
    }
    assert e.svgClasses[..|e.svgClasses|] == e.svgClasses;
    if StarEmoji in e.text {
      count := Count(e.text, StarEmoji);
    } else if BlackStar in e.text {
      count := Count(e.text, BlackStar);
    }
  }

  // ---------------------------------------------------------------------------
  // `extract_ratings`

  /** A candidate rating container: its stripped text, its CSS classes and the `div`/`span`/`li`/`dd` elements below it. */
  datatype Container = Container(text: string, classes: seq<string>, items: seq<Element>)

  /** The three ratings, as they are shown. */
  datatype Ratings = Ratings(finance: string, health: string, love: string)

  /** The three rated areas. */
  datatype Category = Finance | Health | Love

  /** Every rating before anything is found. */
  const DefaultRatings: Ratings := Ratings(Unknown, Unknown, Unknown)

  /** The rating shown for `c`. */
  function Get(r: Ratings, c: Category): string
  {
    match c
    case Finance => r.finance
    case Health => r.health
    case Love => r.love
  }

  /** `r` with the rating of `c` replaced by `v`. */
  function Set(r: Ratings, c: Category, v: string): (r': Ratings)
    ensures Get(r', c) == v
    ensures forall d :: d != c ==> Get(r', d) == Get(r, d)
  {
    match c
    case Finance => r.(finance := v)
    case Health => r.(health := v)
    case Love => r.(love := v)
  }

  /** Its classes name a rating block: `rating`, `mark`, `score` or `rate` occurs in them, ignoring case. */
  predicate IsRatingSection(c: Container)
  {
    var classes := Lower(Join(c.classes, " "));
    Contains(classes, "rating") || Contains(classes, "mark") || Contains(classes, "score") || Contains(classes, "rate")
  }

  /** The lower-cased text names all three areas. */
  predicate MentionsAllAreas(lowerText: string)
  {
    Contains(lowerText, "финансы") && Contains(lowerText, "здоровье") && Contains(lowerText, "любовь")
  }

  /** A container whose elements are read: not too long, and a rating block by class or by text. */
  predicate Considered(c: Container)
  {
    var lowerText := Lower(c.text);
    |lowerText| <= MaxContainerText && (IsRatingSection(c) || MentionsAllAreas(lowerText))
  }

  /** The stars of an element: its star count, or else the number in its text. */
  function ItemStars(item: Element): nat
  {
    var stars := StarCount(Some(item));
    if stars == 0 then ExtractRatingNumber(item.strippedText) else stars
  }

  /** The area an element's text names, finance before health before love. */
  function CategoryOf(text: string): (c: Option<Category>)
    ensures c == Some(Finance) <==> Contains(Lower(text), "финанс")
    ensures c == Some(Health) <==> !Contains(Lower(text), "финанс") && Contains(Lower(text), "здоров")
    ensures c == Some(Love) <==>
      !Contains(Lower(text), "финанс") && !Contains(Lower(text), "здоров") && Contains(Lower(text), "любов")
  {
    var lower := Lower(text);
    if Contains(lower, "финанс") then Some(Finance)
    else if Contains(lower, "здоров") then Some(Health)
    else if Contains(lower, "любов") then Some(Love)
    else None
  }

  /** The element sets the rating of `c`: it has stars and names `c`. */
  predicate Rates(item: Element, c: Category)
  {
    ItemStars(item) > 0 && CategoryOf(item.strippedText) == Some(c)
  }

  /** A rating of `n` stars. */
  function Stars(n: nat): string
  {
    Repeat(StarEmoji, n)
  }

  /** The ratings after one element is read. */
  function ApplyItem(r: Ratings, item: Element): Ratings
  {
    var stars := ItemStars(item);
    if stars > 0 then
      match CategoryOf(item.strippedText)
      case Some(c) => Set(r, c, Stars(stars))
      case None => r
    else r
  }

  /** The ratings after the elements are read in order. */
  function ApplyItems(r: Ratings, items: seq<Element>): Ratings
  {
    if |items| == 0 then r else ApplyItem(ApplyItems(r, items[..|items| - 1]), items[|items| - 1])
  }

  /** The ratings after the containers are read in order, skipping those not considered. */
  function ApplyContainers(r: Ratings, cs: seq<Container>): Ratings
  {
    if |cs| == 0 then r
    else
      var before := ApplyContainers(r, cs[..|cs| - 1]);
      if Considered(cs[|cs| - 1]) then ApplyItems(before, cs[|cs| - 1].items) else before
  }

  /** What `extract_ratings` returns for the page's containers. */
  function RatingsOf(cs: seq<Container>): Ratings
  {
    ApplyContainers(DefaultRatings, cs)
  }

  /** One element of a rating container: its stars, else the number in its text; a positive count sets the area it names. */
  method ReadItem(ratings: Ratings, item: Element) returns (r: Ratings)
    ensures r == ApplyItem(ratings, item)
  {
    r := ratings;
    var stars := CountStarsInElement(Some(item));
    if stars == 0 {
      stars := ExtractRatingNumber(item.strippedText);
    }
    if stars > 0 {
      var lower := Lower(item.strippedText);
      if Contains(lower, "финанс") {
        r := r.(finance := Stars(stars));
      } else if Contains(lower, "здоров") {
        r := r.(health := Stars(stars));
      } else if Contains(lower, "любов") {
        r := r.(love := Stars(stars));
      }
    }
  }

  /** The inner loop of `extract_ratings`, over the elements of one rating container. */
  method ReadItems(ratings: Ratings, items: seq<Element>) returns (r: Ratings)
    ensures r == ApplyItems(ratings, items)
  {
    r := ratings;
    for j := 0 to |items|
      invariant r == ApplyItems(ratings, items[..j])
    {
      assert items[..j + 1][..j] == items[..j];
      r := ReadItem(r, items[j]);
    }
    assert items[..|items|] == items;
  }

  /** `extract_ratings(soup)`: the loop over the containers, reading the elements of each rating container. */
  method ExtractRatings(cs: seq<Container>) returns (ratings: Ratings)
    ensures ratings == RatingsOf(cs)
  {
    ratings := DefaultRatings;
    for i := 0 to |cs|
      invariant ratings == ApplyContainers(DefaultRatings, cs[..i])
    {
      assert cs[..i + 1][..i] == cs[..i];
      var elem := cs[i];
      var elemText := Lower(elem.text);
      if |elemText| > MaxContainerText {
        continue;
      }
      var classes := Lower(Join(elem.classes, " "));
      var isRatingSection := Contains(classes, "rating") || Contains(classes, "mark")
        || Contains(classes, "score") || Contains(classes, "rate");
      if isRatingSection || (Contains(elemText, "финансы") && Contains(elemText, "здоровье") && Contains(elemText, "любовь")) {
        ratings := ReadItems(ratings, elem.items);
      }
    }
    assert cs[..|cs|] == cs;
  }


  /** A shown rating: the question mark, or a non-empty row of stars. */
  predicate IsShownRating(v: string)
  {
    v == Unknown || (|v| > 0 && forall k :: 0 <= k < |v| ==> v[k] == StarEmoji)
  }

  /** Some element of `items` rates `c`. */
  predicate SomeRates(items: seq<Element>, c: Category)
  {
    exists x :: x in items && Rates(x, c)
  }

  /**
   * Reading one element keeps the rating of `c` shown, and sets it exactly when the element rates `c`:
   * then to the element's number of stars, otherwise it stays as it was.
   */
  lemma ApplyItemSpec(r: Ratings, item: Element, c: Category)
    requires IsShownRating(Get(r, c))
    ensures IsShownRating(Get(ApplyItem(r, item), c))
    ensures Get(ApplyItem(r, item), c) != Unknown <==> Get(r, c) != Unknown || Rates(item, c)
    ensures Get(ApplyItem(r, item), c) == if Rates(item, c) then Stars(ItemStars(item)) else Get(r, c)
  {
    var stars := ItemStars(item);
    if stars > 0 {
      assert Stars(stars)[0] == StarEmoji;
    }
  }

  /**
   * Reading elements keeps every rating a question mark or a row of stars, and sets `c` exactly when
   * one of them rates `c`: to the stars of the last element that rates `c`; with none, `c` is unchanged.
   */
  lemma {:induction false} ApplyItemsSpec(r: Ratings, items: seq<Element>, c: Category)
    requires IsShownRating(Get(r, c))
    ensures IsShownRating(Get(ApplyItems(r, items), c))
    ensures Get(ApplyItems(r, items), c) != Unknown <==> Get(r, c) != Unknown || SomeRates(items, c)
    ensures !SomeRates(items, c) ==> Get(ApplyItems(r, items), c) == Get(r, c)
    ensures SomeRates(items, c) ==> IsLastRater(items, c, Get(ApplyItems(r, items), c))
  {
    if |items| > 0 {
      var q := items[..|items| - 1];
      var item := items[|items| - 1];
      ApplyItemsSpec(r, q, c);
      ApplyItemSpec(ApplyItems(r, q), item, c);
      assert items == q + [item];
      assert SomeRates(items, c) <==> SomeRates(q, c) || Rates(item, c);
      if SomeRates(items, c) {
        LastRaterStep(q, item, c, Get(ApplyItems(r, q), c));
      }
    }
  }

  /** The last rater of `q + [item]` is `item` when it rates `c`, and otherwise the last rater of `q`. */
  lemma LastRaterStep(q: seq<Element>, item: Element, c: Category, v: string)
    requires Rates(item, c) || IsLastRater(q, c, v)
    ensures IsLastRater(q + [item], c, if Rates(item, c) then Stars(ItemStars(item)) else v)
  {
    var items := q + [item];
    if Rates(item, c) {
      assert items[|q|] == item;
    } else {
      var k :| 0 <= k < |q| && Rates(q[k], c) && v == Stars(ItemStars(q[k]))
        && forall j :: k < j < |q| ==> !Rates(q[j], c);
      assert items[k] == q[k];
      forall j | k < j < |items|
        ensures !Rates(items[j], c)
      {
        if j < |q| {
          assert items[j] == q[j];
        }
      }
    }
  }

  /** `v` is the stars of an element of `items` that rates `c`, and no later element rates `c`. */
  predicate IsLastRater(items: seq<Element>, c: Category, v: string)
  {
    exists k :: 0 <= k < |items| && Rates(items[k], c) && v == Stars(ItemStars(items[k]))
      && forall j :: k < j < |items| ==> !Rates(items[j], c)
  }

  /** Reading elements one list after another is reading their concatenation. */
  lemma {:induction false} ApplyItemsAppend(r: Ratings, a: seq<Element>, b: seq<Element>)
    ensures ApplyItems(r, a + b) == ApplyItems(ApplyItems(r, a), b)
  {
    if |b| > 0 {
      ApplyItemsAppend(r, a, b[..|b| - 1]);
      assert (a + b)[..|a + b| - 1] == a + b[..|b| - 1];
    } else {
      assert a + b == a;
    }
  }

  /** Reading the containers is reading the elements of the considered ones, in order. */
  lemma {:induction false} RatingsOfConsideredItems(cs: seq<Container>)
    ensures RatingsOf(cs) == ApplyItems(DefaultRatings, ConsideredItems(cs))
  {
    if |cs| > 0 {
      var q := cs[..|cs| - 1];
      var last := cs[|cs| - 1];
      RatingsOfConsideredItems(q);
      var added := if Considered(last) then last.items else [];
      ApplyItemsAppend(DefaultRatings, ConsideredItems(q), added);
    }
  }

  /** The elements of the considered containers, in reading order. */
  function ConsideredItems(cs: seq<Container>): seq<Element>
  {
    if |cs| == 0 then []
    else ConsideredItems(cs[..|cs| - 1]) + (if Considered(cs[|cs| - 1]) then cs[|cs| - 1].items else [])
  }

  /**
   * Every rating is a question mark or a row of stars, and a rating is found
   * exactly when an element of a considered container rates its area; a found
   * rating is the stars of the last such element, in reading order.
   */
  lemma {:induction false} RatingsOfSpec(cs: seq<Container>, c: Category)
    ensures IsShownRating(Get(RatingsOf(cs), c))
    ensures Get(RatingsOf(cs), c) != Unknown <==> SomeRates(ConsideredItems(cs), c)
    ensures Get(RatingsOf(cs), c) != Unknown ==> IsLastRater(ConsideredItems(cs), c, Get(RatingsOf(cs), c))
  {
    RatingsOfConsideredItems(cs);
    ApplyItemsSpec(DefaultRatings, ConsideredItems(cs), c);
  }

  /** A container with more than 500 characters of text changes no rating. */
  lemma LongContainerIgnored(cs: seq<Container>, c: Container)
    requires |Lower(c.text)| > MaxContainerText
    ensures RatingsOf(cs + [c]) == RatingsOf(cs)
  {
    assert (cs + [c])[..|cs|] == cs;
  }

  // ---------------------------------------------------------------------------
  // Output of `fetch_horoscope`

  /** The rating block: a rule, the finance, health and love lines, a rule. */
  function RatingLines(r: Ratings): seq<string>
  {
    [Separator, "💰 Финансы: " + r.finance, "💪 Здоровье: " + r.health, "💗 Любовь: " + r.love, Separator]
  }

  /** The reply: the text after a glowing star, a blank line, then the rating block. */
  function Output(text: string, r: Ratings): string
  {
    "🌟 " + text + "\n\n" + Join(RatingLines(r), "\n")
  }

  /** The rating block written out line by line. */
  lemma RatingBlockText(r: Ratings)
    ensures Join(RatingLines(r), "\n") ==
      Separator + "\n" + ("💰 Финансы: " + r.finance) + "\n" + ("💪 Здоровье: " + r.health) + "\n"
      + ("💗 Любовь: " + r.love) + "\n" + Separator
  {
    var lines := RatingLines(r);
    assert Join(lines[4..], "\n") == Separator;
    assert Join(lines[3..], "\n") == lines[3] + "\n" + Join(lines[4..], "\n");
    assert Join(lines[2..], "\n") == lines[2] + "\n" + Join(lines[3..], "\n");
    assert Join(lines[1..], "\n") == lines[1] + "\n" + Join(lines[2..], "\n");
  }

  /** The reply built with `+=`, piece by piece. */
  method FormatOutput(text: string, r: Ratings) returns (output: string)
    ensures output == Output(text, r)
  {
    output := "🌟 " + text + "\n\n";
    output := output + Separator + "\n";
    output := output + "💰 Финансы: " + r.finance + "\n";
    output := output + "💪 Здоровье: " + r.health + "\n";
    output := output + "💗 Любовь: " + r.love + "\n";
    output := output + Separator;
    RatingBlockText(r);
  }


  /** A shown rating is on one line. */
  lemma ShownRatingHasNoNewline(v: string)
    requires IsShownRating(v)
    ensures '\n' !in v
  {
    if v != Unknown {
      assert forall k :: 0 <= k < |v| ==> v[k] == StarEmoji;
    }
  }

  /** The rating block of any page splits into exactly five lines: the rule, the three ratings in order, the rule. */
  lemma RatingBlockLines(cs: seq<Container>)
    ensures SplitOn(Join(RatingLines(RatingsOf(cs)), "\n"), '\n') == RatingLines(RatingsOf(cs))
  {
    var r := RatingsOf(cs);
    RatingsOfSpec(cs, Finance);
    RatingsOfSpec(cs, Health);
    RatingsOfSpec(cs, Love);
    ShownRatingHasNoNewline(r.finance);
    ShownRatingHasNoNewline(r.health);
    ShownRatingHasNoNewline(r.love);
    var lines := RatingLines(r);
    forall k | 0 <= k < |lines| ensures '\n' !in lines[k] {
      if 1 <= k <= 3 {
        var caption := if k == 1 then "💰 Финансы: " else if k == 2 then "💪 Здоровье: " else "💗 Любовь: ";
        var v := if k == 1 then r.finance else if k == 2 then r.health else r.love;
        assert lines[k] == caption + v;
        assert '\n' !in caption;
      }
    }
    SplitJoin(lines, '\n');
  }

  // ---------------------------------------------------------------------------
  // `fetch_horoscope`

  /** A fetched page: the main-text selectors and the candidate rating containers. */
  datatype OldPage = OldPage(main: HoroParser.Page, containers: seq<Container>)

  /** The reply for a fetched page. */
  function Render(page: OldPage): string
  {
    Output(HoroParser.MainText(page.main), RatingsOf(page.containers))
  }

  /**
   * `fetch_horoscope(sign)` of the earlier parser: the per-day cache, up to three
   * attempts with 1 s and 2 s pauses, the text with its rating block, or the apology.
   */
  method FetchHoroscope(db: Database, sign: string, today: int, health: HoroParser.DbHealth,
                        respond: nat -> HoroParser.Response<OldPage>)
    returns (text: string, attempts: nat, waits: seq<nat>)
    requires db.Valid()
    modifies db
    ensures db.Valid()
    ensures db.users == old(db.users) && db.subscriptions == old(db.subscriptions) && db.processed == old(db.processed)
    ensures attempts <= HoroParser.MaxAttempts && forall i :: 0 <= i < |waits| ==> waits[i] == i + 1
    ensures HoroParser.CachedContent(old(db.cache), sign, today, health).Some? ==>
      text == HoroParser.CachedContent(old(db.cache), sign, today, health).value && attempts == 0 && db.cache == old(db.cache)
    ensures HoroParser.CachedContent(old(db.cache), sign, today, health).None? && HoroParser.FirstSuccess(respond, 0).Some? ==>
      text == Render(respond(HoroParser.FirstSuccess(respond, 0).value).page)
      && db.cache == HoroParser.CacheAfterStore(old(db.cache), sign, today, text, health)
    ensures HoroParser.CachedContent(old(db.cache), sign, today, health).None? && HoroParser.FirstSuccess(respond, 0).None? ==>
      text == HoroParser.GiveUpMessage && attempts == HoroParser.MaxAttempts && db.cache == old(db.cache)
  {
    text, attempts, waits := HoroParser.FetchHoroscopeWith(db, sign, today, health, respond, Render);
  }
}
