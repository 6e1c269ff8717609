/**
 * Fetching today's horoscope for a sign: the per-(sign, day) cache, then at most
 * three GETs of the sign's page with 1 s and 2 s pauses, then a fixed apology.
 * The HTTP client and the HTML selectors are inputs: `respond(a)` is what attempt
 * `a` yields, and a `Page` holds what each CSS selector found.
 */
module HoroParser {
  import opened Wrappers
  import opened Models

  /** Text used when the page has none of the expected elements. */
  const NoTextMessage: string := "Не удалось получить текст гороскопа"

  /** Reply after every attempt failed. */
  const GiveUpMessage: string := "Не удалось получить гороскоп — попробуйте позже."

  /** `range(3)` in the retry loop. */
  const MaxAttempts: nat := 3

  /**
   * What the selectors found on a fetched page: the text of the first
   * `.article__text`, `.article__item` and `.article__summary` element and of the first `<p>`.
   */
  datatype Page = Page(
    articleText: Option<string>,
    articleItem: Option<string>,
    articleSummary: Option<string>,
    firstParagraph: Option<string>)

  /** One GET: an exception (timeout, non-2xx status, ...) or a page. */
  datatype Response<P> = Failed | Fetched(page: P)

  /** Whether the cache lookup and the cache write go through or raise. */
  datatype DbHealth = DbHealth(lookupOk: bool, storeOk: bool)

  /** The horoscope text of a page: the first element found by the selector chain, else the first paragraph. */
  function MainText(page: Page): (text: string)
    ensures page.articleText.Some? ==> text == page.articleText.value
    ensures page.articleText.None? && page.articleItem.Some? ==> text == page.articleItem.value
    ensures page.articleText.None? && page.articleItem.None? && page.articleSummary.Some? ==>
      text == page.articleSummary.value
    ensures page.articleText.None? && page.articleItem.None? && page.articleSummary.None? ==>
      text == (if page.firstParagraph.Some? then page.firstParagraph.value else NoTextMessage)
    ensures text == NoTextMessage || Some(text) in {page.articleText, page.articleItem, page.articleSummary, page.firstParagraph}
  {
    if page.articleText.Some? then page.articleText.value
    else if page.articleItem.Some? then page.articleItem.value
    else if page.articleSummary.Some? then page.articleSummary.value
    else if page.firstParagraph.Some? then page.firstParagraph.value
    else NoTextMessage
  }

  /** The fallback text is used only when no selector found anything. */
  lemma NoTextOnlyWhenNothingFound(page: Page)
    requires page.articleText.Some? || page.articleItem.Some? || page.articleSummary.Some? || page.firstParagraph.Some?
    requires Some(NoTextMessage) !in {page.articleText, page.articleItem, page.articleSummary, page.firstParagraph}
    ensures MainText(page) != NoTextMessage
  {
  }

  /** The content cached for (sign, today), when the lookup itself does not raise. */
  function CachedContent(cache: seq<CachedHoroscope>, sign: string, today: int, health: DbHealth): (r: Option<string>)
    ensures r.Some? ==> health.lookupOk && CachedHoroscope(sign, today, r.value) in cache
    ensures r.None? ==> !health.lookupOk || forall k :: 0 <= k < |cache| ==> cache[k].sign != sign || cache[k].date != today
  {
    if !health.lookupOk then None
    else match FindCached(cache, sign, today)
      case Some(k) => Some(cache[k].content)
      case None => None
  }

  /** The first of the attempts `from`, ..., 2 that fetches a page. */
  function FirstSuccess<P>(respond: nat -> Response<P>, from: nat): (r: Option<nat>)
    requires from <= MaxAttempts
    decreases MaxAttempts - from
    ensures r.Some? ==> from <= r.value < MaxAttempts && respond(r.value).Fetched?
    ensures r.Some? ==> forall a :: from <= a < r.value ==> respond(a).Failed?
    ensures r.None? <==> forall a :: from <= a < MaxAttempts ==> respond(a).Failed?
  {
    if from == MaxAttempts then None
    else if respond(from).Fetched? then Some(from)
    else FirstSuccess(respond, from + 1)
  }

  /** The cache after a fetched text was stored: one new row unless the day is cached already. */
  function CacheAfterStore(cache: seq<CachedHoroscope>, sign: string, today: int, text: string, health: DbHealth): seq<CachedHoroscope>
  {
    if health.storeOk && FindCached(cache, sign, today).None? then cache + [CachedHoroscope(sign, today, text)]
    else cache
  }

  /**
   * `fetch_horoscope` with the page-to-text step `render` as a parameter: a cached
   * text is returned without any request; otherwise up to three attempts, sleeping
   * `1 + attempt` seconds after each failed one but the last; the first fetched page
   * is rendered, stored under (sign, today) and returned whether or not the store succeeds.
   */
  method FetchHoroscopeWith<P>(db: Database, sign: string, today: int, health: DbHealth,
                               respond: nat -> Response<P>, render: P -> string)
    returns (text: string, attempts: nat, waits: seq<nat>)
    requires db.Valid()
    modifies db
    ensures db.Valid()
    ensures db.users == old(db.users) && db.subscriptions == old(db.subscriptions) && db.processed == old(db.processed)
    ensures attempts <= MaxAttempts
    ensures forall i :: 0 <= i < |waits| ==> waits[i] == i + 1
    ensures CachedContent(old(db.cache), sign, today, health).Some? ==>
      text == CachedContent(old(db.cache), sign, today, health).value && attempts == 0 && waits == [] && db.cache == old(db.cache)
    ensures CachedContent(old(db.cache), sign, today, health).None? && FirstSuccess(respond, 0).Some? ==>
      var j := FirstSuccess(respond, 0).value;
      text == render(respond(j).page) && attempts == j + 1 && |waits| == j
      && db.cache == CacheAfterStore(old(db.cache), sign, today, text, health)
    ensures CachedContent(old(db.cache), sign, today, health).None? && FirstSuccess(respond, 0).None? ==>
      text == GiveUpMessage && attempts == MaxAttempts && |waits| == 2 && db.cache == old(db.cache)
  {
    var cached := CachedContent(db.cache, sign, today, health);
    if cached.Some? {
      return cached.value, 0, [];
    }
    attempts, waits := 0, [];
    var attempt := 0;
    while attempt < MaxAttempts
      invariant 0 <= attempt <= MaxAttempts && attempts == attempt
      invariant forall a :: 0 <= a < attempt ==> respond(a).Failed?
      invariant |waits| == (if attempt < 2 then attempt else 2)
      invariant forall i :: 0 <= i < |waits| ==> waits[i] == i + 1
      invariant db.Valid() && db.cache == old(db.cache)
      invariant db.users == old(db.users) && db.subscriptions == old(db.subscriptions) && db.processed == old(db.processed)
    {
      attempts := attempts + 1;
      var response := respond(attempt);
      if response.Fetched? {
        text := render(response.page);
        if health.storeOk {
          var stored := db.AddCachedHoroscope(sign, today, text);
        }
        return;
      }
      if attempt < 2 {
        waits := waits + [1 + attempt];
      }
      attempt := attempt + 1;
    }
    text := GiveUpMessage;
  }

  /** `fetch_horoscope(sign)` of the current parser: the page's main text, cached per day. */
  method FetchHoroscope(db: Database, sign: string, today: int, health: DbHealth, respond: nat -> Response<Page>)
    returns (text: string, attempts: nat, waits: seq<nat>)
    requires db.Valid()
    modifies db
    ensures db.Valid()
    ensures db.users == old(db.users) && db.subscriptions == old(db.subscriptions) && db.processed == old(db.processed)
    ensures attempts <= MaxAttempts && forall i :: 0 <= i < |waits| ==> waits[i] == i + 1
    ensures CachedContent(old(db.cache), sign, today, health).Some? ==>
      text == CachedContent(old(db.cache), sign, today, health).value && attempts == 0 && db.cache == old(db.cache)
    ensures CachedContent(old(db.cache), sign, today, health).None? && FirstSuccess(respond, 0).Some? ==>
      text == MainText(respond(FirstSuccess(respond, 0).value).page)
      && db.cache == CacheAfterStore(old(db.cache), sign, today, text, health)
    ensures CachedContent(old(db.cache), sign, today, health).None? && FirstSuccess(respond, 0).None? ==>
      text == GiveUpMessage && attempts == MaxAttempts && db.cache == old(db.cache)
  {
    text, attempts, waits := FetchHoroscopeWith(db, sign, today, health, respond, MainText);
  }

  /** Once today's text is stored, the next lookup that goes through serves it from the cache. */
  lemma StoredTextIsServedNext(cache: seq<CachedHoroscope>, sign: string, today: int, text: string, health: DbHealth)
    requires UniqueSignDates(cache)
    requires health.storeOk && health.lookupOk
    requires CachedContent(cache, sign, today, health).None?
    ensures CachedContent(CacheAfterStore(cache, sign, today, text, health), sign, today, health) == Some(text)
  {
    var after := CacheAfterStore(cache, sign, today, text, health);
    assert after[|cache|] == CachedHoroscope(sign, today, text);
  }
}
