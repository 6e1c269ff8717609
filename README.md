# TGBot core, modelled in Dafny

TGBot is a Telegram bot that serves daily horoscopes per zodiac sign, keeps per-user sign
subscriptions in SQLite, sells a premium entitlement for Telegram Stars, and fetches tarot
readings and tarot spreads from two external sites. This project models the deterministic
core of the bot and proves properties of it:

- `models.dfy` (`Models`): the four tables (`users`, `subscriptions`, `cached_horoscopes`,
  `processed_updates`) are sequence fields of a `Database` class. Rows are kept in row-id order.
  The unique constraints are the class invariant `Valid()`. A commit that would break a
  constraint is refused and leaves the table unchanged.
- `handlers.dfy` (`Handlers`): `setup_handlers` is a pure routing function from an update to
  the handler it picks. The handlers are methods on the database: get-or-create on `/start`,
  upsert on subscribe, one-row or all-rows deactivation on unsubscribe, `/me`, the sign view
  and the admin statistics.
- `keyboards.dfy` (`Keyboards`): the inline and reply keyboards and the callback data their
  buttons carry. The sign keyboard is built by two loops, one per row and one per button.
- `payments.dfy` (`Payments`): the premium check and the renewal rule. Times are integer
  seconds, and the current time is a parameter.
- `astro_parser.dfy` (`AstroParser`): the spread table, the `act` card-id field, the
  position-header pattern, the spread-line formatter, the whitespace cleaner and the
  marker-based content extraction.
- `tarot_parser.dfy` (`TarotParser`): paragraph filtering with its fallback, the join, the
  truncation at a word boundary and the message assembly.
- `horo_parser.dfy` (`HoroParser`): the per-(sign, day) cache lookup and then at most three
  fetch attempts. Pauses of 1 s and 2 s separate the attempts. The first fetched text is
  stored in the cache. If every attempt fails, the bot answers with a fixed apology.
- `horo_parser_old.dfy` (`HoroParserOld`): the earlier parser, which also reads star ratings
  for finance, health and love. Its parts are the rating-number search, the star counter, the
  assignment of ratings to areas and the output block.
- `text.dfy` (`Text`) and `wrappers.dfy` (`Wrappers`) hold the parts of Python's `str`, `re`
  and `html` that these rely on, plus `Option` and the first-match search that
  `query(...).first()` performs.

HTTP requests and HTML parsing are inputs. A page is a datatype holding what each CSS
selector found. A fetch is a function from the attempt number to a response. The random
card sample, the current time and the Moscow calendar day are parameters.

Several source files (`app/keyboards.py`, `app/astro_parser.py`, `app/horo/parser_old.py`)
show their Russian words and emoji garbled: the UTF-8 bytes were decoded in a single-byte
code page. The model uses the text those bytes encode, for example "Овен" for the sign title
of `aries` and "⭐" for the rating star.

The repository's tests import helpers for a tarot quota counter, a callback debouncer, a
staleness filter on updates and an update-id check. None of these exist in the source files
modelled here, so the model follows the code. Only the `processed_updates` table with its
unique `update_id` is present, and it is modelled as a table.

## Model

| member | source | states |
|---|---|---|
| Wrappers.FirstIndex | app/handlers.py:48 | `first()` finds the first row that matches, none before it matches, and None means no row matches |
| Models.FindUser | app/handlers.py:48 | the user row found has the Telegram id; None exactly when no row has it |
| Models.FindSubscription | app/handlers.py:101 | the first row for (user, sign), active or not; None exactly when there is none |
| Models.FindCached | app/horo/parser.py:23 | the cache row found is for (sign, date); None exactly when there is none |
| Models.FoundSubscriptionIsOnly | app/models.py:24 | under UNIQUE (user_id, sign), any row with that key is the one `first()` returns |
| Models.InsertUser | app/models.py:8-9 | inserting a user is refused exactly when the `telegram_id` is taken; otherwise the row gets the next id and an empty premium expiry |
| Models.InsertSubscription | app/models.py:24 | inserting a subscription is refused exactly when the (user_id, sign) pair exists; otherwise the row is appended |
| Models.InsertCached | app/models.py:33 | inserting a cached horoscope is refused exactly when (sign, date) exists |
| Models.InsertProcessed | app/models.py:39 | recording an update id is refused exactly when it was recorded before |
| Models.InsertUserKeepsInvariants | app/models.py:8-9 | an accepted user insert keeps the ids sequential and the Telegram ids unique |
| Models.InsertSubscriptionKeepsUnique | app/models.py:24 | an accepted subscription insert keeps UNIQUE (user_id, sign) |
| Models.InsertCachedKeepsUnique | app/models.py:33 | an accepted cache insert keeps UNIQUE (sign, date) |
| Models.InsertProcessedKeepsUnique | app/models.py:39 | an accepted update record keeps `update_id` unique |
| Models.SecondUserRejected | app/models.py:9 | a second user with the same Telegram id is refused, whatever its profile |
| Models.SecondSubscriptionRejected | app/models.py:24 | a second row for the same (user, sign) is refused, whatever its `active` flag |
| Models.SecondCacheRowRejected | app/models.py:33 | a second cache row for the same (sign, date) is refused, whatever its content |
| Models.SecondUpdateRejected | app/models.py:39 | the same update id recorded twice fails the second time |
| Models.SubscriptionsOf | app/models.py:14-23 | `user.subscriptions` holds exactly the rows whose `user_id` is the user's id |
| Models.ActiveSigns | app/handlers.py:67 | the listed signs are exactly those with an active row of the user |
| Models.ActiveSignsDistinct | app/models.py:24 | thanks to the unique pair, no sign is listed twice for a user |
| Models.Database.constructor | app/models.py:6-40 | the database starts with empty tables that satisfy every constraint |
| Models.Database.AddUser | app/models.py:6-14 | add and commit a user: it succeeds exactly when the Telegram id is new; only `users` changes, by one row |
| Models.Database.AddSubscription | app/models.py:16-24 | add and commit a subscription, active by default: it succeeds exactly when the pair is new; only `subscriptions` changes |
| Models.Database.AddCachedHoroscope | app/models.py:26-33 | add and commit a cache row: it succeeds exactly when (sign, date) is new; only `cached_horoscopes` changes |
| Models.Database.AddProcessedUpdate | app/models.py:36-40 | record an update id: it succeeds exactly when the id is new; only `processed_updates` changes |
| Models.Database.SetActive | app/handlers.py:106 | `sub.active = ...` changes that one row's flag and nothing else |
| Models.Database.DeactivateAll | app/handlers.py:121 | the bulk update clears `active` on every row of the user and leaves other users' rows as they were |
| Models.Database.SetPremiumUntil | app/payments.py:44 | assigning `premium_until` changes that user's expiry only |
| Handlers.AfterColon | app/handlers.py:32 | `split(':', 1)[1]` is the suffix after the first colon: the part before it has no colon |
| Handlers.AfterColonOfPayload | app/handlers.py:32 | a payload `prefix + arg`, where the prefix ends in its only colon, splits back to `arg` |
| Handlers.UnknownTextFallsThrough | app/handlers.py:13-27 | a message without text is ignored; a text with none of the five command prefixes gets the unknown-command reply |
| Handlers.AdminGate | app/handlers.py:22-27 | `/subscribers` and `/send_now` are routed only for the admin id; for anyone else they fall through to the unknown-command reply |
| Handlers.CallbackSign | app/handlers.py:31-33 | `sign:<arg>` shows `arg` |
| Handlers.CallbackSub | app/handlers.py:34-36 | `sub:<arg>` subscribes to `arg` |
| Handlers.CallbackUnsub | app/handlers.py:37-39 | `unsub:<arg>` unsubscribes from `arg` |
| Handlers.CallbackBack | app/handlers.py:40-43 | `back:list` goes back to the sign list |
| Handlers.TarotButtonIgnored | app/handlers.py:28-43 | the `tarot:buy` button matches no callback prefix, so pressing it does nothing |
| Handlers.SignButtonRoundTrip | app/keyboards.py:45 | the data of every sign button dispatches to showing that very sign |
| Handlers.DetailKeyboardRoundTrip | app/keyboards.py:50-58 | the detail keyboard's first button dispatches to unsubscribe or subscribe of its sign; its second goes back |
| Handlers.BackKeyboardRoundTrip | app/keyboards.py:61-63 | the back button dispatches to the sign list |
| Handlers.MeButtonsRoundTrip | app/handlers.py:66-74 | on any keyboard `HandleMe` promises, row r holds one button, and it dispatches to unsubscribe from the r-th sign, or from `all` for the last row |
| Handlers.UserIdOf | app/handlers.py:95 | a user id is found exactly when some row has the Telegram id, and it is that row's id |
| Handlers.HandleStart | app/handlers.py:45-55 | after `/start` the user exists; a row is created only when none existed; no other table changes |
| Handlers.HandleSubscribe | app/handlers.py:92-111 | after subscribe the user exists, appended as one new row with an empty profile if it was unknown; it has an active row for the sign, appended when none existed and otherwise reactivated in place, so the table is exactly the old one with that one row set or appended; no other (user, sign) pair changes |
| Handlers.UpdateKeepsOtherRows | app/handlers.py:106 | flipping one row's flag leaves the rows of every other (user, sign) pair in the table |
| Handlers.HandleUnsubscribe | app/handlers.py:113-134 | unknown user: no change; `all`: every row of the user is deactivated and other rows are unchanged; a sign: only its row is deactivated, or nothing changes without one |
| Handlers.HandleMe | app/handlers.py:60-77 | None for an unknown user; otherwise the active signs, the text, one unsubscribe row per sign and an unsubscribe-all row exactly when there is a sign (the keyboard the code evidently intends; see "## Left out") |
| Handlers.HandleShowSign | app/handlers.py:79-90 | the detail keyboard offers unsubscribe exactly when the user has an active row for the sign; a cached text is served as is |
| Handlers.ActiveCountPositive | app/handlers.py:140 | a sign gets a group exactly when it has an active row |
| Handlers.ActiveCountIsSubscriberCount | app/handlers.py:140 | the per-sign count of active rows is its number of distinct subscribers |
| Handlers.HandleSubscribers | app/handlers.py:136-146 | the total is the number of users; the statistics hold exactly the signs with active rows, each with its active-row count |
| Payments.IsPremium | app/payments.py:19-28 | an unknown user or one without an expiry is not premium; otherwise premium exactly when the expiry is after now |
| Payments.NewExpiry | app/payments.py:42-44 | the expiry counts from the old expiry if it is still running, else from now, plus the days |
| Payments.RenewalKeepsPaidTime | app/payments.py:43 | renewal loses no paid time: the new expiry is at least the days past both now and the old expiry |
| Payments.PurchaseMakesPremium | app/payments.py:42-44 | after buying a positive number of days the user is premium now and until just before now plus the days |
| Payments.ActivatePremium | app/payments.py:31-48 | the user is created if absent; that user's expiry becomes the new expiry, which is returned; no other user changes |
| Keyboards.SignTitlesCoverSigns | app/keyboards.py:8-36 | every sign has a display name and no sign is listed twice |
| Keyboards.SignRow | app/keyboards.py:44-46 | one button per sign of the chunk, in order |
| Keyboards.SignRows | app/keyboards.py:42-46 | rows of three with the rest in the last row; button `m` of row `r` is that of sign `3r + m` |
| Keyboards.SignsKeyboard | app/keyboards.py:39-47 | four rows of three buttons that read off the twelve signs in order |
| Keyboards.SignDetailKeyboard | app/keyboards.py:50-58 | two rows of one button: `unsub:<sign>` when subscribed, else `sub:<sign>`, then `back:list` |
| Keyboards.BackKeyboard | app/keyboards.py:61-63 | one button whose data is `back:list` |
| Keyboards.JokeSubscriptionKeyboard | app/keyboards.py:66-68 | one resizable reply button |
| Keyboards.JokeLabelsDiffer | app/keyboards.py:67 | the label differs between the subscribed and the unsubscribed state |
| Keyboards.TarotKeyboard | app/keyboards.py:71-78 | a `tarot:buy` button above a `back:list` button |
| Text.TrimStartSpec | app/astro_parser.py:53 | `lstrip` drops only leading whitespace and leaves no leading whitespace |
| Text.TrimEndSpec | app/astro_parser.py:53 | `rstrip` drops only trailing whitespace and leaves no trailing whitespace |
| Text.StripSlice | app/astro_parser.py:62 | `strip` is a slice with only whitespace outside it and no whitespace at its ends |
| Text.Count | app/horo/parser_old.py:107-110 | the count is zero exactly when the character is absent |
| Text.Repeat | app/horo/parser_old.py:68 | `"⭐" * n` is n stars |
| Text.Lower | app/horo/parser_old.py:37 | `lower()` maps every character and keeps the length |
| Text.EscapeRoundTrip | app/astro_parser.py:82 | `html.escape` loses nothing: unescaping gives the line back |
| Text.EscapeHasNoMarkup | app/astro_parser.py:72-82 | escaped text contains no `<`, `>`, `"` or `'` |
| Text.SplitOn | app/astro_parser.py:123 | `split` yields at least one part, and no part contains the separator |
| Text.SplitJoin | app/astro_parser.py:46 | splitting a join on a separator that no part contains gives the parts back |
| AstroParser.SpreadsWellFormed | app/astro_parser.py:24-37 | both spreads exist, with https URLs and between 1 and 156 cards |
| AstroParser.PositionHeaderDecomposition | app/astro_parser.py:14 | the header matcher accepts exactly lines that are digits, optional spaces, a dash, optional spaces and then some text |
| AstroParser.CleanTextProperties | app/astro_parser.py:49-53 | cleaned text has no triple newline, no tab, no double space and no whitespace at its ends, and keeps every visible character |
| AstroParser.SqueezeCollapsesRun | app/astro_parser.py:51 | a run of spaces and tabs between two pieces that do not continue it becomes exactly one space, and each piece is squeezed on its own |
| AstroParser.CleanTextIdempotent | app/astro_parser.py:49-53 | cleaning twice is cleaning once |
| AstroParser.KeptIsFilter | app/astro_parser.py:61-67 | the kept lines are exactly the stripped lines that are neither blank nor digit-only |
| AstroParser.PartsAreEscaped | app/astro_parser.py:72-82 | plain and card-name lines reach the output escaped, and the escaping can be undone |
| AstroParser.SpreadLine | app/astro_parser.py:62-82 | one line: skipped if blank or digit-only, else header, bold card or plain part by the flag; the flag then says whether the last kept line is a header |
| AstroParser.SpreadParts | app/astro_parser.py:58-82 | the loop's parts are the parts of the kept lines: a header part for each header, the bold card part right after one, plain text otherwise |
| AstroParser.FormatSpreadLines | app/astro_parser.py:56-84 | the result is the cleaned join of those parts |
| AstroParser.NatToString | app/astro_parser.py:46 | `str(n)` is a non-empty string of digits |
| AstroParser.ParseNatToString | app/astro_parser.py:46 | `int(str(n)) == n` |
| AstroParser.CardIdsRoundTrip | app/astro_parser.py:40-46 | the `act` field split on `i` gives back exactly the drawn ids, in order |
| AstroParser.MapLines | app/astro_parser.py:126-132 | every content line is its source line stripped |
| AstroParser.ExtractContentBy | app/astro_parser.py:123-136 | the loop collects the normalised lines after the first marker line, or `lines[3:]` when there are none |
| AstroParser.ExtractContent | app/astro_parser.py:123-136 | the content lines follow the line holding the marker phrase, each stripped |
| AstroParser.SpreadResult | app/astro_parser.py:114-143 | a failed request or a page without `main_text` gives None; a spread text is never empty and is clean: no triple newline, tab or double space and no whitespace at its ends |
| AstroParser.FetchSpread | app/astro_parser.py:87-153 | an unknown key gives None with no request; otherwise one POST to the spread's URL whose `act` field splits on `i` into exactly the spread's number of distinct card ids in 1..156, and the clean formatted spread or None |
| TarotParser.KeptParagraphsSpec | app/tarot_parser.py:31-44 | the kept paragraphs are exactly the texts longer than 20 characters |
| TarotParser.AppendKept | app/tarot_parser.py:34-37 | one pass appends the texts that pass the filter |
| TarotParser.CollectParagraphs | app/tarot_parser.py:31-44 | the block paragraphs, or the fallback ones only when the blocks gave none |
| TarotParser.TarotReadingExists | app/tarot_parser.py:31-48 | there is a reading exactly when some block or fallback paragraph passes the filter |
| TarotParser.LastSpace | app/tarot_parser.py:54 | the index of the last space, or None exactly when there is no space |
| TarotParser.BeforeLastSpace | app/tarot_parser.py:54 | `rsplit(" ", 1)[0]` is the prefix before the last space, or the whole text without one |
| TarotParser.Truncate | app/tarot_parser.py:52-54 | at most 3500 characters: unchanged; longer: the first 3500 characters cut before their last space, and kept whole exactly when they hold no space, then `...` |
| TarotParser.TruncateBounds | app/tarot_parser.py:52-54 | a sent reading never exceeds 3503 characters |
| TarotParser.TarotMessage | app/tarot_parser.py:56-60 | the message length is the header's plus the card line's plus two plus the reading's |
| TarotParser.TarotMessageParts | app/tarot_parser.py:56-60 | the message starts with the header, names the card right after it when there is one, and ends with a blank line and the reading; without a card name it is exactly the header, the blank line and the reading |
| TarotParser.FetchTarotReading | app/tarot_parser.py:11-64 | a failed request gives None; otherwise the reading of the page, None without a kept paragraph |
| HoroParser.MainText | app/horo/parser.py:45-51 | the text of the first selector that found an element; with none, the first paragraph, or else the fixed message |
| HoroParser.NoTextOnlyWhenNothingFound | app/horo/parser.py:45-49 | the fixed message is used only when no selector found anything |
| HoroParser.CachedContent | app/horo/parser.py:18-30 | a cache hit is a stored row for (sign, today); a failing lookup counts as a miss |
| HoroParser.FirstSuccess | app/horo/parser.py:36-40 | the first attempt that fetched a page; every earlier one failed |
| HoroParser.FetchHoroscopeWith | app/horo/parser.py:15-74 | a hit is returned with no request; otherwise at most 3 attempts with waits 1 and 2 after failures; the first fetched text is stored and returned; after 3 failures the apology |
| HoroParser.FetchHoroscope | app/horo/parser.py:15-74 | the same policy with the page's main text |
| HoroParser.StoredTextIsServedNext | app/horo/parser.py:18-68 | once today's text is stored, the next working lookup serves it |
| HoroParserOld.SkipSpaces | app/horo/parser_old.py:129-131 | `\s*` takes the whole run of whitespace |
| HoroParserOld.MatchAt | app/horo/parser_old.py:127-132 | a pattern match captures a digit position |
| HoroParserOld.FirstMatch | app/horo/parser_old.py:135 | `re.search` finds the leftmost matching position |
| HoroParserOld.Capture | app/horo/parser_old.py:135-137 | the captured number is the value of a digit of the text |
| HoroParserOld.FirstRatingDigit | app/horo/parser_old.py:142-146 | the first digit whose value is in 1..5 |
| HoroParserOld.RatingFrom | app/horo/parser_old.py:134-151 | the result is in 0..5, zero exactly when no digit of the text is in 1..5, and otherwise the value of a digit of the text |
| HoroParserOld.ExtractRatingNumber | app/horo/parser_old.py:118-151 | empty text gives 0; every result is in 0..5 and zero exactly when no digit is in 1..5 |
| HoroParserOld.OutOfRangeHitSkipped | app/horo/parser_old.py:134-139 | a pattern that captures 0 or 6..9 does not end the search |
| HoroParserOld.FirstInRangePatternWins | app/horo/parser_old.py:134-139 | the first pattern whose leftmost match captures 1..5 decides the rating |
| HoroParserOld.FallbackIsFirstRatingDigit | app/horo/parser_old.py:141-146 | with no pattern hit in range, the rating is the first digit in 1..5 |
| HoroParserOld.StarImages | app/horo/parser_old.py:91-97 | no more star images than images |
| HoroParserOld.StarSvgs | app/horo/parser_old.py:100-103 | no more star `<svg>`s than `<svg>`s |
| HoroParserOld.StarCount | app/horo/parser_old.py:82-116 | a missing element gives 0; a star emoji count, or else a black-star count, replaces the image and svg count |
| HoroParserOld.CountStarsInElement | app/horo/parser_old.py:82-116 | the counting loops compute that star count |
| HoroParserOld.Set | app/horo/parser_old.py:68-75 | setting one area's rating leaves the other two |
| HoroParserOld.CategoryOf | app/horo/parser_old.py:67-75 | finance when its stem occurs; health only without finance; love only without both |
| HoroParserOld.ReadItem | app/horo/parser_old.py:55-75 | one element sets the area it names when it has a positive star count |
| HoroParserOld.ReadItems | app/horo/parser_old.py:53-75 | the inner loop applies the elements in order |
| HoroParserOld.ExtractRatings | app/horo/parser_old.py:15-80 | the nested loops compute the ratings of the containers |
| HoroParserOld.ApplyItemSpec | app/horo/parser_old.py:65-75 | one element sets an area exactly when it rates it, and then to its number of stars; otherwise the area is unchanged |
| HoroParserOld.ApplyItemsSpec | app/horo/parser_old.py:53-75 | elements keep every rating a question mark or stars; an area is set exactly when one of them rates it, to the stars of the last one that does, and is otherwise unchanged |
| HoroParserOld.LastRaterStep | app/horo/parser_old.py:65-75 | a later element that rates an area overrides the earlier ones, and one that does not keeps them |
| HoroParserOld.ApplyItemsAppend | app/horo/parser_old.py:53-75 | reading two lists of elements one after the other is reading their concatenation |
| HoroParserOld.RatingsOfConsideredItems | app/horo/parser_old.py:33-75 | the container loop is the element fold over the elements of the considered containers, in order |
| HoroParserOld.RatingsOfSpec | app/horo/parser_old.py:15-80 | every rating defaults to the question mark; it is set exactly when an element of a considered container rates its area, and is then the stars of the last such element |
| HoroParserOld.LongContainerIgnored | app/horo/parser_old.py:42-43 | a container with more than 500 characters of text changes no rating |
| HoroParserOld.FormatOutput | app/horo/parser_old.py:196-201 | the reply built with `+=` is the text, a blank line and the rating block |
| HoroParserOld.RatingBlockLines | app/horo/parser_old.py:197-201 | the rating block is exactly five lines: rule, finance, health, love, rule |
| HoroParserOld.FetchHoroscope | app/horo/parser_old.py:154-224 | the cache, retry and apology policy of the current parser, with the rating block in the text |

## Left out

- Network and HTML: the httpx requests and the BeautifulSoup traversal are inputs. Page datatypes hold what the selectors found, and `get_text(strip=True)` results are given already stripped.
- Exceptions: a request or parse exception is a `Failed` or `SpreadFailed` response, or a `None` page. A failing cache lookup or store is a `DbHealth` flag. The `try`/`except` around `extract_ratings` and `_count_stars_in_element` is not modelled, because their model cannot raise.
- Time: `asyncio.sleep` is the returned list of waits in seconds. The Moscow calendar day and the wall-clock `now` are integer parameters. Python's naive/aware `datetime` comparison is not modelled.
- Randomness: `random.sample` is the `sample` input. `IsSample` states what it guarantees.
- Replies: the texts sent through `bot.send_message`, `answer_callback_query` and `edit_message_*` are not modelled, except the keyboards and the `/me` text. `handle_list` and the `back:list` edit reply with `Keyboards.SignsKeyboard`.
- `handle_send_now` and `app/scheduler.py` are not part of this model, because they are fan-out I/O. Routing to `/send_now` is modelled.
- `send_premium_invoice` is a foreign call and is left out. Its price is kept as `PremiumPriceStars`.
- `app/bot.py`, `app/webhook.py`, `app/main.py`, `app/db.py`, `app/rate_limit.py`, `app/joke_parser.py` and `scripts/set_webhook.py` are not part of this model, because they are framework, configuration and HTTP glue.
- The quota, debounce, staleness and schema helpers that the tests import have no source in the files modelled here, so they are not modelled.
- `premium_until`: `app/payments.py` reads and writes `User.premium_until`, but `app/models.py` does not declare the column. The model adds it as an optional integer.
- Character classes: `\d`, `isdigit()` and `int()` cover ASCII digits only. `lower()`, `upper()` and `title()` map Latin and Cyrillic letters only. Python applies the full Unicode tables, where for example `lower()` of a few characters changes the length.
- The `users`/`subscriptions` relationship is a query over the tables. Foreign keys, `created_at`, `fetched_at` and `processed_at` are not modelled.
- Handlers.HandleMe: gives the reply and keyboard `handle_me` evidently builds. As written, the code creates `types.InlineKeyboardMarkup()` with no rows and calls `.add` on it (`app/handlers.py:70-74`). Under aiogram 3, which `app/bot.py:5` imports, that markup requires `inline_keyboard` and has no `.add`, so a registered user gets no reply. The model does not capture that failure.
- Handlers.HandleShowSign: states the text only for a cache hit. For a fetch, the text is the one `HoroParser.FetchHoroscope` specifies, and that call's other guarantees are not restated here.
- HoroParser.FetchHoroscope: omits the number of waits that `HoroParser.FetchHoroscopeWith` states.
- HoroParserOld.FetchHoroscope: omits the number of waits that `HoroParser.FetchHoroscopeWith` states.
- HoroParserOld.FetchHoroscope: the earlier parser's retry loop is the same as the current one, so the model reuses `HoroParser.FetchHoroscopeWith` with a different page renderer.
- The `tarot:buy` callback has no handler in the dispatcher; `Handlers.TarotButtonIgnored` states that it is ignored.
