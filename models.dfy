/**
 * The four tables of the bot's SQLite database and the uniqueness constraints
 * declared on them. Each table is a sequence of rows in insertion (row id) order;
 * a commit that would break a unique constraint is refused and leaves the table
 * as it was.
 */
module Models {
  import opened Wrappers

  /** Profile fields copied from the Telegram sender; the bot never inspects them. */
  datatype Profile = Profile(username: Option<string>, firstName: Option<string>, lastName: Option<string>)

  /** A profile with every field left NULL (`User(telegram_id=...)`). */
  const NoProfile: Profile := Profile(None, None, None)

  /**
   * A row of `users`: `id` is the autoincrement primary key, `telegramId` the
   * Telegram account, `premiumUntil` the premium expiry in seconds (NULL when never bought).
   */
  datatype User = User(id: nat, telegramId: int, profile: Profile, premiumUntil: Option<int>)

  /** A row of `subscriptions`: user `userId` follows `sign`; unsubscribing clears `active`. */
  datatype Subscription = Subscription(userId: nat, sign: string, active: bool)

  /** A row of `cached_horoscopes`: the text served for `sign` on calendar day `date`. */
  datatype CachedHoroscope = CachedHoroscope(sign: string, date: int, content: string)

  // ---------------------------------------------------------------------------
  // Table invariants

  /** Primary keys are handed out 1, 2, 3, ... and rows are never deleted. */
  ghost predicate SequentialIds(users: seq<User>)
  {
    forall i :: 0 <= i < |users| ==> users[i].id == i + 1
  }

  /** `telegram_id` is UNIQUE. */
  ghost predicate UniqueTelegramIds(users: seq<User>)
  {
    forall i, j :: 0 <= i < j < |users| ==> users[i].telegramId != users[j].telegramId
  }

  /** UNIQUE (user_id, sign). */
  ghost predicate UniqueUserSigns(subs: seq<Subscription>)
  {
    forall i, j :: 0 <= i < j < |subs| ==> subs[i].userId != subs[j].userId || subs[i].sign != subs[j].sign
  }

  /** UNIQUE (sign, date). */
  ghost predicate UniqueSignDates(cache: seq<CachedHoroscope>)
  {
    forall i, j :: 0 <= i < j < |cache| ==> cache[i].sign != cache[j].sign || cache[i].date != cache[j].date
  }

  /** `update_id` is UNIQUE. */
  ghost predicate UniqueUpdateIds(processed: seq<int>)
  {
    forall i, j :: 0 <= i < j < |processed| ==> processed[i] != processed[j]
  }

  // ---------------------------------------------------------------------------
  // Queries: `db.query(T).filter_by(...).first()`

  /** The first `users` row with this `telegram_id`. */
  function FindUser(users: seq<User>, telegramId: int): (r: Option<nat>)
    ensures r.Some? ==> r.value < |users| && users[r.value].telegramId == telegramId
    ensures r.None? <==> forall k :: 0 <= k < |users| ==> users[k].telegramId != telegramId
  {
    FirstIndex(users, (u: User) => u.telegramId == telegramId)
  }

  /** The first `subscriptions` row for (user_id, sign), active or not. */
  function FindSubscription(subs: seq<Subscription>, userId: nat, sign: string): (r: Option<nat>)
    ensures r.Some? ==> r.value < |subs| && subs[r.value].userId == userId && subs[r.value].sign == sign
    ensures r.Some? ==> forall k :: 0 <= k < r.value ==> subs[k].userId != userId || subs[k].sign != sign
    ensures r.None? <==> forall k :: 0 <= k < |subs| ==> subs[k].userId != userId || subs[k].sign != sign
  {
    FirstIndex(subs, (s: Subscription) => s.userId == userId && s.sign == sign)
  }

  /** The first `cached_horoscopes` row for (sign, date). */
  function FindCached(cache: seq<CachedHoroscope>, sign: string, date: int): (r: Option<nat>)
    ensures r.Some? ==> r.value < |cache| && cache[r.value].sign == sign && cache[r.value].date == date
    ensures r.None? <==> forall k :: 0 <= k < |cache| ==> cache[k].sign != sign || cache[k].date != date
  {
    FirstIndex(cache, (c: CachedHoroscope) => c.sign == sign && c.date == date)
  }

  /** Under UNIQUE (user_id, sign) the row `first()` finds is the only one with that key. */
  lemma FoundSubscriptionIsOnly(subs: seq<Subscription>, userId: nat, sign: string, k: nat)
    requires UniqueUserSigns(subs)
    requires k < |subs| && subs[k].userId == userId && subs[k].sign == sign
    ensures FindSubscription(subs, userId, sign) == Some(k)
  {
  }

  // ---------------------------------------------------------------------------
  // Inserts: `db.add(row); db.commit()`; None is the IntegrityError of the commit

  /** Inserts a user; refused when the `telegram_id` is taken. */
  function InsertUser(users: seq<User>, telegramId: int, profile: Profile): (r: Option<seq<User>>)
    ensures r.None? <==> exists k :: 0 <= k < |users| && users[k].telegramId == telegramId
    ensures r.Some? ==> r.value == users + [User(|users| + 1, telegramId, profile, None)]
  {
    if FindUser(users, telegramId).Some? then None
    else Some(users + [User(|users| + 1, telegramId, profile, None)])
  }

  /** Inserts a subscription; refused when the user already has a row for the sign. */
  function InsertSubscription(subs: seq<Subscription>, userId: nat, sign: string, active: bool): (r: Option<seq<Subscription>>)
    ensures r.None? <==> exists k :: 0 <= k < |subs| && subs[k].userId == userId && subs[k].sign == sign
    ensures r.Some? ==> r.value == subs + [Subscription(userId, sign, active)]
  {
    if FindSubscription(subs, userId, sign).Some? then None
    else Some(subs + [Subscription(userId, sign, active)])
  }

  /** Inserts a cached horoscope; refused when (sign, date) is already cached. */
  function InsertCached(cache: seq<CachedHoroscope>, sign: string, date: int, content: string): (r: Option<seq<CachedHoroscope>>)
    ensures r.None? <==> exists k :: 0 <= k < |cache| && cache[k].sign == sign && cache[k].date == date
    ensures r.Some? ==> r.value == cache + [CachedHoroscope(sign, date, content)]
  {
    if FindCached(cache, sign, date).Some? then None
    else Some(cache + [CachedHoroscope(sign, date, content)])
  }

  /** Records a processed update; refused when the id was recorded before. */
  function InsertProcessed(processed: seq<int>, updateId: int): (r: Option<seq<int>>)
    ensures r.None? <==> updateId in processed
    ensures r.Some? ==> r.value == processed + [updateId]
  {
    if updateId in processed then None else Some(processed + [updateId])
  }

  lemma InsertUserKeepsInvariants(users: seq<User>, telegramId: int, profile: Profile)
    requires SequentialIds(users) && UniqueTelegramIds(users)
    ensures InsertUser(users, telegramId, profile).Some? ==>
      SequentialIds(InsertUser(users, telegramId, profile).value) && UniqueTelegramIds(InsertUser(users, telegramId, profile).value)
  {
  }

  lemma InsertSubscriptionKeepsUnique(subs: seq<Subscription>, userId: nat, sign: string, active: bool)
    requires UniqueUserSigns(subs)
    ensures InsertSubscription(subs, userId, sign, active).Some? ==> UniqueUserSigns(InsertSubscription(subs, userId, sign, active).value)
  {
  }

  lemma InsertCachedKeepsUnique(cache: seq<CachedHoroscope>, sign: string, date: int, content: string)
    requires UniqueSignDates(cache)
    ensures InsertCached(cache, sign, date, content).Some? ==> UniqueSignDates(InsertCached(cache, sign, date, content).value)
  {
  }

  lemma InsertProcessedKeepsUnique(processed: seq<int>, updateId: int)
    requires UniqueUpdateIds(processed)
    ensures InsertProcessed(processed, updateId).Some? ==> UniqueUpdateIds(InsertProcessed(processed, updateId).value)
  {
  }

  /** A second subscription for the same (user, sign) is refused, whatever its `active` flag. */
  lemma SecondSubscriptionRejected(subs: seq<Subscription>, userId: nat, sign: string, a1: bool, a2: bool)
    requires InsertSubscription(subs, userId, sign, a1).Some?
    ensures InsertSubscription(InsertSubscription(subs, userId, sign, a1).value, userId, sign, a2).None?
  {
    var t := InsertSubscription(subs, userId, sign, a1).value;
    assert t[|subs|] == Subscription(userId, sign, a1);
  }

  /** A second cache row for the same (sign, date) is refused, whatever its content. */
  lemma SecondCacheRowRejected(cache: seq<CachedHoroscope>, sign: string, date: int, c1: string, c2: string)
    requires InsertCached(cache, sign, date, c1).Some?
    ensures InsertCached(InsertCached(cache, sign, date, c1).value, sign, date, c2).None?
  {
    var t := InsertCached(cache, sign, date, c1).value;
    assert t[|cache|] == CachedHoroscope(sign, date, c1);
  }

  /** Recording the same update id twice fails the second time. */
  lemma SecondUpdateRejected(processed: seq<int>, updateId: int)
    requires InsertProcessed(processed, updateId).Some?
    ensures InsertProcessed(InsertProcessed(processed, updateId).value, updateId).None?
  {
    var t := InsertProcessed(processed, updateId).value;
    assert t[|processed|] == updateId;
  }

  /** A second user with the same `telegram_id` is refused. */
  lemma SecondUserRejected(users: seq<User>, telegramId: int, p1: Profile, p2: Profile)
    requires InsertUser(users, telegramId, p1).Some?
    ensures InsertUser(InsertUser(users, telegramId, p1).value, telegramId, p2).None?
  {
    var t := InsertUser(users, telegramId, p1).value;
    assert t[|users|].telegramId == telegramId;
  }

  // ---------------------------------------------------------------------------
  // The `User.subscriptions` relationship

  /** `user.subscriptions`: the rows whose `user_id` is the user's id, in table order. */
  function SubscriptionsOf(subs: seq<Subscription>, userId: nat): (r: seq<Subscription>)
    ensures |r| <= |subs|
    ensures forall s :: s in r <==> s in subs && s.userId == userId
  {
    if |subs| == 0 then []
    else
      var rest := SubscriptionsOf(subs[1..], userId);
      assert forall s :: s in subs <==> s == subs[0] || s in subs[1..];
      if subs[0].userId == userId then [subs[0]] + rest else rest
  }

  /** `[s.sign for s in user.subscriptions if s.active]`. */
  function ActiveSigns(subs: seq<Subscription>, userId: nat): (r: seq<string>)
    ensures |r| <= |subs|
    ensures forall sign :: sign in r <==> Subscription(userId, sign, true) in subs
  {
    if |subs| == 0 then []
    else
      var rest := ActiveSigns(subs[1..], userId);
      assert forall s :: s in subs <==> s == subs[0] || s in subs[1..];
      if subs[0].userId == userId && subs[0].active then [subs[0].sign] + rest else rest
  }

  /** Each sign appears at most once among a user's active signs. */
  lemma {:induction false} ActiveSignsDistinct(subs: seq<Subscription>, userId: nat)
    requires UniqueUserSigns(subs)
    ensures forall i, j :: 0 <= i < j < |ActiveSigns(subs, userId)| ==> ActiveSigns(subs, userId)[i] != ActiveSigns(subs, userId)[j]
  {
    if |subs| > 0 {
      var tail := subs[1..];
      assert UniqueUserSigns(tail) by {
        forall i, j | 0 <= i < j < |tail| ensures tail[i].userId != tail[j].userId || tail[i].sign != tail[j].sign {
          assert tail[i] == subs[i + 1] && tail[j] == subs[j + 1];
        }
      }
      ActiveSignsDistinct(tail, userId);
      if subs[0].userId == userId && subs[0].active {
        assert subs[0].sign !in ActiveSigns(tail, userId) by {
          forall k | 0 <= k < |tail| ensures tail[k] != Subscription(userId, subs[0].sign, true) {
            assert tail[k] == subs[k + 1];
          }
        }
      }
    }
  }

  // ---------------------------------------------------------------------------
  // The database

  /** The open SQLite database: the four tables and their constraints. */
  class Database {
    var users: seq<User>
    var subscriptions: seq<Subscription>
    var cache: seq<CachedHoroscope>
    var processed: seq<int>

    /** Every declared unique constraint holds. */
    ghost predicate Valid()
      reads this
    {
      && SequentialIds(users)
      && UniqueTelegramIds(users)
      && UniqueUserSigns(subscriptions)
      && UniqueSignDates(cache)
      && UniqueUpdateIds(processed)
    }

    /** `Base.metadata.create_all`: empty tables. */
    constructor ()
      ensures Valid()
      ensures users == [] && subscriptions == [] && cache == [] && processed == []
    {
      users, subscriptions, cache, processed := [], [], [], [];
    }

    /** Adds a user and commits; `ok` is false when the commit hits the unique `telegram_id`. */
    method AddUser(telegramId: int, profile: Profile) returns (ok: bool)
      requires Valid()
      modifies this
      ensures Valid()
      ensures ok <==> FindUser(old(users), telegramId).None?
      ensures users == if ok then old(users) + [User(|old(users)| + 1, telegramId, profile, None)] else old(users)
      ensures subscriptions == old(subscriptions) && cache == old(cache) && processed == old(processed)
    {
      var r := InsertUser(users, telegramId, profile);
      InsertUserKeepsInvariants(users, telegramId, profile);
      ok := r.Some?;
      if ok {
        users := r.value;
      }
    }

    /** Adds a subscription (active unless stated otherwise) and commits; refused on a duplicate (user_id, sign). */
    method AddSubscription(userId: nat, sign: string, active: bool := true) returns (ok: bool)
      requires Valid()
      modifies this
      ensures Valid()
      ensures ok <==> FindSubscription(old(subscriptions), userId, sign).None?
      ensures subscriptions == if ok then old(subscriptions) + [Subscription(userId, sign, active)] else old(subscriptions)
      ensures users == old(users) && cache == old(cache) && processed == old(processed)
    {
      var r := InsertSubscription(subscriptions, userId, sign, active);
      InsertSubscriptionKeepsUnique(subscriptions, userId, sign, active);
      ok := r.Some?;
      if ok {
        subscriptions := r.value;
      }
    }

    /** Stores a horoscope text for (sign, date) and commits; refused when that day is cached already. */
    method AddCachedHoroscope(sign: string, date: int, content: string) returns (ok: bool)
      requires Valid()
      modifies this
      ensures Valid()
      ensures ok <==> FindCached(old(cache), sign, date).None?
      ensures cache == if ok then old(cache) + [CachedHoroscope(sign, date, content)] else old(cache)
      ensures users == old(users) && subscriptions == old(subscriptions) && processed == old(processed)
    {
      var r := InsertCached(cache, sign, date, content);
      InsertCachedKeepsUnique(cache, sign, date, content);
      ok := r.Some?;
      if ok {
        cache := r.value;
      }
    }

    /** Records an update id and commits; refused when the id was processed before. */
    method AddProcessedUpdate(updateId: int) returns (ok: bool)
      requires Valid()
      modifies this
      ensures Valid()
      ensures ok <==> updateId !in old(processed)
      ensures processed == if ok then old(processed) + [updateId] else old(processed)
      ensures users == old(users) && subscriptions == old(subscriptions) && cache == old(cache)
    {
      var r := InsertProcessed(processed, updateId);
      InsertProcessedKeepsUnique(processed, updateId);
      ok := r.Some?;
      if ok {
        processed := r.value;
      }
    }

    /** `sub.active = active; db.commit()` on the row at `index`. */
    method SetActive(index: nat, active: bool)
      requires Valid() && index < |subscriptions|
      modifies this
      ensures Valid()
      ensures subscriptions == old(subscriptions)[index := old(subscriptions)[index].(active := active)]
      ensures users == old(users) && cache == old(cache) && processed == old(processed)
    {
      subscriptions := subscriptions[index := subscriptions[index].(active := active)];
    }

    /** `query(Subscription).filter_by(user_id=userId).update({'active': False})`. */
    method DeactivateAll(userId: nat)
      requires Valid()
      modifies this
      ensures Valid()
      ensures |subscriptions| == |old(subscriptions)|
      ensures forall i :: 0 <= i < |subscriptions| ==>
        subscriptions[i] == if old(subscriptions)[i].userId == userId then old(subscriptions)[i].(active := false) else old(subscriptions)[i]
      ensures users == old(users) && cache == old(cache) && processed == old(processed)
    {
      var rows := subscriptions;
      subscriptions := seq(|rows|, i requires 0 <= i < |rows| =>
        if rows[i].userId == userId then rows[i].(active := false) else rows[i]);
    }

    /** `user.premium_until = until; db.commit()` on the user at `index`. */
    method SetPremiumUntil(index: nat, until: int)
      requires Valid() && index < |users|
      modifies this
      ensures Valid()
      ensures users == old(users)[index := old(users)[index].(premiumUntil := Some(until))]
      ensures subscriptions == old(subscriptions) && cache == old(cache) && processed == old(processed)
    {
      users := users[index := users[index].(premiumUntil := Some(until))];
    }
  }
}
