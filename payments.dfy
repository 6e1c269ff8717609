/**
 * Premium entitlement bought with Telegram Stars: whether a user is premium now,
 * and how a purchase sets or extends the expiry. Times are integer seconds; the
 * current time is a parameter.
 */
module Payments {
  import opened Wrappers
  import opened Models

  /** Price of the premium invoice, in Stars. */
  const PremiumPriceStars: nat := 50

  /** Days one purchase adds. */
  const PremiumDays: nat := 30

  /** `timedelta(days=1)` in seconds. */
  const SecondsPerDay: nat := 86400

  /** A stored expiry is active when it is set and strictly after `now`. */
  predicate IsActive(until: Option<int>, now: int)
  {
    until.Some? && until.value > now
  }

  /** `_is_premium`: the first user row with this Telegram id has an active expiry. */
  function IsPremium(users: seq<User>, telegramId: int, now: int): (premium: bool)
    ensures FindUser(users, telegramId).None? ==> !premium
    ensures FindUser(users, telegramId).Some? ==>
      (premium <==> IsActive(users[FindUser(users, telegramId).value].premiumUntil, now))
  {
    match FindUser(users, telegramId)
    case None => false
    case Some(k) => IsActive(users[k].premiumUntil, now)
  }

  /** The expiry after buying `days` more days: counted from the current expiry if still running, else from now. */
  function NewExpiry(current: Option<int>, now: int, days: nat): (expiry: int)
    ensures IsActive(current, now) ==> expiry == current.value + days * SecondsPerDay
    ensures !IsActive(current, now) ==> expiry == now + days * SecondsPerDay
  {
    var base := if current.Some? && current.value > now then current.value else now;
    base + days * SecondsPerDay
  }

  /** No paid time is lost: the new expiry is `days` past both now and the old expiry. */
  lemma RenewalKeepsPaidTime(current: Option<int>, now: int, days: nat)
    ensures NewExpiry(current, now, days) >= now + days * SecondsPerDay
    ensures current.Some? ==> NewExpiry(current, now, days) >= current.value + days * SecondsPerDay
  {
  }

  /** For a positive number of days, the user is premium right after buying, and still is `days` days minus a second later. */
  lemma PurchaseMakesPremium(current: Option<int>, now: int, days: nat)
    requires days > 0
    ensures IsActive(Some(NewExpiry(current, now, days)), now)
    ensures IsActive(Some(NewExpiry(current, now, days)), now + days * SecondsPerDay - 1)
  {
  }

  /**
   * `_activate_premium`: creates the user if absent, stores the new expiry in
   * its row and returns it.
   */
  method ActivatePremium(db: Database, telegramId: int, now: int, days: nat := PremiumDays) returns (expiry: int)
    requires db.Valid()
    modifies db
    ensures db.Valid()
    ensures FindUser(db.users, telegramId).Some?
    ensures var k := FindUser(db.users, telegramId).value;
      var before := if k < |old(db.users)| then old(db.users)[k].premiumUntil else None;
      && expiry == NewExpiry(before, now, days)
      && db.users[k] == (if k < |old(db.users)| then old(db.users)[k] else User(k + 1, telegramId, NoProfile, None)).(premiumUntil := Some(expiry))
      && |db.users| == |old(db.users)| + (if k < |old(db.users)| then 0 else 1)
      && forall i :: 0 <= i < |old(db.users)| && i != k ==> db.users[i] == old(db.users)[i]
    ensures FindUser(old(db.users), telegramId).Some? ==> FindUser(db.users, telegramId) == FindUser(old(db.users), telegramId)
    ensures days > 0 ==> IsPremium(db.users, telegramId, now)
    ensures db.subscriptions == old(db.subscriptions) && db.cache == old(db.cache) && db.processed == old(db.processed)
  {
    if FindUser(db.users, telegramId).None? {
      var added := db.AddUser(telegramId, NoProfile);
      assert db.users[|db.users| - 1].telegramId == telegramId;
    }
    var k := FindUser(db.users, telegramId).value;
    expiry := NewExpiry(db.users[k].premiumUntil, now, days);
    ghost var mid := db.users;
    db.SetPremiumUntil(k, expiry);
    assert forall i :: 0 <= i < |mid| ==> db.users[i].telegramId == mid[i].telegramId;
    var r := FindUser(db.users, telegramId).value;
    assert db.users[r].telegramId == db.users[k].telegramId;
    assert UniqueTelegramIds(db.users);
    assert r == k;
    assert db.users[k].premiumUntil == Some(expiry);
  }
}
