/**
 * The update dispatcher and the command/button handlers: prefix routing with an
 * admin gate, and the handlers as operations on the database tables.
 */
module Handlers {
  import opened Wrappers
  import opened Text
  import opened Models
  import opened Keyboards
  import HoroParser

  /** `ADMIN_ID` when the environment leaves it unset. */
  const DefaultAdminId: int := 0

  /** The shape of an incoming update, reduced to what the dispatcher looks at. */
  datatype Update =
    | MessageUpdate(senderId: int, text: Option<string>)
    | CallbackUpdate(senderId: int, data: string)
    | OtherUpdate

  /** The handler the dispatcher picks. */
  datatype Action =
    | Start
    | List
    | Me
    | Subscribers
    | SendNow
    | UnknownCommand
    | ShowSign(sign: string)
    | Subscribe(sign: string)
    | Unsubscribe(sign: string)
    | BackToList
    | Ignore

  /** `data.split(':', 1)[1]`: everything after the first colon. */
  function AfterColon(data: string): (arg: string)
    requires ':' in data
    ensures |arg| < |data| && arg == data[|data| - |arg|..]
    ensures ':' !in data[..|data| - |arg| - 1] && data[|data| - |arg| - 1] == ':'
  {
    var i := FirstIndex(data, (c: char) => c == ':').value;
    assert forall k :: 0 <= k < i ==> data[..i][k] == data[k];
    data[i + 1..]
  }

  /** A string that starts with `p` has `p`'s characters in front. */
  lemma PrefixChar(s: string, p: string, k: nat)
    requires StartsWith(s, p) && k < |p|
    ensures s[k] == p[k]
  {
    assert s[..|p|][k] == s[k];
  }

  /** Data that starts with a prefix ending in a colon contains a colon. */
  lemma PrefixHasColon(data: string, p: string)
    requires StartsWith(data, p) && |p| > 0 && p[|p| - 1] == ':'
    ensures ':' in data
  {
    PrefixChar(data, p, |p| - 1);
  }

  /** Routing of a callback's data by its prefix. */
  function DispatchCallback(data: string): Action
  {
    if StartsWith(data, "sign:") then
      PrefixHasColon(data, "sign:");
      ShowSign(AfterColon(data))
    else if StartsWith(data, "sub:") then
      PrefixHasColon(data, "sub:");
      Subscribe(AfterColon(data))
    else if StartsWith(data, "unsub:") then
      PrefixHasColon(data, "unsub:");
      Unsubscribe(AfterColon(data))
    else if StartsWith(data, "back:") then
      PrefixHasColon(data, "back:");
      if AfterColon(data) == "list" then BackToList else Ignore
    else Ignore
  }

  /** `setup_handlers`: the first matching command prefix wins; admin commands need `senderId == adminId`. */
  function Dispatch(update: Update, adminId: int): Action
  {
    match update
    case MessageUpdate(sender, text) =>
      if text.None? || text.value == "" then Ignore
      else
        var t := text.value;
        if StartsWith(t, "/start") then Start
        else if StartsWith(t, "/list") then List
        else if StartsWith(t, "/me") then Me
        else if StartsWith(t, "/subscribers") && sender == adminId then Subscribers
        else if StartsWith(t, "/send_now") && sender == adminId then SendNow
        else UnknownCommand
    case CallbackUpdate(_, data) => DispatchCallback(data)
    case OtherUpdate => Ignore
  }

  /** The admin commands run only for the admin; anyone else gets the unknown-command reply. */
  lemma AdminGate(sender: int, text: string, adminId: int)
    requires text != ""
    ensures Dispatch(MessageUpdate(sender, Some(text)), adminId) in {Subscribers, SendNow} ==> sender == adminId
    ensures sender != adminId && (StartsWith(text, "/subscribers") || StartsWith(text, "/send_now")) ==>
      Dispatch(MessageUpdate(sender, Some(text)), adminId) == UnknownCommand
  {
    if StartsWith(text, "/subscribers") {
      PrefixChar(text, "/subscribers", 1);
      PrefixChar(text, "/subscribers", 2);
      DiffersAt(text, "/start", 2);
      DiffersAt(text, "/list", 1);
      DiffersAt(text, "/me", 1);
    } else if StartsWith(text, "/send_now") {
      PrefixChar(text, "/send_now", 1);
      PrefixChar(text, "/send_now", 2);
      DiffersAt(text, "/start", 2);
      DiffersAt(text, "/list", 1);
      DiffersAt(text, "/me", 1);
    }
  }

  /** A message without text does nothing; a text that starts with no command gets the unknown-command reply. */
  lemma UnknownTextFallsThrough(sender: int, text: Option<string>, adminId: int)
    ensures (text.None? || text == Some("")) ==> Dispatch(MessageUpdate(sender, text), adminId) == Ignore
    ensures (text.Some? && text.value != "" &&
      !StartsWith(text.value, "/start") && !StartsWith(text.value, "/list") && !StartsWith(text.value, "/me")
      && !StartsWith(text.value, "/subscribers") && !StartsWith(text.value, "/send_now")) ==>
      Dispatch(MessageUpdate(sender, text), adminId) == UnknownCommand
  {
  }

  /** A payload `prefix + arg`, where `prefix` ends in its only colon, splits back into `arg`. */
  lemma AfterColonOfPayload(prefix: string, arg: string)
    requires |prefix| > 0 && prefix[|prefix| - 1] == ':' && ':' !in prefix[..|prefix| - 1]
    ensures AfterColon(prefix + arg) == arg
  {
    var data := prefix + arg;
    assert data[..|prefix| - 1] == prefix[..|prefix| - 1];
    assert data[|prefix| - 1] == ':';
  }

  /** `sign:<arg>` shows `arg`. */
  lemma CallbackSign(arg: string)
    ensures DispatchCallback("sign:" + arg) == ShowSign(arg)
  {
    AfterColonOfPayload("sign:", arg);
    assert ("sign:" + arg)[..5] == "sign:";
  }

  /** `sub:<arg>` subscribes to `arg`. */
  lemma CallbackSub(arg: string)
    ensures DispatchCallback("sub:" + arg) == Subscribe(arg)
  {
    var data := "sub:" + arg;
    AfterColonOfPayload("sub:", arg);
    assert data[..4] == "sub:";
    DiffersAt(data, "sign:", 1);
  }

  /** `unsub:<arg>` unsubscribes from `arg`. */
  lemma CallbackUnsub(arg: string)
    ensures DispatchCallback("unsub:" + arg) == Unsubscribe(arg)
  {
    var data := "unsub:" + arg;
    AfterColonOfPayload("unsub:", arg);
    assert data[..6] == "unsub:";
    DiffersAt(data, "sign:", 0);
    DiffersAt(data, "sub:", 0);
  }

  /** `back:list` goes back to the sign list. */
  lemma CallbackBack()
    ensures DispatchCallback(BackToListData) == BackToList
  {
    AfterColonOfPayload("back:", "list");
    assert "back:" + "list" == BackToListData;
    assert BackToListData[..5] == "back:";
    DiffersAt(BackToListData, "sign:", 0);
    DiffersAt(BackToListData, "sub:", 0);
    DiffersAt(BackToListData, "unsub:", 0);
  }

  /** Pressing a sign button shows that sign, whatever characters the sign contains. */
  lemma SignButtonRoundTrip(sign: string, sender: int, adminId: int)
    ensures Dispatch(CallbackUpdate(sender, SignButton(sign).callbackData), adminId) == ShowSign(sign)
  {
    CallbackSign(sign);
  }

  /** The detail keyboard's first button subscribes or unsubscribes that very sign; its second goes back. */
  lemma DetailKeyboardRoundTrip(sign: string, subscribed: bool, sender: int, adminId: int)
    ensures Dispatch(CallbackUpdate(sender, SignDetailKeyboard(sign, subscribed)[0][0].callbackData), adminId)
      == if subscribed then Unsubscribe(sign) else Subscribe(sign)
    ensures Dispatch(CallbackUpdate(sender, SignDetailKeyboard(sign, subscribed)[1][0].callbackData), adminId) == BackToList
  {
    if subscribed {
      CallbackUnsub(sign);
    } else {
      CallbackSub(sign);
    }
    CallbackBack();
  }

  /** The back keyboard's button goes back to the sign list. */
  lemma BackKeyboardRoundTrip(sender: int, adminId: int)
    ensures Dispatch(CallbackUpdate(sender, BackKeyboard()[0][0].callbackData), adminId) == BackToList
  {
    CallbackBack();
  }

  /** The tarot purchase button matches no prefix, so pressing it does nothing. */
  lemma TarotButtonIgnored(sender: int, adminId: int)
    ensures Dispatch(CallbackUpdate(sender, TarotKeyboard()[0][0].callbackData), adminId) == Ignore
  {
    var data := TarotKeyboard()[0][0].callbackData;
    assert data[0] == 't';
    DiffersAt(data, "sign:", 0);
    DiffersAt(data, "sub:", 0);
    DiffersAt(data, "unsub:", 0);
    DiffersAt(data, "back:", 0);
  }

  // ---------------------------------------------------------------------------
  // Handlers as table operations

  /** The primary key of the user with this Telegram id, if registered. */
  function UserIdOf(users: seq<User>, telegramId: int): (r: Option<nat>)
    ensures r.Some? <==> exists k :: 0 <= k < |users| && users[k].telegramId == telegramId
    ensures r.Some? ==> exists k :: 0 <= k < |users| && users[k].telegramId == telegramId && users[k].id == r.value
  {
    match FindUser(users, telegramId)
    case Some(k) => Some(users[k].id)
    case None => None
  }

  /** `handle_start`: get-or-create the user (the reply is the sign keyboard). */
  method HandleStart(db: Database, telegramId: int, profile: Profile)
    requires db.Valid()
    modifies db
    ensures db.Valid()
    ensures UserIdOf(db.users, telegramId).Some?
    ensures UserIdOf(old(db.users), telegramId).Some? ==> db.users == old(db.users)
    ensures UserIdOf(old(db.users), telegramId).None? ==>
      db.users == old(db.users) + [User(|old(db.users)| + 1, telegramId, profile, None)]
    ensures db.subscriptions == old(db.subscriptions) && db.cache == old(db.cache) && db.processed == old(db.processed)
  {
    if FindUser(db.users, telegramId).None? {
      var added := db.AddUser(telegramId, profile);
      assert db.users[|db.users| - 1].telegramId == telegramId;
    }
  }

  /** The user has an active row for `sign`. */
  ghost predicate ActivelySubscribed(subs: seq<Subscription>, userId: nat, sign: string)
  {
    exists k :: 0 <= k < |subs| && subs[k] == Subscription(userId, sign, true)
  }

  /**
   * `handle_subscribe`: creates the user if needed, then inserts an active row for
   * (user, sign) or reactivates the existing one; no other row changes.
   */
  method HandleSubscribe(db: Database, telegramId: int, sign: string) returns (keyboard: InlineKeyboard)
    requires db.Valid()
    modifies db
    ensures db.Valid()
    ensures UserIdOf(db.users, telegramId).Some?
    ensures UserIdOf(old(db.users), telegramId).Some? ==> db.users == old(db.users)
    ensures UserIdOf(old(db.users), telegramId).None? ==>
      db.users == old(db.users) + [User(|old(db.users)| + 1, telegramId, NoProfile, None)]
    ensures ActivelySubscribed(db.subscriptions, UserIdOf(db.users, telegramId).value, sign)
    ensures var uid := UserIdOf(db.users, telegramId).value;
      forall s: Subscription :: s.userId != uid || s.sign != sign ==> (s in db.subscriptions <==> s in old(db.subscriptions))
    ensures var uid := UserIdOf(db.users, telegramId).value;
      |db.subscriptions| == |old(db.subscriptions)| + (if FindSubscription(old(db.subscriptions), uid, sign).Some? then 0 else 1)
    ensures var uid := UserIdOf(db.users, telegramId).value;
      db.subscriptions == match FindSubscription(old(db.subscriptions), uid, sign)
        case Some(k) => old(db.subscriptions)[k := Subscription(uid, sign, true)]
        case None => old(db.subscriptions) + [Subscription(uid, sign, true)]
    ensures db.cache == old(db.cache) && db.processed == old(db.processed)
    ensures keyboard == SignDetailKeyboard(sign, true)
  {
    if FindUser(db.users, telegramId).None? {
      var added := db.AddUser(telegramId, NoProfile);
      assert db.users[|db.users| - 1].telegramId == telegramId;
    }
    var uid := UserIdOf(db.users, telegramId).value;
    match FindSubscription(db.subscriptions, uid, sign) {
    case None =>
      var ok := db.AddSubscription(uid, sign, true);
      assert db.subscriptions[|db.subscriptions| - 1] == Subscription(uid, sign, true);
    case Some(k) =>
      UpdateKeepsOtherRows(db.subscriptions, k, true, uid, sign);
      db.SetActive(k, true);
      assert db.subscriptions[k] == Subscription(uid, sign, true);
    }
    keyboard := SignDetailKeyboard(sign, true);
  }

  /** Changing the `active` flag of a (userId, sign) row leaves the rows of every other pair as they were. */
  lemma UpdateKeepsOtherRows(subs: seq<Subscription>, k: nat, active: bool, userId: nat, sign: string)
    requires k < |subs| && subs[k].userId == userId && subs[k].sign == sign
    ensures forall s: Subscription :: s.userId != userId || s.sign != sign ==>
      (s in subs[k := subs[k].(active := active)] <==> s in subs)
  {
    var after := subs[k := subs[k].(active := active)];
    forall s: Subscription | s.userId != userId || s.sign != sign
      ensures s in after <==> s in subs
    {
      if s in subs {
        var m :| 0 <= m < |subs| && subs[m] == s;
        assert m != k && after[m] == s;
      }
      if s in after {
        var m :| 0 <= m < |after| && after[m] == s;
        assert m != k && subs[m] == s;
      }
    }
  }

  /** What `handle_unsubscribe` answers. */
  datatype UnsubscribeOutcome =
    | NotRegistered
    | UnsubscribedFromAll
    | Unsubscribed(keyboard: InlineKeyboard)
    | WasNotSubscribed

  /**
   * `handle_unsubscribe`: `all` deactivates every row of the user; any other sign
   * deactivates that one row; an unknown user or a missing row changes nothing.
   */
  method HandleUnsubscribe(db: Database, telegramId: int, sign: string) returns (outcome: UnsubscribeOutcome)
    requires db.Valid()
    modifies db
    ensures db.Valid()
    ensures db.users == old(db.users) && db.cache == old(db.cache) && db.processed == old(db.processed)
    ensures |db.subscriptions| == |old(db.subscriptions)|
    ensures UserIdOf(db.users, telegramId).None? ==> outcome == NotRegistered && db.subscriptions == old(db.subscriptions)
    ensures UserIdOf(db.users, telegramId).Some? && sign == "all" ==>
      var uid := UserIdOf(db.users, telegramId).value;
      outcome == UnsubscribedFromAll
      && forall i :: 0 <= i < |db.subscriptions| ==>
        db.subscriptions[i] == if old(db.subscriptions)[i].userId == uid then old(db.subscriptions)[i].(active := false)
                               else old(db.subscriptions)[i]
    ensures UserIdOf(db.users, telegramId).Some? && sign != "all" ==>
      var uid := UserIdOf(db.users, telegramId).value;
      match FindSubscription(old(db.subscriptions), uid, sign)
      case None => outcome == WasNotSubscribed && db.subscriptions == old(db.subscriptions)
      case Some(k) =>
        outcome == Unsubscribed(SignDetailKeyboard(sign, false)) &&
        db.subscriptions == old(db.subscriptions)[k := Subscription(uid, sign, false)]
  {
    var user := UserIdOf(db.users, telegramId);
    if user.None? {
      return NotRegistered;
    }
    var uid := user.value;
    if sign == "all" {
      db.DeactivateAll(uid);
      return UnsubscribedFromAll;
    }
    match FindSubscription(db.subscriptions, uid, sign)
    case Some(k) =>
      db.SetActive(k, false);
      outcome := Unsubscribed(SignDetailKeyboard(sign, false));
    case None =>
      outcome := WasNotSubscribed;
  }

  /** `SIGN_TITLES.get(s, s)`: the display name, or the sign itself. */
  function TitleOrSign(sign: string): string
  {
    if sign in SignTitles then SignTitles[sign] else sign
  }

  /** What `/me` shows a registered user: the active signs, the reply text and one unsubscribe row per sign. */
  datatype MeView = MeView(signs: seq<string>, text: string, keyboard: InlineKeyboard)

  /** The `/me` reply: the display names of the signs joined by commas, or "ничего" when there are none. */
  function MeText(signs: seq<string>): string
  {
    "Вы подписаны на: " +
      if |signs| > 0 then Join(seq(|signs|, i requires 0 <= i < |signs| => TitleOrSign(signs[i])), ", ") else "ничего"
  }

  /** One `unsub:<sign>` button per sign, in order, then an `unsub:all` button if and only if there is a sign. */
  predicate IsMeKeyboard(signs: seq<string>, kb: InlineKeyboard)
  {
    && |kb| == |signs| + (if |signs| > 0 then 1 else 0)
    && (forall i :: 0 <= i < |signs| ==> kb[i] == [InlineButton("Отписаться " + TitleOrSign(signs[i]), "unsub:" + signs[i])])
    && (|signs| > 0 ==> kb[|signs|] == [InlineButton("Отписаться от всех", "unsub:all")])
  }

  /**
   * `handle_me`: None for an unknown user; otherwise the user's active signs, one
   * `unsub:<sign>` button per sign and an `unsub:all` button if and only if there is a sign.
   */
  method HandleMe(db: Database, telegramId: int) returns (view: Option<MeView>)
    ensures view.None? <==> UserIdOf(db.users, telegramId).None?
    ensures view.Some? ==>
      var uid := UserIdOf(db.users, telegramId).value;
      var signs := view.value.signs;
      var kb := view.value.keyboard;
      && signs == ActiveSigns(db.subscriptions, uid)
      && view.value.text == MeText(signs)
      && (forall s :: s in signs <==> Subscription(uid, s, true) in db.subscriptions)
      && IsMeKeyboard(signs, kb)
  {
    var user := UserIdOf(db.users, telegramId);
    if user.None? {
      return None;
    }
    var subs := ActiveSigns(db.subscriptions, user.value);
    var kb: InlineKeyboard := [];
    for i := 0 to |subs|
      invariant |kb| == i
      invariant forall m :: 0 <= m < i ==> kb[m] == [InlineButton("Отписаться " + TitleOrSign(subs[m]), "unsub:" + subs[m])]
    {
      kb := kb + [[InlineButton("Отписаться " + TitleOrSign(subs[i]), "unsub:" + subs[i])]];
    }
    if |subs| > 0 {
      kb := kb + [[InlineButton("Отписаться от всех", "unsub:all")]];
    }
    view := Some(MeView(subs, MeText(subs), kb));
  }

  /** Every button of the `/me` keyboard is routed back to an unsubscribe of its own sign, the last one of `all`. */
  lemma MeButtonsRoundTrip(view: MeView, row: nat, sender: int, adminId: int)
    requires IsMeKeyboard(view.signs, view.keyboard)
    requires row < |view.keyboard|
    ensures |view.keyboard[row]| == 1
    ensures Dispatch(CallbackUpdate(sender, view.keyboard[row][0].callbackData), adminId)
      == Unsubscribe(if row < |view.signs| then view.signs[row] else "all")
  {
    var arg := if row < |view.signs| then view.signs[row] else "all";
    assert view.keyboard[row][0].callbackData == "unsub:" + arg;
    CallbackUnsub(arg);
  }

  /**
   * `handle_show_sign`: the sign's horoscope (through the cache) and the detail
   * keyboard, whose button is "unsubscribe" exactly when the user has an active row.
   */
  method HandleShowSign(db: Database, telegramId: int, sign: string, today: int,
                        health: HoroParser.DbHealth, respond: nat -> HoroParser.Response<HoroParser.Page>)
    returns (text: string, keyboard: InlineKeyboard)
    requires db.Valid()
    modifies db
    ensures db.Valid()
    ensures db.users == old(db.users) && db.subscriptions == old(db.subscriptions) && db.processed == old(db.processed)
    ensures var subscribed := UserIdOf(old(db.users), telegramId).Some? &&
        Subscription(UserIdOf(old(db.users), telegramId).value, sign, true) in old(db.subscriptions);
      keyboard == SignDetailKeyboard(sign, subscribed)
    ensures HoroParser.CachedContent(old(db.cache), sign, today, health).Some? ==>
      text == HoroParser.CachedContent(old(db.cache), sign, today, health).value
  {
    var user := UserIdOf(db.users, telegramId);
    var subscribed := false;
    if user.Some? {
      var sub := FirstIndex(db.subscriptions, (s: Subscription) => s.userId == user.value && s.sign == sign && s.active);
      subscribed := sub.Some?;
      assert sub.Some? ==> db.subscriptions[sub.value] == Subscription(user.value, sign, true);
    }
    var attempts, waits;
    text, attempts, waits := HoroParser.FetchHoroscope(db, sign, today, health, respond);
    keyboard := SignDetailKeyboard(sign, subscribed);
  }

  /** Number of active rows for `sign`. */
  function ActiveCount(subs: seq<Subscription>, sign: string): nat
  {
    if |subs| == 0 then 0
    else (if subs[0].sign == sign && subs[0].active then 1 else 0) + ActiveCount(subs[1..], sign)
  }

  /** The users with an active row for `sign`. */
  function ActiveSubscribers(subs: seq<Subscription>, sign: string): set<nat>
  {
    set k | 0 <= k < |subs| && subs[k].sign == sign && subs[k].active :: subs[k].userId
  }

  /** The subscribers of a sign are those of the first row, if it is an active row for the sign, and those of the rest. */
  lemma ActiveSubscribersCons(subs: seq<Subscription>, sign: string)
    requires |subs| > 0
    ensures ActiveSubscribers(subs, sign) ==
      (if subs[0].sign == sign && subs[0].active then {subs[0].userId} else {}) + ActiveSubscribers(subs[1..], sign)
  {
    var tail := subs[1..];
    forall u | u in ActiveSubscribers(subs, sign)
      ensures u in (if subs[0].sign == sign && subs[0].active then {subs[0].userId} else {}) + ActiveSubscribers(tail, sign)
    {
      var k :| 0 <= k < |subs| && subs[k].sign == sign && subs[k].active && subs[k].userId == u;
      if k > 0 { assert tail[k - 1] == subs[k]; }
    }
    forall u | u in ActiveSubscribers(tail, sign) ensures u in ActiveSubscribers(subs, sign) {
      var k :| 0 <= k < |tail| && tail[k].sign == sign && tail[k].active && tail[k].userId == u;
      assert subs[k + 1] == tail[k];
    }
  }

  /** Under UNIQUE (user_id, sign) the first row's user has no other row for its sign. */
  lemma HeadNotRepeated(subs: seq<Subscription>, sign: string)
    requires |subs| > 0 && UniqueUserSigns(subs) && subs[0].sign == sign
    ensures subs[0].userId !in ActiveSubscribers(subs[1..], sign)
  {
    var tail := subs[1..];
    forall k | 0 <= k < |tail| && tail[k].sign == sign && tail[k].active ensures tail[k].userId != subs[0].userId {
      assert tail[k] == subs[k + 1];
    }
  }

  /** Dropping the first row keeps UNIQUE (user_id, sign). */
  lemma UniqueTail(subs: seq<Subscription>)
    requires |subs| > 0 && UniqueUserSigns(subs)
    ensures UniqueUserSigns(subs[1..])
  {
    var tail := subs[1..];
    forall i, j | 0 <= i < j < |tail| ensures tail[i].userId != tail[j].userId || tail[i].sign != tail[j].sign {
      assert tail[i] == subs[i + 1] && tail[j] == subs[j + 1];
    }
  }

  /** Thanks to UNIQUE (user_id, sign), the active-row count of a sign is its number of distinct subscribers. */
  lemma {:induction false} ActiveCountIsSubscriberCount(subs: seq<Subscription>, sign: string)
    requires UniqueUserSigns(subs)
    ensures ActiveCount(subs, sign) == |ActiveSubscribers(subs, sign)|
  {
    if |subs| > 0 {
      UniqueTail(subs);
      ActiveCountIsSubscriberCount(subs[1..], sign);
      ActiveSubscribersCons(subs, sign);
      if subs[0].sign == sign && subs[0].active {
        HeadNotRepeated(subs, sign);
      }
    }
  }

  /**
   * `handle_subscribers` (admin only): the number of users and, per sign with an
   * active row, the number of its active rows (`GROUP BY sign`).
   */
  method HandleSubscribers(db: Database) returns (total: nat, stats: map<string, nat>)
    ensures total == |db.users|
    ensures forall s :: s in stats <==> ActiveCount(db.subscriptions, s) > 0
    ensures forall s :: s in stats ==> stats[s] == ActiveCount(db.subscriptions, s)
  {
    total := |db.users|;
    var rows := db.subscriptions;
    stats := map s | s in (set k | 0 <= k < |rows| && rows[k].active :: rows[k].sign) :: ActiveCount(rows, s);
    forall s ensures s in stats <==> ActiveCount(rows, s) > 0 {
      ActiveCountPositive(rows, s);
    }
  }

  /** A sign has a positive active count exactly when some row for it is active. */
  lemma {:induction false} ActiveCountPositive(subs: seq<Subscription>, sign: string)
    ensures ActiveCount(subs, sign) > 0 <==> exists k :: 0 <= k < |subs| && subs[k].active && subs[k].sign == sign
  {
    if |subs| > 0 {
      ActiveCountPositive(subs[1..], sign);
      if exists k :: 0 <= k < |subs[1..]| && subs[1..][k].active && subs[1..][k].sign == sign {
        var k :| 0 <= k < |subs[1..]| && subs[1..][k].active && subs[1..][k].sign == sign;
        assert subs[k + 1] == subs[1..][k];
      }
      if exists k :: 0 <= k < |subs| && subs[k].active && subs[k].sign == sign {
        var k :| 0 <= k < |subs| && subs[k].active && subs[k].sign == sign;
        if k > 0 { assert subs[1..][k - 1] == subs[k]; }
      }
    }
  }
}
