/** The inline and reply keyboards the bot attaches to its messages, and the callback data they carry. */
module Keyboards {
  import opened Text

  /** An inline button: its label and the data Telegram sends back when it is pressed. */
  datatype InlineButton = InlineButton(text: string, callbackData: string)

  /** An inline keyboard, row by row. */
  type InlineKeyboard = seq<seq<InlineButton>>

  /** A reply-keyboard button: pressing it sends its label as a message. */
  datatype ReplyButton = ReplyButton(text: string)

  /** A reply keyboard, row by row, and whether Telegram may shrink it to fit. */
  datatype ReplyKeyboard = ReplyKeyboard(keyboard: seq<seq<ReplyButton>>, resizeKeyboard: bool)

  /** The twelve signs, in the order the sign keyboard shows them. */
  const ZodiacSigns: seq<string> := [
    "aries", "taurus", "gemini", "cancer", "leo", "virgo",
    "libra", "scorpio", "sagittarius", "capricorn", "aquarius", "pisces"
  ]

  /** Russian display names of the signs. */
  const SignTitles: map<string, string> := map[
    "aries" := "Овен", "taurus" := "Телец", "gemini" := "Близнецы",
    "cancer" := "Рак", "leo" := "Лев", "virgo" := "Дева",
    "libra" := "Весы", "scorpio" := "Скорпион", "sagittarius" := "Стрелец",
    "capricorn" := "Козерог", "aquarius" := "Водолей", "pisces" := "Рыбы"
  ]

  /** Callback data of the "back to the sign list" button. */
  const BackToListData: string := "back:list"

  /** `SIGN_TITLES.get(sign, sign.title())`. */
  function SignTitle(sign: string): string
  {
    if sign in SignTitles then SignTitles[sign] else Title(sign)
  }

  /** The button of `sign` on the sign keyboard. */
  function SignButton(sign: string): InlineButton
  {
    InlineButton(SignTitle(sign), "sign:" + sign)
  }

  /** Every sign has a display name, and no sign is listed twice. */
  lemma SignTitlesCoverSigns()
    ensures forall s :: s in ZodiacSigns ==> s in SignTitles
    ensures forall i, j :: 0 <= i < j < |ZodiacSigns| ==> ZodiacSigns[i] != ZodiacSigns[j]
  {
  }

  /** The inner loop of `signs_keyboard`: one button per sign of a chunk, made by `button`. */
  method SignRow(chunk: seq<string>, button: string -> InlineButton) returns (row: seq<InlineButton>)
    ensures |row| == |chunk| && forall m :: 0 <= m < |chunk| ==> row[m] == button(chunk[m])
  {
    row := [];
    for j := 0 to |chunk|
      invariant |row| == j
      invariant forall m :: 0 <= m < j ==> row[m] == button(chunk[m])
    {
      row := row + [button(chunk[j])];
    }
  }

  /**
   * The outer loop of `signs_keyboard`: the signs in rows of three, the last row
   * holding what is left; the keyboard passes `SignButton` as `button`.
   */
  method SignRows(signs: seq<string>, button: string -> InlineButton) returns (rows: InlineKeyboard)
    ensures |signs| <= 3 * |rows| < |signs| + 3
    ensures forall r :: 0 <= r < |rows| ==> |rows[r]| == (if 3 * r + 3 <= |signs| then 3 else |signs| - 3 * r)
    ensures forall r, m :: 0 <= r < |rows| && 0 <= m < |rows[r]| ==> rows[r][m] == button(signs[3 * r + m])
  {
    rows := [];
    var i := 0;
    while i < |signs|
      invariant i == 3 * |rows| && i < |signs| + 3
      invariant forall r :: 0 <= r < |rows| ==> |rows[r]| == (if 3 * r + 3 <= |signs| then 3 else |signs| - 3 * r)
      invariant forall r, m :: 0 <= r < |rows| && 0 <= m < |rows[r]| ==> rows[r][m] == button(signs[3 * r + m])
    {
      var end := if i + 3 <= |signs| then i + 3 else |signs|;
      var row := SignRow(signs[i..end], button);
      rows := rows + [row];
      i := i + 3;
    }
  }

  /** `signs_keyboard()`: the twelve signs in four rows of three, read row by row in `ZodiacSigns` order. */
  method SignsKeyboard() returns (rows: InlineKeyboard)
    ensures |rows| == 4
    ensures forall r :: 0 <= r < |rows| ==> |rows[r]| == 3
    ensures forall r, m :: 0 <= r < 4 && 0 <= m < 3 ==> rows[r][m] == SignButton(ZodiacSigns[3 * r + m])
  {
    rows := SignRows(ZodiacSigns, SignButton);
  }



  /** `sign_detail_keyboard(sign, subscribed)`: a subscribe/unsubscribe button above a back button. */
  function SignDetailKeyboard(sign: string, subscribed: bool := false): (kb: InlineKeyboard)
    ensures |kb| == 2 && |kb[0]| == 1 && |kb[1]| == 1
    ensures kb[0][0].callbackData == (if subscribed then "unsub:" else "sub:") + sign
    ensures kb[1][0].callbackData == BackToListData
  {
    [ if subscribed then [InlineButton("Отписаться", "unsub:" + sign)]
      else [InlineButton("Подписаться", "sub:" + sign)],
      [InlineButton("Вернуться", BackToListData)] ]
  }

  /** `back_keyboard()`: a single back button. */
  function BackKeyboard(): (kb: InlineKeyboard)
    ensures |kb| == 1 && |kb[0]| == 1 && kb[0][0].callbackData == BackToListData
  {
    [[InlineButton("Назад", BackToListData)]]
  }

  /** `joke_subscription_keyboard(subscribed)`: one reply button whose label depends only on `subscribed`. */
  function JokeSubscriptionKeyboard(subscribed: bool): (kb: ReplyKeyboard)
    ensures |kb.keyboard| == 1 && |kb.keyboard[0]| == 1 && kb.resizeKeyboard
  {
    var caption := if subscribed then "Отписаться от шуток" else "Подписаться на шутки";
    ReplyKeyboard([[ReplyButton(caption)]], true)
  }

  /** The two joke-subscription labels differ, so the keyboard shows which state the user is in. */
  lemma JokeLabelsDiffer()
    ensures JokeSubscriptionKeyboard(true) != JokeSubscriptionKeyboard(false)
  {
    assert JokeSubscriptionKeyboard(true).keyboard[0][0].text[0] == 'О';
  }

  /** `tarot_keyboard()`: the tarot purchase button above a back button. */
  function TarotKeyboard(): (kb: InlineKeyboard)
    ensures |kb| == 2 && |kb[0]| == 1 && |kb[1]| == 1
    ensures kb[0][0].callbackData == "tarot:buy" && kb[1][0].callbackData == BackToListData
  {
    [ [InlineButton("🔮 Расклад Таро — 10 ₽", "tarot:buy")],
      [InlineButton("Назад", BackToListData)] ]
  }
}
