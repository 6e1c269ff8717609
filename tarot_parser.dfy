/**
 * A one-card tarot reading from a divination page: the card name from the page
 * title, the long paragraphs of the article blocks (or of the broader article
 * selectors when the blocks have none), joined, truncated at a word boundary for
 * Telegram and framed by a header. The HTTP request and the HTML parsing are
 * inputs: a `TarotPage` holds the stripped texts the selectors found.
 */
module TarotParser {
  import opened Wrappers
  import opened Text

  /** The page the reading is fetched from. */
  const TarotUrl: string := "https://horo.mail.ru/divination/tarot/"

  /** A paragraph is kept only when it is longer than this many characters. */
  const MinParagraphLength: nat := 20

  /** Readings longer than this are truncated. */
  const MaxReadingLength: nat := 3500

  /** Header line of every reading. */
  const Header: string := "🔮 *Расклад Таро*"

  /** Separator of the paragraphs in the reading. */
  const ParagraphSeparator: string := "\n\n"

  /**
   * What the selectors found: the stripped text of the first title element, the
   * stripped `<p>` texts of each `div[article-item-type='html']` block, and the
   * stripped texts of the broader fallback selectors.
   */
  datatype TarotPage = TarotPage(title: Option<string>, blocks: seq<seq<string>>, fallback: seq<string>)

  /** `text and len(text) > 20`. */
  predicate KeepParagraph(text: string)
  {
    text != "" && |text| > MinParagraphLength
  }

  /** The texts that pass the paragraph filter, in order. */
  function KeptParagraphs(texts: seq<string>): seq<string>
  {
    if |texts| == 0 then []
    else KeptParagraphs(texts[..|texts| - 1]) + (if KeepParagraph(texts[|texts| - 1]) then [texts[|texts| - 1]] else [])
  }

  /** The paragraph texts of all blocks, block after block. */
  function Flatten(blocks: seq<seq<string>>): seq<string>
  {
    if |blocks| == 0 then [] else Flatten(blocks[..|blocks| - 1]) + blocks[|blocks| - 1]
  }

  /** Filtering one more text appends it exactly when it passes. */
  lemma KeptParagraphsStep(texts: seq<string>, t: string)
    ensures KeptParagraphs(texts + [t]) == KeptParagraphs(texts) + (if KeepParagraph(t) then [t] else [])
  {
    assert (texts + [t])[..|texts|] == texts;
  }

  /** The kept paragraphs are exactly the texts that pass the filter, each longer than 20 characters. */
  lemma {:induction false} KeptParagraphsSpec(texts: seq<string>)
    ensures forall x :: x in KeptParagraphs(texts) <==> x in texts && KeepParagraph(x)
    ensures forall k :: 0 <= k < |KeptParagraphs(texts)| ==> |KeptParagraphs(texts)[k]| > MinParagraphLength
  {
    if |texts| > 0 {
      var q := texts[..|texts| - 1];
      KeptParagraphsSpec(q);
      assert texts == q + [texts[|texts| - 1]];
    }
  }

  /** The texts a page offers: those of the blocks if any of them passes, else those of the fallback selectors. */
  function Paragraphs(page: TarotPage): seq<string>
  {
    var first := KeptParagraphs(Flatten(page.blocks));
    if first != [] then first else KeptParagraphs(page.fallback)
  }

  /** Filtering distributes over concatenation. */
  lemma {:induction false} KeptParagraphsAppend(a: seq<string>, b: seq<string>)
    ensures KeptParagraphs(a + b) == KeptParagraphs(a) + KeptParagraphs(b)
  {
    if |b| == 0 {
      assert a + b == a;
    } else {
      var q := b[..|b| - 1];
      KeptParagraphsAppend(a, q);
      assert a + b == (a + q) + [b[|b| - 1]];
      KeptParagraphsStep(a + q, b[|b| - 1]);
    }
  }

  /** One `for p in ...` loop of the source: appends the texts of `texts` that pass the filter. */
  method AppendKept(paragraphs: seq<string>, texts: seq<string>) returns (r: seq<string>)
    ensures r == paragraphs + KeptParagraphs(texts)
  {
    r := paragraphs;
    for j := 0 to |texts|
      invariant r == paragraphs + KeptParagraphs(texts[..j])
    {
      var text := texts[j];
      KeptParagraphsStep(texts[..j], text);
      assert texts[..j + 1] == texts[..j] + [text];
      if text != "" && |text| > MinParagraphLength {
        r := r + [text];
      }
    }
    assert texts[..|texts|] == texts;
  }

  /** The collection loops: the `<p>` texts of every block, then the fallback texts if nothing was kept. */
  method CollectParagraphs(page: TarotPage) returns (paragraphs: seq<string>)
    ensures paragraphs == Paragraphs(page)
  {
    paragraphs := [];
    for i := 0 to |page.blocks|
      invariant paragraphs == KeptParagraphs(Flatten(page.blocks[..i]))
    {
      assert page.blocks[..i + 1][..i] == page.blocks[..i];
      KeptParagraphsAppend(Flatten(page.blocks[..i]), page.blocks[i]);
      paragraphs := AppendKept(paragraphs, page.blocks[i]);
    }
    assert page.blocks[..|page.blocks|] == page.blocks;
    if paragraphs == [] {
      paragraphs := AppendKept([], page.fallback);
    }
  }


  /** Index of the last space of `s`, if any. */
  function LastSpace(s: string): (r: Option<nat>)
    ensures r.Some? ==> r.value < |s| && s[r.value] == ' ' && forall i :: r.value < i < |s| ==> s[i] != ' '
    ensures r.None? <==> forall i :: 0 <= i < |s| ==> s[i] != ' '
  {
    if |s| == 0 then None
    else if s[|s| - 1] == ' ' then Some(|s| - 1)
    else LastSpace(s[..|s| - 1])
  }

  /** `s.rsplit(" ", 1)[0]`: what precedes the last space, or all of `s` when it has none. */
  function BeforeLastSpace(s: string): (r: string)
    ensures |r| <= |s| && r == s[..|r|]
    ensures |r| == |s| <==> forall i :: 0 <= i < |s| ==> s[i] != ' '
    ensures |r| < |s| ==> s[|r|] == ' ' && forall i :: |r| < i < |s| ==> s[i] != ' '
  {
    match LastSpace(s)
    case None => s
    case Some(k) => s[..k]
  }

  /**
   * The reading as sent: unchanged up to 3500 characters; otherwise its first 3500
   * characters cut back to before the last space among them, followed by "...".
   */
  function Truncate(reading: string): (r: string)
    ensures |reading| <= MaxReadingLength ==> r == reading
    ensures |reading| > MaxReadingLength ==>
      var k := |r| - 3;
      && k >= 0 && r[k..] == "..." && k <= MaxReadingLength && r[..k] == reading[..k]
      && (k == MaxReadingLength || reading[k] == ' ')
      && (forall i :: k < i < MaxReadingLength ==> reading[i] != ' ')
      && (k == MaxReadingLength <==> forall i :: 0 <= i < MaxReadingLength ==> reading[i] != ' ')
  {
    if |reading| > MaxReadingLength then
      var head := BeforeLastSpace(reading[..MaxReadingLength]);
      assert forall i :: |head| < i < MaxReadingLength ==> reading[i] == reading[..MaxReadingLength][i];
      head + "..."
    else reading
  }

  /** A sent reading never exceeds 3503 characters. */
  lemma TruncateBounds(reading: string)
    ensures |Truncate(reading)| <= MaxReadingLength + 3
  {
  }

  /** The card line: present only for a non-empty card name. */
  function CardLine(cardName: string): string
  {
    if cardName != "" then "\n\n🃏 " + cardName else ""
  }

  /** The message: the header, the card line and, after a blank line, the reading. */
  function TarotMessage(cardName: string, reading: string): (m: string)
    ensures |m| == |Header| + |CardLine(cardName)| + 2 + |reading|
  {
    Header + CardLine(cardName) + ParagraphSeparator + reading
  }

  /** The message starts with the header, names the card right after it when there is one, and ends with the reading. */
  lemma TarotMessageParts(cardName: string, reading: string)
    ensures var m := TarotMessage(cardName, reading);
      && m[..|Header|] == Header
      && (cardName != "" ==> m[|Header| + 4..|Header| + 4 + |cardName|] == cardName)
      && m[|m| - |reading|..] == reading
      && m[|m| - |reading| - 2..|m| - |reading|] == ParagraphSeparator
      && (cardName == "" ==> m == Header + ParagraphSeparator + reading)
  {
    var m := TarotMessage(cardName, reading);
    var c := CardLine(cardName);
    assert m == Header + (c + (ParagraphSeparator + reading));
    assert m[|Header|..] == c + (ParagraphSeparator + reading);
    assert m[|Header| + |c|..] == ParagraphSeparator + reading;
    if cardName != "" {
      assert c[4..] == cardName;
      assert m[|Header|..][4..4 + |cardName|] == cardName;
    }
  }

  /** The card name: the title text, or empty without a title element. */
  function CardName(page: TarotPage): string
  {
    if page.title.Some? then page.title.value else ""
  }

  /** What `fetch_tarot_reading` returns for a fetched page. */
  function TarotReading(page: TarotPage): Option<string>
  {
    var paragraphs := Paragraphs(page);
    if paragraphs == [] then None
    else Some(TarotMessage(CardName(page), Truncate(Join(paragraphs, ParagraphSeparator))))
  }

  /** There is a reading exactly when some block paragraph or some fallback paragraph passes the filter. */
  lemma TarotReadingExists(page: TarotPage)
    ensures TarotReading(page).Some? <==>
      (exists x :: x in Flatten(page.blocks) && KeepParagraph(x)) || (exists x :: x in page.fallback && KeepParagraph(x))
  {
    KeptParagraphsSpec(Flatten(page.blocks));
    KeptParagraphsSpec(page.fallback);
    var first := KeptParagraphs(Flatten(page.blocks));
    if first != [] {
      assert first[0] in first;
    }
    var second := KeptParagraphs(page.fallback);
    if second != [] {
      assert second[0] in second;
    }
  }

  /**
   * `fetch_tarot_reading()`: `page` is None when the request fails or raises;
   * otherwise the reading of the page, or None when it has no long paragraph.
   */
  method FetchTarotReading(page: Option<TarotPage>) returns (result: Option<string>)
    ensures page.None? ==> result.None?
    ensures page.Some? ==> result == TarotReading(page.value)
  {
    if page.None? {
      return None;
    }
    var cardName := "";
    if page.value.title.Some? {
      cardName := page.value.title.value;
    }
    var paragraphs := CollectParagraphs(page.value);
    if paragraphs == [] {
      return None;
    }
    var reading := Join(paragraphs, ParagraphSeparator);
    if |reading| > MaxReadingLength {
      reading := BeforeLastSpace(reading[..MaxReadingLength]) + "...";
    }
    assert reading == Truncate(Join(paragraphs, ParagraphSeparator));
    var message := Header;
    if cardName != "" {
      message := message + "\n\n🃏 " + cardName;
    }
    assert message == Header + CardLine(CardName(page.value));
    message := message + ParagraphSeparator + reading;
    result := Some(message);
  }
}
