/** `generate_card_analysis`: one pass over the drawn cards that collects each
    attribute into its own list, in draw order. */
module Aggregation {
  import opened Text
  import opened Cards

  /** The lists the pass builds (the source's `data` dictionary). */
  datatype AnalysisData = AnalysisData(
    allKeywords: seq<string>,
    elements: seq<string>,
    numerology: seq<string>,
    astrology: seq<string>,
    majorArcana: seq<Card>,
    suits: seq<string>)

  /** What one card adds to each list. */
  function KeywordsPart(c: Card): seq<string> {
    c.keywords
  }

  function ElementPart(c: Card): seq<string> {
    if Present(c.element) then [c.element.value] else []
  }

  function NumerologyPart(c: Card): seq<string> {
    if Present(c.numerology) then [c.numerology.value] else []
  }

  function AstrologyPart(c: Card): seq<string> {
    if Present(c.astrology) then [c.astrology.value] else []
  }

  function MajorPart(c: Card): seq<Card> {
    if IsMajor(c) then [c] else []
  }

  /** A Minor card adds the word after the first "of" of its name, if there is one. */
  function SuitPart(c: Card): seq<string> {
    if IsMajor(c) then []
    else match SuitAfterOf(c.name)
      case Some(s) => [s]
      case None => []
  }

  /** The contributions of the cards, concatenated in draw order. */
  function Gather<T>(cards: seq<Card>, part: Card -> seq<T>): seq<T> {
    if cards == [] then []
    else Gather(cards[..|cards| - 1], part) + part(cards[|cards| - 1])
  }

  /** The result of the pass over `cards`. */
  function CardAnalysis(cards: seq<Card>): AnalysisData {
    AnalysisData(
      Gather(cards, KeywordsPart),
      Gather(cards, ElementPart),
      Gather(cards, NumerologyPart),
      Gather(cards, AstrologyPart),
      Gather(cards, MajorPart),
      Gather(cards, SuitPart))
  }

  /** `generate_card_analysis(drawn_cards)`. */
  method GenerateCardAnalysis(cards: seq<Card>) returns (data: AnalysisData)
    ensures data == CardAnalysis(cards)
  {
    var allKeywords: seq<string> := [];
    var elements: seq<string> := [];
    var numerology: seq<string> := [];
    var astrology: seq<string> := [];
    var majorArcana: seq<Card> := [];
    var suits: seq<string> := [];
    for i := 0 to |cards|
      invariant allKeywords == Gather(cards[..i], KeywordsPart)
      invariant elements == Gather(cards[..i], ElementPart)
      invariant numerology == Gather(cards[..i], NumerologyPart)
      invariant astrology == Gather(cards[..i], AstrologyPart)
      invariant majorArcana == Gather(cards[..i], MajorPart)
      invariant suits == Gather(cards[..i], SuitPart)
    {
      var card := cards[i];
      GatherStep(cards, i, KeywordsPart);
      GatherStep(cards, i, ElementPart);
      GatherStep(cards, i, NumerologyPart);
      GatherStep(cards, i, AstrologyPart);
      GatherStep(cards, i, MajorPart);
      GatherStep(cards, i, SuitPart);
      allKeywords := allKeywords + card.keywords;
      if Present(card.element) {
        elements := elements + [card.element.value];
      }
      if Present(card.numerology) {
        numerology := numerology + [card.numerology.value];
      }
      if Present(card.astrology) {
        astrology := astrology + [card.astrology.value];
      }
      if IsMajor(card) {
        majorArcana := majorArcana + [card];
      } else {
        var suit := MinorSuit(card);
        suits := suits + suit;
      }
    }
    assert cards[..|cards|] == cards;
    data := AnalysisData(allKeywords, elements, numerology, astrology, majorArcana, suits);
  }

  /** The suit lookup of a Minor card: the word after the first "of", when the name has
      a word after it. */
  method MinorSuit(card: Card) returns (suit: seq<string>)
    requires !IsMajor(card)
    ensures suit == SuitPart(card)
  {
    suit := [];
    var nameParts := Words(card.name);
    if "of" in nameParts {
      var ofIndex := IndexOf(nameParts, "of");
      if ofIndex + 1 < |nameParts| {
        suit := [nameParts[ofIndex + 1]];
      }
    }
  }

  /** One more card adds its own contribution at the end. */
  lemma GatherStep<T>(cards: seq<Card>, i: nat, part: Card -> seq<T>)
    requires i < |cards|
    ensures Gather(cards[..i + 1], part) == Gather(cards[..i], part) + part(cards[i])
  {
    assert cards[..i + 1][..i] == cards[..i];
  }

  /** Gathering over two runs of cards is gathering over each, in order. */
  lemma {:induction false} GatherAppend<T>(a: seq<Card>, b: seq<Card>, part: Card -> seq<T>)
    ensures Gather(a + b, part) == Gather(a, part) + Gather(b, part)
    decreases |b|
  {
    if b == [] {
      assert a + b == a;
    } else {
      var b' := b[..|b| - 1];
      assert (a + b)[..|a + b| - 1] == a + b';
      assert (a + b)[|a + b| - 1] == b[|b| - 1];
      GatherAppend(a, b', part);
      calc {
        Gather(a + b, part);
        Gather(a + b', part) + part(b[|b| - 1]);
        Gather(a, part) + Gather(b', part) + part(b[|b| - 1]);
        Gather(a, part) + (Gather(b', part) + part(b[|b| - 1]));
      }
    }
  }

  /** A value is gathered iff some card contributes it. */
  lemma {:induction false} GatherMember<T>(cards: seq<Card>, part: Card -> seq<T>, x: T)
    ensures x in Gather(cards, part) <==> exists i :: 0 <= i < |cards| && x in part(cards[i])
  {
    if cards != [] {
      var p := cards[..|cards| - 1];
      GatherMember(p, part, x);
      if x in Gather(p, part) {
        var i :| 0 <= i < |p| && x in part(p[i]);
        assert cards[i] == p[i];
      }
      if exists i :: 0 <= i < |cards| && x in part(cards[i]) {
        var i :| 0 <= i < |cards| && x in part(cards[i]);
        if i < |p| {
          assert p[i] == cards[i];
        }
      }
    }
  }

  /** Draw order is preserved: the analysis of a draw followed by more cards is the
      analysis of the first run followed, list by list, by that of the second. */
  lemma AnalysisAppend(a: seq<Card>, b: seq<Card>)
    ensures CardAnalysis(a + b).allKeywords == CardAnalysis(a).allKeywords + CardAnalysis(b).allKeywords
    ensures CardAnalysis(a + b).elements == CardAnalysis(a).elements + CardAnalysis(b).elements
    ensures CardAnalysis(a + b).numerology == CardAnalysis(a).numerology + CardAnalysis(b).numerology
    ensures CardAnalysis(a + b).astrology == CardAnalysis(a).astrology + CardAnalysis(b).astrology
    ensures CardAnalysis(a + b).majorArcana == CardAnalysis(a).majorArcana + CardAnalysis(b).majorArcana
    ensures CardAnalysis(a + b).suits == CardAnalysis(a).suits + CardAnalysis(b).suits
  {
    GatherAppend(a, b, KeywordsPart);
    GatherAppend(a, b, ElementPart);
    GatherAppend(a, b, NumerologyPart);
    GatherAppend(a, b, AstrologyPart);
    GatherAppend(a, b, MajorPart);
    GatherAppend(a, b, SuitPart);
  }

  /** A single card contributes its keywords, each optional field exactly when it is
      present and non-empty, itself to the Major Arcana list exactly when its arcana is
      "Major", and otherwise at most one suit: the word after the first "of". */
  lemma AnalysisOfOneCard(c: Card)
    ensures CardAnalysis([c]).allKeywords == c.keywords
    ensures CardAnalysis([c]).elements == (if Present(c.element) then [c.element.value] else [])
    ensures CardAnalysis([c]).numerology == (if Present(c.numerology) then [c.numerology.value] else [])
    ensures CardAnalysis([c]).astrology == (if Present(c.astrology) then [c.astrology.value] else [])
    ensures CardAnalysis([c]).majorArcana == (if c.arcana == "Major" then [c] else [])
    ensures |CardAnalysis([c]).suits| <= 1
    ensures CardAnalysis([c]).suits != [] <==>
              c.arcana != "Major" && "of" in Words(c.name) && IndexOf(Words(c.name), "of") + 1 < |Words(c.name)|
    ensures CardAnalysis([c]).suits != [] ==>
              CardAnalysis([c]).suits[0] == Words(c.name)[IndexOf(Words(c.name), "of") + 1]
  {
    assert [c][..0] == [];
    assert Gather([c], KeywordsPart) == KeywordsPart(c);
    assert Gather([c], ElementPart) == ElementPart(c);
    assert Gather([c], NumerologyPart) == NumerologyPart(c);
    assert Gather([c], AstrologyPart) == AstrologyPart(c);
    assert Gather([c], MajorPart) == MajorPart(c);
    assert Gather([c], SuitPart) == SuitPart(c);
  }

  /** Which values end up in which list, stated over the drawn cards. */
  lemma AnalysisMembers(cards: seq<Card>)
    ensures forall x :: x in CardAnalysis(cards).elements <==>
              exists i :: 0 <= i < |cards| && Present(cards[i].element) && cards[i].element.value == x
    ensures forall x :: x in CardAnalysis(cards).numerology <==>
              exists i :: 0 <= i < |cards| && Present(cards[i].numerology) && cards[i].numerology.value == x
    ensures forall x :: x in CardAnalysis(cards).astrology <==>
              exists i :: 0 <= i < |cards| && Present(cards[i].astrology) && cards[i].astrology.value == x
    ensures forall c :: c in CardAnalysis(cards).majorArcana <==> c in cards && IsMajor(c)
    ensures forall s :: s in CardAnalysis(cards).suits <==>
              exists i :: 0 <= i < |cards| && !IsMajor(cards[i]) && SuitAfterOf(cards[i].name) == Some(s)
  {
    ElementsMembers(cards);
    NumerologyMembers(cards);
    AstrologyMembers(cards);
    MajorMembers(cards);
    SuitsMembers(cards);
  }

  lemma ElementsMembers(cards: seq<Card>)
    ensures forall x :: x in CardAnalysis(cards).elements <==>
              exists i :: 0 <= i < |cards| && Present(cards[i].element) && cards[i].element.value == x
  {
    forall x
      ensures x in CardAnalysis(cards).elements <==>
                exists i :: 0 <= i < |cards| && Present(cards[i].element) && cards[i].element.value == x
    {
      GatherMember(cards, ElementPart, x);
    }
  }

  lemma NumerologyMembers(cards: seq<Card>)
    ensures forall x :: x in CardAnalysis(cards).numerology <==>
              exists i :: 0 <= i < |cards| && Present(cards[i].numerology) && cards[i].numerology.value == x
  {
    forall x
      ensures x in CardAnalysis(cards).numerology <==>
                exists i :: 0 <= i < |cards| && Present(cards[i].numerology) && cards[i].numerology.value == x
    {
      GatherMember(cards, NumerologyPart, x);
    }
  }

  lemma AstrologyMembers(cards: seq<Card>)
    ensures forall x :: x in CardAnalysis(cards).astrology <==>
              exists i :: 0 <= i < |cards| && Present(cards[i].astrology) && cards[i].astrology.value == x
  {
    forall x
      ensures x in CardAnalysis(cards).astrology <==>
                exists i :: 0 <= i < |cards| && Present(cards[i].astrology) && cards[i].astrology.value == x
    {
      GatherMember(cards, AstrologyPart, x);
    }
  }

  lemma MajorMembers(cards: seq<Card>)
    ensures forall c :: c in CardAnalysis(cards).majorArcana <==> c in cards && IsMajor(c)
  {
    forall c
      ensures c in CardAnalysis(cards).majorArcana <==> c in cards && IsMajor(c)
    {
      GatherMember(cards, MajorPart, c);
    }
  }

  lemma SuitsMembers(cards: seq<Card>)
    ensures forall s :: s in CardAnalysis(cards).suits <==>
              exists i :: 0 <= i < |cards| && !IsMajor(cards[i]) && SuitAfterOf(cards[i].name) == Some(s)
  {
    forall s
      ensures s in CardAnalysis(cards).suits <==>
                exists i :: 0 <= i < |cards| && !IsMajor(cards[i]) && SuitAfterOf(cards[i].name) == Some(s)
    {
      GatherMember(cards, SuitPart, s);
    }
  }
}
