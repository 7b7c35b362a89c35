/** `generate_overall_interpretation` and the part of the draw route that chooses the
    number of cards and the spread type. A single-card draw gets a short reading of its
    one card; every other spread gets a heading, one line per card (labelled with the
    spread's position names, or "Card i" for a custom spread) and the standard analysis
    block. */
module Interpretation {
  import opened Cards
  import opened Tallies
  import opened Fragments
  import opened Aggregation
  import opened Numerology
  import opened Synergy
  import opened Report

  const SingleCard := "Single-Card Draw"
  const ThreeCard := "Three-Card Spread"
  const FiveCard := "Five-Card Spread"
  const CelticCross := "Celtic Cross Spread"
  const CustomSpread := "Custom Spread"

  const ThreePositions: seq<string> := ["Past", "Present", "Future"]
  const FivePositions: seq<string> := ["Situation", "Challenge", "Guidance", "Focus", "Potential"]
  const CelticCrossPositions: seq<string> := [
    "Present Position", "Immediate Challenge", "Distant Past", "Recent Past", "Goal or Aspiration",
    "Future Influence", "You as You See Yourself", "Outside Influences", "Hopes and Fears", "Outcome"]

  function Min(a: nat, b: nat): nat {
    if a <= b then a else b
  }

  // ---------------------------------------------------------------------------------
  // The draw route: how many cards, and which spread

  /** The number of cards drawn. `requested` is the form field read as an integer (a
      missing field reads as 3), or `None` when it is not an integer; `catalogSize` is
      the number of cards in the deck. */
  function DrawCount(requested: Option<int>, catalogSize: nat): (n: nat)
    ensures n <= 10 && n <= catalogSize
    ensures requested.Some? && 1 <= requested.value <= 10 ==> n == Min(requested.value, catalogSize)
    ensures !(requested.Some? && 1 <= requested.value <= 10) ==> n == Min(3, catalogSize)
    ensures catalogSize > 0 ==> n > 0
  {
    var asked := if requested.Some? && 1 <= requested.value <= 10 then requested.value else 3;
    if asked > catalogSize then catalogSize else asked
  }

  /** The spread type named for a number of cards. */
  function SpreadTypeFor(count: int): (t: string)
    ensures t == SingleCard <==> count == 1
    ensures NamedPositions(t).Some? <==> count == 3 || count == 5 || count == 10
    ensures NamedPositions(t).Some? ==> |NamedPositions(t).value| == count
    ensures t == CustomSpread <==> count != 1 && count != 3 && count != 5 && count != 10
  {
    if count == 1 then SingleCard
    else if count == 3 then ThreeCard
    else if count == 5 then FiveCard
    else if count == 10 then CelticCross
    else CustomSpread
  }

  /** The position names of a spread type, when it has them; every other type but the
      single-card draw numbers its cards. */
  function NamedPositions(spreadType: string): Option<seq<string>> {
    if spreadType == ThreeCard then Some(ThreePositions)
    else if spreadType == FiveCard then Some(FivePositions)
    else if spreadType == CelticCross then Some(CelticCrossPositions)
    else None
  }

  // ---------------------------------------------------------------------------------
  // The reading

  /** The line of a multi-card reading for one card at one position. */
  function CardLine(p: Position, c: Card): Fragment {
    PositionLine(p, OrientationOf(c), Description(c))
  }

  /** One line per pair of a position name and a card, pairing them off in order until
      either list runs out. */
  function NamedLines(positions: seq<string>, cards: seq<Card>): seq<Fragment> {
    seq(Min(|positions|, |cards|), i requires 0 <= i < Min(|positions|, |cards|) =>
      CardLine(Named(positions[i]), cards[i]))
  }

  /** One line per card, numbered from 1. */
  function NumberedLines(cards: seq<Card>): seq<Fragment> {
    seq(|cards|, i requires 0 <= i < |cards| => CardLine(Numbered(i + 1), cards[i]))
  }

  /** The per-card lines of a multi-card spread type. */
  function CardLines(spreadType: string, cards: seq<Card>): seq<Fragment> {
    match NamedPositions(spreadType)
    case Some(positions) => NamedLines(positions, cards)
    case None => NumberedLines(cards)
  }

  /** The card's number has a special note: it is "1", "5" or "10". */
  predicate HasSpecialNumber(card: Card) {
    card.numerology.Some? && card.numerology.value in {"1", "5", "10"}
  }

  /** The reading of a single-card draw: the facts of the card, the special note of its
      number, and a closing remark. */
  function SingleCardReading(spreadType: string, card: Card): seq<Fragment> {
    CardFacts(spreadType, card) + SingleNote(card) + [SingleClosing]
  }

  /** The heading, the card drawn and its orientation, the element, number and astrology
      it has, and a remark for a Major Arcana card. */
  function CardFacts(spreadType: string, card: Card): seq<Fragment> {
    [Heading(spreadType), YouDrew(card.name, OrientationOf(card))]
    + (if Present(card.element) then [ElementFact(card.element.value)] else [])
    + (if Present(card.numerology) then [NumberFact(card.numerology.value)] else [])
    + (if Present(card.astrology) then [AstrologyFact(card.astrology.value)] else [])
    + (if IsMajor(card) then [MajorCallout] else [])
  }

  /** The special note of a single card: its number made into a one-entry counter and
      given to the special-notes rule. */
  function SingleNote(card: Card): seq<Fragment> {
    if HasSpecialNumber(card) then
      [SpecialNoteHeading] + NoteItems(NumerologySpecialNotes([(card.numerology.value, 1)]))
    else []
  }

  /** A multi-card reading: the heading and the card lines before the analysis block,
      failing when the block fails. */
  function MultiCardReading(spreadType: string, lines: seq<Fragment>, block: Result<seq<Fragment>>): Result<seq<Fragment>> {
    match block
    case Err(e) => Err(e)
    case Ok(b) => Ok([Heading(spreadType)] + lines + b)
  }

  /** The reading of the drawn cards under a spread type. A single-card draw of no cards
      fails, as indexing its first card does. */
  ghost function OverallInterpretation(cards: seq<Card>, spreadType: string): Result<seq<Fragment>> {
    if spreadType == SingleCard then
      if cards == [] then Err(IndexError) else Ok(SingleCardReading(spreadType, cards[0]))
    else
      MultiCardReading(spreadType, CardLines(spreadType, cards), StandardReport(cards, CardAnalysis(cards)))
  }

  // ---------------------------------------------------------------------------------
  // The imperative reading

  /** `generate_overall_interpretation(drawn_cards, spread_type)`. */
  method GenerateOverallInterpretation(cards: seq<Card>, spreadType: string) returns (r: Result<seq<Fragment>>)
    ensures r == OverallInterpretation(cards, spreadType)
  {
    var data := GenerateCardAnalysis(cards);
    if spreadType == SingleCard {
      if cards == [] {
        return Err(IndexError);
      }
      var reading := WriteSingleCard(spreadType, cards[0]);
      return Ok(reading);
    }
    var interpretation := [Heading(spreadType)];
    var lines;
    var positions := NamedPositions(spreadType);
    if positions.Some? {
      lines := WriteNamedLines(positions.value, cards);
    } else {
      lines := WriteNumberedLines(cards);
    }
    interpretation := interpretation + lines;
    var block := StandardAnalysis(cards, data);
    if block.Err? {
      return Err(block.error);
    }
    r := Ok(interpretation + block.value);
  }

  /** The single-card reading, written piece by piece. */
  method WriteSingleCard(spreadType: string, card: Card) returns (reading: seq<Fragment>)
    ensures reading == SingleCardReading(spreadType, card)
  {
    var orientation := OrientationOf(card);
    reading := [Heading(spreadType), YouDrew(card.name, orientation)];
    var element, number, astrology, major := [], [], [], [];
    if Present(card.element) {
      element := [ElementFact(card.element.value)];
    }
    if Present(card.numerology) {
      number := [NumberFact(card.numerology.value)];
    }
    if Present(card.astrology) {
      astrology := [AstrologyFact(card.astrology.value)];
    }
    if IsMajor(card) {
      major := [MajorCallout];
    }
    reading := reading + element + number + astrology + major;
    var note := [];
    if HasSpecialNumber(card) {
      var singleNoteCounts := [(card.numerology.value, 1)];
      var specialNotes := SpecialNotes(singleNoteCounts);
      note := [SpecialNoteHeading] + NoteItems(specialNotes);
    }
    reading := reading + note + [SingleClosing];
  }

  /** The lines of a spread with position names: `zip(positions, drawn_cards)`. */
  method WriteNamedLines(positions: seq<string>, cards: seq<Card>) returns (lines: seq<Fragment>)
    ensures lines == NamedLines(positions, cards)
  {
    lines := [];
    var n := Min(|positions|, |cards|);
    for i := 0 to n
      invariant |lines| == i
      invariant forall k :: 0 <= k < i ==> lines[k] == CardLine(Named(positions[k]), cards[k])
    {
      var orientationText := OrientationOf(cards[i]);
      var desc := if cards[i].orientation == "upright" then cards[i].upright else cards[i].reversed;
      lines := lines + [PositionLine(Named(positions[i]), orientationText, desc)];
    }
  }

  /** The lines of a custom spread: `enumerate(drawn_cards, start=1)`. */
  method WriteNumberedLines(cards: seq<Card>) returns (lines: seq<Fragment>)
    ensures lines == NumberedLines(cards)
  {
    lines := [];
    for i := 0 to |cards|
      invariant |lines| == i
      invariant forall k :: 0 <= k < i ==> lines[k] == CardLine(Numbered(k + 1), cards[k])
    {
      var orientationText := OrientationOf(cards[i]);
      var desc := if cards[i].orientation == "upright" then cards[i].upright else cards[i].reversed;
      lines := lines + [PositionLine(Numbered(i + 1), orientationText, desc)];
    }
  }

  // ---------------------------------------------------------------------------------
  // Properties of the reading

  /** A single-card reading opens with the spread heading and the card drawn, in its
      orientation, ends with the closing remark, and has no synergy or dominant-suit
      remark. */
  lemma SingleCardFrame(spreadType: string, card: Card)
    ensures SingleCardReading(spreadType, card)[0] == Heading(spreadType)
    ensures SingleCardReading(spreadType, card)[1] == YouDrew(card.name, OrientationOf(card))
    ensures OrientationOf(card) == Upright <==> card.orientation == "upright"
    ensures SingleCardReading(spreadType, card)[|SingleCardReading(spreadType, card)| - 1] == SingleClosing
    ensures forall f :: f in SingleCardReading(spreadType, card) ==> !IsSynergyFragment(f) && !f.DominantSuit?
  {
    SingleNoteIs(card);
  }

  /** A single-card reading states the card's element, number and astrology exactly
      when the card has them, and calls out a Major Arcana card exactly when it is
      one. */
  lemma SingleCardFacts(spreadType: string, card: Card, x: string)
    ensures ElementFact(x) in SingleCardReading(spreadType, card) <==> card.element == Some(x) && x != ""
    ensures NumberFact(x) in SingleCardReading(spreadType, card) <==> card.numerology == Some(x) && x != ""
    ensures AstrologyFact(x) in SingleCardReading(spreadType, card) <==> card.astrology == Some(x) && x != ""
    ensures MajorCallout in SingleCardReading(spreadType, card) <==> IsMajor(card)
  {
    SingleNoteIs(card);
  }

  /** The special note of a single card is the heading and the note of its number, when
      its number is 1, 5 or 10, and nothing otherwise. */
  lemma SingleNoteIs(card: Card)
    ensures HasSpecialNumber(card) ==>
              SingleNote(card) == [SpecialNoteHeading, SpecialNote(NoteFor(card.numerology.value))]
    ensures !HasSpecialNumber(card) ==> SingleNote(card) == []
  {
    if HasSpecialNumber(card) {
      var v := card.numerology.value;
      NotesDependOnKeysOnly([(v, 1)], [(v, 1)], v);
    }
  }

  /** A single-card reading has the special-note heading exactly when the card's number
      is 1, 5 or 10, and then exactly that number's note. */
  lemma SingleCardNote(spreadType: string, card: Card, k: NoteKey)
    ensures SpecialNoteHeading in SingleCardReading(spreadType, card) <==> HasSpecialNumber(card)
    ensures SpecialNote(k) in SingleCardReading(spreadType, card) <==> card.numerology == Some(NoteNumber(k))
  {
    SingleNoteIs(card);
    var facts := CardFacts(spreadType, card);
    assert forall i :: 0 <= i < |facts| ==> !facts[i].SpecialNote? && facts[i] != SpecialNoteHeading;
  }

  /** The lines of a spread with position names pair the names with the cards in order
      until either runs out; the lines of any other spread number every card from 1. Each
      line shows its card's orientation and the text for that orientation. */
  lemma CardLinesShape(spreadType: string, cards: seq<Card>)
    ensures NamedPositions(spreadType).Some? ==>
              |CardLines(spreadType, cards)| == Min(|NamedPositions(spreadType).value|, |cards|)
    ensures NamedPositions(spreadType).None? ==> |CardLines(spreadType, cards)| == |cards|
    ensures forall i :: 0 <= i < |CardLines(spreadType, cards)| ==>
              && CardLines(spreadType, cards)[i].PositionLine?
              && CardLines(spreadType, cards)[i].orientation == OrientationOf(cards[i])
              && CardLines(spreadType, cards)[i].description == Description(cards[i])
              && CardLines(spreadType, cards)[i].position ==
                   match NamedPositions(spreadType)
                   case Some(positions) => Named(positions[i])
                   case None => Numbered(i + 1)
  {
  }

  /** Under the spread type named for the number of cards drawn, every card of a
      multi-card draw gets its own line. */
  lemma EveryCardDescribed(cards: seq<Card>)
    requires |cards| != 1
    ensures |CardLines(SpreadTypeFor(|cards|), cards)| == |cards|
  {
    CardLinesShape(SpreadTypeFor(|cards|), cards);
  }

  /** A reading fails exactly when a single-card draw has no card, or when the synergy
      pass of a multi-card reading fails. */
  lemma ReadingFails(cards: seq<Card>, spreadType: string)
    ensures OverallInterpretation(cards, spreadType).Err? <==>
              if spreadType == SingleCard then cards == []
              else |cards| >= 2 && exists i, j :: 0 <= i < j < |cards| && SuitFails(cards[i], cards[j])
  {
    ReportFails(cards, CardAnalysis(cards));
  }

  /** A multi-card reading opens with the spread heading, follows it with the card
      lines, and ends with the analysis block and so with its closing remark. */
  lemma MultiCardLayout(cards: seq<Card>, spreadType: string)
    requires spreadType != SingleCard && OverallInterpretation(cards, spreadType).Ok?
    ensures StandardReport(cards, CardAnalysis(cards)).Ok?
    ensures OverallInterpretation(cards, spreadType).value ==
              [Heading(spreadType)] + CardLines(spreadType, cards) + StandardReport(cards, CardAnalysis(cards)).value
    ensures OverallInterpretation(cards, spreadType).value[|OverallInterpretation(cards, spreadType).value| - 1] == Closing
  {
    var data := CardAnalysis(cards);
    ReportIsBlock(cards, data);
    ReportOrder(SummaryOf(data), data.majorArcana, SynergyReport(cards).value);
  }

  /** Through the draw route, a reading fails only when the synergy pass of a draw of
      two or more cards fails, and every card of a multi-card draw gets its own line. */
  lemma RouteReading(requested: Option<int>, catalogSize: nat, cards: seq<Card>)
    requires |cards| == DrawCount(requested, catalogSize)
    ensures OverallInterpretation(cards, SpreadTypeFor(|cards|)).Err? ==>
              |cards| >= 2 && exists i, j :: 0 <= i < j < |cards| && SuitFails(cards[i], cards[j])
    ensures |cards| != 1 ==> |CardLines(SpreadTypeFor(|cards|), cards)| == |cards|
  {
    ReadingFails(cards, SpreadTypeFor(|cards|));
    if |cards| != 1 {
      EveryCardDescribed(cards);
    }
  }
}
