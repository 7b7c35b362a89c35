/** Drawn card records as the analysis engine receives them: a catalog entry with the
    orientation the draw assigned to it. */
module Cards {
  import opened Text

  datatype Option<T> = None | Some(value: T)

  /** The one failure the engine can raise: `IndexError` from indexing past the last
      word of a card name. */
  datatype Error = IndexError

  datatype Result<T> = Ok(value: T) | Err(error: Error)

  /** A drawn card. `keywords` is empty when the record has none; the optional fields
      are `None` when the record lacks them; `arcana` and `orientation` keep the
      record's strings ("Major"/"Minor", "upright"/"reversed"). */
  datatype Card = Card(
    name: string,
    arcana: string,
    keywords: seq<string>,
    element: Option<string>,
    numerology: Option<string>,
    astrology: Option<string>,
    upright: string,
    reversed: string,
    orientation: string)

  /** Python truthiness of `card.get(field)`: the field exists and is not "". */
  predicate Present(field: Option<string>) {
    field.Some? && field.value != ""
  }

  predicate IsMajor(c: Card) {
    c.arcana == "Major"
  }

  /** The orientation as the report shows it. */
  datatype Orientation = Upright | Reversed

  /** Anything but the exact string "upright" reads as reversed. */
  function OrientationOf(c: Card): (o: Orientation)
    ensures o == Upright <==> c.orientation == "upright"
  {
    if c.orientation == "upright" then Upright else Reversed
  }

  /** The narrative text that matches the card's orientation. */
  function Description(c: Card): (d: string)
    ensures d == (if OrientationOf(c) == Upright then c.upright else c.reversed)
  {
    if c.orientation == "upright" then c.upright else c.reversed
  }

  /** The word after the first "of" among the words of `name`, when there is one:
      the suit of a Minor Arcana card such as "Ten of Cups". */
  function SuitAfterOf(name: string): (r: Option<string>)
    ensures r.Some? <==> "of" in Words(name) && IndexOf(Words(name), "of") + 1 < |Words(name)|
    ensures r.Some? ==> r.value == Words(name)[IndexOf(Words(name), "of") + 1] && IsWord(r.value)
  {
    var parts := Words(name);
    if "of" in parts then
      var k := IndexOf(parts, "of");
      if k + 1 < |parts| then
        assert parts[k + 1] in parts;
        Some(parts[k + 1])
      else None
    else None
  }

  /** The first "of" among the words of `name` is its last word: the case where
      indexing the word after it fails. */
  predicate OfIsLastWord(name: string) {
    var parts := Words(name);
    "of" in parts && IndexOf(parts, "of") + 1 == |parts|
  }

  /** A name whose words include "of" either yields a suit or ends in its first "of". */
  lemma SuitOrLastOf(name: string)
    requires "of" in Words(name)
    ensures SuitAfterOf(name).None? <==> OfIsLastWord(name)
  {
  }

  /** A Minor Arcana card's name yields its suit. */
  lemma SuitOfAceOfWands()
    ensures SuitAfterOf("Ace of Wands") == Some("Wands")
  {
    var ws := ["Ace", "of", "Wands"];
    assert Join(ws, ' ') == "Ace of Wands";
    WordsJoin(ws);
    assert Words("Ace of Wands") == ws;
    assert IndexOf(ws, "of") == 1;
  }

  /** A name without the word "of" yields no suit. */
  lemma SuitOfTheFool()
    ensures SuitAfterOf("The Fool") == None
  {
    var ws := ["The", "Fool"];
    assert Join(ws, ' ') == "The Fool";
    WordsJoin(ws);
    assert Words("The Fool") == ws;
  }

  /** A name ending in "of" yields no suit either: the case where the synergy rule's
      index fails. */
  lemma SuitOfTrailingOf()
    ensures SuitAfterOf("Page of") == None && OfIsLastWord("Page of")
  {
    var ws := ["Page", "of"];
    assert Join(ws, ' ') == "Page of";
    WordsJoin(ws);
    assert Words("Page of") == ws;
    assert IndexOf(ws, "of") == 1;
  }
}
