/** `standard_analysis`: the analysis block of every multi-card reading. It is written
    as eight sections in a fixed order (shared keywords, elements, numerology,
    astrology, Major Arcana, dominant suit, synergy, closing remark); a section whose
    data is empty is left out, except the first and the last.

    The block is the join of its sections, given as a function value `PartsOf` from
    section number to fragments. `PartsOf` is chosen with `:|`, as `LineOf` is in
    `Synergy`, so that a proof about one section unfolds only that section, through
    `PartAt`. */
module Report {
  import opened Text
  import opened Cards
  import opened Tallies
  import opened Fragments
  import opened Aggregation
  import opened Numerology
  import opened Synergy

  /** One list item per repeated keyword. */
  function ThemeItems(ks: seq<string>): seq<Fragment> {
    seq(|ks|, i requires 0 <= i < |ks| => ThemeItem(ks[i]))
  }

  /** One list item per counter entry, in the counter's order. */
  function TallyItems(a: Attribute, t: Tally<string>): seq<Fragment> {
    seq(|t|, i requires 0 <= i < |t| => TallyItem(a, t[i].0, t[i].1))
  }

  /** One paragraph per special numerology note. */
  function NoteItems(notes: seq<NoteKey>): seq<Fragment> {
    seq(|notes|, i requires 0 <= i < |notes| => SpecialNote(notes[i]))
  }

  /** What the block computes from the gathered lists before writing: the repeated
      keywords, the element, number and astrology counters, the special numerology
      notes and the dominant suit. */
  datatype Summary = Summary(
    repeated: seq<string>,
    elements: Tally<string>,
    numerology: Tally<string>,
    notes: seq<NoteKey>,
    astrology: Tally<string>,
    dominant: Option<string>)

  function SummaryOf(data: AnalysisData): Summary {
    var numerology := Count(data.numerology);
    Summary(Repeated(Count(data.allKeywords)), Count(data.elements), numerology,
            NumerologySpecialNotes(numerology), Count(data.astrology), DominantOf(data.suits))
  }

  /** The most common suit, when a Minor card gave a suit. */
  function DominantOf(suits: seq<string>): Option<string> {
    if suits == [] then None
    else
      CountNonEmpty(suits);
      Some(MostCommon(Count(suits)).0)
  }

  /** The shared-keywords section: the repeated keywords as a list, or a remark that
      there are none. */
  function ThemesSection(repeated: seq<string>): seq<Fragment> {
    if repeated != [] then [ThemesHeader] + ThemeItems(repeated) + [ThemesNote]
    else [NoRepeats]
  }

  /** A tally section: written only when the counter has an entry. */
  function TallySection(a: Attribute, t: Tally<string>, tail: seq<Fragment>): seq<Fragment> {
    if t == [] then [] else [TallyHeader(a)] + TallyItems(a, t) + tail
  }

  /** The special notes, under their own heading when there is at least one. */
  function SpecialNotesBlock(notes: seq<NoteKey>): seq<Fragment> {
    if notes == [] then [] else [SpecialNotesHeader] + NoteItems(notes)
  }

  function ElementsSection(t: Tally<string>): seq<Fragment> {
    TallySection(ElementAttr, t, [ElementsNote])
  }

  function NumerologySection(t: Tally<string>, notes: seq<NoteKey>): seq<Fragment> {
    TallySection(NumberAttr, t, SpecialNotesBlock(notes))
  }

  function AstrologySection(t: Tally<string>): seq<Fragment> {
    TallySection(AstrologyAttr, t, [AstrologyNote])
  }

  function MajorSection(majors: seq<Card>): seq<Fragment> {
    if majors != [] then [MajorArcanaNote] else []
  }

  function SuitSection(dominant: Option<string>): seq<Fragment> {
    match dominant
    case None => []
    case Some(suit) => [DominantSuit(suit)]
  }

  /** Section `k` of the block written from a summary, the Major Arcana cards and a
      synergy part. */
  function Part(c: Summary, majors: seq<Card>, synergy: seq<Fragment>, k: nat): seq<Fragment> {
    if k == 0 then ThemesSection(c.repeated)
    else if k == 1 then ElementsSection(c.elements)
    else if k == 2 then NumerologySection(c.numerology, c.notes)
    else if k == 3 then AstrologySection(c.astrology)
    else if k == 4 then MajorSection(majors)
    else if k == 5 then SuitSection(c.dominant)
    else if k == 6 then synergy
    else if k == 7 then [Closing]
    else []
  }

  /** The sections of the block as a function of their number. Applying it says nothing
      until that section's `Part` is mentioned, which keeps the other sections out of
      the proofs about one of them. */
  ghost function PartsOf(c: Summary, majors: seq<Card>, synergy: seq<Fragment>): nat -> seq<Fragment> {
    PartsOfExists(c, majors, synergy);
    var parts :| IsPartsOf(c, majors, synergy, parts);
    parts
  }

  ghost predicate IsPartsOf(c: Summary, majors: seq<Card>, synergy: seq<Fragment>, parts: nat -> seq<Fragment>) {
    forall k {:trigger Part(c, majors, synergy, k)} :: parts(k) == Part(c, majors, synergy, k)
  }

  lemma PartsOfExists(c: Summary, majors: seq<Card>, synergy: seq<Fragment>)
    ensures exists parts :: IsPartsOf(c, majors, synergy, parts)
  {
    assert IsPartsOf(c, majors, synergy, (k: nat) => Part(c, majors, synergy, k));
  }

  /** The eight sections one after the other. */
  function JoinParts(parts: nat -> seq<Fragment>): seq<Fragment> {
    parts(0) + parts(1) + parts(2) + parts(3) + parts(4) + parts(5) + parts(6) + parts(7)
  }

  /** The block written from a summary, the Major Arcana cards and a synergy part. */
  ghost function AnalysisBlock(c: Summary, majors: seq<Card>, synergy: seq<Fragment>): seq<Fragment> {
    JoinParts(PartsOf(c, majors, synergy))
  }

  /** The block given the outcome of the synergy pass: it fails when that pass fails. */
  ghost function Analysis(synergy: Result<seq<Fragment>>, c: Summary, majors: seq<Card>): Result<seq<Fragment>> {
    match synergy
    case Err(e) => Err(e)
    case Ok(s) => Ok(AnalysisBlock(c, majors, s))
  }

  /** The block for the drawn cards and the lists gathered from them. */
  ghost function StandardReport(cards: seq<Card>, data: AnalysisData): Result<seq<Fragment>> {
    Analysis(SynergyReport(cards), SummaryOf(data), data.majorArcana)
  }

  /** The values tallied under an attribute. */
  function AttributeValues(data: AnalysisData, a: Attribute): seq<string> {
    match a
    case ElementAttr => data.elements
    case NumberAttr => data.numerology
    case AstrologyAttr => data.astrology
  }

  /** The counter kept for an attribute. */
  function AttributeCounter(c: Summary, a: Attribute): Tally<string> {
    match a
    case ElementAttr => c.elements
    case NumberAttr => c.numerology
    case AstrologyAttr => c.astrology
  }

  /** The counter has an entry `(v, n)`. */
  predicate HasEntry(t: Tally<string>, v: string, n: nat) {
    exists i :: 0 <= i < |t| && t[i] == (v, n)
  }

  // ---------------------------------------------------------------------------------
  // The imperative block

  /** `standard_analysis(drawn_cards, data)`. */
  method StandardAnalysis(cards: seq<Card>, data: AnalysisData) returns (r: Result<seq<Fragment>>)
    ensures r == StandardReport(cards, data)
  {
    var keywordCounts := Count(data.allKeywords);
    var repeatedKeywords := Repeated(keywordCounts);
    var elementCounts := Count(data.elements);
    var numerologyCounts := Count(data.numerology);
    var astrologyCounts := Count(data.astrology);

    var interpretation := WriteThemes(repeatedKeywords);
    var elements := WriteTally(ElementAttr, elementCounts, [ElementsNote]);
    interpretation := interpretation + elements;
    var numbers := WriteNumerology(numerologyCounts);
    interpretation := interpretation + numbers;
    var astrology := WriteTally(AstrologyAttr, astrologyCounts, [AstrologyNote]);
    interpretation := interpretation + astrology;
    var majors := WriteMajor(data.majorArcana);
    interpretation := interpretation + majors;
    var suit := WriteSuit(data.suits);
    interpretation := interpretation + suit;

    var synergyText := SynergyAnalysis(cards);
    if synergyText.Err? {
      return Err(synergyText.error);
    }
    interpretation := interpretation + synergyText.value;
    interpretation := interpretation + [Closing];
    PartsAre(SummaryOf(data), data.majorArcana, synergyText.value);
    r := Ok(interpretation);
  }

  /** The shared-keywords section. */
  method WriteThemes(repeatedKeywords: seq<string>) returns (part: seq<Fragment>)
    ensures part == ThemesSection(repeatedKeywords)
  {
    if repeatedKeywords != [] {
      var items := ListThemes(repeatedKeywords);
      part := [ThemesHeader] + items + [ThemesNote];
    } else {
      part := [NoRepeats];
    }
  }

  /** The element or astrology section. */
  method WriteTally(a: Attribute, counts: Tally<string>, tail: seq<Fragment>) returns (part: seq<Fragment>)
    ensures part == TallySection(a, counts, tail)
  {
    part := [];
    if counts != [] {
      var items := ListTally(a, counts);
      part := [TallyHeader(a)] + items + tail;
    }
  }

  /** The numerology section, with the special notes of its counter. */
  method WriteNumerology(counts: Tally<string>) returns (part: seq<Fragment>)
    ensures part == NumerologySection(counts, NumerologySpecialNotes(counts))
  {
    part := [];
    if counts != [] {
      var items := ListTally(NumberAttr, counts);
      part := [TallyHeader(NumberAttr)] + items;
      var specialNotes := SpecialNotes(counts);
      if specialNotes != [] {
        part := part + [SpecialNotesHeader] + NoteItems(specialNotes);
      }
    }
  }

  /** The Major Arcana remark. */
  method WriteMajor(majorArcana: seq<Card>) returns (part: seq<Fragment>)
    ensures part == MajorSection(majorArcana)
  {
    part := [];
    if majorArcana != [] {
      part := [MajorArcanaNote];
    }
  }

  /** The dominant suit, by the counter of the suits. */
  method WriteSuit(suits: seq<string>) returns (part: seq<Fragment>)
    ensures part == SuitSection(DominantOf(suits))
  {
    part := [];
    if suits != [] {
      CountNonEmpty(suits);
      var suitCounts := Count(suits);
      var (dominantSuit, _) := MostCommon(suitCounts);
      part := [DominantSuit(dominantSuit)];
    }
  }

  /** The list items of the shared-keywords section. */
  method ListThemes(ks: seq<string>) returns (items: seq<Fragment>)
    ensures items == ThemeItems(ks)
  {
    items := [];
    for i := 0 to |ks|
      invariant |items| == i
      invariant forall k :: 0 <= k < i ==> items[k] == ThemeItem(ks[k])
    {
      items := items + [ThemeItem(ks[i])];
    }
  }

  /** The list items of a tally section, one per counter entry. */
  method ListTally(a: Attribute, t: Tally<string>) returns (items: seq<Fragment>)
    ensures items == TallyItems(a, t)
  {
    items := [];
    for i := 0 to |t|
      invariant |items| == i
      invariant forall k :: 0 <= k < i ==> items[k] == TallyItem(a, t[k].0, t[k].1)
    {
      var (value, count) := t[i];
      items := items + [TallyItem(a, value, count)];
    }
  }

  // ---------------------------------------------------------------------------------
  // The sections, for any summary

  lemma TallyInPlace(a: Attribute, t: Tally<string>, tail: seq<Fragment>)
    requires AllInSection(tail, AttributeSection(a))
    ensures AllInSection(TallySection(a, t, tail), AttributeSection(a))
  {
  }

  lemma ThemesInPlace(repeated: seq<string>)
    ensures AllInSection(ThemesSection(repeated), 0)
  {
  }

  lemma SuitInPlace(dominant: Option<string>)
    ensures AllInSection(SuitSection(dominant), 5)
  {
  }

  /** The sections of the block, one by one. */
  lemma PartsAre(c: Summary, majors: seq<Card>, synergy: seq<Fragment>)
    ensures PartsOf(c, majors, synergy)(0) == ThemesSection(c.repeated)
    ensures PartsOf(c, majors, synergy)(1) == ElementsSection(c.elements)
    ensures PartsOf(c, majors, synergy)(2) == NumerologySection(c.numerology, c.notes)
    ensures PartsOf(c, majors, synergy)(3) == AstrologySection(c.astrology)
    ensures PartsOf(c, majors, synergy)(4) == MajorSection(majors)
    ensures PartsOf(c, majors, synergy)(5) == SuitSection(c.dominant)
    ensures PartsOf(c, majors, synergy)(6) == synergy
    ensures PartsOf(c, majors, synergy)(7) == [Closing]
  {
    assert Part(c, majors, synergy, 0) == ThemesSection(c.repeated);
    assert Part(c, majors, synergy, 1) == ElementsSection(c.elements);
    assert Part(c, majors, synergy, 2) == NumerologySection(c.numerology, c.notes);
    assert Part(c, majors, synergy, 3) == AstrologySection(c.astrology);
    assert Part(c, majors, synergy, 4) == MajorSection(majors);
    assert Part(c, majors, synergy, 5) == SuitSection(c.dominant);
    assert Part(c, majors, synergy, 6) == synergy;
    assert Part(c, majors, synergy, 7) == [Closing];
  }

  /** Section `k` of the block. */
  lemma PartAt(c: Summary, majors: seq<Card>, synergy: seq<Fragment>, k: nat)
    ensures PartsOf(c, majors, synergy)(k) == Part(c, majors, synergy, k)
  {
  }

  /** Each of the eight sections holds only fragments of its own section. */
  lemma PartsInPlace(c: Summary, majors: seq<Card>, synergy: seq<Fragment>)
    requires AllInSection(synergy, 6)
    ensures forall k :: k < 8 ==> AllInSection(PartsOf(c, majors, synergy)(k), k)
  {
    PartsAre(c, majors, synergy);
    ThemesInPlace(c.repeated);
    TallyInPlace(ElementAttr, c.elements, [ElementsNote]);
    TallyInPlace(NumberAttr, c.numerology, SpecialNotesBlock(c.notes));
    TallyInPlace(AstrologyAttr, c.astrology, [AstrologyNote]);
    SuitInPlace(c.dominant);
    var parts := PartsOf(c, majors, synergy);
    forall k | k < 8 ensures AllInSection(parts(k), k) {
      assert k == 0 || k == 1 || k == 2 || k == 3 || k == 4 || k == 5 || k == 6 || k == 7;
    }
  }

  /** When each section holds only its own fragments, a fragment occurs in the joined
      sections exactly when it occurs in its own section. */
  lemma PartsMember(parts: nat -> seq<Fragment>, f: Fragment)
    requires forall k :: k < 8 ==> AllInSection(parts(k), k)
    ensures f in JoinParts(parts) <==> Section(f) < 8 && f in parts(Section(f))
  {
    forall k | k < 8 && f in parts(k) ensures Section(f) == k {
      var i :| 0 <= i < |parts(k)| && parts(k)[i] == f;
    }
  }

  /** When each section holds only its own fragments, a fragment occurs in the joined
      sections as often as it occurs in its own section. */
  lemma PartsCount(parts: nat -> seq<Fragment>, f: Fragment)
    requires forall k :: k < 8 ==> AllInSection(parts(k), k)
    requires Section(f) < 8
    ensures multiset(JoinParts(parts))[f] == multiset(parts(Section(f)))[f]
  {
    forall k | k < 8 && k != Section(f) ensures multiset(parts(k))[f] == 0 {
      NotInOtherSection(parts(k), k, f);
    }
  }

  lemma NotInOtherSection(s: seq<Fragment>, k: nat, f: Fragment)
    requires AllInSection(s, k) && Section(f) != k
    ensures multiset(s)[f] == 0
  {
    forall i | 0 <= i < |s| ensures s[i] != f {
      assert Section(s[i]) == k;
    }
  }

  /** When each section holds only its own fragments, the joined sections are in
      section order, and everything but the last fragment comes before section 7. */
  lemma PartsOrder(parts: nat -> seq<Fragment>)
    requires forall k :: k < 8 ==> AllInSection(parts(k), k)
    requires parts(7) == [Closing]
    ensures InSectionOrder(JoinParts(parts))
    ensures forall i :: 0 <= i < |JoinParts(parts)| - 1 ==> Section(JoinParts(parts)[i]) <= 6
  {
    var s := parts(0);
    assert AllInSection(parts(0), 0);
    AppendSection(s, parts(1), 1);
    s := s + parts(1);
    AppendSection(s, parts(2), 2);
    s := s + parts(2);
    AppendSection(s, parts(3), 3);
    s := s + parts(3);
    AppendSection(s, parts(4), 4);
    s := s + parts(4);
    AppendSection(s, parts(5), 5);
    s := s + parts(5);
    AppendSection(s, parts(6), 6);
    s := s + parts(6);
    AppendSection(s, parts(7), 7);
    assert JoinParts(parts) == s + [Closing];
  }

  /** A fragment occurs in the block exactly when it occurs in its own section. */
  lemma BlockMember(c: Summary, majors: seq<Card>, synergy: seq<Fragment>, f: Fragment)
    requires AllInSection(synergy, 6)
    ensures f in AnalysisBlock(c, majors, synergy) <==>
              Section(f) < 8 && f in PartsOf(c, majors, synergy)(Section(f))
  {
    PartsInPlace(c, majors, synergy);
    PartsMember(PartsOf(c, majors, synergy), f);
  }

  /** The block is in section order, and everything but its last fragment comes before
      the closing remark's section. */
  lemma BlockOrder(c: Summary, majors: seq<Card>, synergy: seq<Fragment>)
    requires AllInSection(synergy, 6)
    ensures InSectionOrder(AnalysisBlock(c, majors, synergy))
    ensures forall i :: 0 <= i < |AnalysisBlock(c, majors, synergy)| - 1 ==>
              Section(AnalysisBlock(c, majors, synergy)[i]) <= 6
  {
    PartsInPlace(c, majors, synergy);
    PartsAre(c, majors, synergy);
    PartsOrder(PartsOf(c, majors, synergy));
  }

  /** The shared-keywords section lists the repeated keys, or says there are none. */
  lemma ThemesMembers(repeated: seq<string>, k: string)
    ensures ThemeItem(k) in ThemesSection(repeated) <==> k in repeated
    ensures NoRepeats in ThemesSection(repeated) <==> repeated == []
  {
    var themes := ThemesSection(repeated);
    if ThemeItem(k) in themes {
      var i :| 0 <= i < |themes| && themes[i] == ThemeItem(k);
      assert i > 0 && repeated[i - 1] == k;
    }
    if k in repeated {
      var a :| 0 <= a < |repeated| && repeated[a] == k;
      assert themes[a + 1] == ThemeItem(k);
    }
  }

  /** A tally section has its heading exactly when the counter has an entry, and one
      item per entry. */
  lemma TallyMembers(a: Attribute, t: Tally<string>, tail: seq<Fragment>, v: string, n: nat)
    requires forall i :: 0 <= i < |tail| ==> !tail[i].TallyHeader? && !tail[i].TallyItem?
    ensures TallyHeader(a) in TallySection(a, t, tail) <==> t != []
    ensures TallyItem(a, v, n) in TallySection(a, t, tail) <==> HasEntry(t, v, n)
  {
    var items := TallyItems(a, t);
    if TallyItem(a, v, n) in items {
      var i :| 0 <= i < |items| && items[i] == TallyItem(a, v, n);
      assert t[i] == (v, n);
    }
    if HasEntry(t, v, n) {
      var i :| 0 <= i < |t| && t[i] == (v, n);
      assert items[i] == TallyItem(a, v, n);
    }
    if t != [] {
      assert TallySection(a, t, tail)[0] == TallyHeader(a);
    }
  }

  /** Each special note given occurs once in the numerology section, when its counter
      has an entry. */
  lemma NoteOnceInSection(t: Tally<string>, notes: seq<NoteKey>, k: NoteKey)
    requires Distinct(notes)
    ensures multiset(NumerologySection(t, notes))[SpecialNote(k)] ==
              if t != [] && k in notes then 1 else 0
  {
    var items := NoteItems(notes);
    assert Distinct(items);
    DistinctOnce(items, SpecialNote(k));
    assert SpecialNote(k) in items <==> k in notes by {
      if k in notes {
        var i :| 0 <= i < |notes| && notes[i] == k;
        assert items[i] == SpecialNote(k);
      }
    }
    assert SpecialNote(k) !in TallyItems(NumberAttr, t);
  }

  /** The numerology section carries the given special notes, under their heading when
      there is at least one, and only when the counter has an entry. */
  lemma NotesMembers(t: Tally<string>, notes: seq<NoteKey>, k: NoteKey)
    ensures SpecialNote(k) in NumerologySection(t, notes) <==> t != [] && k in notes
    ensures SpecialNotesHeader in NumerologySection(t, notes) <==> t != [] && notes != []
  {
    var block := SpecialNotesBlock(notes);
    var items := NoteItems(notes);
    if SpecialNote(k) in items {
      var i :| 0 <= i < |notes| && items[i] == SpecialNote(k);
    }
    if k in notes {
      var i :| 0 <= i < |notes| && notes[i] == k;
      assert items[i] == SpecialNote(k);
    }
    if notes != [] {
      assert block[0] == SpecialNotesHeader;
    }
    assert forall i :: 0 <= i < |TallyItems(NumberAttr, t)| ==> TallyItems(NumberAttr, t)[i].TallyItem?;
  }

  /** The block lists the repeated keys of its keyword counter, or says there are
      none. */
  lemma ThemesInBlock(c: Summary, majors: seq<Card>, synergy: seq<Fragment>, k: string)
    requires AllInSection(synergy, 6)
    ensures ThemeItem(k) in AnalysisBlock(c, majors, synergy) <==> k in c.repeated
    ensures NoRepeats in AnalysisBlock(c, majors, synergy) <==> c.repeated == []
  {
    PartAt(c, majors, synergy, 0);
    BlockMember(c, majors, synergy, ThemeItem(k));
    BlockMember(c, majors, synergy, NoRepeats);
    ThemesMembers(c.repeated, k);
  }

  /** The block has a tally heading exactly when the counter has an entry, and one item
      per entry. */
  lemma TallyInBlock(c: Summary, majors: seq<Card>, synergy: seq<Fragment>, a: Attribute, v: string, n: nat)
    requires AllInSection(synergy, 6)
    ensures TallyHeader(a) in AnalysisBlock(c, majors, synergy) <==> AttributeCounter(c, a) != []
    ensures TallyItem(a, v, n) in AnalysisBlock(c, majors, synergy) <==> HasEntry(AttributeCounter(c, a), v, n)
  {
    BlockMember(c, majors, synergy, TallyHeader(a));
    BlockMember(c, majors, synergy, TallyItem(a, v, n));
    TallyPart(c, majors, synergy, a);
    TallyMembers(a, AttributeCounter(c, a), TallyTail(c, a), v, n);
  }

  /** What a tally section has after its items: the elements remark, the special
      numerology notes, or the astrology remark. */
  function TallyTail(c: Summary, a: Attribute): seq<Fragment> {
    match a
    case ElementAttr => [ElementsNote]
    case NumberAttr => SpecialNotesBlock(c.notes)
    case AstrologyAttr => [AstrologyNote]
  }

  /** The section of the block kept for an attribute. */
  lemma TallyPart(c: Summary, majors: seq<Card>, synergy: seq<Fragment>, a: Attribute)
    ensures PartsOf(c, majors, synergy)(AttributeSection(a)) ==
              TallySection(a, AttributeCounter(c, a), TallyTail(c, a))
  {
    match a
    case ElementAttr => PartAt(c, majors, synergy, 1);
    case NumberAttr => PartAt(c, majors, synergy, 2);
    case AstrologyAttr => PartAt(c, majors, synergy, 3);
  }

  /** The block carries the special notes of its numerology counter. */
  lemma NotesInBlock(c: Summary, majors: seq<Card>, synergy: seq<Fragment>, k: NoteKey)
    requires AllInSection(synergy, 6)
    ensures SpecialNote(k) in AnalysisBlock(c, majors, synergy) <==> c.numerology != [] && k in c.notes
    ensures SpecialNotesHeader in AnalysisBlock(c, majors, synergy) <==> c.numerology != [] && c.notes != []
  {
    PartAt(c, majors, synergy, 2);
    BlockMember(c, majors, synergy, SpecialNote(k));
    BlockMember(c, majors, synergy, SpecialNotesHeader);
    NotesMembers(c.numerology, c.notes, k);
  }

  /** A special note occurs in the block once when it is due, and not at all otherwise. */
  lemma NoteOnceInBlock(c: Summary, majors: seq<Card>, synergy: seq<Fragment>, k: NoteKey)
    requires AllInSection(synergy, 6)
    requires Distinct(c.notes)
    ensures multiset(AnalysisBlock(c, majors, synergy))[SpecialNote(k)] ==
              if c.numerology != [] && k in c.notes then 1 else 0
  {
    PartsInPlace(c, majors, synergy);
    PartsCount(PartsOf(c, majors, synergy), SpecialNote(k));
    PartAt(c, majors, synergy, 2);
    NoteOnceInSection(c.numerology, c.notes, k);
  }

  /** The block names the most common entry of its suit counter, when it has one. */
  lemma DominantInBlock(c: Summary, majors: seq<Card>, synergy: seq<Fragment>, s: string)
    requires AllInSection(synergy, 6)
    ensures (exists x :: DominantSuit(x) in AnalysisBlock(c, majors, synergy)) <==> c.dominant.Some?
    ensures DominantSuit(s) in AnalysisBlock(c, majors, synergy) <==> c.dominant == Some(s)
  {
    PartAt(c, majors, synergy, 5);
    BlockMember(c, majors, synergy, DominantSuit(s));
    if c.dominant.Some? {
      BlockMember(c, majors, synergy, DominantSuit(c.dominant.value));
    } else {
      forall x ensures DominantSuit(x) !in AnalysisBlock(c, majors, synergy) {
        BlockMember(c, majors, synergy, DominantSuit(x));
      }
    }
  }

  /** The block has the Major Arcana remark exactly when it is given a Major Arcana
      card. */
  lemma MajorInBlock(c: Summary, majors: seq<Card>, synergy: seq<Fragment>)
    requires AllInSection(synergy, 6)
    ensures MajorArcanaNote in AnalysisBlock(c, majors, synergy) <==> majors != []
  {
    PartAt(c, majors, synergy, 4);
    BlockMember(c, majors, synergy, MajorArcanaNote);
  }

  // ---------------------------------------------------------------------------------
  // Counting the gathered lists

  lemma CountNonEmpty<T>(xs: seq<T>)
    requires xs != []
    ensures Count(xs) != []
  {
    CountKeys(xs);
  }

  /** The counter of a list has the entry `(v, n)` exactly when `v` occurs `n > 0`
      times in the list. */
  lemma CountEntries(xs: seq<string>, v: string, n: nat)
    ensures HasEntry(Count(xs), v, n) <==> v in xs && n == multiset(xs)[v]
  {
    var t := Count(xs);
    CountIsCounter(xs);
    if HasEntry(t, v, n) {
      var i :| 0 <= i < |t| && t[i] == (v, n);
      assert t[i].0 in Keys(t);
    }
    if v in xs && n == multiset(xs)[v] {
      var i := IndexOf(Keys(t), v);
      assert t[i] == (v, n);
    }
  }

  /** The counter of an attribute's values has an entry exactly when a value was
      gathered, and its entries are the values with their numbers of occurrences. */
  lemma CountedValues(data: AnalysisData, a: Attribute, v: string, n: nat)
    ensures AttributeCounter(SummaryOf(data), a) != [] <==> AttributeValues(data, a) != []
    ensures HasEntry(AttributeCounter(SummaryOf(data), a), v, n) <==>
              v in AttributeValues(data, a) && n == multiset(AttributeValues(data, a))[v]
  {
    var xs := AttributeValues(data, a);
    assert AttributeCounter(SummaryOf(data), a) == Count(xs);
    CountKeys(xs);
    CountEntries(xs, v, n);
  }

  /** The number a special note is about. */
  function NoteNumber(k: NoteKey): string {
    match k
    case NoteOne => "1"
    case NoteFive => "5"
    case NoteTen => "10"
  }

  /** The special notes are those of the gathered numbers, and a number was gathered
      whenever a note is due. */
  lemma CountedNotes(data: AnalysisData, k: NoteKey)
    ensures k in SummaryOf(data).notes <==> NoteNumber(k) in data.numerology
    ensures SummaryOf(data).notes != [] <==>
              "1" in data.numerology || "5" in data.numerology || "10" in data.numerology
    ensures SummaryOf(data).notes != [] ==> SummaryOf(data).numerology != []
  {
    CountKeys(data.numerology);
  }

  /** No keyword repeats exactly when every keyword occurs once. */
  lemma NothingRepeated(xs: seq<string>)
    ensures Repeated(Count(xs)) == [] <==> forall x :: x in xs ==> multiset(xs)[x] == 1
  {
    RepeatedKeywords(xs);
    var r := Repeated(Count(xs));
    if r != [] {
      assert r[0] in r;
    } else {
      forall x | x in xs ensures multiset(xs)[x] == 1 {
        assert x !in r;
      }
    }
  }

  /** `s` occurs in `xs` at least as often as any value, and before any value that
      occurs as often. */
  ghost predicate FirstMostFrequent(xs: seq<string>, s: string) {
    && s in xs
    && (forall y :: y in xs ==> multiset(xs)[y] <= multiset(xs)[s])
    && (forall y :: y in xs && multiset(xs)[y] == multiset(xs)[s] ==> IndexOf(xs, s) <= IndexOf(xs, y))
  }

  /** The most common value of a non-empty list is its one first most frequent value. */
  lemma MostCommonIsUnique(xs: seq<string>, s: string)
    requires xs != []
    ensures Count(xs) != []
    ensures s == MostCommon(Count(xs)).0 <==> FirstMostFrequent(xs, s)
  {
    MostCommonIsFirstMostFrequent(xs);
    var m := MostCommon(Count(xs)).0;
    if FirstMostFrequent(xs, s) {
      assert multiset(xs)[s] == multiset(xs)[m];
      assert IndexOf(xs, s) == IndexOf(xs, m);
      assert xs[IndexOf(xs, s)] == s;
    }
  }

  // ---------------------------------------------------------------------------------
  // Properties of the block

  /** A synergy block holds synergy fragments only. */
  lemma SynergyBlockInPlace(cards: seq<Card>)
    requires SynergyReport(cards).Ok?
    ensures AllInSection(SynergyReport(cards).value, 6)
    ensures SynergyHeader in SynergyReport(cards).value <==> |cards| >= 2
  {
    SynergyReportFails(cards);
    if |cards| >= 2 {
      SynergyReportFallback(cards);
      if NoSynergy !in SynergyReport(cards).value {
        SynergyReportLines(cards);
      }
    }
    SynergyShape(SynergyReport(cards).value);
  }

  /** A synergy block is empty, the fallback remark under the heading, or the heading
      followed by pair lines. */
  lemma SynergyShape(v: seq<Fragment>)
    requires || v == []
             || v == [SynergyHeader, NoSynergy]
             || (v != [] && v[0] == SynergyHeader && forall k :: 1 <= k < |v| ==> v[k].SynergyPair?)
    ensures AllInSection(v, 6)
    ensures SynergyHeader in v <==> v != []
  {
    if v != [] {
      assert v[0] == SynergyHeader;
    }
  }

  /** An Ok block is the block written from the summary of the gathered lists and an
      Ok synergy part, which holds synergy fragments only. */
  lemma ReportIsBlock(cards: seq<Card>, data: AnalysisData)
    requires StandardReport(cards, data).Ok?
    ensures SynergyReport(cards).Ok?
    ensures StandardReport(cards, data).value ==
              AnalysisBlock(SummaryOf(data), data.majorArcana, SynergyReport(cards).value)
    ensures AllInSection(SynergyReport(cards).value, 6)
  {
    SynergyBlockInPlace(cards);
  }

  /** The block fails exactly when the synergy pass fails: when two cards of the draw
      make the suit rule index past the end of a name. */
  lemma ReportFails(cards: seq<Card>, data: AnalysisData)
    ensures StandardReport(cards, data).Err? <==>
              |cards| >= 2 && exists i, j :: 0 <= i < j < |cards| && SuitFails(cards[i], cards[j])
  {
    SynergyReportFails(cards);
  }

  /** The sections come in their fixed order, and the closing remark comes last and
      only there. */
  lemma ReportOrder(c: Summary, majors: seq<Card>, synergy: seq<Fragment>)
    requires AllInSection(synergy, 6)
    ensures InSectionOrder(AnalysisBlock(c, majors, synergy))
    ensures AnalysisBlock(c, majors, synergy) != []
    ensures AnalysisBlock(c, majors, synergy)[|AnalysisBlock(c, majors, synergy)| - 1] == Closing
    ensures forall i :: 0 <= i < |AnalysisBlock(c, majors, synergy)| - 1 ==>
              AnalysisBlock(c, majors, synergy)[i] != Closing
  {
    BlockOrder(c, majors, synergy);
    PartsAre(c, majors, synergy);
  }

  /** The shared-keywords section lists exactly the keywords that occur more than once
      among all cards' keywords, and says there are none exactly when none does. */
  lemma ThemesInReport(data: AnalysisData, synergy: seq<Fragment>, k: string)
    requires AllInSection(synergy, 6)
    ensures ThemeItem(k) in AnalysisBlock(SummaryOf(data), data.majorArcana, synergy) <==>
              multiset(data.allKeywords)[k] > 1
    ensures NoRepeats in AnalysisBlock(SummaryOf(data), data.majorArcana, synergy) <==>
              forall x :: x in data.allKeywords ==> multiset(data.allKeywords)[x] == 1
  {
    ThemesInBlock(SummaryOf(data), data.majorArcana, synergy, k);
    RepeatedKeywords(data.allKeywords);
    NothingRepeated(data.allKeywords);
  }

  /** A tally section (elements, numbers, astrology) appears exactly when some card
      gives a value for it, and lists each value given with the number of cards giving
      it. */
  lemma TallyInReport(data: AnalysisData, synergy: seq<Fragment>, a: Attribute, v: string, n: nat)
    requires AllInSection(synergy, 6)
    ensures TallyHeader(a) in AnalysisBlock(SummaryOf(data), data.majorArcana, synergy) <==>
              AttributeValues(data, a) != []
    ensures TallyItem(a, v, n) in AnalysisBlock(SummaryOf(data), data.majorArcana, synergy) <==>
              v in AttributeValues(data, a) && n == multiset(AttributeValues(data, a))[v]
  {
    TallyInBlock(SummaryOf(data), data.majorArcana, synergy, a, v, n);
    CountedValues(data, a, v, n);
  }

  /** The special numerology notes appear exactly for those of 1, 5 and 10 that some
      card carries as its number, under a heading that appears exactly when one does. */
  lemma SpecialNotesInReport(data: AnalysisData, synergy: seq<Fragment>, k: NoteKey)
    requires AllInSection(synergy, 6)
    ensures SpecialNote(k) in AnalysisBlock(SummaryOf(data), data.majorArcana, synergy) <==>
              NoteNumber(k) in data.numerology
    ensures SpecialNotesHeader in AnalysisBlock(SummaryOf(data), data.majorArcana, synergy) <==>
              "1" in data.numerology || "5" in data.numerology || "10" in data.numerology
    ensures multiset(AnalysisBlock(SummaryOf(data), data.majorArcana, synergy))[SpecialNote(k)] ==
              if NoteNumber(k) in data.numerology then 1 else 0
  {
    var c := SummaryOf(data);
    NotesInBlock(c, data.majorArcana, synergy, k);
    CountedNotes(data, k);
    assert Distinct(c.notes);
    NoteOnceInBlock(c, data.majorArcana, synergy, k);
  }

  /** The Major Arcana remark appears exactly when the gathered Major Arcana list is
      non-empty, that is, when a Major Arcana card was drawn (MajorsDrawn). */
  lemma MajorNoteInReport(data: AnalysisData, synergy: seq<Fragment>)
    requires AllInSection(synergy, 6)
    ensures MajorArcanaNote in AnalysisBlock(SummaryOf(data), data.majorArcana, synergy) <==>
              data.majorArcana != []
  {
    MajorInBlock(SummaryOf(data), data.majorArcana, synergy);
  }

  /** The gathered Major Arcana list is non-empty exactly when a Major card was drawn. */
  lemma MajorsDrawn(cards: seq<Card>)
    ensures CardAnalysis(cards).majorArcana != [] <==> exists c :: c in cards && IsMajor(c)
  {
    var majors := CardAnalysis(cards).majorArcana;
    MajorMembers(cards);
    if majors != [] {
      assert majors[0] in majors;
    }
  }

  /** The dominant-suit remark appears exactly when a Minor card gave a suit, and names
      the suit that occurs most often among them, the first one seen among equally
      frequent suits. */
  lemma DominantSuitInReport(data: AnalysisData, synergy: seq<Fragment>, s: string)
    requires AllInSection(synergy, 6)
    ensures (exists x :: DominantSuit(x) in AnalysisBlock(SummaryOf(data), data.majorArcana, synergy)) <==>
              data.suits != []
    ensures DominantSuit(s) in AnalysisBlock(SummaryOf(data), data.majorArcana, synergy) <==>
              data.suits != [] && FirstMostFrequent(data.suits, s)
  {
    DominantInBlock(SummaryOf(data), data.majorArcana, synergy, s);
    if data.suits != [] {
      MostCommonIsUnique(data.suits, s);
    }
  }

  /** Cups twice and Wands once: Cups is the dominant suit. */
  lemma DominantOfMajority()
    ensures DominantOf(["Cups", "Cups", "Wands"]) == Some("Cups")
  {
    var xs := ["Cups", "Cups", "Wands"];
    assert multiset(xs)["Cups"] == 2 && multiset(xs)["Wands"] == 1;
    assert FirstMostFrequent(xs, "Cups");
    MostCommonIsUnique(xs, "Cups");
  }

  /** Cups and Wands once each: the tie goes to Cups, the suit seen first. */
  lemma DominantOfTie()
    ensures DominantOf(["Cups", "Wands"]) == Some("Cups")
  {
    var ys := ["Cups", "Wands"];
    assert IndexOf(ys, "Cups") == 0;
    assert FirstMostFrequent(ys, "Cups");
    MostCommonIsUnique(ys, "Cups");
  }

  /** When no drawn card has an element, a number or an astrology value, the block has
      none of the three tally sections and no special notes. */
  lemma BareCardsReport(cards: seq<Card>, synergy: seq<Fragment>, a: Attribute)
    requires forall c :: c in cards ==> !Present(c.element) && !Present(c.numerology) && !Present(c.astrology)
    requires AllInSection(synergy, 6)
    ensures TallyHeader(a) !in AnalysisBlock(SummaryOf(CardAnalysis(cards)), CardAnalysis(cards).majorArcana, synergy)
    ensures SpecialNotesHeader !in AnalysisBlock(SummaryOf(CardAnalysis(cards)), CardAnalysis(cards).majorArcana, synergy)
  {
    var data := CardAnalysis(cards);
    NothingGathered(cards);
    assert AttributeValues(data, a) == [];
    TallyInReport(data, synergy, a, "", 0);
    SpecialNotesInReport(data, synergy, NoteOne);
  }

  /** Cards without element, number and astrology values give none of the three lists. */
  lemma NothingGathered(cards: seq<Card>)
    requires forall c :: c in cards ==> !Present(c.element) && !Present(c.numerology) && !Present(c.astrology)
    ensures CardAnalysis(cards).elements == []
    ensures CardAnalysis(cards).numerology == []
    ensures CardAnalysis(cards).astrology == []
  {
    var data := CardAnalysis(cards);
    ElementsMembers(cards);
    NumerologyMembers(cards);
    AstrologyMembers(cards);
    EmptyWhenNoneIn(data.elements);
    EmptyWhenNoneIn(data.numerology);
    EmptyWhenNoneIn(data.astrology);
  }

  lemma EmptyWhenNoneIn(xs: seq<string>)
    ensures (forall x :: x !in xs) ==> xs == []
  {
    if xs != [] {
      assert xs[0] in xs;
    }
  }

  /** The synergy fragments of a block are exactly those of its synergy part. */
  lemma SynergyInBlock(c: Summary, majors: seq<Card>, synergy: seq<Fragment>, f: Fragment)
    requires AllInSection(synergy, 6)
    ensures IsSynergyFragment(f) ==> (f in AnalysisBlock(c, majors, synergy) <==> f in synergy)
  {
    PartAt(c, majors, synergy, 6);
    BlockMember(c, majors, synergy, f);
  }

  /** The synergy fragments of the block are exactly those of the synergy pass, and
      the block has a synergy part exactly when at least two cards were drawn. */
  lemma SynergyInReport(cards: seq<Card>, data: AnalysisData, f: Fragment)
    requires StandardReport(cards, data).Ok?
    ensures IsSynergyFragment(f) ==>
              (f in StandardReport(cards, data).value <==> f in SynergyReport(cards).value)
    ensures SynergyHeader in StandardReport(cards, data).value <==> |cards| >= 2
  {
    ReportIsBlock(cards, data);
    var c, synergy := SummaryOf(data), SynergyReport(cards).value;
    SynergyInBlock(c, data.majorArcana, synergy, f);
    SynergyInBlock(c, data.majorArcana, synergy, SynergyHeader);
    SynergyBlockInPlace(cards);
  }

}
