# Tarot reading analysis engine, modelled in Dafny

This project models the reading-analysis engine of a small tarot web application
(`app.py`). Its input is a list of cards already drawn from the catalog, each with its
orientation. Its output is the interpretation of the reading. The model covers:

- the pass that gathers each card's keywords, element, number, astrology, Major Arcana
  status and suit (`generate_card_analysis`);
- the pairwise synergy rules (`synergy_analysis`);
- the special notes for the numbers 1, 5 and 10 (`numerology_special_notes`);
- the standard multi-card analysis block (`standard_analysis`);
- the dispatch on the spread type (`generate_overall_interpretation`);
- the draw route's choice of card count and spread type.

The interpretation is an ordered sequence of abstract fragments, not HTML. Each
`Fragment` stands for one heading, paragraph or list item and carries the data it
shows: a card name, an orientation, a counter entry, a suit, a position label. The
source's `IndexError`, raised by the synergy suit rule on a name whose first "of" is its
last word, is modelled as a `Result` that fails. So is the single-card path's indexing
of an empty draw.

Modules, each in its own file:

- `Text`: Python's `str.split()`, `str.split(',')`, `str.strip()` and `list.index`.
- `Cards`: the card record, `Option`/`Result`, the orientation and its text, and the
  suit after "of".
- `Tallies`: `collections.Counter` as a first-seen list of `(key, count)`,
  `most_common(1)` and the repeated keywords.
- `Fragments`: the output vocabulary and the section order of the analysis block.
- `Aggregation`: `generate_card_analysis`.
- `Numerology`: `numerology_special_notes`.
- `Synergy`: `synergy_analysis`.
- `Report`: `standard_analysis`.
- `Interpretation`: `generate_overall_interpretation`, the card count and the spread
  type.

Every loop of the source is a method with loop invariants. Each method is proved equal
to a function that defines its result, and the properties are proved as lemmas about those
functions.

Two behaviours of the code are worth knowing:

- An empty draw on a multi-card path is not refused: the code builds a full report for
  it. `Interpretation.ReadingFails` shows that a multi-card reading fails only through
  the synergy suit rule, which needs two cards.
- The suit rule raises `IndexError` when "of" is the last word of a name
  (app.py:79-80). `Synergy.SynergyReportFails` and `Report.ReportFails` state exactly
  when this happens.

## Model

| member | source | states |
|---|---|---|
| Cards.OrientationOf | app.py:159 | the orientation shown is Upright exactly when the card's orientation is the string "upright"; anything else reads as Reversed |
| Cards.Description | app.py:197-198 | the narrative text is the upright text for an upright card and the reversed text otherwise |
| Cards.SuitAfterOf | app.py:37-41 | a suit exists exactly when "of" is a word of the name and is not its last word, and the suit is the word after the first "of" |
| Cards.SuitOfAceOfWands | app.py:37-41 | "Ace of Wands" yields the suit "Wands" |
| Cards.SuitOfTheFool | app.py:37-41 | "The Fool" yields no suit |
| Cards.SuitOfTrailingOf | app.py:37-41 | "Page of" yields no suit, and its first "of" is its last word, the case where the synergy index raises |
| Cards.SuitOrLastOf | app.py:38-41 | a name containing the word "of" either yields a suit or has its first "of" as its last word |
| Text.Words | app.py:37 | `split()` yields only non-empty words without whitespace |
| Text.WordsOfWord | app.py:37 | a single word splits to itself, and the empty string to no words |
| Text.WordsSplitAt | app.py:37 | a whitespace character separates: the words around it are the words of each side, concatenated; with `WordsOfWord` this fixes `split()` on every string |
| Text.WordsJoin | app.py:37 | joining words with single spaces and splitting gives back the words |
| Text.WordsOccur | app.py:75-78 | a word of `split()` occurs in the name as a substring, so the word test implies the substring test |
| Text.Strip | app.py:95-96 | `strip()` removes exactly the leading and trailing whitespace run |
| Text.JoinSplitOn | app.py:95-96 | joining the comma-split parts gives back the astrology string |
| Text.SplitOnJoin | app.py:95-96 | splitting a join of comma-free parts gives back the parts |
| Tallies.CountIsCounter | app.py:261-266 | the counter has exactly the list's values as distinct keys, in first-seen order, each with its number of occurrences, and it is empty only for an empty list |
| Tallies.MostCommonIsFirstMostFrequent | app.py:318-319 | `most_common(1)` picks a value of maximal frequency, and the first seen among values tied with it |
| Tallies.RepeatedKeywords | app.py:262 | the repeated keywords are exactly those occurring more than once, each once, in first-seen order |
| Aggregation.GenerateCardAnalysis | app.py:12-42 | the loop's lists equal the per-card contributions concatenated in draw order |
| Aggregation.MinorSuit | app.py:36-41 | a Minor card contributes the word after the first "of" of its name, or nothing when there is none |
| Aggregation.AnalysisAppend | app.py:25-41 | gathering a split draw is gathering each part and concatenating, in draw order |
| Aggregation.AnalysisOfOneCard | app.py:26-41 | one card adds all its keywords, each present non-empty optional field, itself when Major, and at most one suit, only when Minor |
| Aggregation.AnalysisMembers | app.py:25-41 | a value is gathered exactly when some card has it; a card is in the Major list exactly when drawn and Major; a suit exactly when some Minor card's name yields it |
| Aggregation.ElementsMembers | app.py:27-28 | an element is gathered exactly when some drawn card has it, present and non-empty |
| Aggregation.NumerologyMembers | app.py:29-30 | a number is gathered exactly when some drawn card has it, present and non-empty |
| Aggregation.AstrologyMembers | app.py:31-32 | an astrology string is gathered whole exactly when some drawn card has it, present and non-empty |
| Aggregation.MajorMembers | app.py:33-34 | the Major list holds exactly the drawn cards whose arcana is "Major" |
| Aggregation.SuitsMembers | app.py:35-41 | the suits are exactly those yielded by the names of drawn Minor cards |
| Numerology.NumerologySpecialNotes | app.py:116-138 | the note of 1, 5 or 10 appears exactly when that number is a key of the counter, in the fixed order 1, 5, 10, and there are none when no such key is present |
| Numerology.SpecialNotes | app.py:120-138 | the appended notes are `NumerologySpecialNotes` of the counter |
| Numerology.NoteFor | app.py:121-136 | each of "1", "5" and "10" has its own note |
| Numerology.NotesDependOnKeysOnly | app.py:121-138 | counters with the same keys get the same notes, whatever the counts; a one-entry counter gets exactly its number's note, or none |
| Synergy.SynergyAnalysis | app.py:44-114 | the nested pair loop writes `SynergyReport` of the draw, or raises where it does |
| Synergy.PairSynergy | app.py:57-101 | the statements of one pair are those of the five rules, or the suit rule's failure |
| Synergy.SuitRule | app.py:75-84 | the suit rule compares the words after the first "of" of both names, and fails when one of them has none |
| Synergy.AstrologyRule | app.py:94-101 | the astrology rule states the shared comma-separated, stripped signs when there are any |
| Synergy.SuitMatchCases | app.py:75-84 | the suit rule fails exactly when both names have the word "of" and one ends in it; otherwise it names a suit exactly when both names yield the same one |
| Synergy.PairFailsIff | app.py:79-80 | a pair raises exactly when the suit rule fails for it |
| Synergy.AstrologySignsMembers | app.py:95-96 | a sign is in a card's set exactly when it is a stripped comma-separated part of its astrology |
| Synergy.PairStatementsKinds | app.py:62-101 | each kind of statement appears exactly when its rule fires, naming the shared element, suit, number or signs |
| Synergy.PairStatementsOrder | app.py:62-101 | statements come in the fixed rule order, each rule at most once, and there are none exactly when no rule fires |
| Synergy.PairStatementsSymmetric | app.py:62-101 | every rule, and the statements of a pair, are the same with the two cards swapped |
| Synergy.AllPairsShape | app.py:55-56 | the loop visits exactly the pairs i < j, in (i, j) order, n(n-1)/2 of them |
| Synergy.SynergyReportFails | app.py:48-50 | fewer than two cards give an empty block; the block fails exactly when some pair i < j fails the suit rule |
| Synergy.SynergyReportFallback | app.py:52-53 | a block of two or more cards starts with its heading; the fallback remark appears exactly when no pair has a statement, and then the block is heading and remark alone |
| Synergy.SynergyReportLines | app.py:103-109 | without the fallback, every line after the heading is a pair line with statements, and there are at most n(n-1)/2 of them |
| Synergy.LineOrigin | app.py:103-109 | each pair line names the two cards of the pair it comes from, with that pair's non-empty statements |
| Synergy.LineOriginIncreasing | app.py:55-56 | pair lines come in the order the pairs are visited |
| Synergy.LineComplete | app.py:103-109 | every visited pair with a statement has its line |
| Synergy.TwoCardBlock | app.py:48-112 | the block of two cards fails exactly when their pair raises; otherwise it is the heading and the pair's line, or the heading and the fallback remark when no rule fired |
| Synergy.TwoCardSynergySymmetric | app.py:44-114 | two cards in either order fail alike; otherwise both blocks have two fragments, the same statements on the pair line with the names swapped, and the fallback remark alike |
| Report.StandardAnalysis | app.py:253-337 | the block written step by step is `StandardReport` of the draw, failing when the synergy pass fails |
| Report.WriteThemes | app.py:269-276 | the keywords section lists the repeated keywords, or says there are none |
| Report.WriteTally | app.py:279-305 | a tally section is written only when its counter has an entry |
| Report.WriteNumerology | app.py:287-297 | the numerology section is written only for a non-empty counter, with its special notes when there are any |
| Report.WriteMajor | app.py:308-314 | the Major Arcana remark is written only when a Major card was gathered |
| Report.WriteSuit | app.py:316-324 | the dominant-suit remark names the most common suit, only when a suit was gathered |
| Report.ListThemes | app.py:271-272 | one list item per repeated keyword, in order |
| Report.ListTally | app.py:281-282 | one list item per counter entry, in the counter's order |
| Report.BlockOrder | app.py:259-337 | the sections come in their fixed order, and all but the last fragment precede the closing section |
| Report.BlockMember | app.py:259-337 | a fragment is in the block exactly when it is in its own section |
| Report.ReportOrder | app.py:331-337 | the block is in section order, and the closing remark is its last fragment and occurs nowhere else |
| Report.ReportIsBlock | app.py:326-329 | a block that does not fail is the eight sections around the synergy pass's block |
| Report.ReportFails | app.py:326-329 | the block fails exactly when two cards i < j make the suit rule fail |
| Report.ThemesMembers | app.py:269-276 | the keywords section lists exactly the given keywords, or the no-repeats remark exactly when there are none |
| Report.TallyMembers | app.py:279-305 | a tally section has its heading exactly when its counter is non-empty, and one item per entry |
| Report.NotesMembers | app.py:287-297 | the numerology section has a special note exactly for the notes given, only with a non-empty counter, and their heading exactly when there is one |
| Report.ThemesInReport | app.py:261-276 | a keyword is listed exactly when it occurs more than once among all keywords; the no-repeats remark appears exactly when every keyword occurs once |
| Report.TallyInReport | app.py:263-305 | an element, number or astrology section appears exactly when some card gives a value for it, and lists each value with the number of cards giving it |
| Report.NoteOnceInSection | app.py:287-297 | each special note given appears once in the numerology section when its counter has an entry, and otherwise not at all |
| Report.NoteOnceInBlock | app.py:287-297 | a special note appears once in the block when it is due, and otherwise not at all |
| Report.SpecialNotesInReport | app.py:287-297 | the note of 1, 5 or 10 appears exactly once when some card has that number, however many cards do, and not at all otherwise; its heading appears exactly when a note does |
| Report.MajorNoteInReport | app.py:308-314 | the Major Arcana remark appears exactly when the Major list is non-empty |
| Report.MajorsDrawn | app.py:33-34 | the Major list is non-empty exactly when a Major card was drawn |
| Report.DominantSuitInReport | app.py:316-324 | a dominant-suit remark appears exactly when a suit was gathered, and names exactly the most frequent suit, the first seen among ties |
| Report.DominantOfMajority | app.py:318-319 | Cups, Cups, Wands give Cups, the suit drawn most often |
| Report.DominantOfTie | app.py:318-319 | the tie Cups, Wands gives Cups, the suit seen first |
| Report.BareCardsReport | app.py:278-305 | with no element, number or astrology on any card, the block has no tally section and no special notes |
| Report.SynergyInReport | app.py:326-329 | the block's synergy fragments are exactly those of the synergy pass, and its synergy heading appears exactly when two or more cards were drawn |
| Report.SynergyBlockInPlace | app.py:48-53 | a synergy block that does not fail holds only synergy fragments, and has its heading exactly when two or more cards were drawn |
| Report.CountEntries | app.py:261-266 | a counter has the entry (v, n) exactly when v occurs n times in the list |
| Report.CountedNotes | app.py:287-297 | a special note is due exactly when a card has its number, and then the numerology counter is non-empty |
| Report.MostCommonIsUnique | app.py:318-319 | the most common value is the one first most frequent value of the list |
| Report.NothingRepeated | app.py:261-276 | no keyword repeats exactly when every keyword occurs once |
| Interpretation.DrawCount | app.py:346-355 | the count is the requested one when it is an integer from 1 to 10, else 3, capped at the catalog size, and positive for a non-empty catalog |
| Interpretation.SpreadTypeFor | app.py:365-374 | 1 is the single-card draw, 3, 5 and 10 are the named spreads with exactly that many position names, and every other count is the custom spread |
| Interpretation.GenerateOverallInterpretation | app.py:140-250 | the reading written step by step is `OverallInterpretation` of the draw, failing where the source raises |
| Interpretation.WriteSingleCard | app.py:157-190 | the single-card reading written piece by piece is the specified one |
| Interpretation.WriteNamedLines | app.py:196-199 | `zip` pairs position names with cards until either runs out |
| Interpretation.WriteNumberedLines | app.py:244-247 | `enumerate` numbers every card from 1 |
| Interpretation.SingleCardFrame | app.py:157-190 | the single-card reading opens with the heading and the card in its orientation, ends with the closing remark, and has no synergy or dominant-suit remark |
| Interpretation.SingleCardFacts | app.py:164-177 | the element, number and astrology facts appear exactly when the card has them non-empty; the Major callout exactly when the card is Major |
| Interpretation.SingleNoteIs | app.py:179-184 | a card numbered 1, 5 or 10 gets the note heading and that number's note, any other card nothing |
| Interpretation.SingleCardNote | app.py:179-184 | the note heading appears exactly when the number is 1, 5 or 10, and a note exactly when it is that note's number |
| Interpretation.CardLinesShape | app.py:192-247 | a named spread has min(names, cards) lines, labelled in name order; any other spread has one line per card, numbered from 1; each line shows its card's orientation and matching text |
| Interpretation.EveryCardDescribed | app.py:365-374 | under the spread type for the number drawn, every card of a multi-card draw gets its line |
| Interpretation.ReadingFails | app.py:156-250 | a reading fails exactly when a single-card draw is empty, or when two cards of a multi-card draw make the suit rule fail |
| Interpretation.MultiCardLayout | app.py:192-250 | a multi-card reading is the heading, the card lines and the analysis block, and ends with the closing remark |
| Interpretation.RouteReading | app.py:343-377 | through the route, a reading fails only from the suit rule on two or more cards, and every card of a multi-card draw gets its line |

## Left out

- The Flask application, the `/` and `/draw` routes and template rendering (app.py:1-6,
  340-382) are not modelled. The exception is the choice of the card count and the
  spread type, which is.
- Parsing the form field as an integer is a parameter of `Interpretation.DrawCount`:
  `None` stands for an input that is not an integer.
- Loading the catalog from JSON (app.py:9-10) is file I/O and is not modelled. The
  catalog appears only as its size.
- `random.sample` and `random.choice` (app.py:358-362) are randomness. The drawn,
  oriented cards are an input.
- Writing `orientation` onto the shared catalog records (app.py:361-362) mutates shared
  state across requests. The model's cards are values, so this aliasing is not captured.
- The order in which `', '.join` lists a Python set of shared signs (app.py:100) depends
  on hashing. The model keeps the shared signs as a `set`.
- HTML markup and wording are not modelled. Each fragment carries its data, not its
  text.
- The counters computed and never used at app.py:149-154 are dead code.
- Card records with a missing required field (name, arcana, texts) cannot be built:
  the `Card` datatype always has them. Missing optional fields are `None`.
- Python's `str.split()` whitespace set is modelled by `Text.IsSpace` over code points.
  Case and Unicode normalisation do not arise in the source.
