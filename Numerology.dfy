/** The special numerology notes: fixed text for the numbers 1, 5 and 10. */
module Numerology {
  import opened Tallies
  import opened Fragments

  /** `numerology_special_notes(numerology_counts)`: the note of each of "1", "5" and "10"
      that is a key of the counter, always in the order 1, 5, 10, whatever the counts
      and the counter's own order. */
  function NumerologySpecialNotes(counts: Tally<string>): (notes: seq<NoteKey>)
    ensures NoteOne in notes <==> "1" in Keys(counts)
    ensures NoteFive in notes <==> "5" in Keys(counts)
    ensures NoteTen in notes <==> "10" in Keys(counts)
    ensures forall a, b :: 0 <= a < b < |notes| ==> NoteRank(notes[a]) < NoteRank(notes[b])
    ensures notes == [] <==> "1" !in Keys(counts) && "5" !in Keys(counts) && "10" !in Keys(counts)
  {
    (if "1" in Keys(counts) then [NoteOne] else [])
    + (if "5" in Keys(counts) then [NoteFive] else [])
    + (if "10" in Keys(counts) then [NoteTen] else [])
  }

  /** The notes written one at a time, as the source appends them. */
  method SpecialNotes(counts: Tally<string>) returns (notes: seq<NoteKey>)
    ensures notes == NumerologySpecialNotes(counts)
  {
    var keys := Keys(counts);
    notes := [];
    if "1" in keys {
      notes := notes + [NoteOne];
    }
    if "5" in keys {
      notes := notes + [NoteFive];
    }
    if "10" in keys {
      notes := notes + [NoteTen];
    }
  }

  /** The note for a number, when it has one. */
  function NoteFor(number: string): (k: NoteKey)
    requires number in {"1", "5", "10"}
    ensures number == "1" <==> k == NoteOne
    ensures number == "5" <==> k == NoteFive
    ensures number == "10" <==> k == NoteTen
  {
    if number == "1" then NoteOne else if number == "5" then NoteFive else NoteTen
  }

  /** Only the keys matter: two counters with the same keys get the same notes, and a
      one-entry counter `{number: 1}` gets exactly that number's note, or none. */
  lemma NotesDependOnKeysOnly(c1: Tally<string>, c2: Tally<string>, number: string)
    requires forall k :: k in Keys(c1) <==> k in Keys(c2)
    ensures NumerologySpecialNotes(c1) == NumerologySpecialNotes(c2)
    ensures number in {"1", "5", "10"} ==> NumerologySpecialNotes([(number, 1)]) == [NoteFor(number)]
    ensures number !in {"1", "5", "10"} ==> NumerologySpecialNotes([(number, 1)]) == []
  {
    assert Keys([(number, 1)]) == [number];
  }
}
