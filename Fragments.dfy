/** The interpretation as an ordered sequence of abstract fragments: each stands for one
    piece of the HTML the engine writes (a heading, a paragraph, a list item), carrying
    the data it shows instead of its markup and wording. */
module Fragments {
  import opened Cards

  /** The three numbers with a special numerology note. */
  datatype NoteKey = NoteOne | NoteFive | NoteTen

  /** The label of a per-card line: a spread position name, or "Card i". */
  datatype Position = Named(title: string) | Numbered(index: nat)

  /** One statement of the synergy rules about a pair of cards. */
  datatype Statement =
    | BothMajor
    | SharedElement(element: string)
    | SharedSuit(suit: string)
    | SharedNumber(number: string)
    | SharedAstrology(signs: set<string>)

  /** The three tallied attributes of the report. */
  datatype Attribute = ElementAttr | NumberAttr | AstrologyAttr

  datatype Fragment =
    // heading of every path
    | Heading(spreadType: string)
    // single-card path
    | YouDrew(name: string, orientation: Orientation)
    | ElementFact(element: string)
    | NumberFact(number: string)
    | AstrologyFact(astrology: string)
    | MajorCallout
    | SpecialNoteHeading
    | SingleClosing
    // per-card lines of the multi-card paths
    | PositionLine(position: Position, orientation: Orientation, description: string)
    // the standard multi-card analysis block
    | ThemesHeader
    | ThemeItem(keyword: string)
    | ThemesNote
    | NoRepeats
    | TallyHeader(attribute: Attribute)
    | TallyItem(attribute: Attribute, value: string, count: nat)
    | ElementsNote
    | SpecialNotesHeader
    | SpecialNote(key: NoteKey)
    | AstrologyNote
    | MajorArcanaNote
    | DominantSuit(suit: string)
    | SynergyHeader
    | SynergyPair(first: string, second: string, statements: seq<Statement>)
    | NoSynergy
    | Closing

  /** Fixed order of the rules that produce statements. */
  function RuleRank(s: Statement): nat {
    match s
    case BothMajor => 0
    case SharedElement(_) => 1
    case SharedSuit(_) => 2
    case SharedNumber(_) => 3
    case SharedAstrology(_) => 4
  }

  /** Fixed order of the special numerology notes. */
  function NoteRank(k: NoteKey): nat {
    match k
    case NoteOne => 0
    case NoteFive => 1
    case NoteTen => 2
  }

  /** The section of the standard analysis block a fragment belongs to, in block order:
      themes, elements, numerology, astrology, Major Arcana, dominant suit, synergy,
      closing remark. Fragments of the other paths are given section 0. */
  function Section(f: Fragment): nat {
    match f
    case TallyHeader(a) => AttributeSection(a)
    case TallyItem(a, _, _) => AttributeSection(a)
    case ElementsNote => 1
    case SpecialNotesHeader => 2
    case SpecialNote(_) => 2
    case AstrologyNote => 3
    case MajorArcanaNote => 4
    case DominantSuit(_) => 5
    case SynergyHeader => 6
    case SynergyPair(_, _, _) => 6
    case NoSynergy => 6
    case Closing => 7
    case _ => 0
  }

  function AttributeSection(a: Attribute): nat {
    match a
    case ElementAttr => 1
    case NumberAttr => 2
    case AstrologyAttr => 3
  }

  /** A fragment of the synergy block. */
  predicate IsSynergyFragment(f: Fragment) {
    f.SynergyHeader? || f.SynergyPair? || f.NoSynergy?
  }

  /** Every fragment of `s` is in section `k`. */
  predicate AllInSection(s: seq<Fragment>, k: nat) {
    forall i :: 0 <= i < |s| ==> Section(s[i]) == k
  }

  /** The fragments of `s` come in non-decreasing section order. */
  predicate InSectionOrder(s: seq<Fragment>) {
    forall a, b :: 0 <= a < b < |s| ==> Section(s[a]) <= Section(s[b])
  }

  /** Appending a section-`k` part to a block whose sections are at most `k` keeps the
      section order. */
  lemma AppendSection(s: seq<Fragment>, part: seq<Fragment>, k: nat)
    requires InSectionOrder(s) && forall i :: 0 <= i < |s| ==> Section(s[i]) <= k
    requires AllInSection(part, k)
    ensures InSectionOrder(s + part)
    ensures forall i :: 0 <= i < |s + part| ==> Section((s + part)[i]) <= k
  {
    var u := s + part;
    forall a, b | 0 <= a < b < |u|
      ensures Section(u[a]) <= Section(u[b])
    {
      if b >= |s| {
        assert u[b] == part[b - |s|];
        if a >= |s| {
          assert u[a] == part[a - |s|];
        }
      }
    }
    forall i | 0 <= i < |u|
      ensures Section(u[i]) <= k
    {
      if i >= |s| {
        assert u[i] == part[i - |s|];
      }
    }
  }
}
