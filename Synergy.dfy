/** `synergy_analysis`: every unordered pair of drawn cards is tested against five
    fixed rules; a pair on which any rule fires gets one line with its statements.

    The loop bookkeeping (pair order, line positions, the first failing pair) is
    proved for any per-pair outcome, given as function values `line` and `fails`.
    On a draw these are `LineOf(cards)` and `FailsOf(cards)`. They are chosen with
    `:|` rather than written as lambdas. A lambda's body is always unfolded, which
    would put all five rules into every bookkeeping proof. A chosen value says
    nothing about a pair until `LineOfAt` names it. */
module Synergy {
  import opened Text
  import opened Cards
  import opened Fragments

  // ---------------------------------------------------------------------------
  // The five rules on one pair

  /** The astrology tokens of a card: `set(x.strip() for x in s.split(','))`. */
  function AstrologySigns(s: string): set<string> {
    StrippedSet(SplitOn(s, ','))
  }

  /** The set of the pieces `ps`, each with its surrounding whitespace removed. */
  function StrippedSet(ps: seq<string>): set<string> {
    if ps == [] then {} else StrippedSet(ps[..|ps| - 1]) + {Strip(ps[|ps| - 1])}
  }

  /** A token is a sign exactly when it is one of the comma-separated pieces with its
      surrounding whitespace removed. */
  lemma {:induction false} AstrologySignsMembers(s: string, t: string)
    ensures t in AstrologySigns(s) <==> exists p :: p in SplitOn(s, ',') && Strip(p) == t
  {
    StrippedSetMembers(SplitOn(s, ','), t);
  }

  lemma {:induction false} StrippedSetMembers(ps: seq<string>, t: string)
    ensures t in StrippedSet(ps) <==> exists p :: p in ps && Strip(p) == t
  {
    if ps != [] {
      var front, last := ps[..|ps| - 1], ps[|ps| - 1];
      StrippedSetMembers(front, t);
      if t in StrippedSet(front) {
        var p :| p in front && Strip(p) == t;
        assert p in ps;
      } else if t == Strip(last) {
        assert last in ps;
      } else {
        forall p | p in ps
          ensures Strip(p) != t
        {
          var k :| 0 <= k < |ps| && ps[k] == p;
          if k < |front| {
            assert front[k] == p;
          }
        }
      }
    }
  }

  /** The suit rule's test on two names, with the source's unguarded index.
      `Ok(Some(s))`: both names have the word "of" and the word after the first "of"
      is `s` in both. `Err`: both names have the word "of" and in one of them the first
      "of" is the last word. `Ok(None)`: otherwise. The substring test `"of" in name`
      comes first, as in the source. */
  function SuitMatch(name1: string, name2: string): Result<Option<string>> {
    if Contains(name1, "of") && Contains(name2, "of") then
      var parts1, parts2 := Words(name1), Words(name2);
      if "of" in parts1 && "of" in parts2 then
        var k1 := IndexOf(parts1, "of");
        if k1 + 1 >= |parts1| then Err(IndexError)
        else
          var k2 := IndexOf(parts2, "of");
          if k2 + 1 >= |parts2| then Err(IndexError)
          else if parts1[k1 + 1] == parts2[k2 + 1] then Ok(Some(parts1[k1 + 1]))
          else Ok(None)
      else Ok(None)
    else Ok(None)
  }

  /** Rule 1: both cards are Major Arcana. */
  predicate MajorFires(c1: Card, c2: Card) {
    IsMajor(c1) && IsMajor(c2)
  }

  /** Rule 2: both cards have the same non-empty element. */
  predicate ElementFires(c1: Card, c2: Card) {
    Present(c1.element) && Present(c2.element) && c1.element.value == c2.element.value
  }

  /** Rule 3: the word after the first "of" exists in both names and is the same. */
  predicate SuitFires(c1: Card, c2: Card) {
    SuitAfterOf(c1.name).Some? && SuitAfterOf(c1.name) == SuitAfterOf(c2.name)
  }

  /** Rule 4: both cards have the same non-empty number. */
  predicate NumberFires(c1: Card, c2: Card) {
    Present(c1.numerology) && Present(c2.numerology) && c1.numerology.value == c2.numerology.value
  }

  /** Rule 5: both cards have astrology and their token sets meet. */
  predicate AstrologyFires(c1: Card, c2: Card) {
    Present(c1.astrology) && Present(c2.astrology)
    && AstrologySigns(c1.astrology.value) * AstrologySigns(c2.astrology.value) != {}
  }

  /** The suit rule raises: both names have the word "of" and one of them ends in its
      first "of". */
  predicate SuitFails(c1: Card, c2: Card) {
    "of" in Words(c1.name) && "of" in Words(c2.name) && (OfIsLastWord(c1.name) || OfIsLastWord(c2.name))
  }

  /** What each rule contributes: its one statement when it fires, nothing otherwise. */
  function MajorStatement(c1: Card, c2: Card): seq<Statement> {
    if MajorFires(c1, c2) then [BothMajor] else []
  }

  function ElementStatement(c1: Card, c2: Card): seq<Statement> {
    if ElementFires(c1, c2) then [SharedElement(c1.element.value)] else []
  }

  function SuitStatement(suit: Option<string>): seq<Statement> {
    if suit.Some? then [SharedSuit(suit.value)] else []
  }

  function NumberStatement(c1: Card, c2: Card): seq<Statement> {
    if NumberFires(c1, c2) then [SharedNumber(c1.numerology.value)] else []
  }

  function AstrologyStatement(c1: Card, c2: Card): seq<Statement> {
    if AstrologyFires(c1, c2)
    then [SharedAstrology(AstrologySigns(c1.astrology.value) * AstrologySigns(c2.astrology.value))]
    else []
  }

  /** The statements on a pair, rule by rule in the fixed order, or the error raised by
      the suit rule. */
  function PairStatements(c1: Card, c2: Card): Result<seq<Statement>> {
    match SuitMatch(c1.name, c2.name)
    case Err(e) => Err(e)
    case Ok(suit) => Ok(RuleStatements(c1, c2, suit))
  }

  /** The statements of the five rules in order, for a given outcome `suit` of the
      suit test. */
  function RuleStatements(c1: Card, c2: Card, suit: Option<string>): seq<Statement> {
    MajorStatement(c1, c2) + ElementStatement(c1, c2) + SuitStatement(suit)
    + NumberStatement(c1, c2) + AstrologyStatement(c1, c2)
  }

  /** The suit test fails exactly when a name's first "of" is its last word (and both
      names have the word "of"); otherwise it finds a suit exactly when rule 3 fires. */
  lemma SuitMatchCases(c1: Card, c2: Card)
    ensures SuitMatch(c1.name, c2.name).Err? <==> SuitFails(c1, c2)
    ensures SuitMatch(c1.name, c2.name).Ok? ==>
              (SuitMatch(c1.name, c2.name).value.Some? <==> SuitFires(c1, c2))
    ensures SuitMatch(c1.name, c2.name).Ok? && SuitFires(c1, c2) ==>
              SuitMatch(c1.name, c2.name).value == SuitAfterOf(c1.name)
  {
    if "of" in Words(c1.name) {
      WordsOccur(c1.name, "of");
    }
    if "of" in Words(c2.name) {
      WordsOccur(c2.name, "of");
    }
  }

  /** A pair fails exactly when its suit rule raises. */
  lemma PairFailsIff(c1: Card, c2: Card)
    ensures PairStatements(c1, c2).Err? <==> SuitFails(c1, c2)
  {
    SuitMatchCases(c1, c2);
  }

  /** The five runs of statements of a pair that does not fail. */
  lemma PairStatementsParts(c1: Card, c2: Card)
    requires PairStatements(c1, c2).Ok?
    ensures SuitMatch(c1.name, c2.name).Ok?
    ensures SuitStatement(SuitMatch(c1.name, c2.name).value) ==
              (if SuitFires(c1, c2) then [SharedSuit(SuitAfterOf(c1.name).value)] else [])
    ensures PairStatements(c1, c2).value == RuleStatements(c1, c2, SuitMatch(c1.name, c2.name).value)
  {
    SuitMatchCases(c1, c2);
  }

  /** Each rule contributes its statement exactly when it fires. */
  lemma PairStatementsKinds(c1: Card, c2: Card)
    requires PairStatements(c1, c2).Ok?
    ensures BothMajor in PairStatements(c1, c2).value <==> MajorFires(c1, c2)
    ensures forall e :: SharedElement(e) in PairStatements(c1, c2).value <==>
              ElementFires(c1, c2) && c1.element.value == e
    ensures forall s :: SharedSuit(s) in PairStatements(c1, c2).value <==>
              SuitFires(c1, c2) && SuitAfterOf(c1.name) == Some(s)
    ensures forall x :: SharedNumber(x) in PairStatements(c1, c2).value <==>
              NumberFires(c1, c2) && c1.numerology.value == x
    ensures forall a :: SharedAstrology(a) in PairStatements(c1, c2).value <==>
              (AstrologyFires(c1, c2) && a == AstrologySigns(c1.astrology.value) * AstrologySigns(c2.astrology.value))
  {
    SuitMatchCases(c1, c2);
    var suit := SuitMatch(c1.name, c2.name).value;
    MajorKind(c1, c2, suit);
    ElementKind(c1, c2, suit);
    SuitKind(c1, c2, suit);
    NumberKind(c1, c2, suit);
    AstrologyKind(c1, c2, suit);
  }

  lemma MajorKind(c1: Card, c2: Card, suit: Option<string>)
    ensures BothMajor in RuleStatements(c1, c2, suit) <==> MajorFires(c1, c2)
  {
    FiveRunsMembers(MajorStatement(c1, c2), ElementStatement(c1, c2), SuitStatement(suit),
                    NumberStatement(c1, c2), AstrologyStatement(c1, c2));
  }

  lemma ElementKind(c1: Card, c2: Card, suit: Option<string>)
    ensures forall e :: SharedElement(e) in RuleStatements(c1, c2, suit) <==>
              ElementFires(c1, c2) && c1.element.value == e
  {
    FiveRunsMembers(MajorStatement(c1, c2), ElementStatement(c1, c2), SuitStatement(suit),
                    NumberStatement(c1, c2), AstrologyStatement(c1, c2));
  }

  lemma SuitKind(c1: Card, c2: Card, suit: Option<string>)
    ensures forall s :: SharedSuit(s) in RuleStatements(c1, c2, suit) <==> suit == Some(s)
  {
    FiveRunsMembers(MajorStatement(c1, c2), ElementStatement(c1, c2), SuitStatement(suit),
                    NumberStatement(c1, c2), AstrologyStatement(c1, c2));
  }

  lemma NumberKind(c1: Card, c2: Card, suit: Option<string>)
    ensures forall x :: SharedNumber(x) in RuleStatements(c1, c2, suit) <==>
              NumberFires(c1, c2) && c1.numerology.value == x
  {
    FiveRunsMembers(MajorStatement(c1, c2), ElementStatement(c1, c2), SuitStatement(suit),
                    NumberStatement(c1, c2), AstrologyStatement(c1, c2));
  }

  lemma AstrologyKind(c1: Card, c2: Card, suit: Option<string>)
    ensures forall a :: SharedAstrology(a) in RuleStatements(c1, c2, suit) <==>
              AstrologyFires(c1, c2) && a == AstrologySigns(c1.astrology.value) * AstrologySigns(c2.astrology.value)
  {
    FiveRunsMembers(MajorStatement(c1, c2), ElementStatement(c1, c2), SuitStatement(suit),
                    NumberStatement(c1, c2), AstrologyStatement(c1, c2));
  }

  /** A statement is in five runs put together exactly when it is in one of them. */
  lemma FiveRunsMembers(m1: seq<Statement>, m2: seq<Statement>, m3: seq<Statement>,
                        m4: seq<Statement>, m5: seq<Statement>)
    ensures forall f :: f in m1 + m2 + m3 + m4 + m5 <==> f in m1 || f in m2 || f in m3 || f in m4 || f in m5
  {
  }

  /** The statements follow the rule order, so each kind occurs at most once, and there
      are none exactly when no rule fires. */
  lemma PairStatementsOrder(c1: Card, c2: Card)
    requires PairStatements(c1, c2).Ok?
    ensures RanksIncreasing(PairStatements(c1, c2).value)
    ensures PairStatements(c1, c2).value == [] <==>
              !MajorFires(c1, c2) && !ElementFires(c1, c2) && !SuitFires(c1, c2)
              && !NumberFires(c1, c2) && !AstrologyFires(c1, c2)
  {
    SuitMatchCases(c1, c2);
    var suit := SuitMatch(c1.name, c2.name).value;
    RuleStatementsOrder(c1, c2, suit);
    RuleStatementsEmpty(c1, c2, suit);
  }

  /** The five runs, for a given outcome `suit` of the suit test, are in rule order. */
  lemma RuleStatementsOrder(c1: Card, c2: Card, suit: Option<string>)
    ensures RanksIncreasing(RuleStatements(c1, c2, suit))
  {
    RanksIncrease(MajorStatement(c1, c2), ElementStatement(c1, c2), SuitStatement(suit),
                  NumberStatement(c1, c2), AstrologyStatement(c1, c2));
  }

  /** The five runs are empty exactly when no rule fires. */
  lemma RuleStatementsEmpty(c1: Card, c2: Card, suit: Option<string>)
    ensures RuleStatements(c1, c2, suit) == [] <==>
              !MajorFires(c1, c2) && !ElementFires(c1, c2) && suit.None?
              && !NumberFires(c1, c2) && !AstrologyFires(c1, c2)
  {
    var m1, m2, m3, m4, m5 :=
      MajorStatement(c1, c2), ElementStatement(c1, c2), SuitStatement(suit),
      NumberStatement(c1, c2), AstrologyStatement(c1, c2);
    assert |m1 + m2 + m3 + m4 + m5| == |m1| + |m2| + |m3| + |m4| + |m5|;
  }

  /** Statements in strictly increasing rule order. */
  predicate RanksIncreasing(m: seq<Statement>) {
    forall a, b :: 0 <= a < b < |m| ==> RuleRank(m[a]) < RuleRank(m[b])
  }

  /** Two runs in rule order, the first of lower ranks than the second, make a run in
      rule order. */
  lemma RanksAppend(x: seq<Statement>, y: seq<Statement>, lo: nat)
    requires RanksIncreasing(x) && RanksIncreasing(y)
    requires forall f :: f in x ==> RuleRank(f) < lo
    requires forall f :: f in y ==> RuleRank(f) >= lo
    ensures RanksIncreasing(x + y)
  {
    var m := x + y;
    forall a, b | 0 <= a < b < |m|
      ensures RuleRank(m[a]) < RuleRank(m[b])
    {
      if b >= |x| {
        assert m[b] == y[b - |x|] && m[b] in y;
        if a >= |x| {
          assert m[a] == y[a - |x|];
        } else {
          assert m[a] == x[a] && m[a] in x;
        }
      }
    }
  }

  /** At most one statement, of rank `r`. */
  predicate RunOfRank(m: seq<Statement>, r: nat) {
    |m| <= 1 && (|m| == 1 ==> RuleRank(m[0]) == r)
  }

  lemma RunRanks(m: seq<Statement>, r: nat)
    requires RunOfRank(m, r)
    ensures RanksIncreasing(m)
    ensures forall f :: f in m ==> RuleRank(f) == r
  {
  }

  /** Five runs of at most one statement, each of a higher rank than the runs before. */
  lemma RanksIncrease(m1: seq<Statement>, m2: seq<Statement>, m3: seq<Statement>,
                      m4: seq<Statement>, m5: seq<Statement>)
    requires RunOfRank(m1, 0) && RunOfRank(m2, 1) && RunOfRank(m3, 2)
    requires RunOfRank(m4, 3) && RunOfRank(m5, 4)
    ensures RanksIncreasing(m1 + m2 + m3 + m4 + m5)
  {
    RunRanks(m1, 0);
    RunRanks(m2, 1);
    RunRanks(m3, 2);
    RunRanks(m4, 3);
    RunRanks(m5, 4);
    RanksAppend(m1, m2, 1);
    RanksAppend(m1 + m2, m3, 2);
    RanksAppend(m1 + m2 + m3, m4, 3);
    RanksAppend(m1 + m2 + m3 + m4, m5, 4);
  }

  /** Every rule is symmetric, and so is the whole outcome on a pair, error included. */
  lemma PairStatementsSymmetric(c1: Card, c2: Card)
    ensures MajorFires(c1, c2) == MajorFires(c2, c1)
    ensures ElementFires(c1, c2) == ElementFires(c2, c1)
    ensures SuitFires(c1, c2) == SuitFires(c2, c1)
    ensures NumberFires(c1, c2) == NumberFires(c2, c1)
    ensures AstrologyFires(c1, c2) == AstrologyFires(c2, c1)
    ensures PairStatements(c1, c2) == PairStatements(c2, c1)
  {
    SuitMatchCases(c1, c2);
    SuitMatchCases(c2, c1);
    if AstrologyFires(c1, c2) {
      var a1, a2 := AstrologySigns(c1.astrology.value), AstrologySigns(c2.astrology.value);
      assert a1 * a2 == a2 * a1;
    }
  }

  // ---------------------------------------------------------------------------
  // The pairs, in the order of the nested loops

  /** The pairs `(i, j)` for `j` from `i + 1` up to, not including, `hi`. */
  function RowPairs(i: nat, hi: nat): seq<(nat, nat)> {
    if hi <= i + 1 then [] else RowPairs(i, hi - 1) + [(i, hi - 1)]
  }

  /** Row `i` up to `hi` holds `(i, i + 1)`, ..., `(i, hi - 1)`. */
  lemma {:induction false} RowPairsAt(i: nat, hi: nat)
    ensures |RowPairs(i, hi)| == if hi > i + 1 then hi - i - 1 else 0
    ensures forall k :: 0 <= k < |RowPairs(i, hi)| ==> RowPairs(i, hi)[k] == (i, i + 1 + k)
  {
    if hi > i + 1 {
      RowPairsAt(i, hi - 1);
    }
  }

  /** The pairs of the first `i` rows of the loop over `n` cards. */
  function Rows(i: nat, n: nat): seq<(nat, nat)> {
    if i == 0 then [] else Rows(i - 1, n) + RowPairs(i - 1, n)
  }

  /** Every unordered pair of positions below `n`, in loop order. */
  function AllPairs(n: nat): seq<(nat, nat)> {
    Rows(n, n)
  }

  /** Lexicographic order on pairs. */
  predicate PairBefore(p: (nat, nat), q: (nat, nat)) {
    p.0 < q.0 || (p.0 == q.0 && p.1 < q.1)
  }

  /** The first `i` rows hold only pairs `a < b < n` with `a < i`. */
  lemma {:induction false} RowsBounds(i: nat, n: nat)
    requires i <= n
    ensures forall k :: 0 <= k < |Rows(i, n)| ==>
              Rows(i, n)[k].0 < i && Rows(i, n)[k].0 < Rows(i, n)[k].1 < n
  {
    if i > 0 {
      RowsBounds(i - 1, n);
      RowPairsAt(i - 1, n);
    }
  }

  /** The first `i` rows hold every pair `a < b < n` with `a < i`. */
  lemma {:induction false} RowsComplete(i: nat, n: nat)
    requires i <= n
    ensures forall a: nat, b: nat :: a < i && a < b < n ==> (a, b) in Rows(i, n)
  {
    if i > 0 {
      RowsComplete(i - 1, n);
      RowPairsAt(i - 1, n);
      var r, row := Rows(i - 1, n), RowPairs(i - 1, n);
      assert Rows(i, n) == r + row;
      forall a: nat, b: nat | a < i && a < b < n
        ensures (a, b) in r + row
      {
        if a == i - 1 {
          assert row[b - i] == (a, b);
        } else {
          assert (a, b) in r;
        }
      }
    }
  }

  /** The first `i` rows are in strictly increasing lexicographic order. */
  lemma {:induction false} RowsOrdered(i: nat, n: nat)
    requires i <= n
    ensures forall x, y :: 0 <= x < y < |Rows(i, n)| ==> PairBefore(Rows(i, n)[x], Rows(i, n)[y])
  {
    if i > 0 {
      RowsOrdered(i - 1, n);
      RowsBounds(i - 1, n);
      RowPairsAt(i - 1, n);
      var r, row := Rows(i - 1, n), RowPairs(i - 1, n);
      var u := r + row;
      forall x, y | 0 <= x < y < |u|
        ensures PairBefore(u[x], u[y])
      {
        if y >= |r| {
          assert u[y] == row[y - |r|];
          if x >= |r| {
            assert u[x] == row[x - |r|];
          } else {
            assert u[x] == r[x];
          }
        }
      }
    }
  }

  /** The first `i` rows hold `i * (2n - i - 1) / 2` pairs. */
  lemma {:induction false} RowsLength(i: nat, n: nat)
    requires i <= n
    ensures 2 * |Rows(i, n)| == i * (2 * n - i - 1)
  {
    if i > 0 {
      RowsLength(i - 1, n);
      RowPairsAt(i - 1, n);
      assert 2 * |RowPairs(i - 1, n)| == 2 * n - 2 * i;
      RowsLengthStep(i, n);
    }
  }

  lemma RowsLengthStep(i: nat, n: nat)
    requires 1 <= i <= n
    ensures (i - 1) * (2 * n - i) + (2 * n - 2 * i) == i * (2 * n - i - 1)
  {
    var w := 2 * n - i - 1;
    assert i * w == (i - 1) * w + w;
    assert (i - 1) * (w + 1) == (i - 1) * w + (i - 1);
  }

  /** The loop visits every pair `i < j < n` once, in `(i, j)` order: `n (n - 1) / 2`
      pairs in all. */
  lemma AllPairsShape(n: nat)
    ensures forall p :: p in AllPairs(n) <==> p.0 < p.1 < n
    ensures forall x, y :: 0 <= x < y < |AllPairs(n)| ==> PairBefore(AllPairs(n)[x], AllPairs(n)[y])
    ensures 2 * |AllPairs(n)| == n * (n - 1)
  {
    RowsBounds(n, n);
    RowsComplete(n, n);
    RowsOrdered(n, n);
    RowsLength(n, n);
  }

  // ---------------------------------------------------------------------------
  // The lines of the synergy block

  /** The pair falls inside the draw and its suit rule raises. */
  predicate PairFails(cards: seq<Card>, p: (nat, nat)) {
    p.0 < |cards| && p.1 < |cards| && PairStatements(cards[p.0], cards[p.1]).Err?
  }

  /** The line a pair contributes: one line when some rule fired, none otherwise. */
  function PairLine(cards: seq<Card>, p: (nat, nat)): seq<Fragment> {
    if p.0 < |cards| && p.1 < |cards| then
      match PairStatements(cards[p.0], cards[p.1])
      case Ok(m) => if m != [] then [SynergyPair(cards[p.0].name, cards[p.1].name, m)] else []
      case Err(_) => []
    else []
  }

  /** `PairLine` and `PairFails` on a fixed draw, as function values: the bookkeeping of
      the loop order below is stated for any per-pair outcome. */
  ghost function LineOf(cards: seq<Card>): ((nat, nat)) -> seq<Fragment> {
    LineOfExists(cards);
    var line :| IsLineOf(cards, line);
    line
  }

  ghost function FailsOf(cards: seq<Card>): ((nat, nat)) -> bool {
    FailsOfExists(cards);
    var fails :| IsFailsOf(cards, fails);
    fails
  }

  /** `line` gives each pair's line. Applying it says nothing until the pair's
      `PairLine` is mentioned, which keeps the rules out of the bookkeeping proofs. */
  ghost predicate IsLineOf(cards: seq<Card>, line: ((nat, nat)) -> seq<Fragment>) {
    forall p {:trigger PairLine(cards, p)} :: line(p) == PairLine(cards, p)
  }

  ghost predicate IsFailsOf(cards: seq<Card>, fails: ((nat, nat)) -> bool) {
    forall p {:trigger PairFails(cards, p)} :: fails(p) == PairFails(cards, p)
  }

  lemma LineOfExists(cards: seq<Card>)
    ensures exists line :: IsLineOf(cards, line)
  {
    assert IsLineOf(cards, p => PairLine(cards, p));
  }

  lemma FailsOfExists(cards: seq<Card>)
    ensures exists fails :: IsFailsOf(cards, fails)
  {
    assert IsFailsOf(cards, p => PairFails(cards, p));
  }

  /** The line and the failure of one pair of the draw. */
  lemma LineOfAt(cards: seq<Card>, p: (nat, nat))
    ensures LineOf(cards)(p) == PairLine(cards, p)
    ensures FailsOf(cards)(p) == PairFails(cards, p)
  {
  }

  /** The lines of the pairs `ps`, in order. */
  function PairLines(line: ((nat, nat)) -> seq<Fragment>, ps: seq<(nat, nat)>): seq<Fragment> {
    if ps == [] then [] else PairLines(line, ps[..|ps| - 1]) + line(ps[|ps| - 1])
  }

  /** No pair of `ps` fails. */
  predicate NoneFail(fails: ((nat, nat)) -> bool, ps: seq<(nat, nat)>) {
    ps == [] || (NoneFail(fails, ps[..|ps| - 1]) && !fails(ps[|ps| - 1]))
  }

  /** What `synergy_analysis(drawn_cards)` returns: nothing for fewer than two cards;
      the error of the first pair whose suit rule raises; otherwise the header, one line
      per pair on which a rule fired, and the fallback line when there is none. */
  ghost function SynergyReport(cards: seq<Card>): Result<seq<Fragment>> {
    Block(LineOf(cards), FailsOf(cards), |cards|)
  }

  /** The block for `n` cards whose pairs give lines by `line` and fail by `fails`. */
  function Block(line: ((nat, nat)) -> seq<Fragment>, fails: ((nat, nat)) -> bool, n: nat): Result<seq<Fragment>> {
    if n < 2 then Ok([])
    else if !NoneFail(fails, AllPairs(n)) then Err(IndexError)
    else
      var lines := PairLines(line, AllPairs(n));
      Ok([SynergyHeader] + lines + (if lines == [] then [NoSynergy] else []))
  }

  /** The body of the inner loop of `synergy_analysis` on one pair: the rules in
      order, with the suit rule's unguarded index. */
  method PairSynergy(c1: Card, c2: Card) returns (r: Result<seq<Statement>>)
    ensures r == PairStatements(c1, c2)
  {
    var synergyMsgs: seq<Statement> := [];
    if IsMajor(c1) && IsMajor(c2) {
      synergyMsgs := synergyMsgs + [BothMajor];
    }
    if Present(c1.element) && Present(c2.element) && c1.element.value == c2.element.value {
      synergyMsgs := synergyMsgs + [SharedElement(c1.element.value)];
    }
    assert synergyMsgs == MajorStatement(c1, c2) + ElementStatement(c1, c2);
    var suit := SuitRule(c1, c2);
    if suit.Err? {
      return Err(suit.error);
    }
    if suit.value.Some? {
      synergyMsgs := synergyMsgs + [SharedSuit(suit.value.value)];
    }
    assert synergyMsgs == MajorStatement(c1, c2) + ElementStatement(c1, c2) + SuitStatement(suit.value);
    if Present(c1.numerology) && Present(c2.numerology) {
      if c1.numerology.value == c2.numerology.value {
        synergyMsgs := synergyMsgs + [SharedNumber(c1.numerology.value)];
      }
    }
    assert synergyMsgs == MajorStatement(c1, c2) + ElementStatement(c1, c2) + SuitStatement(suit.value)
                          + NumberStatement(c1, c2);
    var shared := AstrologyRule(c1, c2);
    synergyMsgs := synergyMsgs + shared;
    assert synergyMsgs == RuleStatements(c1, c2, suit.value);
    return Ok(synergyMsgs);
  }

  /** Rule 3 of the inner loop: the word after "of" in each name, compared, with the
      index past the end raising. */
  method SuitRule(c1: Card, c2: Card) returns (r: Result<Option<string>>)
    ensures r == SuitMatch(c1.name, c2.name)
  {
    if Contains(c1.name, "of") && Contains(c2.name, "of") {
      var nameParts1, nameParts2 := Words(c1.name), Words(c2.name);
      if "of" in nameParts1 && "of" in nameParts2 {
        var k1 := IndexOf(nameParts1, "of");
        if k1 + 1 >= |nameParts1| {
          return Err(IndexError);
        }
        var suit1 := nameParts1[k1 + 1];
        var k2 := IndexOf(nameParts2, "of");
        if k2 + 1 >= |nameParts2| {
          return Err(IndexError);
        }
        var suit2 := nameParts2[k2 + 1];
        if suit1 == suit2 {
          return Ok(Some(suit1));
        }
      }
    }
    return Ok(None);
  }

  /** Rule 5 of the inner loop: the signs both cards list, when there are any. */
  method AstrologyRule(c1: Card, c2: Card) returns (shared: seq<Statement>)
    ensures shared == AstrologyStatement(c1, c2)
  {
    shared := [];
    if Present(c1.astrology) && Present(c2.astrology) {
      var astros1 := AstrologySigns(c1.astrology.value);
      var astros2 := AstrologySigns(c2.astrology.value);
      var sharedAstros := astros1 * astros2;
      if sharedAstros != {} {
        shared := [SharedAstrology(sharedAstros)];
      }
    }
  }

  /** `synergy_analysis(drawn_cards)`: the outer loop over `i`. */
  method SynergyAnalysis(cards: seq<Card>) returns (r: Result<seq<Fragment>>)
    ensures r == SynergyReport(cards)
  {
    var n: nat := |cards|;
    if n < 2 {
      return Ok([]);
    }
    ghost var line, fails := LineOf(cards), FailsOf(cards);
    var synergyText := [SynergyHeader];
    var foundAnySynergy := false;
    for i: nat := 0 to n
      invariant synergyText == TextBefore(line, n, i, i + 1)
      invariant foundAnySynergy <==> |synergyText| > 1
      invariant OkBefore(fails, n, i, i + 1)
    {
      var failed;
      synergyText, foundAnySynergy, failed := ScanRow(cards, line, fails, i, synergyText, foundAnySynergy);
      if failed {
        return Err(IndexError);
      }
    }
    Finish(line, fails, n, synergyText);
    if !foundAnySynergy {
      synergyText := synergyText + [NoSynergy];
    }
    return Ok(synergyText);
  }

  /** The inner loop of `synergy_analysis` for row `i`: the pairs `(i, j)` with
      `i < j`, in order of `j`, stopping at the first pair whose suit rule raises.
      `line` and `fails` are the draw's pair lines and pair failures. */
  method ScanRow(cards: seq<Card>, ghost line: ((nat, nat)) -> seq<Fragment>, ghost fails: ((nat, nat)) -> bool,
                 i: nat, text: seq<Fragment>, found: bool)
    returns (text': seq<Fragment>, found': bool, failed: bool)
    requires line == LineOf(cards) && fails == FailsOf(cards) && i < |cards|
    requires text == TextBefore(line, |cards|, i, i + 1) && (found <==> |text| > 1)
    requires OkBefore(fails, |cards|, i, i + 1)
    ensures failed ==> Block(line, fails, |cards|) == Err(IndexError)
    ensures !failed ==> text' == TextBefore(line, |cards|, i + 1, i + 2) && (found' <==> |text'| > 1)
    ensures !failed ==> OkBefore(fails, |cards|, i + 1, i + 2)
  {
    var n := |cards|;
    text', found', failed := text, found, false;
    for j: nat := i + 1 to n
      invariant text' == TextBefore(line, n, i, j) && (found' <==> |text'| > 1)
      invariant OkBefore(fails, n, i, j)
    {
      text', found', failed := VisitPair(cards, line, fails, i, j, text', found');
      if failed {
        return;
      }
    }
  }

  /** The body of the inner loop on pair `(i, j)`: the rules, then the pair's line when
      some rule fired. */
  method VisitPair(cards: seq<Card>, ghost line: ((nat, nat)) -> seq<Fragment>, ghost fails: ((nat, nat)) -> bool,
                   i: nat, j: nat, text: seq<Fragment>, found: bool)
    returns (text': seq<Fragment>, found': bool, failed: bool)
    requires line == LineOf(cards) && fails == FailsOf(cards) && i < j < |cards|
    requires text == TextBefore(line, |cards|, i, j) && (found <==> |text| > 1)
    requires OkBefore(fails, |cards|, i, j)
    ensures failed ==> Block(line, fails, |cards|) == Err(IndexError)
    ensures !failed ==> text' == TextBefore(line, |cards|, i, j + 1) && (found' <==> |text'| > 1)
    ensures !failed ==> OkBefore(fails, |cards|, i, j + 1)
  {
    var c1, c2 := cards[i], cards[j];
    var msgs := PairSynergy(c1, c2);
    LineOfAt(cards, (i, j));
    LoopStep(line, fails, |cards|, i, j);
    if msgs.Err? {
      BlockRaises(line, fails, |cards|, i, j);
      return text, found, true;
    }
    var synergyMsgs := msgs.value;
    TextBeforeStartsWithHeader(line, |cards|, i, j);
    text', found', failed := text, found, false;
    if synergyMsgs != [] {
      found' := true;
      text' := text + [SynergyPair(c1.name, c2.name, synergyMsgs)];
    } else {
      assert text + [] == text;
    }
  }

  // ---------------------------------------------------------------------------
  // The state of the two loops

  /** The block text once the loops over `n` cards have visited every pair before
      `(i, j)` in loop order: the header, then the line of each visited pair. */
  function TextBefore(line: ((nat, nat)) -> seq<Fragment>, n: nat, i: nat, j: nat): seq<Fragment>
    decreases i, j
  {
    if j > i + 1 then TextBefore(line, n, i, j - 1) + line((i, j - 1))
    else if i == 0 then [SynergyHeader]
    else TextBefore(line, n, i - 1, n)
  }

  /** No pair before `(i, j)` in loop order fails. */
  predicate OkBefore(fails: ((nat, nat)) -> bool, n: nat, i: nat, j: nat)
    decreases i, j
  {
    if j > i + 1 then OkBefore(fails, n, i, j - 1) && !fails((i, j - 1))
    else i == 0 || OkBefore(fails, n, i - 1, n)
  }

  /** The text always starts with the header. */
  lemma {:induction false} TextBeforeStartsWithHeader(line: ((nat, nat)) -> seq<Fragment>, n: nat, i: nat, j: nat)
    ensures |TextBefore(line, n, i, j)| >= 1 && TextBefore(line, n, i, j)[0] == SynergyHeader
    decreases i, j
  {
    if j > i + 1 {
      TextBeforeStartsWithHeader(line, n, i, j - 1);
    } else if i > 0 {
      TextBeforeStartsWithHeader(line, n, i - 1, n);
    }
  }

  /** Visiting pair `(i, j)` adds its line to the text and its failure to the check. */
  lemma LoopStep(line: ((nat, nat)) -> seq<Fragment>, fails: ((nat, nat)) -> bool, n: nat, i: nat, j: nat)
    requires i < j
    ensures TextBefore(line, n, i, j + 1) == TextBefore(line, n, i, j) + line((i, j))
    ensures OkBefore(fails, n, i, j + 1) == (OkBefore(fails, n, i, j) && !fails((i, j)))
  {
  }

  /** The pairs before `(i, j)` in the order of the two loops over `n` cards. */
  function PairsBefore(n: nat, i: nat, j: nat): seq<(nat, nat)>
    decreases i, j
  {
    if j > i + 1 then PairsBefore(n, i, j - 1) + [(i, j - 1)]
    else if i == 0 then []
    else PairsBefore(n, i - 1, n)
  }

  /** The pairs before `(i, j)` are the first `i` rows and the start of row `i`. */
  lemma {:induction false} PairsBeforeRows(n: nat, i: nat, j: nat)
    requires i < j <= n
    ensures PairsBefore(n, i, j) == Rows(i, n) + RowPairs(i, j)
    decreases i, j
  {
    if j > i + 1 {
      PairsBeforeRows(n, i, j - 1);
      var r, row, p := Rows(i, n), RowPairs(i, j - 1), (i, j - 1);
      assert r + (row + [p]) == (r + row) + [p];
    } else if i == 0 {
      assert Rows(0, n) + RowPairs(0, j) == [];
    } else {
      PairsBeforeRows(n, i - 1, n);
      assert Rows(i, n) + RowPairs(i, j) == Rows(i, n);
    }
  }

  /** The text before `(i, j)` is the header and the lines of the pairs before it. */
  lemma {:induction false} TextBeforeIsPairLines(line: ((nat, nat)) -> seq<Fragment>, n: nat, i: nat, j: nat)
    ensures TextBefore(line, n, i, j) == [SynergyHeader] + PairLines(line, PairsBefore(n, i, j))
    decreases i, j
  {
    if j > i + 1 {
      TextBeforeIsPairLines(line, n, i, j - 1);
      var ps, p := PairsBefore(n, i, j - 1), (i, j - 1);
      LinesStep(line, ps, p);
      var lines := PairLines(line, ps);
      assert [SynergyHeader] + lines + line(p) == [SynergyHeader] + (lines + line(p));
    } else if i > 0 {
      TextBeforeIsPairLines(line, n, i - 1, n);
    }
  }

  /** No pair before `(i, j)` fails exactly when none of the pairs before it fails. */
  lemma {:induction false} OkBeforeIsNoneFail(fails: ((nat, nat)) -> bool, n: nat, i: nat, j: nat)
    ensures OkBefore(fails, n, i, j) == NoneFail(fails, PairsBefore(n, i, j))
    decreases i, j
  {
    if j > i + 1 {
      OkBeforeIsNoneFail(fails, n, i, j - 1);
      NoneFailStep(fails, PairsBefore(n, i, j - 1), (i, j - 1));
    } else if i > 0 {
      OkBeforeIsNoneFail(fails, n, i - 1, n);
    }
  }

  /** After the last row, the text is the block without its fallback line. */
  lemma Finish(line: ((nat, nat)) -> seq<Fragment>, fails: ((nat, nat)) -> bool, n: nat, text: seq<Fragment>)
    requires n >= 2
    requires text == TextBefore(line, n, n, n + 1)
    requires OkBefore(fails, n, n, n + 1)
    ensures |text| > 1 ==> Block(line, fails, n) == Ok(text)
    ensures |text| <= 1 ==> Block(line, fails, n) == Ok(text + [NoSynergy])
  {
    TextBeforeIsPairLines(line, n, n - 1, n);
    OkBeforeIsNoneFail(fails, n, n - 1, n);
    PairsBeforeRows(n, n - 1, n);
    assert Rows(n - 1, n) + RowPairs(n - 1, n) == AllPairs(n);
    assert text + [] == text;
  }

  lemma LinesStep(line: ((nat, nat)) -> seq<Fragment>, ps: seq<(nat, nat)>, p: (nat, nat))
    ensures PairLines(line, ps + [p]) == PairLines(line, ps) + line(p)
  {
    assert (ps + [p])[..|ps|] == ps;
  }

  lemma NoneFailStep(fails: ((nat, nat)) -> bool, ps: seq<(nat, nat)>, p: (nat, nat))
    ensures NoneFail(fails, ps + [p]) == (NoneFail(fails, ps) && !fails(p))
  {
    assert (ps + [p])[..|ps|] == ps;
  }

  lemma {:induction false} NoneFailAt(fails: ((nat, nat)) -> bool, ps: seq<(nat, nat)>)
    ensures NoneFail(fails, ps) <==> forall k :: 0 <= k < |ps| ==> !fails(ps[k])
  {
    if ps != [] {
      var front := ps[..|ps| - 1];
      NoneFailAt(fails, front);
      assert forall k :: 0 <= k < |front| ==> front[k] == ps[k];
    }
  }

  /** A pair that fails makes the whole block fail. */
  lemma BlockRaises(line: ((nat, nat)) -> seq<Fragment>, fails: ((nat, nat)) -> bool, n: nat, i: nat, j: nat)
    requires i < j < n && fails((i, j))
    ensures Block(line, fails, n) == Err(IndexError)
  {
    AllPairsShape(n);
    var ps := AllPairs(n);
    assert (i, j) in ps;
    var k :| 0 <= k < |ps| && ps[k] == (i, j);
    NoneFailAt(fails, ps);
  }

  // ---------------------------------------------------------------------------
  // Properties of the block

  /** The line order follows the pair order: the lines of `ps + qs` are those of `ps`
      followed by those of `qs`. */
  lemma {:induction false} PairLinesAppend(line: ((nat, nat)) -> seq<Fragment>, ps: seq<(nat, nat)>, qs: seq<(nat, nat)>)
    ensures PairLines(line, ps + qs) == PairLines(line, ps) + PairLines(line, qs)
    decreases |qs|
  {
    if qs == [] {
      assert ps + qs == ps;
    } else {
      var q := qs[..|qs| - 1];
      assert (ps + qs)[..|ps + qs| - 1] == ps + q;
      assert (ps + qs)[|ps + qs| - 1] == qs[|qs| - 1];
      PairLinesAppend(line, ps, q);
    }
  }

  /** There are at most as many lines as pairs when each pair gives at most one line,
      and none at all exactly when no pair gives one. */
  lemma {:induction false} PairLinesCount(line: ((nat, nat)) -> seq<Fragment>, ps: seq<(nat, nat)>)
    requires AtMostOneLine(line)
    ensures |PairLines(line, ps)| <= |ps|
    ensures PairLines(line, ps) == [] <==> forall k :: 0 <= k < |ps| ==> line(ps[k]) == []
  {
    if ps != [] {
      var front := ps[..|ps| - 1];
      assert forall k :: 0 <= k < |front| ==> front[k] == ps[k];
      PairLinesCount(line, front);
    }
  }

  /** Each pair gives at most one line. */
  ghost predicate AtMostOneLine(line: ((nat, nat)) -> seq<Fragment>) {
    forall p :: |line(p)| <= 1
  }

  /** The position in `ps` of the pair that produced line `a`, for any `line` giving
      at most one line per pair. */
  ghost function Origin(line: ((nat, nat)) -> seq<Fragment>, ps: seq<(nat, nat)>, a: nat): (k: nat)
    requires AtMostOneLine(line)
    requires a < |PairLines(line, ps)|
    ensures k < |ps| && line(ps[k]) == [PairLines(line, ps)[a]]
  {
    var front := ps[..|ps| - 1];
    if a < |PairLines(line, front)| then
      var k := Origin(line, front, a);
      assert ps[k] == front[k];
      k
    else
      assert |line(ps[|ps| - 1])| <= 1;
      |ps| - 1
  }

  lemma {:induction false} OriginIncreasing(line: ((nat, nat)) -> seq<Fragment>, ps: seq<(nat, nat)>, a: nat, b: nat)
    requires AtMostOneLine(line)
    requires a < b < |PairLines(line, ps)|
    ensures Origin(line, ps, a) < Origin(line, ps, b)
  {
    var front := ps[..|ps| - 1];
    if b < |PairLines(line, front)| {
      OriginIncreasing(line, front, a, b);
    } else {
      assert |line(ps[|ps| - 1])| <= 1;
    }
  }

  lemma {:induction false} OriginComplete(line: ((nat, nat)) -> seq<Fragment>, ps: seq<(nat, nat)>, k: nat)
    requires AtMostOneLine(line)
    requires k < |ps| && line(ps[k]) != []
    ensures exists a :: 0 <= a < |PairLines(line, ps)| && Origin(line, ps, a) == k
  {
    var front := ps[..|ps| - 1];
    if k < |front| {
      assert front[k] == ps[k];
      OriginComplete(line, front, k);
      var a :| 0 <= a < |PairLines(line, front)| && Origin(line, front, a) == k;
      assert Origin(line, ps, a) == k;
    } else {
      assert Origin(line, ps, |PairLines(line, front)|) == k;
    }
  }

  /** On a draw, each pair gives at most one line. */
  lemma LineOfAtMostOne(cards: seq<Card>)
    ensures AtMostOneLine(LineOf(cards))
  {
    forall p
      ensures |LineOf(cards)(p)| <= 1
    {
      LineOfAt(cards, p);
    }
  }

  /** The position in `ps` of the pair that produced line `a`: a pair of the draw that
      does not fail and has statements, which the line carries. */
  ghost function LineOrigin(cards: seq<Card>, ps: seq<(nat, nat)>, a: nat): (k: nat)
    requires a < |PairLines(LineOf(cards), ps)|
    ensures k < |ps| && ps[k].0 < |cards| && ps[k].1 < |cards|
    ensures PairStatements(cards[ps[k].0], cards[ps[k].1]).Ok?
    ensures PairStatements(cards[ps[k].0], cards[ps[k].1]).value != []
    ensures PairLines(LineOf(cards), ps)[a] ==
              SynergyPair(cards[ps[k].0].name, cards[ps[k].1].name,
                          PairStatements(cards[ps[k].0], cards[ps[k].1]).value)
  {
    LineOfAtMostOne(cards);
    var k := Origin(LineOf(cards), ps, a);
    LineOfAt(cards, ps[k]);
    k
  }

  /** Distinct lines come from distinct pairs, in the same order. */
  lemma LineOriginIncreasing(cards: seq<Card>, ps: seq<(nat, nat)>, a: nat, b: nat)
    requires a < b < |PairLines(LineOf(cards), ps)|
    ensures LineOrigin(cards, ps, a) < LineOrigin(cards, ps, b)
  {
    LineOfAtMostOne(cards);
    OriginIncreasing(LineOf(cards), ps, a, b);
  }

  /** Every pair on which a rule fired has its line. */
  lemma LineComplete(cards: seq<Card>, ps: seq<(nat, nat)>, k: nat)
    requires k < |ps| && ps[k].0 < |cards| && ps[k].1 < |cards|
    requires PairStatements(cards[ps[k].0], cards[ps[k].1]).Ok?
    requires PairStatements(cards[ps[k].0], cards[ps[k].1]).value != []
    ensures exists a :: 0 <= a < |PairLines(LineOf(cards), ps)| && LineOrigin(cards, ps, a) == k
  {
    LineOfAtMostOne(cards);
    LineOfAt(cards, ps[k]);
    OriginComplete(LineOf(cards), ps, k);
    var a :| 0 <= a < |PairLines(LineOf(cards), ps)| && Origin(LineOf(cards), ps, a) == k;
    assert LineOrigin(cards, ps, a) == k;
  }

  /** Below two cards the block is empty; from two cards on it fails exactly when some
      pair `i < j` has a suit rule that raises. */
  lemma SynergyReportFails(cards: seq<Card>)
    ensures |cards| < 2 ==> SynergyReport(cards) == Ok([])
    ensures SynergyReport(cards).Err? <==>
              |cards| >= 2 && exists i, j :: 0 <= i < j < |cards| && SuitFails(cards[i], cards[j])
  {
    var n := |cards|;
    if n >= 2 {
      var ps := AllPairs(n);
      AllPairsShape(n);
      NoneFailAt(FailsOf(cards), ps);
      if !NoneFail(FailsOf(cards), ps) {
        var k :| 0 <= k < |ps| && FailsOf(cards)(ps[k]);
        assert ps[k] in ps;
        LineOfAt(cards, ps[k]);
        PairFailsIff(cards[ps[k].0], cards[ps[k].1]);
      } else {
        forall i, j | 0 <= i < j < n
          ensures !SuitFails(cards[i], cards[j])
        {
          assert (i, j) in ps;
          var k :| 0 <= k < |ps| && ps[k] == (i, j);
          assert !FailsOf(cards)(ps[k]);
          LineOfAt(cards, (i, j));
          PairFailsIff(cards[i], cards[j]);
        }
      }
    }
  }

  /** A line naming a pair and its non-empty statements. */
  predicate IsPairLine(f: Fragment) {
    f.SynergyPair? && f.statements != []
  }

  /** Every line a pair gives is a pair line. */
  ghost predicate OnlyPairLines(line: ((nat, nat)) -> seq<Fragment>) {
    forall p, x :: 0 <= x < |line(p)| ==> IsPairLine(line(p)[x])
  }

  lemma LineOfPairs(cards: seq<Card>)
    ensures OnlyPairLines(LineOf(cards))
  {
    forall p, x | 0 <= x < |LineOf(cards)(p)|
      ensures IsPairLine(LineOf(cards)(p)[x])
    {
      LineOfAt(cards, p);
    }
  }

  lemma {:induction false} PairLinesArePairs(line: ((nat, nat)) -> seq<Fragment>, ps: seq<(nat, nat)>)
    requires OnlyPairLines(line)
    ensures forall a :: 0 <= a < |PairLines(line, ps)| ==> IsPairLine(PairLines(line, ps)[a])
  {
    if ps != [] {
      var front, last := ps[..|ps| - 1], ps[|ps| - 1];
      PairLinesArePairs(line, front);
      var u, v := PairLines(line, front), line(last);
      forall a | 0 <= a < |u + v|
        ensures IsPairLine((u + v)[a])
      {
        if a >= |u| {
          assert (u + v)[a] == v[a - |u|];
        } else {
          assert (u + v)[a] == u[a];
        }
      }
    }
  }

  /** A draw with no failing pair has no pair line exactly when every pair gives no
      statement. */
  lemma LinesEmptyIff(cards: seq<Card>)
    requires NoneFail(FailsOf(cards), AllPairs(|cards|))
    ensures PairLines(LineOf(cards), AllPairs(|cards|)) == [] <==>
              forall i, j :: 0 <= i < j < |cards| ==> PairStatements(cards[i], cards[j]) == Ok([])
  {
    var n := |cards|;
    var ps := AllPairs(n);
    AllPairsShape(n);
    NoneFailAt(FailsOf(cards), ps);
    LineOfAtMostOne(cards);
    PairLinesCount(LineOf(cards), ps);
    if PairLines(LineOf(cards), ps) == [] {
      forall i, j | 0 <= i < j < n
        ensures PairStatements(cards[i], cards[j]) == Ok([])
      {
        assert (i, j) in ps;
        var k :| 0 <= k < |ps| && ps[k] == (i, j);
        assert LineOf(cards)(ps[k]) == [] && !FailsOf(cards)(ps[k]);
        LineOfAt(cards, (i, j));
      }
    } else {
      var k :| 0 <= k < |ps| && LineOf(cards)(ps[k]) != [];
      assert ps[k] in ps;
      LineOfAt(cards, ps[k]);
    }
  }

  /** A block that does not fail is the header, then its pair lines, then the fallback
      line exactly when there are none. */
  lemma FallbackIffNoLines(cards: seq<Card>)
    requires |cards| >= 2 && SynergyReport(cards).Ok?
    ensures SynergyReport(cards).value[0] == SynergyHeader
    ensures NoSynergy in SynergyReport(cards).value <==> PairLines(LineOf(cards), AllPairs(|cards|)) == []
    ensures PairLines(LineOf(cards), AllPairs(|cards|)) == [] ==>
              SynergyReport(cards).value == [SynergyHeader, NoSynergy]
  {
    LineOfPairs(cards);
    BlockFallback(LineOf(cards), FailsOf(cards), |cards|);
  }

  lemma BlockFallback(line: ((nat, nat)) -> seq<Fragment>, fails: ((nat, nat)) -> bool, n: nat)
    requires n >= 2 && Block(line, fails, n).Ok? && OnlyPairLines(line)
    ensures Block(line, fails, n).value[0] == SynergyHeader
    ensures NoSynergy in Block(line, fails, n).value <==> PairLines(line, AllPairs(n)) == []
    ensures PairLines(line, AllPairs(n)) == [] ==> Block(line, fails, n).value == [SynergyHeader, NoSynergy]
  {
    var lines := PairLines(line, AllPairs(n));
    if lines != [] {
      PairLinesArePairs(line, AllPairs(n));
      var r := Block(line, fails, n).value;
      assert r == [SynergyHeader] + lines;
      forall k | 0 <= k < |r|
        ensures r[k] != NoSynergy
      {
        if k > 0 {
          assert r[k] == lines[k - 1];
        }
      }
    }
  }

  /** A block that does not fail starts with the header, and ends with the fallback
      line, right after the header, exactly when no pair produced a statement. */
  lemma SynergyReportFallback(cards: seq<Card>)
    requires |cards| >= 2 && SynergyReport(cards).Ok?
    ensures SynergyReport(cards).value[0] == SynergyHeader
    ensures NoSynergy in SynergyReport(cards).value <==>
              forall i, j :: 0 <= i < j < |cards| ==> PairStatements(cards[i], cards[j]) == Ok([])
    ensures NoSynergy in SynergyReport(cards).value ==> SynergyReport(cards).value == [SynergyHeader, NoSynergy]
  {
    FallbackIffNoLines(cards);
    LinesEmptyIff(cards);
  }

  /** A block with pair lines holds at most `n (n - 1) / 2` of them, one per pair on
      which a rule fired, each with its non-empty statements. */
  lemma SynergyReportLines(cards: seq<Card>)
    requires |cards| >= 2 && SynergyReport(cards).Ok? && NoSynergy !in SynergyReport(cards).value
    ensures 2 * (|SynergyReport(cards).value| - 1) <= |cards| * (|cards| - 1)
    ensures forall k :: 1 <= k < |SynergyReport(cards).value| ==>
              SynergyReport(cards).value[k].SynergyPair? && SynergyReport(cards).value[k].statements != []
  {
    LineOfAtMostOne(cards);
    LineOfPairs(cards);
    BlockLines(LineOf(cards), FailsOf(cards), |cards|);
  }

  lemma BlockLines(line: ((nat, nat)) -> seq<Fragment>, fails: ((nat, nat)) -> bool, n: nat)
    requires n >= 2 && Block(line, fails, n).Ok? && NoSynergy !in Block(line, fails, n).value
    requires AtMostOneLine(line) && OnlyPairLines(line)
    ensures 2 * (|Block(line, fails, n).value| - 1) <= n * (n - 1)
    ensures forall k :: 1 <= k < |Block(line, fails, n).value| ==> IsPairLine(Block(line, fails, n).value[k])
  {
    var ps := AllPairs(n);
    var lines := PairLines(line, ps);
    var r := Block(line, fails, n).value;
    AllPairsShape(n);
    PairLinesCount(line, ps);
    BlockFallback(line, fails, n);
    assert r == [SynergyHeader] + lines;
    PairLinesArePairs(line, ps);
    forall k | 1 <= k < |r|
      ensures IsPairLine(r[k])
    {
      assert r[k] == lines[k - 1];
    }
  }

  /** The block of a two-card draw: its one pair (0, 1) decides it. It fails when that
      pair raises; otherwise it is the heading and then the pair's line, or the fallback
      remark when no rule fired. */
  lemma TwoCardBlock(c1: Card, c2: Card)
    ensures SynergyReport([c1, c2]).Err? <==> PairStatements(c1, c2).Err?
    ensures PairStatements(c1, c2).Ok? ==>
              SynergyReport([c1, c2]).value ==
                [SynergyHeader] +
                (if PairStatements(c1, c2).value != []
                 then [SynergyPair(c1.name, c2.name, PairStatements(c1, c2).value)]
                 else [NoSynergy])
  {
    var cards := [c1, c2];
    assert Rows(1, 2) == [(0, 1)];
    assert AllPairs(2) == [(0, 1)];
    LineOfAt(cards, (0, 1));
    assert PairLines(LineOf(cards), [(0, 1)]) == LineOf(cards)((0, 1));
    assert NoneFail(FailsOf(cards), [(0, 1)]) == !FailsOf(cards)((0, 1));
  }

  /** The two-card block written from one outcome `m`, naming `first` before `second`. */
  function TwoCardLines(first: string, second: string, m: seq<Statement>): seq<Fragment> {
    [SynergyHeader] + (if m != [] then [SynergyPair(first, second, m)] else [NoSynergy])
  }

  /** Naming the two cards the other way round changes only the pair line's names. */
  lemma TwoCardLinesSwapped(n1: string, n2: string, m: seq<Statement>)
    ensures forall m' :: SynergyPair(n1, n2, m') in TwoCardLines(n1, n2, m) <==>
                         SynergyPair(n2, n1, m') in TwoCardLines(n2, n1, m)
    ensures NoSynergy in TwoCardLines(n1, n2, m) <==> NoSynergy in TwoCardLines(n2, n1, m)
    ensures |TwoCardLines(n1, n2, m)| == |TwoCardLines(n2, n1, m)| == 2
  {
  }

  /** The block does not depend on the order of two cards, up to which card is named
      first: both orders fail alike, carry the same statements on their pair line, and
      have the fallback remark alike. */
  lemma TwoCardSynergySymmetric(c1: Card, c2: Card)
    ensures SynergyReport([c1, c2]).Err? == SynergyReport([c2, c1]).Err?
    ensures SynergyReport([c1, c2]).Ok? ==>
              (forall m :: SynergyPair(c1.name, c2.name, m) in SynergyReport([c1, c2]).value <==>
                           SynergyPair(c2.name, c1.name, m) in SynergyReport([c2, c1]).value)
    ensures SynergyReport([c1, c2]).Ok? ==>
              (NoSynergy in SynergyReport([c1, c2]).value <==> NoSynergy in SynergyReport([c2, c1]).value)
    ensures SynergyReport([c1, c2]).Ok? ==>
              |SynergyReport([c1, c2]).value| == |SynergyReport([c2, c1]).value| == 2
  {
    PairStatementsSymmetric(c1, c2);
    TwoCardBlock(c1, c2);
    TwoCardBlock(c2, c1);
    if PairStatements(c1, c2).Ok? {
      var m := PairStatements(c1, c2).value;
      assert SynergyReport([c1, c2]).value == TwoCardLines(c1.name, c2.name, m);
      assert SynergyReport([c2, c1]).value == TwoCardLines(c2.name, c1.name, m);
      TwoCardLinesSwapped(c1.name, c2.name, m);
    }
  }
}
