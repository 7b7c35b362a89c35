/** Python's `collections.Counter` over a list, as the report uses it: a dictionary from
    each distinct value to its number of occurrences, iterated in first-seen order, with
    `most_common(1)` and the repeated-keyword comprehension. */
module Tallies {
  import opened Text

  /** A counter's items in iteration order. */
  type Tally<T> = seq<(T, nat)>

  function Keys<T>(t: Tally<T>): (ks: seq<T>)
    ensures |ks| == |t|
    ensures forall i :: 0 <= i < |t| ==> ks[i] == t[i].0
  {
    seq(|t|, i requires 0 <= i < |t| => t[i].0)
  }

  predicate Distinct<T(==)>(s: seq<T>) {
    forall a, b :: 0 <= a < b < |s| ==> s[a] != s[b]
  }

  /** In a list without repeats every value occurs at most once. */
  lemma {:induction false} DistinctOnce<T>(s: seq<T>, x: T)
    requires Distinct(s)
    ensures multiset(s)[x] == if x in s then 1 else 0
  {
    if s != [] {
      var init, last := s[..|s| - 1], s[|s| - 1];
      assert s == init + [last];
      DistinctOnce(init, x);
      assert last !in init by {
        forall i | 0 <= i < |init| ensures init[i] != last {
          assert init[i] == s[i];
        }
      }
    }
  }

  /** One more occurrence of `x`: its count goes up in place, or `(x, 1)` is inserted
      at the end when `x` is new. */
  function Bump<T(==)>(t: Tally<T>, x: T): Tally<T> {
    if x in Keys(t) then
      var k := IndexOf(Keys(t), x);
      t[k := (x, t[k].1 + 1)]
    else t + [(x, 1)]
  }

  /** `Counter(xs)`, built one element at a time in list order. */
  function Count<T(==)>(xs: seq<T>): Tally<T> {
    if xs == [] then [] else Bump(Count(xs[..|xs| - 1]), xs[|xs| - 1])
  }

  /** What one Bump does to a counter whose keys are distinct. */
  lemma BumpShape<T>(t: Tally<T>, x: T)
    requires Distinct(Keys(t))
    ensures x in Keys(t) ==> |Bump(t, x)| == |t| && Keys(Bump(t, x)) == Keys(t)
    ensures x in Keys(t) ==> forall i :: 0 <= i < |t| ==>
              Bump(t, x)[i].1 == t[i].1 + (if t[i].0 == x then 1 else 0)
    ensures x !in Keys(t) ==> Bump(t, x) == t + [(x, 1)] && Keys(Bump(t, x)) == Keys(t) + [x]
  {
    if x in Keys(t) {
      var k := IndexOf(Keys(t), x);
      assert Keys(Bump(t, x)) == Keys(t);
    } else {
      assert Keys(Bump(t, x)) == Keys(t) + [x];
    }
  }

  /** The keys of `Counter(xs)` are the values of `xs`, each once. */
  lemma {:induction false} CountKeys<T>(xs: seq<T>)
    ensures (Count(xs) == []) == (xs == [])
    ensures forall x :: x in Keys(Count(xs)) <==> x in xs
    ensures Distinct(Keys(Count(xs)))
  {
    if xs != [] {
      var p, x := xs[..|xs| - 1], xs[|xs| - 1];
      assert xs == p + [x];
      CountKeys(p);
      BumpShape(Count(p), x);
    }
  }

  /** Each count of `Counter(xs)` is the number of occurrences of its key. */
  lemma {:induction false} CountValues<T>(xs: seq<T>)
    ensures forall i :: 0 <= i < |Count(xs)| ==> Count(xs)[i].1 == multiset(xs)[Count(xs)[i].0]
  {
    if xs != [] {
      var p, x := xs[..|xs| - 1], xs[|xs| - 1];
      assert xs == p + [x];
      CountKeys(p);
      CountValues(p);
      var t := Count(p);
      BumpShape(t, x);
      if x !in Keys(t) {
        assert x !in p;
      }
    }
  }

  /** The keys of `Counter(xs)` come in the order of their first occurrence in `xs`. */
  lemma {:induction false} CountOrder<T>(xs: seq<T>)
    ensures forall i :: 0 <= i < |Count(xs)| ==> Count(xs)[i].0 in xs
    ensures forall a, b :: 0 <= a < b < |Count(xs)| ==>
              IndexOf(xs, Count(xs)[a].0) < IndexOf(xs, Count(xs)[b].0)
  {
    CountKeys(xs);
    assert forall i :: 0 <= i < |Count(xs)| ==> Count(xs)[i].0 in Keys(Count(xs));
    if xs != [] {
      var p, x := xs[..|xs| - 1], xs[|xs| - 1];
      assert xs == p + [x];
      CountKeys(p);
      CountOrder(p);
      var t, u := Count(p), Count(xs);
      BumpShape(t, x);
      forall y | y in p
        ensures IndexOf(xs, y) == IndexOf(p, y)
      {
        IndexOfAppend(p, x, y);
      }
      if x in Keys(t) {
        assert forall i :: 0 <= i < |u| ==> u[i].0 == t[i].0 by {
          assert Keys(u) == Keys(t);
        }
      } else {
        assert x !in p;
        IndexOfAppend(p, x, x);
      }
    }
  }

  /** Counter(xs) in full: the values of `xs`, each once and in first-seen order, each
      with its number of occurrences. */
  lemma CountIsCounter<T>(xs: seq<T>)
    ensures (Count(xs) == []) == (xs == [])
    ensures forall x :: x in Keys(Count(xs)) <==> x in xs
    ensures Distinct(Keys(Count(xs)))
    ensures forall i :: 0 <= i < |Count(xs)| ==> Count(xs)[i].1 == multiset(xs)[Count(xs)[i].0]
    ensures forall a, b :: 0 <= a < b < |Count(xs)| ==>
              IndexOf(xs, Count(xs)[a].0) < IndexOf(xs, Count(xs)[b].0)
  {
    CountKeys(xs);
    CountValues(xs);
    CountOrder(xs);
  }

  /** Position of `most_common(1)[0]`: the first item whose count is maximal. */
  function ArgMax<T>(t: Tally<T>): (k: nat)
    requires t != []
    ensures k < |t|
    ensures forall i :: 0 <= i < |t| ==> t[i].1 <= t[k].1
    ensures forall i :: 0 <= i < k ==> t[i].1 < t[k].1
  {
    if |t| == 1 then 0
    else
      var k := ArgMax(t[..|t| - 1]);
      if t[|t| - 1].1 > t[k].1 then |t| - 1 else k
  }

  /** `Counter.most_common(1)[0]`. */
  function MostCommon<T>(t: Tally<T>): (T, nat)
    requires t != []
  {
    t[ArgMax(t)]
  }

  /** The most common value of a non-empty list occurs at least as often as every other
      value, and among the values that occur as often it is the one seen first. */
  lemma MostCommonIsFirstMostFrequent<T>(xs: seq<T>)
    requires xs != []
    ensures Count(xs) != []
    ensures MostCommon(Count(xs)).0 in xs
    ensures forall y :: y in xs ==> multiset(xs)[y] <= multiset(xs)[MostCommon(Count(xs)).0]
    ensures forall y :: y in xs && multiset(xs)[y] == multiset(xs)[MostCommon(Count(xs)).0] ==>
              IndexOf(xs, MostCommon(Count(xs)).0) <= IndexOf(xs, y)
  {
    CountIsCounter(xs);
    var t := Count(xs);
    var k := ArgMax(t);
    assert t[k].0 in Keys(t);
    forall y | y in xs
      ensures multiset(xs)[y] <= multiset(xs)[t[k].0]
      ensures multiset(xs)[y] == multiset(xs)[t[k].0] ==> IndexOf(xs, t[k].0) <= IndexOf(xs, y)
    {
      var i := IndexOf(Keys(t), y);
      assert t[i].0 == y;
    }
  }

  /** `[k for k, v in counts.items() if v > 1]`. */
  function Repeated<T>(t: Tally<T>): seq<T> {
    if t == [] then []
    else Repeated(t[..|t| - 1]) + (if t[|t| - 1].1 > 1 then [t[|t| - 1].0] else [])
  }

  /** The position in `t` of the item that put the `a`-th key into Repeated(t). */
  function RepeatedOrigin<T>(t: Tally<T>, a: nat): (i: nat)
    requires a < |Repeated(t)|
    ensures i < |t| && t[i].0 == Repeated(t)[a] && t[i].1 > 1
  {
    var s := t[..|t| - 1];
    if a < |Repeated(s)| then
      var i := RepeatedOrigin(s, a);
      assert t[i] == s[i];
      i
    else |t| - 1
  }

  /** Repeated keeps the order of the counter's items. */
  lemma {:induction false} RepeatedOriginIncreasing<T>(t: Tally<T>, a: nat, b: nat)
    requires a < b < |Repeated(t)|
    ensures RepeatedOrigin(t, a) < RepeatedOrigin(t, b)
  {
    var s := t[..|t| - 1];
    if b < |Repeated(s)| {
      RepeatedOriginIncreasing(s, a, b);
    }
  }

  /** Every item whose count exceeds one has its key in Repeated. */
  lemma {:induction false} RepeatedComplete<T>(t: Tally<T>, i: nat)
    requires i < |t| && t[i].1 > 1
    ensures t[i].0 in Repeated(t)
  {
    var s := t[..|t| - 1];
    if i < |s| {
      assert s[i] == t[i];
      RepeatedComplete(s, i);
    }
  }

  /** The repeated keywords of a list are exactly the values occurring more than once,
      listed in the order of their first occurrence (so each at most once). */
  lemma RepeatedKeywords<T>(xs: seq<T>)
    ensures forall x :: x in Repeated(Count(xs)) <==> multiset(xs)[x] > 1
    ensures forall a, b :: 0 <= a < b < |Repeated(Count(xs))| ==>
              Repeated(Count(xs))[a] in xs && Repeated(Count(xs))[b] in xs &&
              IndexOf(xs, Repeated(Count(xs))[a]) < IndexOf(xs, Repeated(Count(xs))[b])
    ensures Distinct(Repeated(Count(xs)))
  {
    var t := Count(xs);
    CountIsCounter(xs);
    var r := Repeated(t);
    forall x
      ensures x in r <==> multiset(xs)[x] > 1
    {
      if x in r {
        var a :| 0 <= a < |r| && r[a] == x;
        var i := RepeatedOrigin(t, a);
      }
      if multiset(xs)[x] > 1 {
        assert x in Keys(t);
        var i := IndexOf(Keys(t), x);
        RepeatedComplete(t, i);
      }
    }
    forall a | 0 <= a < |r|
      ensures r[a] in xs
    {
      var i := RepeatedOrigin(t, a);
      assert t[i].0 in Keys(t);
    }
    forall a, b | 0 <= a < b < |r|
      ensures IndexOf(xs, r[a]) < IndexOf(xs, r[b])
    {
      var i, j := RepeatedOrigin(t, a), RepeatedOrigin(t, b);
      RepeatedOriginIncreasing(t, a, b);
    }
  }
}
