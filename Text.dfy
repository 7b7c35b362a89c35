/** The small string operations the analysis engine relies on, with Python's meaning:
    `str.split()` on whitespace, `str.split(sep)`, `str.strip()`, `t in s` on strings
    and `list.index(x)`. */
module Text {

  /** Python's `str.isspace()` on one character: the characters that `split()` and
      `strip()` (both without arguments) treat as whitespace. */
  predicate IsSpace(c: char) {
    var n := c as int;
    (9 <= n <= 13) || (28 <= n <= 32) || n == 0x85 || n == 0xA0 || n == 0x1680
    || (0x2000 <= n <= 0x200A) || n == 0x2028 || n == 0x2029 || n == 0x202F
    || n == 0x205F || n == 0x3000
  }

  /** A word as `str.split()` produces it: non-empty, with no whitespace in it. */
  predicate IsWord(w: string) {
    w != [] && forall i :: 0 <= i < |w| ==> !IsSpace(w[i])
  }

  /** Length of the run of non-whitespace characters at the start of `s`. */
  function WordLength(s: string): (k: nat)
    ensures k <= |s|
    ensures forall i :: 0 <= i < k ==> !IsSpace(s[i])
    ensures k < |s| ==> IsSpace(s[k])
  {
    if s == [] || IsSpace(s[0]) then 0 else 1 + WordLength(s[1..])
  }

  /** `s.split()`: the maximal runs of non-whitespace characters of `s`, in order. */
  function Words(s: string): (ws: seq<string>)
    ensures forall w :: w in ws ==> IsWord(w)
    decreases |s|
  {
    if s == [] then []
    else if IsSpace(s[0]) then Words(s[1..])
    else
      var k := WordLength(s);
      [s[..k]] + Words(s[k..])
  }

  /** A word splits to itself, and the empty string to no words. */
  lemma WordsOfWord(w: string)
    requires IsWord(w)
    ensures Words(w) == [w]
    ensures Words([]) == []
  {
    assert WordLength(w) == |w|;
    assert w[..|w|] == w && w[|w|..] == [];
  }

  /** A whitespace character separates: the words of `a`, a whitespace character and
      `b` are the words of `a` followed by the words of `b`. With `WordsOfWord` this
      determines `split()` on every string. */
  lemma {:induction false} WordsSplitAt(a: string, c: char, b: string)
    requires IsSpace(c)
    ensures Words(a + [c] + b) == Words(a) + Words(b)
    decreases |a|
  {
    var s := a + [c] + b;
    if a == [] {
      assert s[1..] == b;
    } else if IsSpace(a[0]) {
      assert s[1..] == a[1..] + [c] + b;
      WordsSplitAt(a[1..], c, b);
    } else {
      var k := WordLength(a);
      assert s[k] == (if k < |a| then a[k] else c);
      assert WordLength(s) == k;
      assert s[..k] == a[..k];
      if k == |a| {
        assert s[k..] == [c] + b && ([c] + b)[1..] == b;
        assert a[k..] == [];
      } else {
        assert s[k..] == a[k..] + [c] + b;
        WordsSplitAt(a[k..], c, b);
      }
    }
  }

  /** `t in s` on two strings: `t` occurs in `s` as a contiguous substring. */
  predicate Contains(s: string, t: string)
    decreases |s|
  {
    |t| <= |s| && (s[..|t|] == t || (|s| > 0 && Contains(s[1..], t)))
  }

  lemma {:induction false} ContainsInSuffix(s: string, k: nat, t: string)
    requires k <= |s|
    requires Contains(s[k..], t)
    ensures Contains(s, t)
    decreases k
  {
    if k > 0 {
      assert s[1..][k - 1..] == s[k..];
      ContainsInSuffix(s[1..], k - 1, t);
    }
  }

  /** Every word that `split()` returns occurs in the string as a substring, so the
      word test `"of" in s.split()` implies the substring test `"of" in s`. */
  lemma {:induction false} WordsOccur(s: string, w: string)
    requires w in Words(s)
    ensures Contains(s, w)
    decreases |s|
  {
    if IsSpace(s[0]) {
      WordsOccur(s[1..], w);
      ContainsInSuffix(s, 1, w);
    } else {
      var k := WordLength(s);
      if w == s[..k] {
        assert s[..|w|] == w;
      } else {
        WordsOccur(s[k..], w);
        ContainsInSuffix(s, k, w);
      }
    }
  }

  /** `s.index(x)`: the position of the first occurrence of `x` in `s`. */
  function IndexOf<T(==)>(s: seq<T>, x: T): (k: nat)
    requires x in s
    ensures k < |s| && s[k] == x
    ensures forall i :: 0 <= i < k ==> s[i] != x
  {
    if s[0] == x then 0 else 1 + IndexOf(s[1..], x)
  }

  /** Appending an element leaves the first index of every earlier value unchanged,
      and a value seen for the first time is found at the end. */
  lemma IndexOfAppend<T>(s: seq<T>, x: T, y: T)
    requires y in s + [x]
    ensures y in s ==> IndexOf(s + [x], y) == IndexOf(s, y)
    ensures y !in s ==> IndexOf(s + [x], y) == |s|
  {
    var k, m := IndexOf(s + [x], y), (if y in s then IndexOf(s, y) else |s|);
    assert (s + [x])[m] == y;
  }

  /** Number of leading whitespace characters. */
  function LeadingSpaces(s: string): (k: nat)
    ensures k <= |s|
    ensures forall i :: 0 <= i < k ==> IsSpace(s[i])
    ensures k < |s| ==> !IsSpace(s[k])
  {
    if s != [] && IsSpace(s[0]) then 1 + LeadingSpaces(s[1..]) else 0
  }

  /** Number of trailing whitespace characters. */
  function TrailingSpaces(s: string): (k: nat)
    ensures k <= |s|
    ensures forall i :: |s| - k <= i < |s| ==> IsSpace(s[i])
    ensures k < |s| ==> !IsSpace(s[|s| - 1 - k])
  {
    if s != [] && IsSpace(s[|s| - 1]) then 1 + TrailingSpaces(s[..|s| - 1]) else 0
  }

  /** `s.strip()`: `s` without its leading and trailing whitespace. */
  function Strip(s: string): (r: string)
    ensures r == [] || (!IsSpace(r[0]) && !IsSpace(r[|r| - 1]))
    ensures LeadingSpaces(s) + |r| <= |s|
    ensures r == s[LeadingSpaces(s)..LeadingSpaces(s) + |r|]
    ensures forall i :: 0 <= i < |s| && !(LeadingSpaces(s) <= i < LeadingSpaces(s) + |r|) ==> IsSpace(s[i])
  {
    var a := LeadingSpaces(s);
    var t := s[a..];
    var b := TrailingSpaces(t);
    assert forall i :: a + |t| - b <= i < |s| ==> s[i] == t[i - a];
    t[..|t| - b]
  }

  /** Position of the first `sep` in `s`, or `|s|` when there is none. */
  function SepIndex(s: string, sep: char): (k: nat)
    ensures k <= |s|
    ensures sep !in s[..k]
    ensures k < |s| ==> s[k] == sep
  {
    if s == [] then 0
    else if s[0] == sep then 0
    else
      var k := 1 + SepIndex(s[1..], sep);
      assert s[..k] == [s[0]] + s[1..][..k - 1];
      k
  }

  /** `s.split(sep)`: the pieces of `s` between occurrences of `sep` (empty pieces
      included; there is always at least one piece). */
  function SplitOn(s: string, sep: char): (ps: seq<string>)
    ensures |ps| >= 1
    ensures forall p :: p in ps ==> sep !in p
    decreases |s|
  {
    var k := SepIndex(s, sep);
    if k == |s| then [s] else [s[..k]] + SplitOn(s[k + 1..], sep)
  }

  /** `sep.join(ps)`. */
  function Join(ps: seq<string>, sep: char): string
    requires |ps| >= 1
  {
    if |ps| == 1 then ps[0] else ps[0] + [sep] + Join(ps[1..], sep)
  }

  /** `' '.join(ws).split() == ws` for a list of words. */
  lemma {:induction false} WordsJoin(ws: seq<string>)
    requires |ws| >= 1
    requires forall w :: w in ws ==> IsWord(w)
    ensures Words(Join(ws, ' ')) == ws
  {
    assert ws[0] in ws;
    WordsOfWord(ws[0]);
    if |ws| > 1 {
      assert forall w :: w in ws[1..] ==> w in ws;
      WordsJoin(ws[1..]);
      WordsSplitAt(ws[0], ' ', Join(ws[1..], ' '));
      assert ws == [ws[0]] + ws[1..];
    }
  }

  /** Joining the pieces of a split gives back the string. */
  lemma {:induction false} JoinSplitOn(s: string, sep: char)
    ensures Join(SplitOn(s, sep), sep) == s
    decreases |s|
  {
    var k := SepIndex(s, sep);
    if k < |s| {
      JoinSplitOn(s[k + 1..], sep);
      assert s == s[..k] + [sep] + s[k + 1..];
    }
  }

  /** A separator-free piece followed by the separator splits off as the first piece. */
  lemma {:induction false} SplitOnFirst(a: string, sep: char, b: string)
    requires sep !in a
    ensures SplitOn(a + [sep] + b, sep) == [a] + SplitOn(b, sep)
  {
    var s := a + [sep] + b;
    SepIndexAfter(a, sep, b);
    assert s[..|a|] == a && s[|a| + 1..] == b;
  }

  /** The first separator after a separator-free piece is right after it. */
  lemma {:induction false} SepIndexAfter(a: string, sep: char, b: string)
    requires sep !in a
    ensures SepIndex(a + [sep] + b, sep) == |a|
    decreases |a|
  {
    if a != [] {
      assert a[0] in a;
      assert (a + [sep] + b)[1..] == a[1..] + [sep] + b;
      assert forall x :: x in a[1..] ==> x in a;
      SepIndexAfter(a[1..], sep, b);
    }
  }

  /** Splitting a join of separator-free pieces gives back the pieces. */
  lemma {:induction false} SplitOnJoin(ps: seq<string>, sep: char)
    requires |ps| >= 1
    requires forall p :: p in ps ==> sep !in p
    ensures SplitOn(Join(ps, sep), sep) == ps
  {
    assert ps[0] in ps;
    if |ps| == 1 {
      assert SepIndex(ps[0], sep) == |ps[0]|;
    } else {
      assert forall p :: p in ps[1..] ==> p in ps;
      SplitOnJoin(ps[1..], sep);
      SplitOnFirst(ps[0], sep, Join(ps[1..], sep));
      assert ps == [ps[0]] + ps[1..];
    }
  }
}
