/**
 * The few Python `str` and list built-ins that the charm's pure helpers use:
 * `sorted` on a list of strings, `", ".join`, `str.replace(old, '')` and
 * `str.strip(chars)` with a single character.
 */
module PyStr {

  /** Python's `<=` on `str`: lexicographic by code point. */
  predicate LexLe(a: string, b: string)
  {
    a == [] || (b != [] && (a[0] < b[0] || (a[0] == b[0] && LexLe(a[1..], b[1..]))))
  }

  lemma {:induction false} LexLeTotal(a: string, b: string)
    ensures LexLe(a, b) || LexLe(b, a)
  {
    if a != [] && b != [] && a[0] == b[0] {
      LexLeTotal(a[1..], b[1..]);
    }
  }

  lemma {:induction false} LexLeReflexive(a: string)
    ensures LexLe(a, a)
  {
    if a != [] { LexLeReflexive(a[1..]); }
  }

  lemma {:induction false} LexLeTransitive(a: string, b: string, c: string)
    requires LexLe(a, b) && LexLe(b, c)
    ensures LexLe(a, c)
  {
    if a != [] && b != [] && c != [] && a[0] == b[0] == c[0] {
      LexLeTransitive(a[1..], b[1..], c[1..]);
    }
  }

  lemma {:induction false} LexLeAntisymmetric(a: string, b: string)
    requires LexLe(a, b) && LexLe(b, a)
    ensures a == b
  {
    if a != [] && b != [] {
      LexLeAntisymmetric(a[1..], b[1..]);
      assert a == [a[0]] + a[1..] && b == [b[0]] + b[1..];
    }
  }

  ghost predicate Sorted(s: seq<string>)
  {
    forall i, j :: 0 <= i < j < |s| ==> LexLe(s[i], s[j])
  }

  /** Inserts `x` into an ascending list, before the first element above it. */
  function Insert(x: string, s: seq<string>): (r: seq<string>)
    requires Sorted(s)
    ensures Sorted(r)
    ensures multiset(r) == multiset(s) + multiset{x}
    ensures |r| == |s| + 1
    ensures r[0] == x || (s != [] && r[0] == s[0])
  {
    if s == [] then [x]
    else if LexLe(x, s[0]) then
      assert Sorted([x] + s) by {
        forall i, j | 0 <= i < j < |[x] + s| ensures LexLe(([x] + s)[i], ([x] + s)[j]) {
          if i == 0 && j > 1 { LexLeTransitive(x, s[0], s[j - 1]); }
        }
      }
      [x] + s
    else
      var t := Insert(x, s[1..]);
      LexLeTotal(x, s[0]);
      assert Sorted([s[0]] + t) by {
        forall i, j | 0 <= i < j < |[s[0]] + t| ensures LexLe(([s[0]] + t)[i], ([s[0]] + t)[j]) {
          if i == 0 {
            assert t[0] == x || t[0] == s[1];
            if j > 1 { LexLeTransitive(s[0], t[0], t[j - 1]); }
          }
        }
      }
      assert s == [s[0]] + s[1..];
      [s[0]] + t
  }

  /** Python `sorted(xs)` for a list of strings. */
  function SortStrings(xs: seq<string>): (r: seq<string>)
    ensures Sorted(r)
    ensures multiset(r) == multiset(xs)
  {
    if xs == [] then []
    else
      assert xs == [xs[0]] + xs[1..];
      Insert(xs[0], SortStrings(xs[1..]))
  }

  /** Two ascending lists holding the same strings are the same list: `sorted` has one answer. */
  lemma {:induction false} SortedUnique(a: seq<string>, b: seq<string>)
    requires Sorted(a) && Sorted(b) && multiset(a) == multiset(b)
    ensures a == b
    decreases |a|
  {
    if a != [] {
      assert b != [] by { assert |multiset(b)| == |multiset(a)| == |a|; }
      assert a[0] == b[0] by {
        assert a[0] in multiset(b) by { assert a[0] in multiset(a); }
        assert b[0] in multiset(a) by { assert b[0] in multiset(b); }
        SortedHeadLe(b, a[0]);
        SortedHeadLe(a, b[0]);
        LexLeAntisymmetric(a[0], b[0]);
      }
      assert a[1..] == b[1..] by {
        MultisetTail(a);
        MultisetTail(b);
        SortedTail(a);
        SortedTail(b);
        SortedUnique(a[1..], b[1..]);
      }
      assert a == [a[0]] + a[1..] && b == [b[0]] + b[1..];
    }
  }

  /** The head of an ascending list is below every element of it. */
  lemma SortedHeadLe(a: seq<string>, x: string)
    requires Sorted(a) && x in a
    ensures LexLe(a[0], x)
  {
    var i :| 0 <= i < |a| && a[i] == x;
    if i == 0 {
      LexLeReflexive(x);
    }
  }

  lemma SortedTail(a: seq<string>)
    requires Sorted(a) && a != []
    ensures Sorted(a[1..])
  {
    forall i, j | 0 <= i < j < |a[1..]| ensures LexLe(a[1..][i], a[1..][j]) {
      assert a[1..][i] == a[i + 1] && a[1..][j] == a[j + 1];
    }
  }

  lemma MultisetTail(a: seq<string>)
    requires a != []
    ensures multiset(a[1..]) == multiset(a) - multiset{a[0]}
  {
    assert a == [a[0]] + a[1..];
  }

  /** Python `sep.join(xs)`. */
  function Join(xs: seq<string>, sep: string): (r: string)
    ensures |xs| == 1 ==> r == xs[0]
  {
    if xs == [] then ""
    else if |xs| == 1 then xs[0]
    else xs[0] + sep + Join(xs[1..], sep)
  }

  /** `pat` occurs somewhere in `s`. */
  ghost predicate Occurs(s: string, pat: string)
  {
    exists i :: OccursAt(s, pat, i)
  }

  ghost predicate OccursAt(s: string, pat: string, i: int)
  {
    0 <= i && i + |pat| <= |s| && s[i..i + |pat|] == pat
  }

  /**
   * Python `s.replace(pat, '')`: every non-overlapping occurrence of `pat`,
   * found left to right, is deleted (not only a leading one).
   */
  function RemoveAll(s: string, pat: string): (r: string)
    requires pat != []
    ensures |r| <= |s|
    ensures !Occurs(s, pat) ==> r == s
    decreases |s|
  {
    if |s| < |pat| then s
    else if s[..|pat|] == pat then
      assert OccursAt(s, pat, 0);
      RemoveAll(s[|pat|..], pat)
    else
      var t := RemoveAll(s[1..], pat);
      assert !Occurs(s, pat) ==> !Occurs(s[1..], pat) by {
        if Occurs(s[1..], pat) {
          var i :| OccursAt(s[1..], pat, i);
          assert s[i + 1..i + 1 + |pat|] == s[1..][i..i + |pat|];
          assert OccursAt(s, pat, i + 1);
        }
      }
      assert !Occurs(s, pat) ==> t == s[1..];
      assert s == [s[0]] + s[1..];
      [s[0]] + t
  }

  /**
   * The first occurrence of `pat` is deleted wherever it sits: a prefix `x`
   * in which no occurrence starts is kept, and the scan resumes right after
   * the deleted occurrence.
   */
  lemma {:induction false} RemoveAllFirstOccurrence(x: string, pat: string, y: string)
    requires pat != [] && forall i :: 0 <= i < |x| ==> !OccursAt(x + pat + y, pat, i)
    ensures RemoveAll(x + pat + y, pat) == x + RemoveAll(y, pat)
    decreases |x|
  {
    if x == [] {
      assert x + pat + y == pat + y;
      RemoveAllLeading(pat, y);
    } else {
      var s, s', r := x + pat + y, x[1..] + pat + y, RemoveAll(y, pat);
      assert RemoveAll(s, pat) == [x[0]] + RemoveAll(s', pat) by {
        NoOccurrenceShifts(x, pat, y);
        RemoveAllKeepsHead(s, pat);
      }
      assert RemoveAll(s', pat) == x[1..] + r by {
        NoOccurrenceShifts(x, pat, y);
        RemoveAllFirstOccurrence(x[1..], pat, y);
      }
      assert [x[0]] + (x[1..] + r) == x + r;
    }
  }

  /** An occurrence at the very start is deleted and the scan resumes after it. */
  lemma RemoveAllLeading(pat: string, y: string)
    requires pat != []
    ensures RemoveAll(pat + y, pat) == RemoveAll(y, pat)
  {
    assert (pat + y)[..|pat|] == pat && (pat + y)[|pat|..] == y;
  }

  /** A string whose head starts no occurrence keeps its head. */
  lemma RemoveAllKeepsHead(s: string, pat: string)
    requires pat != [] && |pat| <= |s| && !OccursAt(s, pat, 0)
    ensures RemoveAll(s, pat) == [s[0]] + RemoveAll(s[1..], pat)
  {
  }

  /** Dropping the head of `x` keeps the prefix free of occurrence starts. */
  lemma NoOccurrenceShifts(x: string, pat: string, y: string)
    requires x != [] && forall i :: 0 <= i < |x| ==> !OccursAt(x + pat + y, pat, i)
    ensures (x + pat + y)[0] == x[0] && (x + pat + y)[1..] == x[1..] + pat + y
    ensures !OccursAt(x + pat + y, pat, 0)
    ensures forall i :: 0 <= i < |x[1..]| ==> !OccursAt(x[1..] + pat + y, pat, i)
  {
    var s, s' := x + pat + y, x[1..] + pat + y;
    assert s[1..] == s';
    forall i | 0 <= i < |x[1..]|
      ensures !OccursAt(s', pat, i)
    {
      assert s[i + 1..i + 1 + |pat|] == s'[i..i + |pat|];
      assert !OccursAt(s, pat, i + 1);
    }
  }

  /** Python `s.lstrip(c)`: the longest suffix of `s` not starting with `c`. */
  function StripLeft(s: string, c: char): (r: string)
    ensures |r| <= |s| && r == s[|s| - |r|..]
    ensures forall i :: 0 <= i < |s| - |r| ==> s[i] == c
    ensures r == [] || r[0] != c
  {
    if s != [] && s[0] == c then StripLeft(s[1..], c) else s
  }

  /** Python `s.rstrip(c)`: the longest prefix of `s` not ending with `c`. */
  function StripRight(s: string, c: char): (r: string)
    ensures |r| <= |s| && r == s[..|r|]
    ensures forall i :: |r| <= i < |s| ==> s[i] == c
    ensures r == [] || r[|r| - 1] != c
  {
    if s != [] && s[|s| - 1] == c then StripRight(s[..|s| - 1], c) else s
  }

  /**
   * Python `s.strip(c)`: `s` is `c`s, then `r`, then `c`s, and `r` neither
   * starts nor ends with `c`.
   */
  function Strip(s: string, c: char): (r: string)
    ensures r == [] || (r[0] != c && r[|r| - 1] != c)
    ensures exists lo :: Padded(s, r, c, lo)
  {
    var l := StripLeft(s, c);
    var r := StripRight(l, c);
    var lo := |s| - |l|;
    assert l == s[lo..] && r == l[..|r|];
    assert s[lo..lo + |r|] == r;
    forall i | lo + |r| <= i < |s| ensures s[i] == c {
      assert s[i] == l[i - lo];
    }
    assert Padded(s, r, c, lo);
    r
  }

  /** `s` is `lo` copies of `c`, then `r`, then only copies of `c`. */
  ghost predicate Padded(s: string, r: string, c: char, lo: int)
  {
    0 <= lo && lo + |r| <= |s| && s[lo..lo + |r|] == r
    && (forall i :: 0 <= i < lo ==> s[i] == c)
    && (forall i :: lo + |r| <= i < |s| ==> s[i] == c)
  }
}
