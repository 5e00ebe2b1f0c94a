/**
 * Python's ordering of `str` values (code point by code point, a proper prefix
 * first) and `sorted()` over a list of strings.
 */
module StrOrder {
  import opened Base

  /** `a < b` on Python strings. */
  predicate Below(a: string, b: string)
    decreases |a|
  {
    |b| > 0 && (|a| == 0 || a[0] < b[0] || (a[0] == b[0] && Below(a[1..], b[1..])))
  }

  lemma {:induction false} BelowIrreflexive(a: string)
    ensures !Below(a, a)
    decreases |a|
  {
    if |a| > 0 {
      BelowIrreflexive(a[1..]);
    }
  }

  lemma {:induction false} BelowTransitive(a: string, b: string, c: string)
    requires Below(a, b) && Below(b, c)
    ensures Below(a, c)
    decreases |a|
  {
    if |a| > 0 && a[0] == b[0] && b[0] == c[0] {
      BelowTransitive(a[1..], b[1..], c[1..]);
    }
  }

  /** Two different strings are ordered one way or the other. */
  lemma {:induction false} BelowTotal(a: string, b: string)
    requires a != b
    ensures Below(a, b) || Below(b, a)
    decreases |a|
  {
    if |a| > 0 && |b| > 0 && a[0] == b[0] {
      assert a == [a[0]] + a[1..] && b == [b[0]] + b[1..];
      BelowTotal(a[1..], b[1..]);
    }
  }

  lemma {:induction false} BelowAsymmetric(a: string, b: string)
    requires Below(a, b)
    ensures !Below(b, a)
    decreases |a|
  {
    if |a| > 0 && a[0] == b[0] {
      BelowAsymmetric(a[1..], b[1..]);
    }
  }

  /** Every element is no greater than every later one. */
  predicate Sorted(s: seq<string>)
  {
    forall i, j :: 0 <= i < j < |s| ==> !Below(s[j], s[i])
  }

  /** `x` put before the first element above it. */
  function Insert(x: string, s: seq<string>): (r: seq<string>)
    ensures multiset(r) == multiset(s) + multiset{x}
    decreases |s|
  {
    if |s| == 0 then [x]
    else if !Below(s[0], x) then [x] + s
    else
      assert s == [s[0]] + s[1..];
      [s[0]] + Insert(x, s[1..])
  }

  lemma {:induction false} InsertSorted(x: string, s: seq<string>)
    requires Sorted(s)
    ensures Sorted(Insert(x, s))
    decreases |s|
  {
    if |s| == 0 {
    } else if !Below(s[0], x) {
      var r := [x] + s;
      forall i, j | 0 <= i < j < |r| ensures !Below(r[j], r[i]) {
        if i == 0 {
          if Below(r[j], x) {
            assert !Below(s[j - 1], s[0]);
            if s[j - 1] == s[0] {
            } else {
              BelowTotal(s[j - 1], s[0]);
              BelowTransitive(s[0], s[j - 1], x);
            }
          }
        }
      }
    } else {
      var tail := Insert(x, s[1..]);
      InsertSorted(x, s[1..]);
      var r := [s[0]] + tail;
      forall j | 0 <= j < |tail| ensures !Below(tail[j], s[0]) {
        assert tail[j] in multiset(tail);
        assert tail[j] in multiset(s[1..]) || tail[j] == x;
        if tail[j] == x {
          BelowAsymmetric(s[0], x);
        } else {
          var k :| 0 <= k < |s[1..]| && s[1..][k] == tail[j];
          assert s[k + 1] == tail[j];
        }
      }
      forall i, j | 0 <= i < j < |r| ensures !Below(r[j], r[i]) {
        if i == 0 {
          assert r[j] == tail[j - 1];
        } else {
          assert r[i] == tail[i - 1] && r[j] == tail[j - 1];
        }
      }
    }
  }

  /** `sorted(s)` */
  function Sort(s: seq<string>): (r: seq<string>)
    ensures multiset(r) == multiset(s)
    decreases |s|
  {
    if |s| == 0 then []
    else
      assert s == s[..|s| - 1] + [s[|s| - 1]];
      Insert(s[|s| - 1], Sort(s[..|s| - 1]))
  }

  /** `sorted` returns its input's elements in order. */
  lemma {:induction false} SortSorted(s: seq<string>)
    ensures Sorted(Sort(s))
    decreases |s|
  {
    if |s| > 0 {
      SortSorted(s[..|s| - 1]);
      InsertSorted(s[|s| - 1], Sort(s[..|s| - 1]));
    }
  }

  /** Sorting keeps exactly the elements, each as often as before. */
  lemma SortSameElements(s: seq<string>, x: string)
    ensures x in Sort(s) <==> x in s
  {
    assert x in multiset(Sort(s)) <==> x in multiset(s);
  }

  /** Lists sorted the same way with the same elements start alike. */
  lemma SortedSameHead(a: seq<string>, b: seq<string>)
    requires Sorted(a) && Sorted(b) && multiset(a) == multiset(b) && |a| > 0
    ensures |b| > 0 && a[0] == b[0]
  {
    assert a[0] in multiset(b);
    var i :| 0 <= i < |b| && b[i] == a[0];
    assert b[0] in multiset(a);
    var j :| 0 <= j < |a| && a[j] == b[0];
    BelowIrreflexive(a[0]);
    BelowIrreflexive(b[0]);
    assert !Below(a[0], b[0]) by {
      if i > 0 {
        assert !Below(b[i], b[0]);
      }
    }
    assert !Below(b[0], a[0]) by {
      if j > 0 {
        assert !Below(a[j], a[0]);
      }
    }
    BelowTrichotomy(a[0], b[0]);
  }

  lemma BelowTrichotomy(a: string, b: string)
    ensures a == b || Below(a, b) || Below(b, a)
  {
    if a != b {
      BelowTotal(a, b);
    }
  }

  /** Sorted lists of the same elements are equal, so `sorted` does not depend on the input order. */
  lemma {:induction false} SortedUnique(a: seq<string>, b: seq<string>)
    requires Sorted(a) && Sorted(b) && multiset(a) == multiset(b)
    ensures a == b
    decreases |a|
  {
    if |a| > 0 {
      SortedSameHead(a, b);
      assert a == [a[0]] + a[1..] && b == [b[0]] + b[1..];
      assert multiset(a[1..]) == multiset(a) - multiset{a[0]};
      assert multiset(b[1..]) == multiset(b) - multiset{b[0]};
      SortedUnique(a[1..], b[1..]);
    } else {
      assert |multiset(b)| == 0;
    }
  }

  /** `sorted(set(vs))`: the different values, each once, in order. */
  function SortedDistinct(vs: seq<string>): seq<string>
  {
    Sort(FirstSeen(vs))
  }

  lemma SortedDistinctSpec(vs: seq<string>)
    ensures Sorted(SortedDistinct(vs)) && Distinct(SortedDistinct(vs))
    ensures forall v :: v in SortedDistinct(vs) <==> v in vs
  {
    var fs := FirstSeen(vs);
    SortSorted(fs);
    DistinctPermutation(fs, Sort(fs));
    forall v ensures v in SortedDistinct(vs) <==> v in vs {
      SortSameElements(fs, v);
    }
  }

  /** A rearrangement of a list without repeats has no repeats. */
  lemma DistinctPermutation(s: seq<string>, t: seq<string>)
    requires Distinct(s) && multiset(s) == multiset(t)
    ensures Distinct(t)
  {
    forall i, j | 0 <= i < j < |t| ensures t[i] != t[j] {
      if t[i] == t[j] {
        var x := t[i];
        assert t == t[..j] + [t[j]] + t[j + 1..];
        assert x in multiset(t[..j]) by { assert t[..j][i] == x; }
        assert multiset(t)[x] >= 2;
        DistinctCount(s, x);
      }
    }
  }

  lemma {:induction false} DistinctCount(s: seq<string>, x: string)
    requires Distinct(s)
    ensures multiset(s)[x] <= 1
    decreases |s|
  {
    if |s| > 0 {
      var init := s[..|s| - 1];
      assert s == init + [s[|s| - 1]];
      DistinctCount(init, x);
      if s[|s| - 1] == x {
        assert x !in init;
      }
    }
  }
}
