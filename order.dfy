/**
 * The order Rust gives `String` (`Ord for str`): lexicographic by
 * character, which for UTF-8 text agrees with byte order. Sorting is the
 * standard library's `sort`, specified here as a sorted permutation.
 */
module Order {

  /** `a < b` for strings: the first differing character decides, and a proper prefix comes first. */
  predicate StrLt(a: string, b: string)
    decreases |a|
  {
    if b == [] then false
    else if a == [] then true
    else if a[0] != b[0] then a[0] < b[0]
    else StrLt(a[1..], b[1..])
  }

  predicate StrLe(a: string, b: string) {
    a == b || StrLt(a, b)
  }

  lemma {:induction false} StrLtIrreflexive(a: string)
    ensures !StrLt(a, a)
    decreases |a|
  {
    if a != [] {
      StrLtIrreflexive(a[1..]);
    }
  }

  lemma {:induction false} StrLtTrans(a: string, b: string, c: string)
    requires StrLt(a, b) && StrLt(b, c)
    ensures StrLt(a, c)
    decreases |a|
  {
    if a != [] && a[0] == b[0] && b[0] == c[0] {
      StrLtTrans(a[1..], b[1..], c[1..]);
    }
  }

  lemma {:induction false} StrLtTotal(a: string, b: string)
    ensures a == b || StrLt(a, b) || StrLt(b, a)
    decreases |a|
  {
    if a != [] && b != [] && a[0] == b[0] {
      StrLtTotal(a[1..], b[1..]);
      if a[1..] == b[1..] {
        assert a == [a[0]] + a[1..] && b == [b[0]] + b[1..];
      }
    }
  }

  lemma {:induction false} StrLtAsymmetric(a: string, b: string)
    requires StrLt(a, b)
    ensures !StrLt(b, a)
  {
    if StrLt(b, a) {
      StrLtTrans(a, b, a);
      StrLtIrreflexive(a);
    }
  }

  lemma StrLeTrans(a: string, b: string, c: string)
    requires StrLe(a, b) && StrLe(b, c)
    ensures StrLe(a, c)
  {
    if a != b && b != c {
      StrLtTrans(a, b, c);
    }
  }

  /** Non-decreasing, as `sort` leaves a vector. */
  predicate Sorted(s: seq<string>) {
    forall p, q :: 0 <= p < q < |s| ==> StrLe(s[p], s[q])
  }

  /** Increasing: sorted with no element twice. */
  predicate StrictlySorted(s: seq<string>) {
    forall p, q :: 0 <= p < q < |s| ==> StrLt(s[p], s[q])
  }

  /** Prefixing an element smaller than every member keeps a sequence increasing. */
  lemma StrictlySortedCons(x: string, s: seq<string>)
    requires StrictlySorted(s) && forall y :: y in s ==> StrLt(x, y)
    ensures StrictlySorted([x] + s)
  {
    var r := [x] + s;
    forall p, q | 0 <= p < q < |r|
      ensures StrLt(r[p], r[q])
    {
      if p == 0 {
        assert r[q] == s[q - 1];
      } else {
        assert r[p] == s[p - 1] && r[q] == s[q - 1];
      }
    }
  }

  /** Appending an element greater than the last keeps a sequence increasing. */
  lemma StrictlySortedSnoc(s: seq<string>, x: string)
    requires StrictlySorted(s) && (s == [] || StrLt(s[|s| - 1], x))
    ensures StrictlySorted(s + [x])
  {
    var r := s + [x];
    forall p, q | 0 <= p < q < |r|
      ensures StrLt(r[p], r[q])
    {
      if q == |s| && p < |s| - 1 {
        StrLtTrans(s[p], s[|s| - 1], x);
      }
    }
  }

  /** `x` placed before the first element it does not exceed. */
  function InsertSorted(x: string, s: seq<string>): seq<string> {
    if s == [] then [x]
    else if StrLe(x, s[0]) then [x] + s
    else [s[0]] + InsertSorted(x, s[1..])
  }

  /** Insertion sort: the reference for the standard library's sort on strings. */
  function SortStrings(s: seq<string>): seq<string> {
    if s == [] then [] else InsertSorted(s[0], SortStrings(s[1..]))
  }

  lemma {:induction false} InsertSortedPermutes(x: string, s: seq<string>)
    ensures multiset(InsertSorted(x, s)) == multiset(s) + multiset{x}
  {
    if s != [] && !StrLe(x, s[0]) {
      InsertSortedPermutes(x, s[1..]);
      assert s == [s[0]] + s[1..];
    }
  }

  lemma {:induction false} InsertSortedSorted(x: string, s: seq<string>)
    requires Sorted(s)
    ensures Sorted(InsertSorted(x, s))
  {
    if s == [] {
    } else if StrLe(x, s[0]) {
      var r := [x] + s;
      forall p, q | 0 <= p < q < |r|
        ensures StrLe(r[p], r[q])
      {
        if p == 0 {
          StrLeTrans(x, s[0], s[q - 1]);
        }
      }
    } else {
      StrLtTotal(x, s[0]);
      var t := InsertSorted(x, s[1..]);
      InsertSortedSorted(x, s[1..]);
      InsertSortedPermutes(x, s[1..]);
      var r := [s[0]] + t;
      forall p, q | 0 <= p < q < |r|
        ensures StrLe(r[p], r[q])
      {
        if p == 0 {
          assert r[q] == t[q - 1] && t[q - 1] in multiset(t);
          if r[q] != x {
            assert r[q] in multiset(s[1..]);
            var k :| 0 <= k < |s[1..]| && s[1..][k] == r[q];
            assert s[k + 1] == r[q];
          }
        }
      }
    }
  }

  /** The sort returns its input sorted, with every element kept as often as it occurred. */
  lemma {:induction false} SortStringsSpec(s: seq<string>)
    ensures Sorted(SortStrings(s))
    ensures multiset(SortStrings(s)) == multiset(s)
  {
    if s != [] {
      SortStringsSpec(s[1..]);
      InsertSortedSorted(s[0], SortStrings(s[1..]));
      InsertSortedPermutes(s[0], SortStrings(s[1..]));
      assert s == [s[0]] + s[1..];
    }
  }

  lemma HeadIn(s: seq<string>)
    requires s != []
    ensures s[0] in s
  {
  }

  /** Two increasing sequences with the same elements are equal: the sorted, de-duplicated form is unique. */
  lemma {:induction false} StrictlySortedUnique(a: seq<string>, b: seq<string>)
    requires StrictlySorted(a) && StrictlySorted(b)
    requires forall x :: x in a <==> x in b
    ensures a == b
    decreases |a|
  {
    if a == [] {
      if b != [] {
        HeadIn(b);
        assert false;
      }
    } else {
      assert a[0] in b;
      assert b != [];
      assert b[0] in a;
      var k :| 0 <= k < |b| && b[k] == a[0];
      var j :| 0 <= j < |a| && a[j] == b[0];
      if k > 0 {
        if j > 0 {
          StrLtAsymmetric(a[0], a[j]);
        } else {
          StrLtIrreflexive(b[0]);
        }
        assert false;
      }
      assert a[0] == b[0];
      forall x
        ensures x in a[1..] <==> x in b[1..]
      {
        if x in a[1..] {
          var i :| 1 <= i < |a| && a[i] == x;
          StrLtIrreflexive(x);
          assert x != b[0];
          assert x in b;
        }
        if x in b[1..] {
          var i :| 1 <= i < |b| && b[i] == x;
          StrLtIrreflexive(x);
          assert x != a[0];
          assert x in a;
        }
      }
      StrictlySortedUnique(a[1..], b[1..]);
      assert a == [a[0]] + a[1..] && b == [b[0]] + b[1..];
    }
  }

  /** No element occurs twice, as with the keys of a map. */
  predicate Distinct(s: seq<string>) {
    forall p, q :: 0 <= p < q < |s| ==> s[p] != s[q]
  }

  lemma {:induction false} InsertSortedStrict(x: string, s: seq<string>)
    requires StrictlySorted(s) && x !in s
    ensures StrictlySorted(InsertSorted(x, s))
  {
    if s == [] {
    } else if StrLe(x, s[0]) {
      var r := [x] + s;
      forall p, q | 0 <= p < q < |r|
        ensures StrLt(r[p], r[q])
      {
        if p == 0 && q > 1 {
          StrLtTrans(x, s[0], s[q - 1]);
        }
      }
    } else {
      StrLtTotal(x, s[0]);
      assert x !in s[1..];
      InsertSortedStrict(x, s[1..]);
      InsertSortedPermutes(x, s[1..]);
      var t := InsertSorted(x, s[1..]);
      var r := [s[0]] + t;
      forall p, q | 0 <= p < q < |r|
        ensures StrLt(r[p], r[q])
      {
        if p == 0 {
          assert r[q] == t[q - 1] && t[q - 1] in multiset(t);
          if r[q] != x {
            assert r[q] in multiset(s[1..]);
            var k :| 0 <= k < |s[1..]| && s[1..][k] == r[q];
            assert s[k + 1] == r[q];
          }
        }
      }
    }
  }

  /** Sorting distinct strings gives them in increasing order. */
  lemma {:induction false} SortStringsStrict(s: seq<string>)
    requires Distinct(s)
    ensures StrictlySorted(SortStrings(s))
  {
    if s != [] {
      SortStringsStrict(s[1..]);
      SortStringsSpec(s[1..]);
      assert s[0] !in s[1..];
      assert s[0] !in multiset(SortStrings(s[1..]));
      InsertSortedStrict(s[0], SortStrings(s[1..]));
    }
  }

  /** The sorted order of distinct strings does not depend on the order they came in. */
  lemma SortDistinctCanonical(a: seq<string>, b: seq<string>)
    requires Distinct(a) && Distinct(b)
    requires forall x :: x in a <==> x in b
    ensures SortStrings(a) == SortStrings(b)
  {
    SortStringsStrict(a);
    SortStringsStrict(b);
    forall x
      ensures x in SortStrings(a) <==> x in SortStrings(b)
    {
      SortKeepsMembers(a, x);
      SortKeepsMembers(b, x);
    }
    StrictlySortedUnique(SortStrings(a), SortStrings(b));
  }

  lemma SortKeepsMembers(s: seq<string>, x: string)
    ensures x in SortStrings(s) <==> x in s
  {
    SortStringsSpec(s);
    assert x in SortStrings(s) <==> x in multiset(SortStrings(s));
    assert x in s <==> x in multiset(s);
  }
}
