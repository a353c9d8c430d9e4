/** `Array.prototype.sort()` on strings, as an insertion sort over sequences. */
module Sorting {
  import opened Strings
  import opened Records

  predicate LessEq(a: string, b: string)
  {
    a == b || Less(a, b)
  }

  predicate Sorted(s: seq<string>)
  {
    forall i, j | 0 <= i < j < |s| :: LessEq(s[i], s[j])
  }

  predicate StrictlySorted(s: seq<string>)
  {
    forall i, j | 0 <= i < j < |s| :: Less(s[i], s[j])
  }

  function Insert(x: string, s: seq<string>): (r: seq<string>)
    requires Sorted(s)
    ensures Sorted(r)
    ensures multiset(r) == multiset(s) + multiset{x}
  {
    if s == [] then [x]
    else if Less(s[0], x) then
      var t := Insert(x, s[1..]);
      assert s == [s[0]] + s[1..];
      BoundBelowKept(s[0], s[1..], x, t);
      [s[0]] + t
    else
      LessTotal(s[0], x);
      assert forall k | 0 <= k < |s| :: LessEq(x, s[k]) by {
        forall k | 0 <= k < |s| ensures LessEq(x, s[k]) {
          if k > 0 && x != s[0] && s[0] != s[k] { LessTransitive(x, s[0], s[k]); }
        }
      }
      assert ([x] + s)[1..] == s;
      [x] + s
  }

  /** A lower bound of `s` and of `x` is a lower bound of any rearrangement of `s` with `x` added. */
  lemma BoundBelowKept(y: string, s: seq<string>, x: string, t: seq<string>)
    requires forall k | 0 <= k < |s| :: LessEq(y, s[k])
    requires LessEq(y, x) && multiset(t) == multiset(s) + multiset{x}
    ensures forall k | 0 <= k < |t| :: LessEq(y, t[k])
  {
    forall k | 0 <= k < |t| ensures LessEq(y, t[k]) {
      assert t[k] in multiset(t);
      if t[k] != x {
        assert t[k] in multiset(s);
        var m :| 0 <= m < |s| && s[m] == t[k];
      }
    }
  }

  /** The sorted copy of `s`: ordered and holding the same strings as often. */
  function Sort(s: seq<string>): (r: seq<string>)
    ensures Sorted(r)
    ensures multiset(r) == multiset(s)
  {
    if s == [] then []
    else
      assert s == [s[0]] + s[1..];
      Insert(s[0], Sort(s[1..]))
  }

  lemma SortedDistinctIsStrict(s: seq<string>)
    requires Sorted(s) && Distinct(s)
    ensures StrictlySorted(s)
  {
  }

  lemma {:induction false} DistinctCountsOne(a: seq<string>, x: string)
    requires Distinct(a)
    ensures multiset(a)[x] <= 1
  {
    if a != [] {
      assert a == [a[0]] + a[1..];
      DistinctCountsOne(a[1..], x);
      assert a[0] == x ==> x !in a[1..];
    }
  }

  lemma DistinctByMultiset(a: seq<string>, b: seq<string>)
    requires Distinct(a) && multiset(a) == multiset(b)
    ensures Distinct(b)
  {
    forall i, j | 0 <= i < j < |b| ensures b[i] != b[j] {
      assert b == b[..j] + [b[j]] + b[j + 1..];
      assert b[i] in b[..j];
      assert multiset(b)[b[i]] >= 1 + (if b[j] == b[i] then 1 else 0);
      DistinctCountsOne(a, b[i]);
    }
  }

  /** Two strictly ordered sequences with the same elements are the same sequence. */
  lemma {:induction false} StrictlySortedUnique(a: seq<string>, b: seq<string>)
    requires StrictlySorted(a) && StrictlySorted(b)
    requires forall x :: x in a <==> x in b
    ensures a == b
  {
    if a != [] && b != [] {
      assert a[0] in b;
      assert b[0] in a;
      if a[0] != b[0] {
        var i :| 0 <= i < |b| && b[i] == a[0];
        var j :| 0 <= j < |a| && a[j] == b[0];
        assert Less(b[0], a[0]);
        assert Less(a[0], b[0]);
        LessAsymmetric(a[0], b[0]);
      }
      forall x ensures x in a[1..] <==> x in b[1..] {
        if x in a[1..] {
          var i :| 1 <= i < |a| && a[i] == x;
          LessIrreflexive(a[0]);
          assert x != a[0];
          assert x in b;
        }
        if x in b[1..] {
          var i :| 1 <= i < |b| && b[i] == x;
          LessIrreflexive(b[0]);
          assert x != b[0];
          assert x in a;
        }
      }
      StrictlySortedUnique(a[1..], b[1..]);
      assert a == [a[0]] + a[1..];
      assert b == [b[0]] + b[1..];
    } else {
      SameElementsBothEmpty(a, b);
    }
  }

  lemma SameElementsBothEmpty(a: seq<string>, b: seq<string>)
    requires forall x :: x in a <==> x in b
    ensures a == [] <==> b == []
  {
    if a != [] { assert a[0] in b; }
    if b != [] { assert b[0] in a; }
  }

  /** Sorting lists of distinct keys depends only on which keys they hold. */
  lemma SortOrderIndependent(a: seq<string>, b: seq<string>)
    requires Distinct(a) && Distinct(b)
    requires forall x :: x in a <==> x in b
    ensures Sort(a) == Sort(b)
  {
    var sa, sb := Sort(a), Sort(b);
    DistinctByMultiset(a, sa);
    DistinctByMultiset(b, sb);
    SortedDistinctIsStrict(sa);
    SortedDistinctIsStrict(sb);
    forall x ensures x in sa <==> x in sb {
      assert x in sa <==> x in multiset(sa);
      assert x in sb <==> x in multiset(sb);
      assert x in a <==> x in multiset(a);
      assert x in b <==> x in multiset(b);
    }
    StrictlySortedUnique(sa, sb);
  }
}
