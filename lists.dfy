/** Python list operations the model relies on, stated once. */
module Lists {

  /** No element occurs twice. */
  ghost predicate NoDuplicates<T>(s: seq<T>)
  {
    forall i, j :: 0 <= i < j < |s| ==> s[i] != s[j]
  }

  /** `list.remove(x)`: drops the first element equal to `x`; a list without `x`
      is returned unchanged (the caller reports the ValueError). */
  function RemoveFirst<T(==)>(s: seq<T>, x: T): (r: seq<T>)
    ensures x !in s ==> r == s
    ensures x in s ==> |r| == |s| - 1
  {
    if s == [] then []
    else if s[0] == x then s[1..]
    else [s[0]] + RemoveFirst(s[1..], x)
  }

  /** `list.remove` takes one copy of `x` out of the list and nothing else. */
  lemma {:induction false} RemoveFirstMultiset<T>(s: seq<T>, x: T)
    ensures multiset(RemoveFirst(s, x)) == multiset(s) - multiset{x}
  {
    if s != [] {
      assert s == [s[0]] + s[1..];
      if s[0] != x {
        RemoveFirstMultiset(s[1..], x);
        assert RemoveFirst(s, x) == [s[0]] + RemoveFirst(s[1..], x);
      }
    }
  }

  /** Index of the first occurrence of `x`. */
  function IndexOf<T(==)>(s: seq<T>, x: T): (k: nat)
    requires x in s
    ensures k < |s| && s[k] == x && x !in s[..k]
  {
    if s[0] == x then 0
    else
      assert s[1..][..IndexOf(s[1..], x)] == s[1..IndexOf(s[1..], x) + 1];
      1 + IndexOf(s[1..], x)
  }

  /** `RemoveFirst` deletes exactly the element at `IndexOf`, as Python's
      `list.remove` does. */
  lemma {:induction false} RemoveFirstAt<T>(s: seq<T>, x: T)
    requires x in s
    ensures RemoveFirst(s, x) == s[..IndexOf(s, x)] + s[IndexOf(s, x) + 1..]
  {
    if s[0] == x {
      assert IndexOf(s, x) == 0;
      assert s[..0] + s[1..] == s[1..];
    } else {
      var t := s[1..];
      var k := IndexOf(t, x);
      assert IndexOf(s, x) == k + 1;
      RemoveFirstAt(t, x);
      assert s[..k + 1] + s[k + 2..] == [s[0]] + (t[..k] + t[k + 1..]) by {
        assert s[..k + 1] == [s[0]] + t[..k];
        assert s[k + 2..] == t[k + 1..];
      }
    }
  }

  /** On a list without duplicates, removing `x` removes it entirely and
      keeps every other element. */
  lemma {:induction false} RemoveFirstNoDuplicates<T>(s: seq<T>, x: T)
    requires NoDuplicates(s)
    ensures NoDuplicates(RemoveFirst(s, x))
    ensures forall y :: y in RemoveFirst(s, x) <==> y in s && y != x
  {
    if s != [] {
      assert NoDuplicates(s[1..]) by {
        forall i, j | 0 <= i < j < |s[1..]| ensures s[1..][i] != s[1..][j] {
          assert s[1..][i] == s[i + 1] && s[1..][j] == s[j + 1];
        }
      }
      assert forall j :: 0 < j < |s| ==> s[0] != s[j];
      assert s[0] !in s[1..];
      if s[0] != x {
        RemoveFirstNoDuplicates(s[1..], x);
        var t := RemoveFirst(s[1..], x);
        assert s[0] !in t;
        forall i, j | 0 <= i < j < |[s[0]] + t| ensures ([s[0]] + t)[i] != ([s[0]] + t)[j] {
          if i > 0 {
            assert ([s[0]] + t)[i] == t[i - 1] && ([s[0]] + t)[j] == t[j - 1];
          } else {
            assert ([s[0]] + t)[j] in t;
          }
        }
      }
    }
  }

  /** The elements of `s` that satisfy `p`, in their original order. */
  function Filter<T>(s: seq<T>, p: T -> bool): (r: seq<T>)
    ensures |r| <= |s|
    ensures forall i :: 0 <= i < |r| ==> r[i] in s && p(r[i])
    ensures forall i :: 0 <= i < |s| && p(s[i]) ==> s[i] in r
  {
    if s == [] then []
    else
      (if p(s[0]) then [s[0]] else []) + Filter(s[1..], p)
  }

  /** `c` is obtained from `a` by deleting elements (same relative order). */
  ghost predicate IsSubsequence<T>(c: seq<T>, a: seq<T>)
    decreases |a|
  {
    c == [] || (a != [] && ((c[0] == a[0] && IsSubsequence(c[1..], a[1..])) || IsSubsequence(c, a[1..])))
  }

  lemma {:induction false} FilterIsSubsequence<T>(s: seq<T>, p: T -> bool)
    ensures IsSubsequence(Filter(s, p), s)
  {
    if s != [] {
      FilterIsSubsequence(s[1..], p);
      var t := Filter(s[1..], p);
      if p(s[0]) {
        assert Filter(s, p) == [s[0]] + t;
        assert ([s[0]] + t)[1..] == t;
      } else {
        assert Filter(s, p) == t;
      }
    }
  }

  /** Every element of a subsequence occurs in the full list. */
  lemma {:induction false} SubsequenceMember<T>(c: seq<T>, a: seq<T>, x: T)
    requires IsSubsequence(c, a)
    ensures x in c ==> x in a
    decreases |a|
  {
    if x in c && c[0] == a[0] && IsSubsequence(c[1..], a[1..]) {
      if x != c[0] {
        assert x in c[1..] by { assert c == [c[0]] + c[1..]; }
        SubsequenceMember(c[1..], a[1..], x);
      }
    } else if x in c {
      SubsequenceMember(c, a[1..], x);
    }
  }

  /** A subsequence of `a` stays one when an element is put in front of `a`,
      and putting the same element in front of both keeps the relation. */
  lemma SubsequenceCons<T>(c: seq<T>, a: seq<T>, x: T)
    requires IsSubsequence(c, a)
    ensures IsSubsequence(c, [x] + a)
    ensures IsSubsequence([x] + c, [x] + a)
  {
    assert ([x] + a)[1..] == a;
    assert ([x] + c)[1..] == c;
  }

  /** Removing an element from the subsequence alone keeps it a subsequence. */
  lemma {:induction false} SubsequenceRemoveLeft<T>(c: seq<T>, a: seq<T>, x: T)
    requires IsSubsequence(c, a)
    ensures IsSubsequence(RemoveFirst(c, x), a)
    decreases |a|
  {
    if c != [] {
      if c[0] == a[0] && IsSubsequence(c[1..], a[1..]) {
        if c[0] == x {
          assert RemoveFirst(c, x) == c[1..];
        } else {
          SubsequenceRemoveLeft(c[1..], a[1..], x);
          var t := RemoveFirst(c[1..], x);
          assert RemoveFirst(c, x) == [c[0]] + t;
          assert ([c[0]] + t)[1..] == t;
        }
      } else {
        SubsequenceRemoveLeft(c, a[1..], x);
      }
    }
  }

  /** Removing the same element from both sides keeps the relation; this is
      the case where the element occurs in the subsequence. */
  lemma {:induction false} SubsequenceRemoveBoth<T>(c: seq<T>, a: seq<T>, x: T)
    requires IsSubsequence(c, a) && x in c
    ensures IsSubsequence(RemoveFirst(c, x), RemoveFirst(a, x))
    decreases |a|
  {
    assert c != [] && a != [];
    if c[0] == a[0] && IsSubsequence(c[1..], a[1..]) {
      if a[0] == x {
        assert RemoveFirst(c, x) == c[1..] && RemoveFirst(a, x) == a[1..];
      } else {
        assert x in c[1..] by { assert c == [c[0]] + c[1..]; }
        SubsequenceRemoveBoth(c[1..], a[1..], x);
        var tc, ta := RemoveFirst(c[1..], x), RemoveFirst(a[1..], x);
        assert RemoveFirst(c, x) == [c[0]] + tc && RemoveFirst(a, x) == [a[0]] + ta;
        SubsequenceCons(tc, ta, a[0]);
      }
    } else {
      assert IsSubsequence(c, a[1..]);
      if a[0] == x {
        assert RemoveFirst(a, x) == a[1..];
        SubsequenceRemoveLeft(c, a[1..], x);
      } else {
        SubsequenceRemoveBoth(c, a[1..], x);
        assert RemoveFirst(a, x) == [a[0]] + RemoveFirst(a[1..], x);
        SubsequenceCons(RemoveFirst(c, x), RemoveFirst(a[1..], x), a[0]);
      }
    }
  }

  /** Removing from the full list an element the subsequence lacks keeps the
      relation. */
  lemma {:induction false} SubsequenceRemoveRight<T>(c: seq<T>, a: seq<T>, x: T)
    requires IsSubsequence(c, a) && x !in c
    ensures IsSubsequence(c, RemoveFirst(a, x))
    decreases |a|
  {
    if c != [] {
      assert a != [];
      if a[0] == x {
        assert c[0] != a[0];
        assert IsSubsequence(c, a[1..]);
        assert RemoveFirst(a, x) == a[1..];
      } else {
        var ta := RemoveFirst(a[1..], x);
        assert RemoveFirst(a, x) == [a[0]] + ta;
        if c[0] == a[0] && IsSubsequence(c[1..], a[1..]) {
          assert x !in c[1..] by { assert c == [c[0]] + c[1..]; }
          SubsequenceRemoveRight(c[1..], a[1..], x);
          SubsequenceCons(c[1..], ta, a[0]);
          assert c == [a[0]] + c[1..];
        } else {
          assert IsSubsequence(c, a[1..]);
          SubsequenceRemoveRight(c, a[1..], x);
          SubsequenceCons(c, ta, a[0]);
        }
      }
    }
  }
}
