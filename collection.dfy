/**
 * The editor's overlay list `window.nomnomOverlays`: appended to when an
 * overlay is added (contentScript.js:471) and filtered by identity when its
 * remove button is clicked (contentScript.js:464).
 */
module Collection {

  /** No element occurs twice. */
  predicate Distinct<T(==)>(s: seq<T>)
  {
    forall i, j | 0 <= i < j < |s| :: s[i] != s[j]
  }

  /** `s.filter(o => o !== x)`: every element except `x`, in the order of `s`. */
  function Without<T(==)>(s: seq<T>, x: T): (r: seq<T>)
    ensures x !in r
    ensures forall i | 0 <= i < |r| :: r[i] in s
    ensures forall i | 0 <= i < |s| && s[i] != x :: s[i] in r
    ensures |r| <= |s|
  {
    if s == [] then []
    else if s[0] == x then Without(s[1..], x)
    else [s[0]] + Without(s[1..], x)
  }

  /** Removing an element that is not in the list changes nothing. */
  lemma {:induction false} WithoutAbsent<T>(s: seq<T>, x: T)
    requires x !in s
    ensures Without(s, x) == s
  {
    if s != [] {
      WithoutAbsent(s[1..], x);
    }
  }

  /** Filtering distributes over concatenation, so the survivors keep their relative order. */
  lemma {:induction false} WithoutAppend<T>(a: seq<T>, b: seq<T>, x: T)
    ensures Without(a + b, x) == Without(a, x) + Without(b, x)
  {
    if a == [] {
      assert a + b == b;
    } else {
      assert (a + b)[0] == a[0] && (a + b)[1..] == a[1..] + b;
      WithoutAppend(a[1..], b, x);
    }
  }

  /** Removing the k-th element of a list without repeats cuts exactly that element out. */
  lemma {:induction false} WithoutAt<T>(s: seq<T>, k: nat)
    requires Distinct(s) && k < |s|
    ensures Without(s, s[k]) == s[..k] + s[k + 1..]
  {
    var x := s[k];
    assert s == s[..k] + ([x] + s[k + 1..]);
    WithoutAppend(s[..k], [x] + s[k + 1..], x);
    WithoutAppend([x], s[k + 1..], x);
    assert Without([x], x) == [] by {
      assert [x][1..] == [];
    }
    assert x !in s[..k] by {
      forall i | 0 <= i < k ensures s[..k][i] != x { assert s[i] != s[k]; }
    }
    assert x !in s[k + 1..] by {
      var tail := s[k + 1..];
      forall i | 0 <= i < |tail| ensures tail[i] != x { assert tail[i] == s[k + 1 + i]; }
    }
    WithoutAbsent(s[..k], x);
    WithoutAbsent(s[k + 1..], x);
  }

  /** A list without repeats stays without repeats when filtered. */
  lemma {:induction false} WithoutDistinct<T>(s: seq<T>, x: T)
    requires Distinct(s)
    ensures Distinct(Without(s, x))
  {
    if s != [] {
      assert Distinct(s[1..]) by {
        forall i, j | 0 <= i < j < |s| - 1 ensures s[1..][i] != s[1..][j] {
          assert s[i + 1] != s[j + 1];
        }
      }
      WithoutDistinct(s[1..], x);
      if s[0] != x {
        var r := Without(s[1..], x);
        assert s[0] !in r by {
          assert s[0] !in s[1..] by {
            forall i | 0 <= i < |s| - 1 ensures s[1..][i] != s[0] { assert s[i + 1] != s[0]; }
          }
        }
        forall i, j | 0 <= i < j < |r| + 1 ensures ([s[0]] + r)[i] != ([s[0]] + r)[j] {
          if i == 0 { assert ([s[0]] + r)[j] == r[j - 1]; }
        }
      }
    }
  }

  /** Appending a new element keeps a list without repeats. */
  lemma AppendFreshDistinct<T>(s: seq<T>, x: T)
    requires Distinct(s) && x !in s
    ensures Distinct(s + [x])
  {
    forall i, j | 0 <= i < j < |s| + 1 ensures (s + [x])[i] != (s + [x])[j] {
      if j == |s| { assert (s + [x])[i] == s[i]; }
    }
  }
}
