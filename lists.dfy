/** The list operations the client applies to arrays of ids and breed names:
    `includes`, `filter(x => x !== v)` and appending with a spread. */
module Lists {

  /** No value occurs twice. */
  predicate NoDuplicates<T(==,!new)>(s: seq<T>) {
    forall i, j :: 0 <= i < j < |s| ==> s[i] != s[j]
  }

  /** `s.filter(x => x !== v)`: the elements of `s` other than `v`, in their order. */
  function Without<T(==,!new)>(s: seq<T>, v: T): (r: seq<T>)
    ensures forall x :: x in r <==> x in s && x != v
    ensures |r| <= |s|
    ensures v !in s ==> r == s
  {
    if s == [] then []
    else (if s[0] == v then [] else [s[0]]) + Without(s[1..], v)
  }

  /** Filtering distributes over concatenation, so it never reorders what it keeps. */
  lemma {:induction false} WithoutAppend<T(!new)>(a: seq<T>, b: seq<T>, v: T)
    ensures Without(a + b, v) == Without(a, v) + Without(b, v)
  {
    if a == [] {
      assert a + b == b;
    } else {
      assert (a + b)[0] == a[0];
      assert (a + b)[1..] == a[1..] + b;
      WithoutAppend(a[1..], b, v);
    }
  }

  /** Removing a value that was appended to a list not holding it gives the list back. */
  lemma WithoutAppended<T(!new)>(s: seq<T>, v: T)
    requires v !in s
    ensures Without(s + [v], v) == s
  {
    WithoutAppend(s, [v], v);
    assert Without([v], v) == [] + Without([], v);
  }

  /** In a list without duplicates, removing the value at `i` cuts out exactly that slot. */
  lemma {:induction false} WithoutAt<T(!new)>(s: seq<T>, i: nat)
    requires NoDuplicates(s)
    requires i < |s|
    ensures Without(s, s[i]) == s[..i] + s[i + 1..]
  {
    assert s == s[..i] + [s[i]] + s[i + 1..];
    WithoutAppend(s[..i] + [s[i]], s[i + 1..], s[i]);
    WithoutAppend(s[..i], [s[i]], s[i]);
    assert s[i] !in s[..i];
    assert s[i] !in s[i + 1..] by {
      forall k | i + 1 <= k < |s| ensures s[k] != s[i] { }
    }
    assert Without([s[i]], s[i]) == [] + Without([], s[i]);
  }

  /** Filtering keeps a duplicate-free list duplicate-free. */
  lemma {:induction false} WithoutNoDuplicatesIf<T(!new)>(s: seq<T>, v: T)
    ensures NoDuplicates(s) ==> NoDuplicates(Without(s, v))
  {
    if s != [] && NoDuplicates(s) {
      assert NoDuplicates(s[1..]);
      WithoutNoDuplicatesIf(s[1..], v);
      assert s[0] !in s[1..] by {
        forall k | 1 <= k < |s| ensures s[k] != s[0] { }
      }
      assert s[0] !in Without(s[1..], v);
    }
  }

  /** Appending a value the list does not hold keeps it duplicate-free. */
  lemma AppendNoDuplicatesIf<T(!new)>(s: seq<T>, v: T)
    requires v !in s
    ensures NoDuplicates(s) ==> NoDuplicates(s + [v])
  {
    if NoDuplicates(s) {
      forall i, j | 0 <= i < j < |s + [v]| ensures (s + [v])[i] != (s + [v])[j] {
        if j == |s| {
          assert (s + [v])[i] == s[i];
        }
      }
    }
  }
}
