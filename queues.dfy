/** Ordered-list operations the schedulers perform on their queues:
    `list.remove`, the two-phase `to_remove` deletion, `list.insert`, and the
    first-gap search over projected landing times. */
module Queues {
  import opened Options

  /** No aircraft appears twice. Stated head first, so that a proof about
      one element does not have to consider every pair. */
  predicate Distinct<T(==)>(s: seq<T>)
  {
    s == [] || (s[0] !in s[1..] && Distinct(s[1..]))
  }

  lemma {:induction false} DistinctIndex<T>(s: seq<T>)
    ensures Distinct(s) <==> forall i, j :: 0 <= i < j < |s| ==> s[i] != s[j]
  {
    if s != [] {
      DistinctIndex(s[1..]);
      if Distinct(s) {
        forall i, j | 0 <= i < j < |s| ensures s[i] != s[j] {
          if i == 0 {
            assert s[j] == s[1..][j - 1];
          } else {
            assert s[i] == s[1..][i - 1] && s[j] == s[1..][j - 1];
          }
        }
      }
      if forall i, j :: 0 <= i < j < |s| ==> s[i] != s[j] {
        forall i, j | 0 <= i < j < |s[1..]| ensures s[1..][i] != s[1..][j] {
          assert s[i + 1] != s[j + 1];
        }
        assert s[0] !in s[1..] by {
          forall k | 0 <= k < |s[1..]| ensures s[1..][k] != s[0] {
            assert s[k + 1] != s[0];
          }
        }
      }
    }
  }

  lemma {:induction false} DistinctAt<T>(s: seq<T>, i: nat, j: nat)
    requires Distinct(s) && i < |s| && j < |s| && i != j
    ensures s[i] != s[j]
  {
    DistinctIndex(s);
  }

  /** Appending an aircraft not yet in the list keeps it duplicate-free. */
  lemma {:induction false} DistinctSnoc<T>(s: seq<T>, x: T)
    requires Distinct(s) && x !in s
    ensures Distinct(s + [x])
  {
    DistinctIndex(s);
    DistinctIndex(s + [x]);
  }

  /** Concatenating two duplicate-free lists with nothing in common. */
  lemma {:induction false} DistinctConcat<T>(a: seq<T>, b: seq<T>)
    requires Distinct(a) && Distinct(b)
    requires forall x :: x in a ==> x !in b
    ensures Distinct(a + b)
  {
    DistinctIndex(a);
    DistinctIndex(b);
    DistinctIndex(a + b);
    forall i, j | 0 <= i < j < |a + b| ensures (a + b)[i] != (a + b)[j] {
      if j < |a| {
      } else if i >= |a| {
        assert (a + b)[i] == b[i - |a|] && (a + b)[j] == b[j - |a|];
      } else {
        assert (a + b)[i] in a && (a + b)[j] in b;
      }
    }
  }

  /** A duplicate-free list has exactly as many elements as its set. */
  lemma {:induction false} DistinctCard<T>(s: seq<T>)
    requires Distinct(s)
    ensures |set x | x in s| == |s|
  {
    if s != [] {
      DistinctCard(s[1..]);
      assert (set x | x in s) == (set x | x in s[1..]) + {s[0]} by {
        assert s == [s[0]] + s[1..];
      }
    }
  }

  /** The position of the first occurrence of x. */
  function FirstIndex<T(==)>(s: seq<T>, x: T): (i: nat)
    requires x in s
    ensures i < |s| && s[i] == x && x !in s[..i]
  {
    if s[0] == x then 0
    else
      var j := FirstIndex(s[1..], x);
      assert s[..j + 1] == [s[0]] + s[1..][..j];
      j + 1
  }

  /** `list.remove(x)`: drops the first occurrence of x, keeping the order
      of everything else. */
  function RemoveFirst<T(==)>(s: seq<T>, x: T): (r: seq<T>)
    requires x in s
    ensures |r| == |s| - 1
    ensures multiset(r) == multiset(s) - multiset{x}
    ensures r == s[..FirstIndex(s, x)] + s[FirstIndex(s, x) + 1..]
  {
    assert s == [s[0]] + s[1..];
    if s[0] == x then s[1..]
    else
      RemoveFirstAt(s, x);
      [s[0]] + RemoveFirst(s[1..], x)
  }

  /** Past a head that is not x, the first occurrence moves one place. */
  lemma {:induction false} RemoveFirstAt<T>(s: seq<T>, x: T)
    requires x in s && s[0] != x
    ensures x in s[1..] && FirstIndex(s, x) == FirstIndex(s[1..], x) + 1
    ensures var i := FirstIndex(s[1..], x);
      [s[0]] + (s[1..][..i] + s[1..][i + 1..]) == s[..i + 1] + s[i + 2..]
  {
    assert s == [s[0]] + s[1..];
    var i := FirstIndex(s[1..], x);
    assert s[..i + 1] == [s[0]] + s[1..][..i];
    assert s[i + 2..] == s[1..][i + 1..];
  }

  /** In a duplicate-free list, `remove(x)` takes out x and nothing else. */
  lemma {:induction false} RemoveFirstMember<T>(s: seq<T>, x: T, y: T)
    requires x in s && Distinct(s)
    ensures Distinct(RemoveFirst(s, x))
    ensures y in RemoveFirst(s, x) <==> y in s && y != x
  {
    RemoveFirstWithout(s, x);
    WithoutDistinct(s, [x]);
    WithoutMember(s, [x], y);
  }

  /** The elements of `s` that are not in `rm`, kept in their order. */
  function Without<T(==)>(s: seq<T>, rm: seq<T>): (r: seq<T>)
    ensures forall i :: 0 <= i < |r| ==> r[i] in s && r[i] !in rm
    ensures forall i :: 0 <= i < |s| && s[i] !in rm ==> s[i] in r
    ensures |r| <= |s|
  {
    if s == [] then []
    else (if s[0] in rm then [] else [s[0]]) + Without(s[1..], rm)
  }

  /** Filtering keeps the order: the filter of a concatenation is the
      concatenation of the filters. With WithoutSingle this determines the
      result element by element, in the order of `s`. */
  lemma {:induction false} WithoutConcat<T>(a: seq<T>, b: seq<T>, rm: seq<T>)
    ensures Without(a + b, rm) == Without(a, rm) + Without(b, rm)
  {
    if a == [] {
      assert a + b == b;
    } else {
      assert (a + b)[0] == a[0];
      assert (a + b)[1..] == a[1..] + b;
      WithoutConcat(a[1..], b, rm);
    }
  }

  /** A single element is kept exactly when it is not removed. */
  lemma {:induction false} WithoutSingle<T>(x: T, rm: seq<T>)
    ensures Without([x], rm) == if x in rm then [] else [x]
  {
    assert [x][1..] == [];
  }

  lemma {:induction false} WithoutMember<T>(s: seq<T>, rm: seq<T>, x: T)
    ensures x in Without(s, rm) <==> x in s && x !in rm
  {
    if s != [] {
      WithoutMember(s[1..], rm, x);
      assert s == [s[0]] + s[1..];
    }
  }

  /** `list.insert(j, x)`. */
  function InsertAt<T>(s: seq<T>, j: nat, x: T): (r: seq<T>)
    requires j <= |s|
    ensures |r| == |s| + 1 && r[j] == x
    ensures r[..j] == s[..j] && r[j + 1..] == s[j..]
    ensures multiset(r) == multiset(s) + multiset{x}
  {
    assert s == s[..j] + s[j..];
    s[..j] + [x] + s[j..]
  }

  /** Inserting an aircraft not yet in the list keeps it duplicate-free. */
  lemma {:induction false} InsertDistinct<T>(s: seq<T>, j: nat, x: T)
    requires j <= |s| && Distinct(s) && x !in s
    ensures Distinct(InsertAt(s, j, x))
  {
    assert s == s[..j] + s[j..];
    DistinctIndex(s);
    DistinctIndex(InsertAt(s, j, x));
    var r := InsertAt(s, j, x);
    forall a, b | 0 <= a < b < |r| ensures r[a] != r[b] {
      var ia := if a < j then a else a - 1;
      var ib := if b <= j then b else b - 1;
      if a != j && b != j {
        assert r[a] == s[ia] && r[b] == s[ib];
      } else if a == j {
        assert r[b] == s[ib];
      } else {
        assert r[a] == s[ia];
      }
    }
  }

  lemma {:induction false} WithoutDistinct<T>(s: seq<T>, rm: seq<T>)
    requires Distinct(s)
    ensures Distinct(Without(s, rm))
  {
    if s != [] {
      WithoutDistinct(s[1..], rm);
      WithoutMember(s[1..], rm, s[0]);
      assert s[0] !in s[1..];
      var w := Without(s[1..], rm);
      if s[0] !in rm {
        var u := [s[0]] + w;
        assert u[1..] == w;
        assert Without(s, rm) == u;
      } else {
        assert Without(s, rm) == w;
      }
    }
  }

  /** Removing `x` once from a distinct queue is the same as adding `x` to
      the set of removed aircraft. */
  lemma {:induction false} RemoveFirstWithout<T>(s: seq<T>, x: T)
    requires Distinct(s) && x in s
    ensures RemoveFirst(s, x) == Without(s, [x])
  {
    assert s == [s[0]] + s[1..];
    if s[0] == x {
      WithoutNone(s[1..], [x]);
    } else {
      RemoveFirstWithout(s[1..], x);
    }
  }

  lemma {:induction false} WithoutNone<T>(s: seq<T>, rm: seq<T>)
    requires forall x :: x in rm ==> x !in s
    ensures Without(s, rm) == s
  {
    if s != [] {
      assert s[0] in s;
      WithoutNone(s[1..], rm);
      assert s == [s[0]] + s[1..];
    }
  }

  lemma {:induction false} WithoutTwice<T>(s: seq<T>, a: seq<T>, b: seq<T>)
    ensures Without(Without(s, a), b) == Without(s, a + b)
  {
    if s != [] {
      WithoutTwice(s[1..], a, b);
      var w := Without(s[1..], a);
      if s[0] !in a {
        var u := [s[0]] + w;
        assert Without(s, a) == u;
        assert u[0] == s[0] && u[1..] == w;
        assert Without(u, b) == (if s[0] in b then [] else [s[0]]) + Without(w, b);
        assert s[0] in a + b <==> s[0] in b;
        assert Without(s, a + b) == (if s[0] in b then [] else [s[0]]) + Without(s[1..], a + b);
      } else {
        assert Without(s, a) == w;
        assert s[0] in a + b;
        assert Without(s, a + b) == Without(s[1..], a + b);
      }
    }
  }

  /** removing `rm` one aircraft at a time, as the `to_remove` loops do, from
      a queue without duplicates leaves exactly the aircraft not in `rm`. */
  lemma {:induction false} WithoutStep<T>(s: seq<T>, rm: seq<T>, x: T)
    requires Distinct(s)
    ensures x in Without(s, rm) ==>
      Distinct(Without(s, rm)) && RemoveFirst(Without(s, rm), x) == Without(s, rm + [x])
    ensures x !in Without(s, rm) ==> Without(s, rm) == Without(s, rm + [x])
  {
    WithoutDistinct(s, rm);
    WithoutTwice(s, rm, [x]);
    if x in Without(s, rm) {
      RemoveFirstWithout(Without(s, rm), x);
    } else {
      WithoutNone(Without(s, rm), [x]);
    }
  }

  /** The second phase of every pass: `for p in to_remove: if p in queue:
      queue.remove(p)`. */
  method RemoveAll<T(==)>(queue: seq<T>, toRemove: seq<T>) returns (q: seq<T>)
    requires Distinct(queue)
    ensures q == Without(queue, toRemove)
  {
    q := queue;
    WithoutNone(queue, []);
    assert toRemove[..0] == [];
    var k := 0;
    while k < |toRemove|
      invariant 0 <= k <= |toRemove|
      invariant q == Without(queue, toRemove[..k])
    {
      var p := toRemove[k];
      ghost var done := toRemove[..k];
      assert toRemove[..k + 1] == done + [p];
      WithoutStep(queue, done, p);
      if p in q {
        q := RemoveFirst(q, p);
      }
      k := k + 1;
    }
    assert toRemove[..k] == toRemove;
  }

  /** Removing a duplicate-free selection of a duplicate-free queue shortens
      it by exactly the number of aircraft removed. */
  lemma {:induction false} WithoutLength<T>(s: seq<T>, rm: seq<T>)
    requires Distinct(s) && Distinct(rm)
    requires forall x :: x in rm ==> x in s
    ensures |Without(s, rm)| == |s| - |rm|
  {
    if rm == [] {
      WithoutNone(s, rm);
    } else {
      var init, x := rm[..|rm| - 1], rm[|rm| - 1];
      assert rm == init + [x];
      DistinctIndex(rm);
      DistinctIndex(init);
      assert x !in init by {
        forall k | 0 <= k < |init| ensures init[k] != x { assert rm[k] != rm[|rm| - 1]; }
      }
      assert Distinct(init) by {
        forall i, j | 0 <= i < j < |init| ensures init[i] != init[j] { assert rm[i] != rm[j]; }
      }
      WithoutLength(s, init);
      WithoutTwice(s, init, [x]);
      WithoutDistinct(s, init);
      WithoutMember(s, init, x);
      RemoveFirstWithout(Without(s, init), x);
    }
  }

  /** Two removal lists that agree on the members of `s` remove the same. */
  lemma {:induction false} SameWithoutOn<T>(s: seq<T>, a: seq<T>, b: seq<T>)
    requires forall x :: x in s ==> (x in a <==> x in b)
    ensures Without(s, a) == Without(s, b)
  {
    if s != [] {
      assert s[0] in s;
      SameWithoutOn(s[1..], a, b);
    }
  }

  /** A first-gap search: the first j in 1..|times|-1, scanning upward from
      `from`, whose adjacent difference reaches `minGap`. */
  function FirstGapFrom(times: seq<real>, minGap: real, from: nat): (r: Option<nat>)
    requires 1 <= from
    decreases |times| - from
    ensures r.Some? ==> from <= r.value < |times|
    ensures r.Some? ==> times[r.value] - times[r.value - 1] >= minGap
    ensures r.Some? ==> forall j :: from <= j < r.value ==> times[j] - times[j - 1] < minGap
    ensures r.None? <==> forall j :: from <= j < |times| ==> times[j] - times[j - 1] < minGap
  {
    if from >= |times| then None
    else if times[from] - times[from - 1] >= minGap then Some(from)
    else FirstGapFrom(times, minGap, from + 1)
  }

  /** `for j in range(1, len(queue))`, stopping at the first sufficient gap. */
  function FirstGap(times: seq<real>, minGap: real): (r: Option<nat>)
    ensures r.Some? ==> 1 <= r.value < |times|
    ensures r.Some? ==> times[r.value] - times[r.value - 1] >= minGap
    ensures r.Some? ==> forall j :: 1 <= j < r.value ==> times[j] - times[j - 1] < minGap
    ensures r.None? <==> forall j :: 1 <= j < |times| ==> times[j] - times[j - 1] < minGap
  {
    FirstGapFrom(times, minGap, 1)
  }

  /** The elements s[k], k < n, whose flag is set, in order: the `to_remove`
      list a pass collects while it walks the queue. */
  function Select<T>(s: seq<T>, flags: seq<bool>, n: nat): (r: seq<T>)
    requires n <= |s| && |flags| == |s|
    ensures |r| <= n
  {
    if n == 0 then [] else Select(s, flags, n - 1) + (if flags[n - 1] then [s[n - 1]] else [])
  }

  /** The positions k < n whose flag is set, in increasing order. */
  function Flagged(flags: seq<bool>, n: nat): seq<nat>
    requires n <= |flags|
  {
    if n == 0 then [] else Flagged(flags, n - 1) + (if flags[n - 1] then [n - 1] else [])
  }

  /** The flagged positions strictly increase and are exactly the flagged
      ones below n. */
  lemma {:induction false} FlaggedExact(flags: seq<bool>, n: nat)
    requires n <= |flags|
    ensures var ix := Flagged(flags, n);
      && (forall i, j :: 0 <= i < j < |ix| ==> ix[i] < ix[j])
      && (forall k :: k in ix <==> 0 <= k < n && flags[k])
  {
    if n > 0 {
      FlaggedExact(flags, n - 1);
      var ix := Flagged(flags, n - 1);
      assert forall j :: 0 <= j < |ix| ==> ix[j] in ix;
    }
  }

  /** Select lists the flagged elements in queue order: its j-th element is
      s[ix[j]] for the j-th flagged position ix[j], and those positions
      strictly increase and are exactly the flagged ones below n. */
  lemma {:induction false} SelectOrder<T>(s: seq<T>, flags: seq<bool>, n: nat)
    requires n <= |s| && |flags| == |s|
    ensures var ix := Flagged(flags, n);
      && |Select(s, flags, n)| == |ix|
      && (forall j :: 0 <= j < |ix| ==> ix[j] < n && Select(s, flags, n)[j] == s[ix[j]])
      && (forall i, j :: 0 <= i < j < |ix| ==> ix[i] < ix[j])
      && (forall k :: k in ix <==> 0 <= k < n && flags[k])
  {
    FlaggedExact(flags, n);
    SelectAt(s, flags, n);
  }

  lemma {:induction false} SelectAt<T>(s: seq<T>, flags: seq<bool>, n: nat)
    requires n <= |s| && |flags| == |s|
    ensures var ix := Flagged(flags, n);
      && |Select(s, flags, n)| == |ix|
      && (forall j :: 0 <= j < |ix| ==> ix[j] < n && Select(s, flags, n)[j] == s[ix[j]])
  {
    if n > 0 {
      SelectAt(s, flags, n - 1);
    }
  }

  lemma {:induction false} SelectMember<T>(s: seq<T>, flags: seq<bool>, n: nat, x: T)
    requires n <= |s| && |flags| == |s|
    ensures x in Select(s, flags, n) <==> exists k :: 0 <= k < n && flags[k] && s[k] == x
  {
    if n > 0 {
      SelectMember(s, flags, n - 1, x);
    }
  }

  lemma {:induction false} SelectDistinct<T>(s: seq<T>, flags: seq<bool>, n: nat)
    requires n <= |s| && |flags| == |s| && Distinct(s)
    ensures Distinct(Select(s, flags, n))
  {
    if n > 0 {
      SelectDistinct(s, flags, n - 1);
      if flags[n - 1] {
        SelectMember(s, flags, n - 1, s[n - 1]);
        if s[n - 1] in Select(s, flags, n - 1) {
          var k :| 0 <= k < n - 1 && flags[k] && s[k] == s[n - 1];
          DistinctAt(s, k, n - 1);
        }
        DistinctSnoc(Select(s, flags, n - 1), s[n - 1]);
        assert Select(s, flags, n) == Select(s, flags, n - 1) + [s[n - 1]];
      } else {
        assert Select(s, flags, n) == Select(s, flags, n - 1);
      }
    }
  }
}
