/** Sequence helpers shared by the event bus, the object pool and the grid:
    the C# `List<T>` operations the engine relies on, stated on `seq`. */
module Seqs {

  datatype Option<+T> = None | Some(value: T)

  /** No element occurs twice. */
  ghost predicate NoDup<T>(s: seq<T>) {
    forall i, j :: 0 <= i < j < |s| ==> s[i] != s[j]
  }

  /** A concatenation is repeat-free exactly when both halves are and they
      share no element. */
  lemma NoDupConcat<T>(a: seq<T>, b: seq<T>)
    ensures NoDup(a + b) <==> NoDup(a) && NoDup(b) && forall x :: x in a ==> x !in b
  {
    if NoDup(a + b) {
      forall i, j | 0 <= i < j < |a| ensures a[i] != a[j] {
        assert a[i] == (a + b)[i] && a[j] == (a + b)[j];
      }
      forall i, j | 0 <= i < j < |b| ensures b[i] != b[j] {
        assert b[i] == (a + b)[|a| + i] && b[j] == (a + b)[|a| + j];
      }
      forall x | x in a ensures x !in b {
        var i :| 0 <= i < |a| && a[i] == x;
        assert x == (a + b)[i];
        assert forall j :: 0 <= j < |b| ==> b[j] == (a + b)[|a| + j];
      }
    }
    if NoDup(a) && NoDup(b) && forall x :: x in a ==> x !in b {
      forall i, j | 0 <= i < j < |a + b| ensures (a + b)[i] != (a + b)[j] {
        if j < |a| {
          assert (a + b)[i] == a[i] && (a + b)[j] == a[j];
        } else if i < |a| {
          assert (a + b)[i] == a[i] && (a + b)[j] == b[j - |a|];
          assert a[i] in a;
        } else {
          assert (a + b)[i] == b[i - |a|] && (a + b)[j] == b[j - |a|];
        }
      }
    }
  }

  /** Index of the first occurrence of `x` (`List.IndexOf`). */
  function IndexOf<T(==)>(s: seq<T>, x: T): (k: nat)
    requires x in s
    ensures k < |s| && s[k] == x
    ensures forall j :: 0 <= j < k ==> s[j] != x
  {
    if s[0] == x then 0 else 1 + IndexOf(s[1..], x)
  }

  /** `List.Remove`: drops the first occurrence of `x`, if any. */
  function RemoveFirst<T(==)>(s: seq<T>, x: T): seq<T>
  {
    if s == [] then []
    else if s[0] == x then s[1..]
    else [s[0]] + RemoveFirst(s[1..], x)
  }

  lemma {:induction false} RemoveFirstAbsent<T>(s: seq<T>, x: T)
    requires x !in s
    ensures RemoveFirst(s, x) == s
  {
    if s != [] {
      RemoveFirstAbsent(s[1..], x);
    }
  }

  /** Removing a present element cuts out exactly its first occurrence. */
  lemma {:induction false} RemoveFirstPresent<T>(s: seq<T>, x: T)
    requires x in s
    ensures RemoveFirst(s, x) == s[..IndexOf(s, x)] + s[IndexOf(s, x) + 1..]
  {
    if s[0] != x {
      RemoveFirstPresent(s[1..], x);
      var k := IndexOf(s[1..], x);
      assert IndexOf(s, x) == k + 1;
      assert s[1..][..k] == s[1..k + 1];
      assert s[1..][k + 1..] == s[k + 2..];
      assert [s[0]] + s[1..k + 1] == s[..k + 1];
    }
  }

  /** Removing a present element shortens the list by one occurrence of it. */
  lemma RemoveFirstCounts<T>(s: seq<T>, x: T)
    requires x in s
    ensures |RemoveFirst(s, x)| == |s| - 1
    ensures multiset(RemoveFirst(s, x)) == multiset(s) - multiset{x}
  {
    var k := IndexOf(s, x);
    var before, after := s[..k], s[k + 1..];
    assert RemoveFirst(s, x) == before + after by {
      RemoveFirstPresent(s, x);
    }
    assert s == before + [x] + after;
    assert multiset(before + [x] + after) == multiset(before + after) + multiset{x};
  }

  /** Removing from a repeat-free list leaves a repeat-free list of old
      elements without `x`. */
  lemma NoDupRemoveFirst<T>(s: seq<T>, x: T)
    requires NoDup(s)
    ensures NoDup(RemoveFirst(s, x)) && x !in RemoveFirst(s, x)
    ensures forall y :: y in RemoveFirst(s, x) ==> y in s
  {
    if x in s {
      RemoveFirstPresent(s, x);
      var k := IndexOf(s, x);
      var r := RemoveFirst(s, x);
      assert forall i :: 0 <= i < |r| ==> r[i] == if i < k then s[i] else s[i + 1];
      forall i, j | 0 <= i < j < |r| ensures r[i] != r[j] {
      }
      forall y | y in r ensures y in s && y != x {
        var i :| 0 <= i < |r| && r[i] == y;
      }
    } else {
      RemoveFirstAbsent(s, x);
    }
  }

  /** `List.Find`: the first element satisfying `p`, or none (C# null). */
  function FindFirst<T>(s: seq<T>, p: T -> bool): Option<T>
  {
    if s == [] then None
    else if p(s[0]) then Some(s[0])
    else FindFirst(s[1..], p)
  }

  /** FindFirst returns an element that satisfies `p` and that no earlier
      element satisfies, and returns none exactly when nothing satisfies `p`. */
  lemma {:induction false} FindFirstSpec<T>(s: seq<T>, p: T -> bool)
    ensures FindFirst(s, p).None? <==> (forall i :: 0 <= i < |s| ==> !p(s[i]))
    ensures FindFirst(s, p).Some? ==>
      exists k :: 0 <= k < |s| && s[k] == FindFirst(s, p).value && p(s[k]) &&
        forall j :: 0 <= j < k ==> !p(s[j])
  {
    if s != [] && !p(s[0]) {
      FindFirstSpec(s[1..], p);
      if FindFirst(s, p).Some? {
        var k :| 0 <= k < |s[1..]| && s[1..][k] == FindFirst(s, p).value && p(s[1..][k]) &&
          forall j :: 0 <= j < k ==> !p(s[1..][j]);
        assert s[k + 1] == FindFirst(s, p).value;
        forall j | 0 <= j < k + 1 ensures !p(s[j]) {
          if j > 0 { assert s[j] == s[1..][j - 1]; }
        }
      } else {
        forall i | 0 <= i < |s| ensures !p(s[i]) {
          if i > 0 { assert s[i] == s[1..][i - 1]; }
        }
      }
    } else if s != [] {
      assert s[0] == FindFirst(s, p).value;
    }
  }
}
