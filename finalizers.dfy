/**
 * A finalizer list: an ordered sequence of tokens with set semantics, kept free of
 * duplicates by checking membership before insertion (controllerutil.AddFinalizer).
 */
module Finalizers {

  /** No token occurs twice. */
  predicate NoDuplicates(s: seq<string>) {
    forall i, j :: 0 <= i < j < |s| ==> s[i] != s[j]
  }

  /** How many times `x` occurs in `s`. */
  function Count(s: seq<string>, x: string): (n: nat)
    ensures n <= |s|
    ensures n == 0 <==> x !in s
  {
    if s == [] then 0
    else Count(s[1..], x) + (if s[0] == x then 1 else 0)
  }

  /** The outcome of adding a finalizer: whether the list changed, and the new list. */
  datatype Update = Update(changed: bool, finalizers: seq<string>)

  /** controllerutil.AddFinalizer: append `f` when it is absent, report whether anything changed. */
  function AddFinalizer(fs: seq<string>, f: string): (u: Update)
    ensures f in u.finalizers
    ensures u.changed <==> f !in fs
    ensures !u.changed ==> u.finalizers == fs
    ensures u.changed ==> u.finalizers == fs + [f]
    ensures NoDuplicates(fs) ==> NoDuplicates(u.finalizers)
  {
    if f in fs then Update(false, fs)
    else
      var fs' := fs + [f];
      assert forall i :: 0 <= i < |fs| ==> fs'[i] == fs[i];
      Update(true, fs')
  }

  lemma {:induction false} CountAppend(s: seq<string>, y: string, x: string)
    ensures Count(s + [y], x) == Count(s, x) + (if y == x then 1 else 0)
  {
    if s == [] {
      assert s + [y] == [y];
    } else {
      assert (s + [y])[1..] == s[1..] + [y];
      CountAppend(s[1..], y, x);
    }
  }

  /** In a list without duplicates a present token occurs exactly once. */
  lemma {:induction false} CountUnique(s: seq<string>, x: string)
    requires NoDuplicates(s) && x in s
    ensures Count(s, x) == 1
  {
    assert NoDuplicates(s[1..]) by {
      forall i, j | 0 <= i < j < |s[1..]| ensures s[1..][i] != s[1..][j] {
        assert s[1..][i] == s[i + 1] && s[1..][j] == s[j + 1];
      }
    }
    if s[0] == x {
      assert x !in s[1..] by {
        forall k | 0 <= k < |s[1..]| ensures s[1..][k] != x {
          assert s[1..][k] == s[k + 1];
        }
      }
    } else {
      assert x in s[1..] by {
        var k :| 0 <= k < |s| && s[k] == x;
        assert s[1..][k - 1] == x;
      }
      CountUnique(s[1..], x);
    }
  }

  /** After adding, `f` is present exactly once, provided the list had no duplicates. */
  lemma AddFinalizerOnce(fs: seq<string>, f: string)
    requires NoDuplicates(fs)
    ensures NoDuplicates(AddFinalizer(fs, f).finalizers)
    ensures Count(AddFinalizer(fs, f).finalizers, f) == 1
  {
    CountUnique(AddFinalizer(fs, f).finalizers, f);
  }

  /** Adding changes the count of `f` by one when it was absent, and no other token's count. */
  lemma AddFinalizerCounts(fs: seq<string>, f: string, g: string)
    ensures Count(AddFinalizer(fs, f).finalizers, g)
         == Count(fs, g) + (if g == f && f !in fs then 1 else 0)
  {
    if f !in fs {
      CountAppend(fs, f, g);
    }
  }

  /** A second add of the same finalizer changes nothing. */
  lemma AddFinalizerIdempotent(fs: seq<string>, f: string)
    ensures !AddFinalizer(AddFinalizer(fs, f).finalizers, f).changed
    ensures AddFinalizer(AddFinalizer(fs, f).finalizers, f).finalizers == AddFinalizer(fs, f).finalizers
  {
  }
}
