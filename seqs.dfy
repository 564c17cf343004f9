/** Facts about sequences that both visualization pages rely on: freedom
    from duplicates, de-duplication in first-occurrence order (the order in
    which a JavaScript `Set` or plain object remembers insertions) and the
    effect of a permutation on duplicates. */
module Seqs {

  /** No element occurs twice. */
  predicate Distinct<T(==)>(s: seq<T>) {
    forall i, j :: 0 <= i < j < |s| ==> s[i] != s[j]
  }

  /** The position of the first occurrence of `x` in `s`. */
  function FirstIndex<T(==)>(s: seq<T>, x: T): (i: nat)
    requires x in s
    ensures i < |s| && s[i] == x && x !in s[..i]
  {
    if s[0] == x then 0
    else
      var j := FirstIndex(s[1..], x);
      assert s[..j + 1] == [s[0]] + s[1..][..j];
      j + 1
  }

  /** The first occurrence is the only position before which `x` is absent. */
  lemma FirstIndexUnique<T>(s: seq<T>, x: T, k: nat)
    requires k < |s| && s[k] == x && x !in s[..k]
    ensures FirstIndex(s, x) == k
  {
  }

  /** Extending a sequence does not move the first occurrence of an element
      it already holds. */
  lemma FirstIndexPrefix<T>(t: seq<T>, extra: seq<T>, x: T)
    requires x in t
    ensures x in t + extra && FirstIndex(t + extra, x) == FirstIndex(t, x)
  {
    var j := FirstIndex(t, x);
    assert (t + extra)[..j] == t[..j];
    FirstIndexUnique(t + extra, x, j);
  }

  /** `s` with every repeated element dropped: what `[...new Set(s)]`
      yields. Built from the left, as the set is filled. */
  function Dedup<T(==)>(s: seq<T>): seq<T>
  {
    if s == [] then []
    else
      var p := Dedup(s[..|s| - 1]);
      if s[|s| - 1] in p then p else p + [s[|s| - 1]]
  }

  /** De-duplication keeps exactly the elements of `s`, each once, ordered
      by where each first occurs in `s`. */
  lemma {:induction false} DedupSpec<T>(s: seq<T>)
    ensures Distinct(Dedup(s))
    ensures forall k :: 0 <= k < |Dedup(s)| ==> Dedup(s)[k] in s
    ensures forall x :: x in s ==> x in Dedup(s)
    ensures forall i, j :: 0 <= i < j < |Dedup(s)| ==>
              Dedup(s)[i] in s && Dedup(s)[j] in s &&
              FirstIndex(s, Dedup(s)[i]) < FirstIndex(s, Dedup(s)[j])
  {
    if s != [] {
      var n := |s|;
      var t, last := s[..n - 1], s[n - 1];
      assert s == t + [last];
      DedupSpec(t);
      var p := Dedup(t);
      forall x | x in t ensures FirstIndex(s, x) == FirstIndex(t, x) < n - 1 {
        FirstIndexPrefix(t, [last], x);
      }
      if last !in p {
        assert last !in s[..n - 1];
        FirstIndexUnique(s, last, n - 1);
        var r := p + [last];
        forall i, j | 0 <= i < j < |r|
          ensures r[i] in s && r[j] in s && FirstIndex(s, r[i]) < FirstIndex(s, r[j])
        {
          assert r[i] == p[i] && p[i] in t;
          if j < |p| {
            assert r[j] == p[j] && p[j] in p && p[j] in t;
          } else {
            assert r[j] == last == s[n - 1];
          }
        }
      }
    }
  }

  /** In a duplicate-free sequence every element occurs at most once. */
  lemma {:induction false} DistinctMultiplicity<T>(t: seq<T>, x: T)
    requires Distinct(t)
    ensures multiset(t)[x] <= 1
  {
    if t != [] {
      assert t == [t[0]] + t[1..];
      assert Distinct(t[1..]) by {
        forall i, j | 0 <= i < j < |t[1..]| ensures t[1..][i] != t[1..][j] {
          assert t[1..][i] == t[i + 1] && t[1..][j] == t[j + 1];
        }
      }
      DistinctMultiplicity(t[1..], x);
      if t[0] == x {
        assert x !in t[1..] by {
          forall k | 0 <= k < |t[1..]| ensures t[1..][k] != x {
            assert t[1..][k] == t[k + 1];
          }
        }
      }
    }
  }

  /** A rearrangement of a duplicate-free sequence is duplicate-free. */
  lemma PermutationKeepsDistinct<T>(s: seq<T>, t: seq<T>)
    requires multiset(s) == multiset(t) && Distinct(t)
    ensures Distinct(s)
  {
    forall i, j | 0 <= i < j < |s| ensures s[i] != s[j] {
      if s[i] == s[j] {
        var x := s[i];
        assert s == s[..j] + s[j..];
        assert x in s[..j] && x in s[j..];
        assert multiset(s)[x] == multiset(s[..j])[x] + multiset(s[j..])[x];
        DistinctMultiplicity(t, x);
        assert false;
      }
    }
  }
}
