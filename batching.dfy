/**
 * The batching loops of lib/openai.ts (`batchEmbedEmails`) and
 * lib/pinecone.ts (`upsertEmails`) both step an index `i` by a batch size
 * through a list, take `slice(i, i + size)` at each step, and report
 * `Math.min(i + size, length)` as progress. This module defines those slices
 * and progress values once, from a start index, so that a loop's invariant
 * can say "what is left to do is `ChunksFrom(s, size, i)`".
 */
module Batching {

  function Min(a: int, b: int): int
  {
    if a <= b then a else b
  }

  /** `s.slice(i, i + size)`, `s.slice(i + size, i + 2 * size)`, ... for every start below `|s|`. */
  function ChunksFrom<T>(s: seq<T>, size: nat, i: nat): (cs: seq<seq<T>>)
    requires size > 0
    ensures i >= |s| ==> cs == []
    ensures forall k :: 0 <= k < |cs| ==> 0 < |cs[k]| <= size
    ensures |cs| == |ProgressFrom(|s|, size, i)|
    decreases |s| - i
  {
    if i >= |s| then []
    else [s[i..Min(i + size, |s|)]] + ChunksFrom(s, size, i + size)
  }

  function Chunks<T>(s: seq<T>, size: nat): seq<seq<T>>
    requires size > 0
  {
    ChunksFrom(s, size, 0)
  }

  /** The progress values `Math.min(i + size, n)` reported after each slice starting at `i`. */
  function ProgressFrom(n: nat, size: nat, i: nat): (p: seq<nat>)
    requires size > 0
    ensures i >= n ==> p == []
    decreases n - i
  {
    if i >= n then []
    else [Min(i + size, n)] + ProgressFrom(n, size, i + size)
  }

  function Progress(n: nat, size: nat): seq<nat>
    requires size > 0
  {
    ProgressFrom(n, size, 0)
  }

  /** The items of the slices, one slice after the other. */
  function Flatten<T>(ss: seq<seq<T>>): (r: seq<T>)
  {
    if ss == [] then [] else ss[0] + Flatten(ss[1..])
  }

  lemma {:induction false} FlattenAppend<T>(a: seq<seq<T>>, b: seq<seq<T>>)
    ensures Flatten(a + b) == Flatten(a) + Flatten(b)
    decreases |a|
  {
    if a == [] {
      assert a + b == b;
    } else {
      assert (a + b)[1..] == a[1..] + b;
      FlattenAppend(a[1..], b);
    }
  }

  /** The slices taken from `i` on cover exactly the items from `i` on, in order. */
  lemma {:induction false} ChunksFromCover<T>(s: seq<T>, size: nat, i: nat)
    requires size > 0 && i <= |s|
    ensures Flatten(ChunksFrom(s, size, i)) == s[i..]
    decreases |s| - i
  {
    if i < |s| {
      var j := Min(i + size, |s|);
      var cs := ChunksFrom(s, size, i);
      assert cs[1..] == ChunksFrom(s, size, i + size);
      if i + size <= |s| {
        ChunksFromCover(s, size, i + size);
        assert s[i..] == s[i..j] + s[j..];
      } else {
        assert ChunksFrom(s, size, i + size) == [];
        assert s[i..] == s[i..j];
      }
    }
  }

  /** Batching loses, repeats and reorders nothing: the slices concatenate to the input. */
  lemma ChunksCover<T>(s: seq<T>, size: nat)
    requires size > 0
    ensures Flatten(Chunks(s, size)) == s
  {
    ChunksFromCover(s, size, 0);
  }

  /** One progress value per slice, and each is the number of items in the slices up to and including it. */
  lemma {:induction false} ProgressCountsItems<T>(s: seq<T>, size: nat, i: nat)
    requires size > 0 && i <= |s|
    ensures var cs := ChunksFrom(s, size, i);
            var p := ProgressFrom(|s|, size, i);
            && |p| == |cs|
            && forall k :: 0 <= k < |p| ==> p[k] == i + |Flatten(cs[..k + 1])|
    decreases |s| - i
  {
    if i < |s| {
      var cs := ChunksFrom(s, size, i);
      var p := ProgressFrom(|s|, size, i);
      var j := Min(i + size, |s|);
      if i + size <= |s| {
        ProgressCountsItems(s, size, i + size);
      }
      var rest := ChunksFrom(s, size, i + size);
      var prest := ProgressFrom(|s|, size, i + size);
      assert cs == [s[i..j]] + rest;
      assert p == [j] + prest;
      forall k | 0 <= k < |p|
        ensures p[k] == i + |Flatten(cs[..k + 1])|
      {
        if k == 0 {
          assert cs[..1] == [s[i..j]];
          assert Flatten(cs[..1]) == s[i..j] + Flatten(cs[..1][1..]);
          assert cs[..1][1..] == [];
        } else {
          assert cs[..k + 1] == [s[i..j]] + rest[..k];
          FlattenAppend([s[i..j]], rest[..k]);
          assert Flatten([s[i..j]]) == s[i..j] + Flatten([s[i..j]][1..]);
          assert [s[i..j]][1..] == [];
          assert p[k] == prest[k - 1];
        }
      }
    }
  }

  /** Progress strictly increases, and the last value reported is the whole length. */
  lemma {:induction false} ProgressShape(n: nat, size: nat, i: nat)
    requires size > 0
    ensures var p := ProgressFrom(n, size, i);
            && (forall k :: 0 <= k < |p| ==> i < p[k] <= n)
            && (forall k :: 0 < k < |p| ==> p[k - 1] < p[k])
            && (i < n ==> p != [] && p[|p| - 1] == n)
    decreases n - i
  {
    if i < n {
      ProgressShape(n, size, i + size);
      var p := ProgressFrom(n, size, i);
      var rest := ProgressFrom(n, size, i + size);
      assert p == [Min(i + size, n)] + rest;
      if rest != [] {
        assert p[1] == rest[0];
      }
    }
  }

  /** Nothing is reported for an empty list, and the counts run up to its length otherwise. */
  lemma ProgressOf(n: nat, size: nat)
    requires size > 0
    ensures var p := Progress(n, size);
            && (n == 0 <==> p == [])
            && (forall k :: 0 < k < |p| ==> p[k - 1] < p[k])
            && (n > 0 ==> p[|p| - 1] == n)
  {
    ProgressShape(n, size, 0);
  }

  /** The slice from `i` is the next chunk, and `min(i + size, n)` the next progress value. */
  lemma BatchingStep<T>(s: seq<T>, size: nat, i: nat, done: seq<seq<T>>, reported: seq<nat>)
    requires size > 0 && i < |s|
    requires done + ChunksFrom(s, size, i) == Chunks(s, size)
    requires reported + ProgressFrom(|s|, size, i) == Progress(|s|, size)
    ensures (done + [s[i..Min(i + size, |s|)]]) + ChunksFrom(s, size, i + size) == Chunks(s, size)
    ensures (reported + [Min(i + size, |s|)]) + ProgressFrom(|s|, size, i + size) == Progress(|s|, size)
  {
    assert (done + [s[i..Min(i + size, |s|)]]) + ChunksFrom(s, size, i + size) == done + ChunksFrom(s, size, i);
    assert (reported + [Min(i + size, |s|)]) + ProgressFrom(|s|, size, i + size) == reported + ProgressFrom(|s|, size, i);
  }
}
