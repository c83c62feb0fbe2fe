/** The few NumPy array operations the measurement script relies on, over
    integer-valued sequences: `np.arange` with a positive step, `np.where`
    on a `<=` comparison, fancy indexing `a[idx]` and `np.concatenate` of a
    list of arrays. */
module NumPy {

  /** `np.arange(start, stop, step)` for a positive step: start, start + step,
      ... for as long as the value stays below `stop`. */
  function Arange(start: int, stop: int, step: int): (r: seq<int>)
    requires step > 0
    ensures forall i :: 0 <= i < |r| ==> start <= r[i] < stop
    decreases stop - start
  {
    if start < stop then [start] + Arange(start + step, stop, step) else []
  }

  /** The number of elements NumPy allocates for `arange`: the ceiling of
      d / step, and nothing when the range is empty. */
  function CeilDiv(d: int, step: int): (n: nat)
    requires step > 0
    ensures d <= 0 ==> n == 0
    ensures d > 0 ==> (n - 1) * step < d <= n * step
    decreases d
  {
    if d <= 0 then 0 else 1 + CeilDiv(d - step, step)
  }

  /** `np.arange` yields ceil((stop - start) / step) elements, the i-th being
      start + i * step. */
  lemma {:induction false} ArangeShape(start: int, stop: int, step: int)
    requires step > 0
    ensures |Arange(start, stop, step)| == CeilDiv(stop - start, step)
    ensures forall i :: 0 <= i < |Arange(start, stop, step)| ==>
              Arange(start, stop, step)[i] == start + i * step
    decreases stop - start
  {
    if start < stop {
      var r, rest := Arange(start, stop, step), Arange(start + step, stop, step);
      ArangeShape(start + step, stop, step);
      forall i | 0 < i < |r|
        ensures r[i] == start + i * step
      {
        assert r[i] == rest[i - 1];
      }
    }
  }

  /** `np.where(a <= t)` restricted to the indices from `from` on: the indices
      whose entry is at most `t`, in increasing order. */
  function WhereAtMost(a: seq<int>, t: int, from: nat): (idx: seq<nat>)
    requires from <= |a|
    ensures |idx| <= |a| - from
    ensures forall k :: 0 <= k < |idx| ==> from <= idx[k] < |a| && a[idx[k]] <= t
    decreases |a| - from
  {
    if from == |a| then []
    else
      var rest := WhereAtMost(a, t, from + 1);
      if a[from] <= t then [from] + rest else rest
  }

  /** The indices `np.where` returns are in increasing order. */
  lemma {:induction false} WhereAtMostIncreasing(a: seq<int>, t: int, from: nat)
    requires from <= |a|
    ensures forall k, l :: 0 <= k < l < |WhereAtMost(a, t, from)| ==>
              WhereAtMost(a, t, from)[k] < WhereAtMost(a, t, from)[l]
    decreases |a| - from
  {
    if from < |a| {
      WhereAtMostIncreasing(a, t, from + 1);
    }
  }

  /** `np.where(a <= t)`. */
  function Where(a: seq<int>, t: int): (idx: seq<nat>)
    ensures forall k :: 0 <= k < |idx| ==> idx[k] < |a| && a[idx[k]] <= t
  {
    WhereAtMost(a, t, 0)
  }

  /** `np.where(a <= t)` selects exactly the entries that are at most t. */
  lemma {:induction false} WhereSelectsExactly(a: seq<int>, t: int, from: nat)
    requires from <= |a|
    ensures forall i :: from <= i < |a| ==> (i in WhereAtMost(a, t, from) <==> a[i] <= t)
    decreases |a| - from
  {
    if from < |a| {
      WhereSelectsExactly(a, t, from + 1);
    }
  }

  /** Fancy indexing `a[idx]`. */
  function Take<T>(a: seq<T>, idx: seq<nat>): (r: seq<T>)
    requires forall k :: 0 <= k < |idx| ==> idx[k] < |a|
    ensures |r| == |idx|
    ensures forall k :: 0 <= k < |idx| ==> r[k] == a[idx[k]]
  {
    seq(|idx|, k requires 0 <= k < |idx| => a[idx[k]])
  }

  ghost predicate StrictlyAscending(a: seq<int>)
  {
    forall i, j :: 0 <= i < j < |a| ==> a[i] < a[j]
  }

  /** Nothing is selected from a stretch whose entries all exceed t. */
  lemma {:induction false} WhereAllAbove(a: seq<int>, t: int, from: nat)
    requires from <= |a|
    requires forall i :: from <= i < |a| ==> a[i] > t
    ensures WhereAtMost(a, t, from) == []
    decreases |a| - from
  {
    if from < |a| {
      WhereAllAbove(a, t, from + 1);
    }
  }

  /** On an ascending array the `<=` selection is a prefix: it keeps the
      first m entries, and entry m (if any) is above the threshold. */
  lemma {:induction false} WhereOnAscending(a: seq<int>, t: int, from: nat)
    requires from <= |a|
    requires StrictlyAscending(a)
    ensures var idx := WhereAtMost(a, t, from);
      (forall k :: 0 <= k < |idx| ==> idx[k] == from + k) &&
      (from + |idx| == |a| || a[from + |idx|] > t)
    decreases |a| - from
  {
    if from < |a| {
      WhereOnAscending(a, t, from + 1);
      var rest := WhereAtMost(a, t, from + 1);
      var idx := WhereAtMost(a, t, from);
      if a[from] > t {
        // nothing later can be selected, since everything later is larger
        WhereAllAbove(a, t, from);
      } else {
        assert idx == [from] + rest;
        assert from + |idx| == |a| || a[from + |idx|] > t by {
          assert from + 1 + |rest| == from + |idx|;
        }
        forall k | 0 < k < |idx|
          ensures idx[k] == from + k
        {
          assert idx[k] == rest[k - 1];
        }
      }
    }
  }

  /** Selecting an ascending array at its own `<= t` indices keeps a prefix:
      every entry up to the cut is kept and the first dropped one is above t. */
  lemma TakeWhereAscending(a: seq<int>, t: int)
    requires StrictlyAscending(a)
    ensures Take(a, Where(a, t)) == a[..|Where(a, t)|]
    ensures |Where(a, t)| == |a| || a[|Where(a, t)|] > t
  {
    WhereOnAscending(a, t, 0);
  }

  /** `np.concatenate` of a list of arrays, built as the script builds it:
      one appended array at a time. NumPy refuses an empty list (it raises
      ValueError); this join gives [] for it, and the sweep loop models the
      exception where the script can reach it (SweepScheduler.RunSweep). */
  function Concatenate<T>(chunks: seq<seq<T>>): (r: seq<T>)
  {
    if chunks == [] then [] else Concatenate(chunks[..|chunks| - 1]) + chunks[|chunks| - 1]
  }

  /** Chunks of width w (the last one possibly shorter) laid from `base` with
      spacing `res` concatenate into one uniform grid. */
  lemma {:induction false} ConcatenateUniform(chunks: seq<seq<int>>, w: nat, base: int, res: int)
    requires forall j :: 0 <= j < |chunks| - 1 ==> |chunks[j]| == w
    requires |chunks| > 0 ==> |chunks[|chunks| - 1]| <= w
    requires forall j, i :: 0 <= j < |chunks| && 0 <= i < |chunks[j]| ==>
               chunks[j][i] == base + (j * w + i) * res
    ensures |chunks| > 0 ==> |Concatenate(chunks)| == (|chunks| - 1) * w + |chunks[|chunks| - 1]|
    ensures forall m :: 0 <= m < |Concatenate(chunks)| ==> Concatenate(chunks)[m] == base + m * res
  {
    if chunks != [] {
      var n := |chunks|;
      var init := chunks[..n - 1];
      ConcatenateUniform(init, w, base, res);
      var c, last := Concatenate(init), chunks[n - 1];
      assert |c| == (n - 1) * w by {
        if n > 1 { assert |init[n - 2]| == w; }
      }
      forall m | 0 <= m < |Concatenate(chunks)|
        ensures Concatenate(chunks)[m] == base + m * res
      {
        if m >= |c| {
          var i := m - |c|;
          assert Concatenate(chunks)[m] == last[i];
          assert last[i] == base + ((n - 1) * w + i) * res;
        }
      }
    }
  }

  /** The length of a concatenation is the sum of the chunk lengths, bounded
      by width times count when no chunk is wider than w. */
  lemma {:induction false} ConcatenateLengthBound<T>(chunks: seq<seq<T>>, w: nat)
    requires forall j :: 0 <= j < |chunks| ==> |chunks[j]| <= w
    ensures |Concatenate(chunks)| <= |chunks| * w
  {
    if chunks != [] {
      ConcatenateLengthBound(chunks[..|chunks| - 1], w);
      MulPred(|chunks|, w);
    }
  }

  lemma MulPred(n: int, w: int)
    ensures (n - 1) * w + w == n * w
  {
  }

  /** Pairwise equal-length chunks concatenate to equal lengths. */
  lemma {:induction false} ConcatenateSameLength<T, U>(a: seq<seq<T>>, b: seq<seq<U>>)
    requires |a| == |b|
    requires forall j :: 0 <= j < |a| ==> |a[j]| == |b[j]|
    ensures |Concatenate(a)| == |Concatenate(b)|
  {
    if a != [] {
      ConcatenateSameLength(a[..|a| - 1], b[..|b| - 1]);
    }
  }
}
