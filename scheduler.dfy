/** The sweep loop of the script's main block: `n_sweeps` wideband sweeps,
    each bracketed by two wall-clock readings whose midpoint is appended to
    `datetime_arr`, which is saved after every sweep; the frequency axis is
    saved once, guarded by `save_freq_arr_once`; every sweep's concatenated
    PSD is saved under its sweep index. Clock readings are integers in
    microseconds, supplied by a parameter `now`: `now(k)` is the k-th reading
    the loop takes. */
module SweepScheduler {
  import NumPy
  import opened Pluto
  import opened Persistence
  import opened SpectralEstimator
  import opened SpectrumStitcher
  import opened SweepEngine

  /** `timedelta / 2` for a duration of d microseconds: Python divides and
      rounds a half microsecond to the even neighbour. */
  function HalfDuration(d: int): (h: int)
    ensures d % 2 == 0 ==> 2 * h == d
    ensures d % 2 == 1 ==> (2 * h == d - 1 || 2 * h == d + 1) && h % 2 == 0
  {
    var q := d / 2;
    if d % 2 == 1 && q % 2 == 1 then q + 1 else q
  }

  /** `start + (stop - start) / 2`: within half a microsecond of the true
      midpoint, and between the two readings when they are in order. */
  function Midpoint(start: int, stop: int): (m: int)
    ensures -1 <= 2 * m - (start + stop) <= 1
    ensures start <= stop ==> start <= m <= stop
  {
    start + HalfDuration(stop - start)
  }

  /** `datetime_arr` after n sweeps: sweep j reads the clock at 2j before and
      at 2j + 1 after measuring. */
  function Midpoints(now: nat -> int, n: nat): (r: seq<int>)
    ensures |r| == n
  {
    if n == 0 then [] else Midpoints(now, n - 1) + [Midpoint(now(2 * (n - 1)), now(2 * (n - 1) + 1))]
  }

  /** There is one timestamp per sweep, the midpoint of that sweep's readings. */
  lemma {:induction false} MidpointsShape(now: nat -> int, n: nat)
    ensures |Midpoints(now, n)| == n
    ensures forall j :: 0 <= j < n ==> Midpoints(now, n)[j] == Midpoint(now(2 * j), now(2 * j + 1))
  {
    if n > 0 {
      MidpointsShape(now, n - 1);
      var prev := Midpoints(now, n - 1);
      assert Midpoints(now, n) == prev + [Midpoint(now(2 * (n - 1)), now(2 * (n - 1) + 1))];
    }
  }

  /** Position p of block s when blocks are w entries wide. */
  function Slot(s: int, w: int, p: int): int
  {
    s * w + p
  }

  /** n copies of blk, one after another. */
  function Repeat<T>(blk: seq<T>, n: nat): seq<T>
  {
    if n == 0 then [] else Repeat(blk, n - 1) + blk
  }

  /** n copies take n times the room of one. */
  lemma {:induction false} RepeatLength<T>(blk: seq<T>, n: nat)
    ensures |Repeat(blk, n)| == n * |blk|
  {
    if n > 0 {
      RepeatLength(blk, n - 1);
      NumPy.MulPred(n, |blk|);
    }
  }

  /** Entry p of copy s sits at Slot(s, |blk|, p). */
  lemma {:induction false} RepeatAt<T>(blk: seq<T>, n: nat, s: nat, p: nat)
    requires s < n && p < |blk|
    ensures Slot(s, |blk|, p) < |Repeat(blk, n)|
    ensures Repeat(blk, n)[Slot(s, |blk|, p)] == blk[p]
  {
    var prev := Repeat(blk, n - 1);
    RepeatLength(blk, n - 1);
    RepeatLength(blk, n);
    if s < n - 1 {
      RepeatAt(blk, n - 1, s, p);
    } else {
      assert Slot(s, |blk|, p) == |prev| + p;
    }
  }

  /** Copy s occupies the s-th block of |blk| entries. */
  lemma RepeatLayout<T>(blk: seq<T>, n: nat)
    ensures forall s, p :: 0 <= s < n && 0 <= p < |blk| ==>
              Slot(s, |blk|, p) < |Repeat(blk, n)| && Repeat(blk, n)[Slot(s, |blk|, p)] == blk[p]
  {
    forall s, p | 0 <= s < n && 0 <= p < |blk|
      ensures Slot(s, |blk|, p) < |Repeat(blk, n)| && Repeat(blk, n)[Slot(s, |blk|, p)] == blk[p]
    {
      RepeatAt(blk, n, s, p);
    }
  }

  /** Over n back-to-back sweeps the receiver sees the calls of one sweep n
      times over: sweep s's calls fill the s-th block of 3 |centers| events. */
  lemma RepeatedSweepEvents(centers: seq<int>, n: nat)
    ensures |Repeat(SweepEvents(centers), n)| == n * (3 * |centers|)
    ensures forall s, j :: 0 <= s < n && 0 <= j < |centers| ==>
              && Repeat(SweepEvents(centers), n)[Slot(s, 3 * |centers|, 3 * j)] == Tune(centers[j])
              && Repeat(SweepEvents(centers), n)[Slot(s, 3 * |centers|, 3 * j + 1)] == DestroyBuffer
              && Repeat(SweepEvents(centers), n)[Slot(s, 3 * |centers|, 3 * j + 2)] == Capture(centers[j], false)
  {
    SweepEventsOrder(centers);
    RepeatLength(SweepEvents(centers), n);
    RepeatLayout(SweepEvents(centers), n);
  }

  /** The number of sweep s's first capture, when every sweep makes `count`
      captures and sweep 0 starts at capture `firstCapture`. */
  function SweepStart(firstCapture: nat, s: nat, count: nat): nat
  {
    if s == 0 then firstCapture else SweepStart(firstCapture, s - 1, count) + count
  }

  /** Sweep s starts s sweeps' worth of captures after the first. */
  lemma {:induction false} SweepStartIs(firstCapture: nat, s: nat, count: nat)
    ensures SweepStart(firstCapture, s, count) == firstCapture + s * count
  {
    if s > 0 {
      SweepStartIs(firstCapture, s - 1, count);
      NumPy.MulPred(s, count);
    }
  }

  /** `axis` and `psdOf` name what the measurement yields: `axis` is the
      saved frequency axis and `psdOf(c)` the wideband PSD of a sweep whose
      first capture is number c. The link is instantiated only where a
      SweepPsd term is already at hand. */
  ghost predicate SweepOutputs(axis: seq<int>, psdOf: nat -> seq<real>, welch: Block -> seq<real>,
                               samples: (int, nat) -> Block, centers: seq<int>, nfft: nat, res: int, threshold: int)
  {
    && (forall b :: |welch(b)| == nfft)
    && forall c {:trigger SweepPsd(welch, samples, centers, c, nfft, res, threshold)} ::
         && psdOf(c) == SweepPsd(welch, samples, centers, c, nfft, res, threshold)
         && axis == SweepAxis(centers, nfft, res, threshold)
  }

  /** The wideband PSD as a function of the sweep's first capture number. */
  function PsdOfSweep(welch: Block -> seq<real>, samples: (int, nat) -> Block, centers: seq<int>,
                      nfft: nat, res: int, threshold: int): nat -> seq<real>
    requires forall b :: |welch(b)| == nfft
  {
    (c: nat) => SweepPsd(welch, samples, centers, c, nfft, res, threshold)
  }

  /** The sweep's own axis and PSDs are what SweepOutputs names. */
  lemma PsdOfSweepOutputs(welch: Block -> seq<real>, samples: (int, nat) -> Block, centers: seq<int>,
                          nfft: nat, res: int, threshold: int)
    requires forall b :: |welch(b)| == nfft
    ensures SweepOutputs(SweepAxis(centers, nfft, res, threshold), PsdOfSweep(welch, samples, centers, nfft, res, threshold),
                         welch, samples, centers, nfft, res, threshold)
  {
  }

  /** The PSD arrays of n sweeps of `count` captures each, the first sweep's
      first capture being number `firstCapture`. */
  function SweepPsds(psdOf: nat -> seq<real>, firstCapture: nat, n: nat, count: nat): (r: seq<seq<real>>)
    ensures |r| == n
  {
    if n == 0 then [] else SweepPsds(psdOf, firstCapture, n - 1, count) + [psdOf(SweepStart(firstCapture, n - 1, count))]
  }

  /** Entry j is the PSD of sweep j, whose first capture is SweepStart(firstCapture, j, count). */
  lemma {:induction false} SweepPsdsAt(psdOf: nat -> seq<real>, firstCapture: nat, n: nat, count: nat)
    ensures forall j :: 0 <= j < n ==> SweepPsds(psdOf, firstCapture, n, count)[j] == psdOf(SweepStart(firstCapture, j, count))
  {
    if n > 0 {
      SweepPsdsAt(psdOf, firstCapture, n - 1, count);
    }
  }

  /** Every saved PSD array has the length of the saved frequency axis. */
  lemma {:induction false} SweepPsdsShape(axis: seq<int>, psdOf: nat -> seq<real>, welch: Block -> seq<real>,
                                          samples: (int, nat) -> Block, centers: seq<int>, firstCapture: nat, n: nat,
                                          nfft: nat, res: int, threshold: int)
    requires SweepOutputs(axis, psdOf, welch, samples, centers, nfft, res, threshold)
    requires IsPowerOfTwo(nfft) && res > 0
    ensures forall j :: 0 <= j < n ==> |SweepPsds(psdOf, firstCapture, n, |centers|)[j]| == |axis|
  {
    if n > 0 {
      var c := SweepStart(firstCapture, n - 1, |centers|);
      SweepPsdsShape(axis, psdOf, welch, samples, centers, firstCapture, n - 1, nfft, res, threshold);
      SweepPsdMatchesAxis(welch, samples, centers, c, nfft, res, threshold);
      AppendUniformLength(SweepPsds(psdOf, firstCapture, n - 1, |centers|), psdOf(c), |axis|);
    }
  }

  lemma AppendUniformLength<T>(xs: seq<seq<T>>, x: seq<T>, len: nat)
    requires forall j :: 0 <= j < |xs| ==> |xs[j]| == len
    requires |x| == len
    ensures forall j :: 0 <= j < |xs + [x]| ==> |(xs + [x])[j]| == len
  {
  }

  /** The saves of one sweep, the k-th (from zero), of the loop. */
  function SweepSaves(k: nat, stamps: seq<int>, axis: seq<int>, psd: seq<real>): seq<SaveOp>
  {
    [SaveDatetimes(stamps)] + (if k == 0 then [SaveFreqAxis(axis)] else []) + [SavePsd(k, psd)]
  }

  /** The save log of the sweeps whose timestamps are `stamps` and whose PSD
      arrays are `psds`, the frequency axis being `axis`. */
  function SweepLog(stamps: seq<int>, axis: seq<int>, psds: seq<seq<real>>): (log: seq<SaveOp>)
    requires |stamps| == |psds|
    ensures |log| == if psds == [] then 0 else 2 * |psds| + 1
  {
    if psds == [] then []
    else
      var k := |psds| - 1;
      SweepLog(stamps[..k], axis, psds[..k]) + SweepSaves(k, stamps, axis, psds[k])
  }

  /** Where sweep j's timestamp list is saved: first in the log for sweep 0,
      after sweep j - 1's PSD otherwise. */
  function StampsSlot(j: nat): nat
  {
    if j == 0 then 0 else 2 * j + 1
  }

  /** The frequency axis is saved exactly once, second in the log, between
      sweep 0's timestamp list and its PSD. */
  lemma {:induction false} SweepLogAxisOnce(stamps: seq<int>, axis: seq<int>, psds: seq<seq<real>>)
    requires |stamps| == |psds|
    ensures forall p :: 0 <= p < |SweepLog(stamps, axis, psds)| ==>
              (SweepLog(stamps, axis, psds)[p].SaveFreqAxis? <==> p == 1)
    ensures psds != [] ==> SweepLog(stamps, axis, psds)[1] == SaveFreqAxis(axis)
  {
    if psds != [] {
      var k := |psds| - 1;
      SweepLogAxisOnce(stamps[..k], axis, psds[..k]);
    }
  }

  /** Sweep j's PSD is saved under index j at position 2j + 2. */
  lemma {:induction false} SweepLogPsdAt(stamps: seq<int>, axis: seq<int>, psds: seq<seq<real>>)
    requires |stamps| == |psds|
    ensures forall j :: 0 <= j < |psds| ==> SweepLog(stamps, axis, psds)[2 * j + 2] == SavePsd(j, psds[j])
  {
    if psds != [] {
      var k := |psds| - 1;
      SweepLogPsdAt(stamps[..k], axis, psds[..k]);
      forall j | 0 <= j < k
        ensures psds[..k][j] == psds[j]
      {
      }
    }
  }

  /** After sweep j the timestamp list saved holds the first j + 1 midpoints. */
  lemma {:induction false} SweepLogStampsAt(stamps: seq<int>, axis: seq<int>, psds: seq<seq<real>>)
    requires |stamps| == |psds|
    ensures forall j :: 0 <= j < |psds| ==>
              SweepLog(stamps, axis, psds)[StampsSlot(j)] == SaveDatetimes(stamps[..j + 1])
  {
    if psds != [] {
      var k := |psds| - 1;
      SweepLogStampsAt(stamps[..k], axis, psds[..k]);
    }
  }

  /** A PSD save for sweep index j sits nowhere but at position 2j + 2, so
      no sweep index is saved twice. */
  lemma {:induction false} SweepLogPsdIndex(stamps: seq<int>, axis: seq<int>, psds: seq<seq<real>>)
    requires |stamps| == |psds|
    ensures forall p :: 0 <= p < |SweepLog(stamps, axis, psds)| && SweepLog(stamps, axis, psds)[p].SavePsd? ==>
              p == 2 * SweepLog(stamps, axis, psds)[p].sweep + 2
  {
    if psds != [] {
      var k := |psds| - 1;
      SweepLogPsdIndex(stamps[..k], axis, psds[..k]);
    }
  }

  /** What n sweeps save, for the sweeps' own axis and PSDs: 2n + 1 saves
      (none when n is 0); the axis once, second in the log; sweep j's
      midpoint list at StampsSlot(j) holding the first j + 1 midpoints; and
      sweep j's PSD, as long as the axis, under index j at position 2j + 2. */
  lemma SweepLogLayout(stamps: seq<int>, axis: seq<int>, psdOf: nat -> seq<real>, welch: Block -> seq<real>,
                       samples: (int, nat) -> Block, centers: seq<int>, firstCapture: nat, n: nat,
                       nfft: nat, res: int, threshold: int)
    requires SweepOutputs(axis, psdOf, welch, samples, centers, nfft, res, threshold)
    requires IsPowerOfTwo(nfft) && res > 0
    requires |stamps| == n
    ensures var log := SweepLog(stamps, axis, SweepPsds(psdOf, firstCapture, n, |centers|));
      && |log| == (if n == 0 then 0 else 2 * n + 1)
      && (n > 0 ==> log[1] == SaveFreqAxis(axis))
      && (forall p :: 0 <= p < |log| ==> (log[p].SaveFreqAxis? <==> p == 1))
      && (forall j :: 0 <= j < n ==> log[StampsSlot(j)] == SaveDatetimes(stamps[..j + 1]))
      && (forall j :: 0 <= j < n ==>
            && log[2 * j + 2] == SavePsd(j, psdOf(SweepStart(firstCapture, j, |centers|)))
            && |log[2 * j + 2].psd| == |axis|)
  {
    var psds := SweepPsds(psdOf, firstCapture, n, |centers|);
    SweepLogAxisOnce(stamps, axis, psds);
    SweepLogStampsAt(stamps, axis, psds);
    SweepLogPsdAt(stamps, axis, psds);
    SweepPsdsAt(psdOf, firstCapture, n, |centers|);
    SweepPsdsShape(axis, psdOf, welch, samples, centers, firstCapture, n, nfft, res, threshold);
  }

  /** One pass of the sweep loop: read the clock, sweep, read the clock,
      append and save the midpoint list, save the axis if the flag is still
      set (clearing it), and save this sweep's PSD. The saved axis and PSD
      are named `axis` and `psdOf(c)`, c being the sweep's first capture
      (see SweepOutputs). With an empty plan the sweep returns two empty
      lists, and `np.concatenate` of an empty list raises ValueError: on the
      axis save while the flag is set, on the PSD save otherwise. `raised`
      reports that exception, which ends the script after the midpoint list
      is saved. */
  method RunSweep(rx: Receiver, store: Store, centers: seq<int>, nfft: nat, sampleRate: int,
                  freqStop: int, freqBinRes: int, welch: Block -> seq<real>, now: nat -> int,
                  sweepIdx: nat, stamps: seq<int>, saveFreqArrOnce: bool,
                  ghost axis: seq<int>, ghost psdOf: nat -> seq<real>)
    returns (stamps': seq<int>, saveFreqArrOnce': bool, raised: bool)
    requires nfft > 0 && sampleRate % nfft == 0
    requires SweepOutputs(axis, psdOf, welch, rx.samples, centers, nfft, sampleRate / nfft, TrimThreshold(freqStop, freqBinRes))
    requires saveFreqArrOnce == (sweepIdx == 0)
    modifies rx, store
    ensures stamps' == stamps + [Midpoint(now(2 * sweepIdx), now(2 * sweepIdx + 1))]
    ensures raised <==> centers == []
    ensures !raised ==> !saveFreqArrOnce'
    ensures !raised ==> store.log == old(store.log) + SweepSaves(sweepIdx, stamps', axis, psdOf(old(rx.captures)))
    ensures raised ==> saveFreqArrOnce' == saveFreqArrOnce && store.log == old(store.log) + [SaveDatetimes(stamps')]
    ensures rx.events == old(rx.events) + SweepEvents(centers)
    ensures rx.captures == old(rx.captures) + |centers|
    ensures rx.rxLo == (if centers == [] then old(rx.rxLo) else centers[|centers| - 1])
    ensures rx.stale == (old(rx.stale) && centers == [])
  {
    var startDatetime := now(2 * sweepIdx);
    var freqArr, psdArr := MeasurePsdWideband(rx, centers, nfft, sampleRate, freqStop, freqBinRes, welch);
    SweepConcatenations(freqArr, psdArr, axis, psdOf, welch, rx.samples, centers, old(rx.captures), nfft,
                        sampleRate / nfft, TrimThreshold(freqStop, freqBinRes));
    var stopDatetime := now(2 * sweepIdx + 1);
    stamps' := stamps + [Midpoint(startDatetime, stopDatetime)];
    ghost var log0 := store.log;
    store.Save(SaveDatetimes(stamps'));
    ghost var written := [SaveDatetimes(stamps')];
    saveFreqArrOnce' := saveFreqArrOnce;
    raised := false;
    if saveFreqArrOnce' {
      if freqArr == [] {
        raised := true;
        return;
      }
      store.Save(SaveFreqAxis(NumPy.Concatenate(freqArr)));
      AppendOne(log0, written, SaveFreqAxis(axis));
      written := written + [SaveFreqAxis(axis)];
      saveFreqArrOnce' := false;
    }
    if psdArr == [] {
      raised := true;
      return;
    }
    store.Save(SavePsd(sweepIdx, NumPy.Concatenate(psdArr)));
    AppendOne(log0, written, SavePsd(sweepIdx, psdOf(old(rx.captures))));
    written := written + [SavePsd(sweepIdx, psdOf(old(rx.captures)))];
    assert written == SweepSaves(sweepIdx, stamps', axis, psdOf(old(rx.captures)));
  }

  lemma AppendOne<T>(s: seq<T>, t: seq<T>, x: T)
    ensures s + t + [x] == s + (t + [x])
  {
  }

  /** The concatenated chunks of one sweep are the saved axis and that
      sweep's PSD. */
  lemma SweepConcatenations(freqArr: seq<seq<int>>, psdArr: seq<seq<real>>, axis: seq<int>, psdOf: nat -> seq<real>,
                            welch: Block -> seq<real>, samples: (int, nat) -> Block, centers: seq<int>,
                            firstCapture: nat, nfft: nat, res: int, threshold: int)
    requires SweepOutputs(axis, psdOf, welch, samples, centers, nfft, res, threshold)
    requires freqArr == FreqChunks(centers, nfft, res, threshold)
    requires psdArr == PsdChunks(Estimates(welch, samples, centers, firstCapture), centers, nfft, res, threshold)
    ensures NumPy.Concatenate(freqArr) == axis
    ensures NumPy.Concatenate(psdArr) == psdOf(firstCapture)
  {
    var psd := SweepPsd(welch, samples, centers, firstCapture, nfft, res, threshold);
  }

  /** What n sweeps leave behind: the timestamp list, the cleared flag, the
      save log, the driver calls and the capture count. */
  ghost predicate SweepsDone(log: seq<SaveOp>, events: seq<RxEvent>, captures: nat, stamps: seq<int>, flag: bool,
                             log0: seq<SaveOp>, events0: seq<RxEvent>, firstCapture: nat, n: nat,
                             centers: seq<int>, axis: seq<int>, psdOf: nat -> seq<real>, now: nat -> int)
  {
    && flag == (n == 0)
    && stamps == Midpoints(now, n)
    && log == log0 + SweepLog(stamps, axis, SweepPsds(psdOf, firstCapture, n, |centers|))
    && events == events0 + Repeat(SweepEvents(centers), n)
    && captures == SweepStart(firstCapture, n, |centers|)
  }

  /** What the first sweep over an empty plan leaves behind when its
      `np.concatenate` raises: one midpoint, saved, and nothing else. */
  ghost predicate SweepRaised(log: seq<SaveOp>, events: seq<RxEvent>, captures: nat, stamps: seq<int>,
                              log0: seq<SaveOp>, events0: seq<RxEvent>, firstCapture: nat, now: nat -> int)
  {
    && stamps == Midpoints(now, 1)
    && log == log0 + [SaveDatetimes(stamps)]
    && events == events0
    && captures == firstCapture
  }

  /** The state of the sweep loop after n passes: either the n sweeps are
      done, or the first sweep of an empty plan raised. */
  ghost predicate LoopState(raised: bool, log: seq<SaveOp>, events: seq<RxEvent>, captures: nat, stamps: seq<int>,
                            flag: bool, log0: seq<SaveOp>, events0: seq<RxEvent>, firstCapture: nat, n: nat,
                            centers: seq<int>, axis: seq<int>, psdOf: nat -> seq<real>, now: nat -> int)
  {
    if raised then centers == [] && n == 1 && SweepRaised(log, events, captures, stamps, log0, events0, firstCapture, now)
    else (centers == [] ==> n == 0)
         && SweepsDone(log, events, captures, stamps, flag, log0, events0, firstCapture, n, centers, axis, psdOf, now)
  }

  /** The oscillator and the buffer after n sweeps: tuned to the last center
      with a fresh buffer once a sweep has visited a center, as before the
      loop otherwise. */
  ghost predicate TunedAfter(rxLo: int, stale: bool, lo0: int, stale0: bool, centers: seq<int>, n: nat)
  {
    if centers == [] || n == 0 then rxLo == lo0 && stale == stale0
    else rxLo == centers[|centers| - 1] && !stale
  }

  /** When the loop stops, after all nSweeps passes or on the exception, its
      state is what the loop promises. */
  lemma LoopExit(raised: bool, log: seq<SaveOp>, events: seq<RxEvent>, captures: nat, stamps: seq<int>,
                 flag: bool, log0: seq<SaveOp>, events0: seq<RxEvent>, firstCapture: nat, n: nat, nSweeps: nat,
                 centers: seq<int>, axis: seq<int>, psdOf: nat -> seq<real>, now: nat -> int)
    requires n <= nSweeps && (raised || n == nSweeps)
    requires LoopState(raised, log, events, captures, stamps, flag, log0, events0, firstCapture, n,
                       centers, axis, psdOf, now)
    ensures raised <==> centers == [] && nSweeps > 0
    ensures !raised ==> stamps == Midpoints(now, nSweeps)
    ensures !raised ==> log == log0 + SweepLog(stamps, axis, SweepPsds(psdOf, firstCapture, nSweeps, |centers|))
    ensures raised ==> stamps == Midpoints(now, 1) && log == log0 + [SaveDatetimes(stamps)]
    ensures events == events0 + Repeat(SweepEvents(centers), nSweeps)
    ensures captures == firstCapture + nSweeps * |centers|
  {
    if raised {
      RepeatLength(SweepEvents(centers), nSweeps);
    } else {
      SweepStartIs(firstCapture, nSweeps, |centers|);
    }
  }

  /** The loop `for sweep_idx in range(n_sweeps)` of the main block, with the
      configuration it reads passed in; `axis` and `psdOf` name the axis and
      the PSDs the sweeps measure (see SweepOutputs). An empty plan raises in
      the first sweep, which `raised` reports. */
  method RunSweeps(rx: Receiver, store: Store, centers: seq<int>, nfft: nat, sampleRate: int,
                   freqStop: int, freqBinRes: int, welch: Block -> seq<real>, now: nat -> int, nSweeps: nat,
                   ghost axis: seq<int>, ghost psdOf: nat -> seq<real>)
    returns (datetimeArr: seq<int>, raised: bool)
    requires nfft > 0 && sampleRate % nfft == 0
    requires SweepOutputs(axis, psdOf, welch, rx.samples, centers, nfft, sampleRate / nfft, TrimThreshold(freqStop, freqBinRes))
    modifies rx, store
    ensures raised <==> centers == [] && nSweeps > 0
    ensures !raised ==> datetimeArr == Midpoints(now, nSweeps)
    ensures !raised ==> store.log == old(store.log) + SweepLog(datetimeArr, axis, SweepPsds(psdOf, old(rx.captures), nSweeps, |centers|))
    ensures raised ==> datetimeArr == Midpoints(now, 1) && store.log == old(store.log) + [SaveDatetimes(datetimeArr)]
    ensures rx.events == old(rx.events) + Repeat(SweepEvents(centers), nSweeps)
    ensures rx.captures == old(rx.captures) + nSweeps * |centers|
    ensures TunedAfter(rx.rxLo, rx.stale, old(rx.rxLo), old(rx.stale), centers, nSweeps)
  {
    ghost var firstCapture := rx.captures;
    ghost var log0, events0 := store.log, rx.events;
    var saveFreqArrOnce := true;
    datetimeArr := [];
    raised := false;
    var sweepIdx := 0;
    assert log0 + [] == log0;
    assert events0 + [] == events0;
    while sweepIdx < nSweeps && !raised
      invariant sweepIdx <= nSweeps
      invariant LoopState(raised, store.log, rx.events, rx.captures, datetimeArr, saveFreqArrOnce, log0, events0,
                          firstCapture, sweepIdx, centers, axis, psdOf, now)
      invariant TunedAfter(rx.rxLo, rx.stale, old(rx.rxLo), old(rx.stale), centers, sweepIdx)
    {
      datetimeArr, saveFreqArrOnce, raised :=
        SweepIteration(rx, store, centers, nfft, sampleRate, freqStop, freqBinRes, welch, now, sweepIdx,
                       datetimeArr, saveFreqArrOnce, log0, events0, firstCapture, axis, psdOf);
      sweepIdx := sweepIdx + 1;
    }
    LoopExit(raised, store.log, rx.events, rx.captures, datetimeArr, saveFreqArrOnce, log0, events0,
             firstCapture, sweepIdx, nSweeps, centers, axis, psdOf, now);
  }

  /** One iteration of the sweep loop, with the loop's bookkeeping: after it
      the timestamp list, the save log, the driver calls and the capture
      count are those of sweepIdx + 1 sweeps, unless the plan is empty and
      the sweep raised. */
  method SweepIteration(rx: Receiver, store: Store, centers: seq<int>, nfft: nat, sampleRate: int,
                        freqStop: int, freqBinRes: int, welch: Block -> seq<real>, now: nat -> int,
                        sweepIdx: nat, stamps: seq<int>, saveFreqArrOnce: bool,
                        ghost log0: seq<SaveOp>, ghost events0: seq<RxEvent>, ghost firstCapture: nat,
                        ghost axis: seq<int>, ghost psdOf: nat -> seq<real>)
    returns (stamps': seq<int>, saveFreqArrOnce': bool, raised: bool)
    requires nfft > 0 && sampleRate % nfft == 0
    requires SweepOutputs(axis, psdOf, welch, rx.samples, centers, nfft, sampleRate / nfft, TrimThreshold(freqStop, freqBinRes))
    requires LoopState(false, store.log, rx.events, rx.captures, stamps, saveFreqArrOnce, log0, events0,
                       firstCapture, sweepIdx, centers, axis, psdOf, now)
    modifies rx, store
    ensures LoopState(raised, store.log, rx.events, rx.captures, stamps', saveFreqArrOnce', log0, events0,
                      firstCapture, sweepIdx + 1, centers, axis, psdOf, now)
    ensures rx.rxLo == (if centers == [] then old(rx.rxLo) else centers[|centers| - 1])
    ensures rx.stale == (old(rx.stale) && centers == [])
  {
    ghost var prevLog := store.log;
    ghost var prevEvents := rx.events;
    stamps', saveFreqArrOnce', raised :=
      RunSweep(rx, store, centers, nfft, sampleRate, freqStop, freqBinRes, welch, now, sweepIdx,
               stamps, saveFreqArrOnce, axis, psdOf);
    MidpointsStep(now, sweepIdx);
    if !raised {
      LogAfterSweep(log0, prevLog, store.log, stamps, Midpoint(now(2 * sweepIdx), now(2 * sweepIdx + 1)),
                    axis, SweepPsds(psdOf, firstCapture, sweepIdx, |centers|),
                    psdOf(SweepStart(firstCapture, sweepIdx, |centers|)));
      EventsAfterSweep(events0, prevEvents, rx.events, SweepEvents(centers), sweepIdx);
    }
  }

  /** One more sweep extends the log of the sweeps so far by its saves. */
  lemma LogAfterSweep(log0: seq<SaveOp>, prevLog: seq<SaveOp>, newLog: seq<SaveOp>, stamps: seq<int>, m: int,
                      axis: seq<int>, psds: seq<seq<real>>, psd: seq<real>)
    requires |stamps| == |psds|
    requires prevLog == log0 + SweepLog(stamps, axis, psds)
    requires newLog == prevLog + SweepSaves(|psds|, stamps + [m], axis, psd)
    ensures newLog == log0 + SweepLog(stamps + [m], axis, psds + [psd])
  {
    SweepLogGrows(stamps, m, axis, psds, psd);
  }

  lemma MidpointsStep(now: nat -> int, n: nat)
    ensures Midpoints(now, n + 1) == Midpoints(now, n) + [Midpoint(now(2 * n), now(2 * n + 1))]
  {
  }

  lemma EventsAfterSweep<T>(e0: seq<T>, prev: seq<T>, next: seq<T>, blk: seq<T>, n: nat)
    requires prev == e0 + Repeat(blk, n)
    requires next == prev + blk
    ensures next == e0 + Repeat(blk, n + 1)
  {
  }

  /** Appending one sweep extends the log by that sweep's saves. */
  lemma SweepLogGrows(stamps: seq<int>, m: int, axis: seq<int>, psds: seq<seq<real>>, psd: seq<real>)
    requires |stamps| == |psds|
    ensures SweepLog(stamps + [m], axis, psds + [psd])
         == SweepLog(stamps, axis, psds) + SweepSaves(|psds|, stamps + [m], axis, psd)
  {
    assert (psds + [psd])[..|psds|] == psds;
    assert (stamps + [m])[..|psds|] == stamps;
  }
}
