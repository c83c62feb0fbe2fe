/** `measure_psd_wideband`: one sweep over the planned centers. Per center it
    retunes, destroys the buffer, captures, estimates the two-sided PSD,
    reorders and recenters it, trims the last sub-band and appends the
    arrays. The Welch estimator is a parameter: `welch(block)` stands for the
    nfft PSD values `ss.welch` returns for a block at the configured sample
    rate, in FFT-native order. */
module SweepEngine {
  import NumPy
  import opened Pluto
  import opened SpectralEstimator
  import opened SpectrumStitcher

  /** The driver calls for one sub-band: tune, destroy the buffer, capture a
      clean buffer at that frequency. */
  function SubBandEvents(center: int): seq<RxEvent>
  {
    [Tune(center), DestroyBuffer, Capture(center, false)]
  }

  /** The driver calls of a whole sweep, sub-band after sub-band. */
  function SweepEvents(centers: seq<int>): seq<RxEvent>
  {
    if centers == [] then []
    else SweepEvents(centers[..|centers| - 1]) + SubBandEvents(centers[|centers| - 1])
  }

  /** A sweep makes three calls per sub-band, in plan order: it tunes to the
      center, then destroys the buffer, then captures; so there is exactly
      one capture per sub-band, it happens at that sub-band's center, and it
      never sees samples buffered before the retune. */
  lemma {:induction false} SweepEventsOrder(centers: seq<int>)
    ensures |SweepEvents(centers)| == 3 * |centers|
    ensures forall j :: 0 <= j < |centers| ==>
              && SweepEvents(centers)[3 * j] == Tune(centers[j])
              && SweepEvents(centers)[3 * j + 1] == DestroyBuffer
              && SweepEvents(centers)[3 * j + 2] == Capture(centers[j], false)
    ensures forall p :: 0 <= p < |SweepEvents(centers)| ==>
              (SweepEvents(centers)[p].Capture? <==> p % 3 == 2)
  {
    if centers != [] {
      var n := |centers|;
      var init := centers[..n - 1];
      SweepEventsOrder(init);
      var ev := SweepEvents(centers);
      assert ev == SweepEvents(init) + SubBandEvents(centers[n - 1]);
      forall j | 0 <= j < n
        ensures ev[3 * j] == Tune(centers[j])
        ensures ev[3 * j + 1] == DestroyBuffer
        ensures ev[3 * j + 2] == Capture(centers[j], false)
      {
        if j < n - 1 {
          assert init[j] == centers[j];
        }
      }
      forall p | 0 <= p < |ev|
        ensures ev[p].Capture? <==> p % 3 == 2
      {
        if p >= 3 * (n - 1) {
          assert ev[p] == SubBandEvents(centers[n - 1])[p - 3 * (n - 1)];
        }
      }
    }
  }

  /** The raw Welch estimates of one sweep whose first capture is number
      `firstCapture`. */
  function Estimates(welch: Block -> seq<real>, samples: (int, nat) -> Block,
                     centers: seq<int>, firstCapture: nat): (r: seq<seq<real>>)
    ensures |r| == |centers|
  {
    seq(|centers|, j requires 0 <= j < |centers| => welch(samples(centers[j], firstCapture + j)))
  }

  /** The wideband frequency axis a sweep produces, `np.concatenate(freq_arr)`. */
  function SweepAxis(centers: seq<int>, nfft: nat, res: int, threshold: int): seq<int>
  {
    NumPy.Concatenate(FreqChunks(centers, nfft, res, threshold))
  }

  /** The wideband PSD a sweep produces, `np.concatenate(psd_arr)`. */
  function SweepPsd(welch: Block -> seq<real>, samples: (int, nat) -> Block, centers: seq<int>,
                    firstCapture: nat, nfft: nat, res: int, threshold: int): seq<real>
    requires forall b :: |welch(b)| == nfft
  {
    NumPy.Concatenate(PsdChunks(Estimates(welch, samples, centers, firstCapture), centers, nfft, res, threshold))
  }

  /** Every sweep's PSD array has the length of the shared frequency axis,
      at most nfft per sub-band. */
  lemma SweepPsdMatchesAxis(welch: Block -> seq<real>, samples: (int, nat) -> Block, centers: seq<int>,
                            firstCapture: nat, nfft: nat, res: int, threshold: int)
    requires forall b :: |welch(b)| == nfft
    requires IsPowerOfTwo(nfft) && res > 0
    ensures |SweepPsd(welch, samples, centers, firstCapture, nfft, res, threshold)|
         == |SweepAxis(centers, nfft, res, threshold)| <= nfft * |centers|
  {
    WidebandLengths(Estimates(welch, samples, centers, firstCapture), centers, nfft, res, threshold);
  }

  /** `freq_arr` after the first i iterations of the loop. */
  function FreqArrAfter(centers: seq<int>, i: nat, nfft: nat, res: int, threshold: int): seq<seq<int>>
    requires i <= |centers|
  {
    if i == 0 then []
    else FreqArrAfter(centers, i - 1, nfft, res, threshold)
         + [FreqChunk(nfft, res, centers[i - 1], i - 1 == |centers| - 1, threshold)]
  }

  /** `psd_arr` after the first i iterations, for raw estimates `raws`. */
  function PsdArrAfter(raws: seq<seq<real>>, centers: seq<int>, i: nat, nfft: nat, res: int, threshold: int)
    : seq<seq<real>>
    requires i <= |centers| == |raws|
    requires forall j :: 0 <= j < |raws| ==> |raws[j]| == nfft
  {
    if i == 0 then []
    else PsdArrAfter(raws, centers, i - 1, nfft, res, threshold)
         + [PsdChunk(raws[i - 1], nfft, res, centers[i - 1], i - 1 == |centers| - 1, threshold)]
  }

  /** After i iterations the loop has built the first i entries of the
      final `freq_arr`. */
  lemma {:induction false} FreqArrAfterIsPrefix(centers: seq<int>, i: nat, nfft: nat, res: int, threshold: int)
    requires i <= |centers|
    ensures FreqArrAfter(centers, i, nfft, res, threshold) == FreqChunks(centers, nfft, res, threshold)[..i]
  {
    if i > 0 {
      FreqArrAfterIsPrefix(centers, i - 1, nfft, res, threshold);
      PrefixStep(FreqChunks(centers, nfft, res, threshold), i);
    }
  }

  /** The same for `psd_arr`. */
  lemma {:induction false} PsdArrAfterIsPrefix(raws: seq<seq<real>>, centers: seq<int>, i: nat, nfft: nat,
                                                res: int, threshold: int)
    requires i <= |centers| == |raws|
    requires forall j :: 0 <= j < |raws| ==> |raws[j]| == nfft
    ensures PsdArrAfter(raws, centers, i, nfft, res, threshold) == PsdChunks(raws, centers, nfft, res, threshold)[..i]
  {
    if i > 0 {
      PsdArrAfterIsPrefix(raws, centers, i - 1, nfft, res, threshold);
      PrefixStep(PsdChunks(raws, centers, nfft, res, threshold), i);
    }
  }

  lemma PsdArrStep(raws: seq<seq<real>>, centers: seq<int>, i: nat, nfft: nat, res: int, threshold: int,
                    p: seq<real>)
    requires i < |centers| == |raws|
    requires forall j :: 0 <= j < |raws| ==> |raws[j]| == nfft
    requires p == PsdChunk(raws[i], nfft, res, centers[i], i == |centers| - 1, threshold)
    ensures PsdArrAfter(raws, centers, i + 1, nfft, res, threshold)
         == PsdArrAfter(raws, centers, i, nfft, res, threshold) + [p]
  {
  }

  lemma EstimateAt(welch: Block -> seq<real>, samples: (int, nat) -> Block,
                   centers: seq<int>, firstCapture: nat, j: nat, capture: nat)
    requires j < |centers| && capture == firstCapture + j
    ensures Estimates(welch, samples, centers, firstCapture)[j] == welch(samples(centers[j], capture))
  {
  }

  /** The calls of the first i + 1 sub-bands extend those of the first i. */
  lemma SweepEventsStep(centers: seq<int>, i: nat)
    requires i < |centers|
    ensures SweepEvents(centers[..i + 1]) == SweepEvents(centers[..i]) + SubBandEvents(centers[i])
  {
    assert centers[..i + 1][..i] == centers[..i];
  }

  lemma PrefixStep<T>(s: seq<T>, i: nat)
    requires 0 < i <= |s|
    ensures s[..i] == s[..i - 1] + [s[i - 1]]
  {
  }

  lemma WholePrefix<T>(s: seq<T>)
    ensures s[..|s|] == s
  {
  }

  /** One pass of the loop body of `measure_psd_wideband`: retune to the
      center, destroy the buffer, capture, estimate, reorder and recenter,
      and, for the last sub-band, keep only the bins at or below the
      threshold. */
  method MeasureSubBand(rx: Receiver, center: int, nfft: nat, res: int, isLast: bool,
                        threshold: int, welch: Block -> seq<real>)
    returns (sortedFreqs: seq<int>, sortedPsd: seq<real>)
    requires forall b :: |welch(b)| == nfft
    modifies rx
    ensures sortedFreqs == FreqChunk(nfft, res, center, isLast, threshold)
    ensures sortedPsd == PsdChunk(welch(rx.samples(center, old(rx.captures))), nfft, res, center, isLast, threshold)
    ensures rx.events == old(rx.events) + SubBandEvents(center)
    ensures rx.captures == old(rx.captures) + 1
    ensures rx.rxLo == center && !rx.stale
  {
    rx.SetRxLo(center);
    rx.RxDestroyBuffer();
    var rxSig := rx.Rx();
    var rxSigPsd := welch(rxSig);
    sortedFreqs := Recenter(HalfSwap(WelchFrequencies(nfft, res), nfft), center);
    sortedPsd := HalfSwap(rxSigPsd, nfft);
    if isLast {
      var selIdx := NumPy.Where(sortedFreqs, threshold);
      sortedFreqs := NumPy.Take(sortedFreqs, selIdx);
      sortedPsd := NumPy.Take(sortedPsd, selIdx);
    }
  }

  /** One iteration of the loop of `measure_psd_wideband`: measure sub-band
      i and append its two arrays to the lists built so far. */
  method SweepStep(rx: Receiver, centers: seq<int>, i: nat, nfft: nat, res: int, threshold: int,
                   welch: Block -> seq<real>, ghost raws: seq<seq<real>>, ghost firstCapture: nat,
                   freqArr: seq<seq<int>>, psdArr: seq<seq<real>>)
    returns (freqArr': seq<seq<int>>, psdArr': seq<seq<real>>)
    requires i < |centers|
    requires forall b :: |welch(b)| == nfft
    requires raws == Estimates(welch, rx.samples, centers, firstCapture)
    requires rx.captures == firstCapture + i
    requires freqArr == FreqArrAfter(centers, i, nfft, res, threshold)
    requires psdArr == PsdArrAfter(raws, centers, i, nfft, res, threshold)
    modifies rx
    ensures freqArr' == FreqArrAfter(centers, i + 1, nfft, res, threshold)
    ensures psdArr' == PsdArrAfter(raws, centers, i + 1, nfft, res, threshold)
    ensures rx.events == old(rx.events) + SubBandEvents(centers[i])
    ensures rx.captures == old(rx.captures) + 1
    ensures rx.rxLo == centers[i] && !rx.stale
  {
    EstimateAt(welch, rx.samples, centers, firstCapture, i, rx.captures);
    var sortedFreqs, sortedPsd := MeasureSubBand(rx, centers[i], nfft, res, i == |centers| - 1, threshold, welch);
    freqArr' := freqArr + [sortedFreqs];
    psdArr' := psdArr + [sortedPsd];
    PsdArrStep(raws, centers, i, nfft, res, threshold, sortedPsd);
  }

  /** `measure_psd_wideband(sdr_obj, center_freq_lst, psd_nfft)`, with the
      globals it reads (`sdr.sample_rate`, `freq_stop`, `freq_bin_res`)
      passed in. */
  method MeasurePsdWideband(rx: Receiver, centers: seq<int>, nfft: nat, sampleRate: int,
                            freqStop: int, freqBinRes: int, welch: Block -> seq<real>)
    returns (freqArr: seq<seq<int>>, psdArr: seq<seq<real>>)
    requires nfft > 0 && sampleRate % nfft == 0
    requires forall b :: |welch(b)| == nfft
    modifies rx
    ensures freqArr == FreqChunks(centers, nfft, sampleRate / nfft, TrimThreshold(freqStop, freqBinRes))
    ensures psdArr == PsdChunks(Estimates(welch, rx.samples, centers, old(rx.captures)), centers,
                                nfft, sampleRate / nfft, TrimThreshold(freqStop, freqBinRes))
    ensures rx.events == old(rx.events) + SweepEvents(centers)
    ensures rx.captures == old(rx.captures) + |centers|
    ensures rx.rxLo == (if centers == [] then old(rx.rxLo) else centers[|centers| - 1])
    ensures rx.stale == (old(rx.stale) && centers == [])
  {
    var res := sampleRate / nfft;
    var threshold := TrimThreshold(freqStop, freqBinRes);
    ghost var firstCapture := rx.captures;
    ghost var raws := Estimates(welch, rx.samples, centers, firstCapture);
    freqArr, psdArr := [], [];
    var i := 0;
    while i < |centers|
      invariant 0 <= i <= |centers|
      invariant raws == Estimates(welch, rx.samples, centers, firstCapture)
      invariant rx.captures == firstCapture + i
      invariant rx.events == old(rx.events) + SweepEvents(centers[..i])
      invariant rx.rxLo == (if i == 0 then old(rx.rxLo) else centers[i - 1])
      invariant rx.stale == (old(rx.stale) && i == 0)
      invariant freqArr == FreqArrAfter(centers, i, nfft, res, threshold)
      invariant psdArr == PsdArrAfter(raws, centers, i, nfft, res, threshold)
    {
      freqArr, psdArr := SweepStep(rx, centers, i, nfft, res, threshold, welch, raws, firstCapture, freqArr, psdArr);
      SweepEventsStep(centers, i);
      i := i + 1;
    }
    WholePrefix(centers);
    FreqArrAfterIsPrefix(centers, i, nfft, res, threshold);
    WholePrefix(FreqChunks(centers, nfft, res, threshold));
    PsdArrAfterIsPrefix(raws, centers, i, nfft, res, threshold);
    WholePrefix(PsdChunks(raws, centers, nfft, res, threshold));
  }
}
