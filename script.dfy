/** The script's main block with its own configuration: a 61.44 MS/s
    receiver swept over 300 MHz to 3 GHz with 4096-point estimates, one
    sweep timed on its own and then 7920 sweeps (about five and a half days
    at the expected minute a sweep) saved to disk. */
module MeasurementScript {
  import NumPy
  import opened Pluto
  import opened Persistence
  import opened SpectralEstimator
  import opened SubBandPlanner
  import opened SpectrumStitcher
  import opened SweepEngine
  import opened SweepScheduler

  /** `sample_rate = int(61.44e6)`, the same value given to `sdr.sample_rate`. */
  const SampleRate: int := 61440000
  /** `freq_start = 300e6`. */
  const FreqStart: int := 300000000
  /** `freq_stop = 3000e6`. */
  const FreqStop: int := 3000000000
  /** `psd_nfft = 2**12`. */
  const PsdNfft: nat := 4096
  /** `n_snapshots = 2**10`. */
  const NSnapshots: nat := 1024
  /** `freq_bin_res = sample_rate / psd_nfft`, exactly 15 kHz. */
  const FreqBinRes: int := SampleRate / PsdNfft
  /** `buffer_size = psd_nfft * n_snapshots`, the samples one `rx()` returns. */
  const BufferSize: nat := PsdNfft * NSnapshots
  /** `n_sweeps = int(60 * 24 * 5.5)`. */
  const NSweeps: nat := 7920

  /** `center_freq_lst`. */
  const Centers: seq<int> := CenterFrequencies(FreqStart, FreqStop, SampleRate)

  /** The trim threshold of the last sub-band, `freq_stop + freq_bin_res // 2`. */
  const Threshold: int := TrimThreshold(FreqStop, FreqBinRes)

  /** The saved frequency axis. */
  const Axis: seq<int> := SweepAxis(Centers, PsdNfft, FreqBinRes, Threshold)

  /** The configuration meets what the model of the sweep asks of it: a
      power-of-two FFT length dividing the sample rate twice over, a 15 kHz
      bin width, and a buffer within the driver's 2**24 samples. */
  lemma Configuration()
    ensures IsPowerOfTwo(PsdNfft)
    ensures SampleRate % (2 * PsdNfft) == 0
    ensures FreqBinRes == 15000 && SampleRate == PsdNfft * FreqBinRes
    ensures BufferSize == 4194304 <= 16777216
  {
    PowerOfTwoSteps();
  }

  lemma PowerOfTwoSteps()
    ensures IsPowerOfTwo(4096)
  {
    assert IsPowerOfTwo(1);
    assert IsPowerOfTwo(2);
    assert IsPowerOfTwo(4);
    assert IsPowerOfTwo(8);
    assert IsPowerOfTwo(16);
    assert IsPowerOfTwo(32);
    assert IsPowerOfTwo(64);
    assert IsPowerOfTwo(128);
    assert IsPowerOfTwo(256);
    assert IsPowerOfTwo(512);
    assert IsPowerOfTwo(1024);
    assert IsPowerOfTwo(2048);
  }

  /** The plan visits 44 centers, 30.72 MHz above 300 MHz and then every
      61.44 MHz up to 2972.64 MHz. */
  lemma ScriptPlan()
    ensures |Centers| == 44
    ensures forall j :: 0 <= j < 44 ==> Centers[j] == 330720000 + j * 61440000
    ensures Centers[0] == 330720000 && Centers[43] == 2972640000
  {
    PlanShape(FreqStart, FreqStop, SampleRate);
  }

  /** The saved axis runs from 300 MHz to exactly 3 GHz in 15 kHz steps:
      180001 bins out of the 44 * 4096 the sub-bands measure. */
  lemma ScriptAxis()
    ensures |Axis| == 180001
    ensures forall m :: 0 <= m < |Axis| ==> Axis[m] == FreqStart + m * FreqBinRes
    ensures Axis[0] == FreqStart && Axis[180000] == FreqStop
    ensures NumPy.StrictlyAscending(Axis)
  {
    Configuration();
    ScriptPlan();
    WidebandAxisIsUniformGrid(FreqStart, FreqStop, SampleRate, PsdNfft);
    var n := |Axis|;
    assert 0 < n <= 180224;
    assert Axis[n - 1] == FreqStart + (n - 1) * FreqBinRes <= Threshold;
    AxisCount(n);
  }

  /** The bin count of the saved axis: the last bin is within 3 GHz + 7.5 kHz
      and either all 44 * 4096 bins are kept or the next bin would pass it. */
  lemma AxisCount(n: int)
    requires 0 < n
    requires 300000000 + (n - 1) * 15000 <= 3000007500
    requires n == 180224 || 300000000 + n * 15000 > 3000007500
    ensures n == 180001
  {
  }

  /** What the main block leaves on disk with this configuration, n_sweeps
      sweeps whose first capture is number `first`: 15841 saves, the axis
      once and second, and sweep j's PSD, 180001 values long, under index j
      at position 2j + 2. */
  lemma ScriptSaves(stamps: seq<int>, welch: Block -> seq<real>, samples: (int, nat) -> Block, first: nat)
    requires forall b :: |welch(b)| == PsdNfft
    requires |stamps| == NSweeps
    ensures var psdOf := PsdOfSweep(welch, samples, Centers, PsdNfft, FreqBinRes, Threshold);
      var log := SweepLog(stamps, Axis, SweepPsds(psdOf, first, NSweeps, |Centers|));
      && |log| == 15841
      && log[1] == SaveFreqAxis(Axis)
      && (forall p :: 0 <= p < |log| ==> (log[p].SaveFreqAxis? <==> p == 1))
      && (forall j :: 0 <= j < NSweeps ==>
            && log[2 * j + 2] == SavePsd(j, psdOf(SweepStart(first, j, |Centers|)))
            && SweepStart(first, j, |Centers|) == first + j * 44
            && |log[2 * j + 2].psd| == 180001)
  {
    var psdOf := PsdOfSweep(welch, samples, Centers, PsdNfft, FreqBinRes, Threshold);
    Configuration();
    ScriptPlan();
    ScriptAxis();
    PsdOfSweepOutputs(welch, samples, Centers, PsdNfft, FreqBinRes, Threshold);
    SweepLogLayout(stamps, Axis, psdOf, welch, samples, Centers, first, NSweeps, PsdNfft, FreqBinRes, Threshold);
    forall j | 0 <= j < NSweeps
      ensures SweepStart(first, j, |Centers|) == first + j * 44
    {
      SweepStartIs(first, j, |Centers|);
    }
  }

  /** The main block, `if __name__ == "__main__":`, for a configuration
      passed in: compute the bin width and the plan, make one sweep whose
      result only feeds the timing printout, then run the sweep loop. When
      freq_stop is not above freq_start the plan is empty and the first sweep
      of the loop raises, which `raised` reports. */
  method MainBlock(rx: Receiver, store: Store, sampleRate: int, freqStart: int, freqStop: int, psdNfft: nat,
                   nSweeps: nat, welch: Block -> seq<real>, now: nat -> int)
    returns (datetimeArr: seq<int>, raised: bool)
    requires sampleRate > 0 && psdNfft > 0 && sampleRate % psdNfft == 0
    requires forall b :: |welch(b)| == psdNfft
    modifies rx, store
    ensures raised <==> freqStop <= freqStart && nSweeps > 0
    ensures !raised ==> datetimeArr == Midpoints(now, nSweeps)
    ensures !raised ==>
              store.log == old(store.log)
                + SweepLog(datetimeArr,
                           SweepAxis(CenterFrequencies(freqStart, freqStop, sampleRate), psdNfft, sampleRate / psdNfft,
                                     TrimThreshold(freqStop, sampleRate / psdNfft)),
                           SweepPsds(PsdOfSweep(welch, rx.samples, CenterFrequencies(freqStart, freqStop, sampleRate),
                                                psdNfft, sampleRate / psdNfft, TrimThreshold(freqStop, sampleRate / psdNfft)),
                                     SweepStart(old(rx.captures), 1, |CenterFrequencies(freqStart, freqStop, sampleRate)|),
                                     nSweeps, |CenterFrequencies(freqStart, freqStop, sampleRate)|))
    ensures raised ==> datetimeArr == Midpoints(now, 1) && store.log == old(store.log) + [SaveDatetimes(datetimeArr)]
    ensures rx.events == old(rx.events) + SweepEvents(CenterFrequencies(freqStart, freqStop, sampleRate))
              + Repeat(SweepEvents(CenterFrequencies(freqStart, freqStop, sampleRate)), nSweeps)
    ensures rx.captures == old(rx.captures) + (nSweeps + 1) * |CenterFrequencies(freqStart, freqStop, sampleRate)|
    ensures freqStop <= freqStart ==> rx.rxLo == old(rx.rxLo) && rx.stale == old(rx.stale)
    ensures freqStart < freqStop ==>
              && rx.rxLo == CenterFrequencies(freqStart, freqStop, sampleRate)[|CenterFrequencies(freqStart, freqStop, sampleRate)| - 1]
              && !rx.stale
  {
    var freqBinRes := sampleRate / psdNfft;
    var centerFreqLst := CenterFrequencies(freqStart, freqStop, sampleRate);
    EmptyPlan(freqStart, freqStop, sampleRate);
    var freqArr, psdArr := MeasurePsdWideband(rx, centerFreqLst, psdNfft, sampleRate, freqStop, freqBinRes, welch);
    PsdOfSweepOutputs(welch, rx.samples, centerFreqLst, psdNfft, freqBinRes, TrimThreshold(freqStop, freqBinRes));
    assert rx.captures == SweepStart(old(rx.captures), 1, |centerFreqLst|);
    datetimeArr, raised :=
      RunSweeps(rx, store, centerFreqLst, psdNfft, sampleRate, freqStop, freqBinRes, welch, now, nSweeps,
                SweepAxis(centerFreqLst, psdNfft, freqBinRes, TrimThreshold(freqStop, freqBinRes)),
                PsdOfSweep(welch, rx.samples, centerFreqLst, psdNfft, freqBinRes, TrimThreshold(freqStop, freqBinRes)));
  }
}
