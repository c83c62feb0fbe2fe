/** The per-sub-band arrays `measure_psd_wideband` appends, and the wideband
    spectrum their concatenation forms. Only the last sub-band is trimmed, to
    the bins at or below freq_stop + freq_bin_res // 2. */
module SpectrumStitcher {
  import NumPy
  import SubBandPlanner
  import opened SpectralEstimator

  /** `freq_stop + freq_bin_res // 2` (floor division, as Python's `//`). */
  function TrimThreshold(freqStop: int, freqBinRes: int): int
  {
    freqStop + freqBinRes / 2
  }

  /** The frequency array one iteration appends: the reordered, recentered
      axis, cut by `np.where` when the sub-band is the last one. */
  function FreqChunk(nfft: nat, res: int, center: int, isLast: bool, threshold: int): seq<int>
  {
    var f := SortedFrequencies(nfft, res, center);
    if isLast then NumPy.Take(f, NumPy.Where(f, threshold)) else f
  }

  /** The PSD array one iteration appends: the reordered estimate, cut at the
      indices selected on the frequency array when the sub-band is the last. */
  function PsdChunk(raw: seq<real>, nfft: nat, res: int, center: int, isLast: bool, threshold: int): seq<real>
    requires |raw| == nfft
  {
    var f := SortedFrequencies(nfft, res, center);
    var p := HalfSwap(raw, nfft);
    if isLast then NumPy.Take(p, NumPy.Where(f, threshold)) else p
  }

  /** The `freq_arr` list after the loop over all centers. */
  function FreqChunks(centers: seq<int>, nfft: nat, res: int, threshold: int): (r: seq<seq<int>>)
    ensures |r| == |centers|
  {
    seq(|centers|, j requires 0 <= j < |centers| =>
      FreqChunk(nfft, res, centers[j], j == |centers| - 1, threshold))
  }

  /** The `psd_arr` list, for the raw Welch estimates `raws` of the sub-bands. */
  function PsdChunks(raws: seq<seq<real>>, centers: seq<int>, nfft: nat, res: int, threshold: int): (r: seq<seq<real>>)
    requires |raws| == |centers|
    requires forall j :: 0 <= j < |raws| ==> |raws[j]| == nfft
    ensures |r| == |centers|
  {
    seq(|centers|, j requires 0 <= j < |centers| =>
      PsdChunk(raws[j], nfft, res, centers[j], j == |centers| - 1, threshold))
  }

  /** On the last sub-band `np.where` selects a prefix of the reordered
      axis: index k is k itself, and the first unselected bin (if any) is
      above the threshold. */
  lemma LastChunkIndices(nfft: nat, res: int, center: int, threshold: int)
    requires IsPowerOfTwo(nfft) && res > 0
    ensures |SortedFrequencies(nfft, res, center)| == nfft
    ensures |NumPy.Where(SortedFrequencies(nfft, res, center), threshold)| <= nfft
    ensures forall k :: 0 <= k < |NumPy.Where(SortedFrequencies(nfft, res, center), threshold)| ==>
              NumPy.Where(SortedFrequencies(nfft, res, center), threshold)[k] == k
    ensures |NumPy.Where(SortedFrequencies(nfft, res, center), threshold)| == nfft ||
            SortedFrequencies(nfft, res, center)[|NumPy.Where(SortedFrequencies(nfft, res, center), threshold)|]
              > threshold
  {
    SortedFrequenciesGrid(nfft, res, center);
    NumPy.WhereOnAscending(SortedFrequencies(nfft, res, center), threshold, 0);
  }

  /** The last sub-band's frequency array is the leading run of its
      reordered axis at or below the threshold: every kept bin is within it,
      the first dropped bin (if any) is above it, and the lowest bin is kept
      whenever it is within the threshold. */
  lemma LastFreqChunk(nfft: nat, res: int, center: int, threshold: int)
    requires IsPowerOfTwo(nfft) && res > 0
    ensures var f := FreqChunk(nfft, res, center, true, threshold);
      && |f| <= nfft
      && (forall k :: 0 <= k < |f| ==> f[k] == center + (k - nfft / 2) * res && f[k] <= threshold)
      && (|f| == nfft || center + (|f| - nfft / 2) * res > threshold)
      && (center + (0 - nfft / 2) * res <= threshold ==> |f| > 0)
  {
    LastFreqChunkValues(nfft, res, center, threshold);
    LastFreqChunkCut(nfft, res, center, threshold);
    LowestBinKept(nfft, res, center, threshold);
  }

  /** Every bin the last sub-band keeps is on its grid and within the
      threshold. */
  lemma LastFreqChunkValues(nfft: nat, res: int, center: int, threshold: int)
    requires IsPowerOfTwo(nfft) && res > 0
    ensures |FreqChunk(nfft, res, center, true, threshold)| <= nfft
    ensures forall k :: 0 <= k < |FreqChunk(nfft, res, center, true, threshold)| ==>
              && FreqChunk(nfft, res, center, true, threshold)[k] == center + (k - nfft / 2) * res
              && FreqChunk(nfft, res, center, true, threshold)[k] <= threshold
  {
    FreqChunkPrefix(nfft, res, center, true, threshold);
    SortedFrequenciesValues(nfft, res, center);
  }

  /** The last sub-band is cut just before the first grid point above the
      threshold, or keeps all nfft bins. */
  lemma LastFreqChunkCut(nfft: nat, res: int, center: int, threshold: int)
    requires IsPowerOfTwo(nfft) && res > 0
    ensures |FreqChunk(nfft, res, center, true, threshold)| == nfft ||
            center + (|FreqChunk(nfft, res, center, true, threshold)| - nfft / 2) * res > threshold
  {
    LastChunkIndices(nfft, res, center, threshold);
    var m := |NumPy.Where(SortedFrequencies(nfft, res, center), threshold)|;
    if m < nfft {
      SortedFrequencyAt(nfft, res, center, m);
    }
  }

  /** The lowest reordered bin is selected whenever it is within the
      threshold. */
  lemma LowestBinKept(nfft: nat, res: int, center: int, threshold: int)
    requires IsPowerOfTwo(nfft)
    ensures center + (0 - nfft / 2) * res <= threshold ==>
              |NumPy.Where(SortedFrequencies(nfft, res, center), threshold)| > 0
  {
    if center + (0 - nfft / 2) * res <= threshold {
      PowerOfTwoEvenOrOne(nfft);
      SortedFrequencyAt(nfft, res, center, 0);
      NumPy.WhereSelectsExactly(SortedFrequencies(nfft, res, center), threshold, 0);
    }
  }

  /** One sub-band's pair of arrays. Both have the same length, at most nfft.
      Entry k pairs frequency center + (k - nfft / 2) * res with entry k of
      the reordered estimate, so trimming never separates a frequency from
      its PSD value. A sub-band that is not the last keeps all nfft bins; the
      last keeps exactly the leading bins at or below the threshold. */
  lemma SubBandChunks(raw: seq<real>, nfft: nat, res: int, center: int, isLast: bool, threshold: int)
    requires |raw| == nfft && IsPowerOfTwo(nfft) && res > 0
    ensures |HalfSwap(raw, nfft)| == nfft
    ensures var f, p := FreqChunk(nfft, res, center, isLast, threshold),
                        PsdChunk(raw, nfft, res, center, isLast, threshold);
      && |f| == |p| <= nfft
      && (forall k :: 0 <= k < |f| ==> f[k] == center + (k - nfft / 2) * res)
      && (forall k :: 0 <= k < |p| ==> p[k] == HalfSwap(raw, nfft)[k])
      && (!isLast ==> |f| == nfft)
      && (isLast ==> forall k :: 0 <= k < |f| ==> f[k] <= threshold)
      && (isLast ==> |f| == nfft || center + (|f| - nfft / 2) * res > threshold)
  {
    HalfSwapLength(raw, nfft);
    if isLast {
      LastFreqChunk(nfft, res, center, threshold);
      LastPsdChunk(raw, nfft, res, center, threshold);
    } else {
      SortedFrequenciesValues(nfft, res, center);
    }
  }

  /** The last sub-band's PSD array is cut at the same length as its
      frequency array and keeps the leading reordered bins. */
  lemma LastPsdChunk(raw: seq<real>, nfft: nat, res: int, center: int, threshold: int)
    requires |raw| == nfft && IsPowerOfTwo(nfft) && res > 0
    ensures |HalfSwap(raw, nfft)| == nfft
    ensures var f, p := FreqChunk(nfft, res, center, true, threshold),
                        PsdChunk(raw, nfft, res, center, true, threshold);
      && |f| == |p| <= nfft
      && (forall k :: 0 <= k < |p| ==> p[k] == HalfSwap(raw, nfft)[k])
  {
    LastChunkIndices(nfft, res, center, threshold);
    HalfSwapLength(raw, nfft);
  }

  /** A whole sweep's concatenated axis and PSD have the same length, at most
      nfft per center, and every sub-band but the last contributes all nfft
      bins, whatever the centers are. */
  lemma WidebandLengths(raws: seq<seq<real>>, centers: seq<int>, nfft: nat, res: int, threshold: int)
    requires |raws| == |centers|
    requires forall j :: 0 <= j < |raws| ==> |raws[j]| == nfft
    requires IsPowerOfTwo(nfft) && res > 0
    ensures var fs, ps := FreqChunks(centers, nfft, res, threshold), PsdChunks(raws, centers, nfft, res, threshold);
      && (forall j :: 0 <= j < |centers| - 1 ==> |fs[j]| == |ps[j]| == nfft)
      && |NumPy.Concatenate(fs)| == |NumPy.Concatenate(ps)| <= nfft * |centers|
  {
    var fs, ps := FreqChunks(centers, nfft, res, threshold), PsdChunks(raws, centers, nfft, res, threshold);
    forall j | 0 <= j < |centers|
      ensures |fs[j]| == |ps[j]| <= nfft
      ensures j < |centers| - 1 ==> |fs[j]| == nfft
    {
      SubBandChunks(raws[j], nfft, res, centers[j], j == |centers| - 1, threshold);
    }
    NumPy.ConcatenateSameLength(fs, ps);
    NumPy.ConcatenateLengthBound(fs, nfft);
  }

  lemma HalfBandIsHalfSampleRate(nfft: int, res: int)
    requires nfft % 2 == 0
    ensures (nfft * res) / 2 == (nfft / 2) * res
  {
    assert nfft * res == 2 * ((nfft / 2) * res);
  }

  lemma GridIndex(freqStart: int, h: int, res: int, j: int, nfft: int, i: int)
    requires nfft == 2 * h
    ensures freqStart + h * res + j * (nfft * res) + (i - h) * res == freqStart + (j * nfft + i) * res
  {
  }

  /** Bin i of sub-band j of the plan lies on the wideband grid at index
      j * nfft + i. */
  lemma PlannedBinOnGrid(freqStart: int, freqStop: int, sampleRate: int, nfft: nat, res: int, j: nat, i: nat)
    requires sampleRate > 0 && IsPowerOfTwo(nfft) && nfft % 2 == 0 && sampleRate == nfft * res
    requires j < |SubBandPlanner.CenterFrequencies(freqStart, freqStop, sampleRate)| && i < nfft
    ensures SortedFrequencies(nfft, res, SubBandPlanner.CenterFrequencies(freqStart, freqStop, sampleRate)[j])[i]
         == freqStart + (j * nfft + i) * res
  {
    SubBandPlanner.CenterAt(freqStart, freqStop, sampleRate, j);
    SortedFrequencyAt(nfft, res, SubBandPlanner.CenterFrequencies(freqStart, freqStop, sampleRate)[j], i);
    PlannedGridIndex(freqStart, sampleRate, nfft, res, j, i);
  }

  lemma PlannedGridIndex(freqStart: int, sampleRate: int, nfft: int, res: int, j: int, i: int)
    requires nfft % 2 == 0 && sampleRate == nfft * res
    ensures freqStart + sampleRate / 2 + j * sampleRate + (i - nfft / 2) * res == freqStart + (j * nfft + i) * res
  {
    HalfBandIsHalfSampleRate(nfft, res);
    GridIndex(freqStart, nfft / 2, res, j, nfft, i);
  }

  /** For the planned centers, with freq_bin_res = sample_rate / nfft, the
      stitched frequency axis is the uniform grid freq_start + m * res: it
      starts at freq_start, is strictly ascending with spacing exactly res,
      never exceeds freq_stop + freq_bin_res // 2, has at most nfft bins per
      sub-band, keeps at least one bin of the last sub-band, and stops only
      when the next grid point would pass the threshold or the last sub-band
      is exhausted. */
  lemma WidebandAxisIsUniformGrid(freqStart: int, freqStop: int, sampleRate: int, nfft: nat)
    requires sampleRate > 0 && IsPowerOfTwo(nfft) && nfft % 2 == 0 && sampleRate % nfft == 0
    ensures var res := sampleRate / nfft;
      var t := TrimThreshold(freqStop, res);
      var chunks := FreqChunks(SubBandPlanner.CenterFrequencies(freqStart, freqStop, sampleRate), nfft, res, t);
      var axis := NumPy.Concatenate(chunks);
      && |chunks| == |SubBandPlanner.CenterFrequencies(freqStart, freqStop, sampleRate)|
      && |axis| <= nfft * |chunks|
      && (forall m :: 0 <= m < |axis| ==> axis[m] == freqStart + m * res)
      && (forall m :: 0 <= m < |axis| ==> axis[m] <= t)
      && (|axis| == nfft * |chunks| || freqStart + |axis| * res > t)
      && (|chunks| > 0 ==> 0 < |axis| && axis[0] == freqStart && |axis| > (|chunks| - 1) * nfft)
      && NumPy.StrictlyAscending(axis)
  {
    ExactQuotient(sampleRate, nfft);
    PlannedAxis(freqStart, freqStop, sampleRate, nfft, sampleRate / nfft);
  }

  /** The same, for a bin width res with sample_rate == nfft * res. */
  lemma PlannedAxis(freqStart: int, freqStop: int, sampleRate: int, nfft: nat, res: int)
    requires sampleRate > 0 && IsPowerOfTwo(nfft) && nfft % 2 == 0 && sampleRate == nfft * res && res > 0
    ensures var t := TrimThreshold(freqStop, res);
      var chunks := FreqChunks(SubBandPlanner.CenterFrequencies(freqStart, freqStop, sampleRate), nfft, res, t);
      var axis := NumPy.Concatenate(chunks);
      && |axis| <= nfft * |chunks|
      && (forall m :: 0 <= m < |axis| ==> axis[m] == freqStart + m * res)
      && (forall m :: 0 <= m < |axis| ==> axis[m] <= t)
      && (|axis| == nfft * |chunks| || freqStart + |axis| * res > t)
      && (|chunks| > 0 ==> 0 < |axis| && axis[0] == freqStart && |axis| > (|chunks| - 1) * nfft)
      && NumPy.StrictlyAscending(axis)
  {
    var t := TrimThreshold(freqStop, res);
    var chunks := FreqChunks(SubBandPlanner.CenterFrequencies(freqStart, freqStop, sampleRate), nfft, res, t);
    if |chunks| > 0 {
      var m := LastChunkCut(freqStart, freqStop, sampleRate, nfft, res);
      PlannedChunksOnGrid(freqStart, freqStop, sampleRate, nfft, res);
      StitchedGrid(chunks, nfft, freqStart, res, t, m);
    } else {
      StitchedNothing(chunks, nfft);
    }
  }

  /** Every planned chunk lies on the grid freq_start + (j * nfft + i) * res
      and all but the last have nfft entries. */
  lemma PlannedChunksOnGrid(freqStart: int, freqStop: int, sampleRate: int, nfft: nat, res: int)
    requires sampleRate > 0 && IsPowerOfTwo(nfft) && nfft % 2 == 0 && sampleRate == nfft * res && res > 0
    ensures var centers := SubBandPlanner.CenterFrequencies(freqStart, freqStop, sampleRate);
      var chunks := FreqChunks(centers, nfft, res, TrimThreshold(freqStop, res));
      && (forall j :: 0 <= j < |chunks| - 1 ==> |chunks[j]| == nfft)
      && (forall j, i :: 0 <= j < |chunks| && 0 <= i < |chunks[j]| ==>
            chunks[j][i] == freqStart + (j * nfft + i) * res)
  {
    var centers := SubBandPlanner.CenterFrequencies(freqStart, freqStop, sampleRate);
    var chunks := FreqChunks(centers, nfft, res, TrimThreshold(freqStop, res));
    forall j | 0 <= j < |centers|
      ensures j < |centers| - 1 ==> |chunks[j]| == nfft
      ensures forall i :: 0 <= i < |chunks[j]| ==> chunks[j][i] == freqStart + (j * nfft + i) * res
    {
      PlannedChunkOnGrid(freqStart, freqStop, sampleRate, nfft, res, j);
    }
  }

  /** Chunk j of the plan lies on the grid. */
  lemma PlannedChunkOnGrid(freqStart: int, freqStop: int, sampleRate: int, nfft: nat, res: int, j: nat)
    requires sampleRate > 0 && IsPowerOfTwo(nfft) && nfft % 2 == 0 && sampleRate == nfft * res && res > 0
    requires j < |SubBandPlanner.CenterFrequencies(freqStart, freqStop, sampleRate)|
    ensures var centers := SubBandPlanner.CenterFrequencies(freqStart, freqStop, sampleRate);
      var c := FreqChunks(centers, nfft, res, TrimThreshold(freqStop, res))[j];
      && (j < |centers| - 1 ==> |c| == nfft)
      && (forall i :: 0 <= i < |c| ==> c[i] == freqStart + (j * nfft + i) * res)
  {
    var centers := SubBandPlanner.CenterFrequencies(freqStart, freqStop, sampleRate);
    var t := TrimThreshold(freqStop, res);
    var c := FreqChunks(centers, nfft, res, t)[j];
    FreqChunkPrefix(nfft, res, centers[j], j == |centers| - 1, t);
    forall i | 0 <= i < |c|
      ensures c[i] == freqStart + (j * nfft + i) * res
    {
      PlannedBinOnGrid(freqStart, freqStop, sampleRate, nfft, res, j, i);
    }
  }

  /** A chunk is a prefix of its sub-band's reordered axis, the whole axis
      unless it is the last chunk. */
  lemma FreqChunkPrefix(nfft: nat, res: int, center: int, isLast: bool, threshold: int)
    requires IsPowerOfTwo(nfft) && res > 0
    ensures |SortedFrequencies(nfft, res, center)| == nfft
    ensures |FreqChunk(nfft, res, center, isLast, threshold)| <= nfft
    ensures !isLast ==> |FreqChunk(nfft, res, center, isLast, threshold)| == nfft
    ensures forall i :: 0 <= i < |FreqChunk(nfft, res, center, isLast, threshold)| ==>
              FreqChunk(nfft, res, center, isLast, threshold)[i] == SortedFrequencies(nfft, res, center)[i]
  {
    SortedFrequenciesLength(nfft, res, center);
    if isLast {
      LastChunkIndices(nfft, res, center, threshold);
    }
  }

  /** The last planned chunk keeps m bins, 0 < m <= nfft, its top bin is
      within the threshold, and it is cut where the next bin would pass it. */
  lemma LastChunkCut(freqStart: int, freqStop: int, sampleRate: int, nfft: nat, res: int) returns (m: nat)
    requires sampleRate > 0 && IsPowerOfTwo(nfft) && nfft % 2 == 0 && sampleRate == nfft * res && res > 0
    requires |SubBandPlanner.CenterFrequencies(freqStart, freqStop, sampleRate)| > 0
    ensures var centers := SubBandPlanner.CenterFrequencies(freqStart, freqStop, sampleRate);
      var t := TrimThreshold(freqStop, res);
      var chunks := FreqChunks(centers, nfft, res, t);
      && 0 < m <= nfft && |chunks[|chunks| - 1]| == m && chunks[|chunks| - 1][m - 1] <= t
      && (m == nfft || freqStart + ((|chunks| - 1) * nfft + m) * res > t)
  {
    var centers := SubBandPlanner.CenterFrequencies(freqStart, freqStop, sampleRate);
    var n := |centers|;
    var t := TrimThreshold(freqStop, res);
    m := |FreqChunk(nfft, res, centers[n - 1], true, t)|;
    LastBandKeepsLowestBin(freqStart, freqStop, sampleRate, nfft, res);
    LastFreqChunk(nfft, res, centers[n - 1], t);
    SubBandPlanner.CenterAt(freqStart, freqStop, sampleRate, n - 1);
    PlannedGridIndex(freqStart, sampleRate, nfft, res, n - 1, m);
  }

  lemma ExactQuotient(sampleRate: int, nfft: int)
    requires sampleRate > 0 && nfft > 0 && sampleRate % nfft == 0
    ensures sampleRate / nfft > 0 && sampleRate == nfft * (sampleRate / nfft)
  {
  }

  /** Chunks on the grid base + (j * w + i) * res, all of width w except a
      last one of 0 < m <= w entries whose top entry is within t, and cut
      where the next grid point would pass t, concatenate into a prefix of
      that grid that stays within t and is maximal. */
  lemma StitchedGrid(chunks: seq<seq<int>>, w: nat, base: int, res: int, t: int, m: nat)
    requires |chunks| > 0 && res > 0 && 0 < m <= w
    requires forall j :: 0 <= j < |chunks| - 1 ==> |chunks[j]| == w
    requires |chunks[|chunks| - 1]| == m
    requires forall j, i :: 0 <= j < |chunks| && 0 <= i < |chunks[j]| ==>
               chunks[j][i] == base + (j * w + i) * res
    requires chunks[|chunks| - 1][m - 1] <= t
    requires m == w || base + ((|chunks| - 1) * w + m) * res > t
    ensures var axis := NumPy.Concatenate(chunks);
      && |axis| == (|chunks| - 1) * w + m
      && |axis| <= w * |chunks|
      && (forall k :: 0 <= k < |axis| ==> axis[k] == base + k * res)
      && (forall k :: 0 <= k < |axis| ==> axis[k] <= t)
      && (|axis| == w * |chunks| || base + |axis| * res > t)
      && 0 < |axis| && axis[0] == base && |axis| > (|chunks| - 1) * w
      && NumPy.StrictlyAscending(axis)
  {
    NumPy.ConcatenateUniform(chunks, w, base, res);
    LastChunkTotal(|chunks|, w, m);
    StitchedTop(chunks, w, base, res, m);
    GridBelow(NumPy.Concatenate(chunks), base, res, t);
    GridAscending(NumPy.Concatenate(chunks), base, 0, res);
  }

  lemma LastChunkTotal(n: int, w: int, m: int)
    requires n > 0 && 0 < m <= w
    ensures (n - 1) * w + m <= w * n
    ensures m == w ==> (n - 1) * w + m == w * n
    ensures (n - 1) * w + m > (n - 1) * w
  {
  }

  /** No chunks stitch into an empty axis. */
  lemma StitchedNothing<T>(chunks: seq<seq<T>>, w: nat)
    requires |chunks| == 0
    ensures |NumPy.Concatenate(chunks)| == 0 == w * |chunks|
  {
  }

  /** The top entry of the concatenation is the top entry of the last chunk. */
  lemma StitchedTop(chunks: seq<seq<int>>, w: nat, base: int, res: int, m: nat)
    requires |chunks| > 0 && 0 < m
    requires |chunks[|chunks| - 1]| == m
    ensures |NumPy.Concatenate(chunks)| >= m
    ensures NumPy.Concatenate(chunks)[|NumPy.Concatenate(chunks)| - 1] == chunks[|chunks| - 1][m - 1]
  {
    var n := |chunks|;
    assert NumPy.Concatenate(chunks) == NumPy.Concatenate(chunks[..n - 1]) + chunks[n - 1];
  }

  /** A grid base + k * res with positive spacing whose top entry is within
      t lies within t throughout. */
  lemma GridBelow(axis: seq<int>, base: int, res: int, t: int)
    requires res > 0 && |axis| > 0 && axis[|axis| - 1] <= t
    requires forall k :: 0 <= k < |axis| ==> axis[k] == base + k * res
    ensures forall k :: 0 <= k < |axis| ==> axis[k] <= t
  {
    forall k | 0 <= k < |axis|
      ensures axis[k] <= t
    {
      SubBandPlanner.MulMonotone(k, |axis| - 1, res);
    }
  }

  /** The lowest bin of the last planned sub-band lies below freq_stop, so
      the trim never empties the last sub-band. */
  lemma LastBandKeepsLowestBin(freqStart: int, freqStop: int, sampleRate: int, nfft: nat, res: int)
    requires sampleRate > 0 && IsPowerOfTwo(nfft) && nfft % 2 == 0 && sampleRate == nfft * res
    requires |SubBandPlanner.CenterFrequencies(freqStart, freqStop, sampleRate)| > 0
    ensures var c := SubBandPlanner.CenterFrequencies(freqStart, freqStop, sampleRate);
      && SortedFrequencies(nfft, res, c[|c| - 1])[0] < freqStop
      && c[|c| - 1] + (0 - nfft / 2) * res < freqStop
  {
    var c := SubBandPlanner.CenterFrequencies(freqStart, freqStop, sampleRate);
    SubBandPlanner.CenterAt(freqStart, freqStop, sampleRate, |c| - 1);
    SortedFrequencyAt(nfft, res, c[|c| - 1], 0);
    LowestBinOffset(sampleRate, nfft, res);
  }

  lemma LowestBinOffset(sampleRate: int, nfft: int, res: int)
    requires nfft % 2 == 0 && sampleRate == nfft * res
    ensures (0 - nfft / 2) * res == -(sampleRate / 2)
  {
    assert sampleRate == 2 * ((nfft / 2) * res);
  }
}
