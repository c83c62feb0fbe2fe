/** What one sub-band contributes before trimming: the two-sided Welch
    estimate's bins, rotated from FFT-native order (zero, the positive bins,
    then the negative bins) into ascending order, and the frequency axis
    shifted from baseband to the tuned center frequency. The estimate itself
    is outside the model; its frequency axis is scipy's `fftfreq` grid. */
module SpectralEstimator {
  import NumPy

  /** scipy's `fftfreq` order for an n-point two-sided spectrum: bin k stands
      for k bin widths when k is among the first (n - 1) // 2 + 1 bins and for
      k - n bin widths otherwise. */
  function FftBinIndex(k: int, n: nat): int
  {
    if k < (n - 1) / 2 + 1 then k else k - n
  }

  /** The frequency array `ss.welch(..., nfft=nfft, return_onesided=False)`
      returns, for a bin width of `res` hertz. */
  function WelchFrequencies(nfft: nat, res: int): (f: seq<int>)
    ensures |f| == nfft
  {
    seq(nfft, k => FftBinIndex(k, nfft) * res)
  }

  /** Python's `s[-h:]`; `s[-0:]` is the whole array. */
  function TailSlice<T>(s: seq<T>, h: nat): (r: seq<T>)
    ensures |r| == if h == 0 || h >= |s| then |s| else h
  {
    if h == 0 || h >= |s| then s else s[|s| - h..]
  }

  /** Python's `s[0:h]`. */
  function HeadSlice<T>(s: seq<T>, h: nat): (r: seq<T>)
    ensures |r| == if h >= |s| then |s| else h
  {
    if h >= |s| then s else s[..h]
  }

  /** `np.concatenate((s[-(nfft // 2):], s[0:nfft // 2]))`. */
  function HalfSwap<T>(s: seq<T>, nfft: nat): seq<T>
  {
    TailSlice(s, nfft / 2) + HeadSlice(s, nfft / 2)
  }

  /** Adding the center frequency to every bin. */
  function Recenter(f: seq<int>, center: int): (r: seq<int>)
    ensures |r| == |f|
    ensures forall i :: 0 <= i < |f| ==> r[i] == f[i] + center
  {
    seq(|f|, i requires 0 <= i < |f| => f[i] + center)
  }

  /** The sub-band's frequency axis after reordering and recentering. */
  function SortedFrequencies(nfft: nat, res: int, center: int): seq<int>
  {
    Recenter(HalfSwap(WelchFrequencies(nfft, res), nfft), center)
  }

  /** The FFT length is a power of two, as the script's configuration asks. */
  predicate IsPowerOfTwo(n: nat)
    decreases n
  {
    n == 1 || (n >= 2 && n % 2 == 0 && IsPowerOfTwo(n / 2))
  }

  lemma PowerOfTwoEvenOrOne(n: nat)
    requires IsPowerOfTwo(n)
    ensures n == 1 || (n >= 2 && n % 2 == 0)
  {
  }

  lemma ModOfSmall(x: int, n: int)
    requires 0 <= x < n
    ensures x % n == x
  {
  }

  lemma ModOfWrapped(x: int, n: int)
    requires 0 < n <= x < 2 * n
    ensures x % n == x - n
  {
    assert x == 1 * n + (x - n);
  }

  /** For an even length, or a length of one, the half swap keeps the
      length; every power of two is such a length. */
  lemma HalfSwapLength<T>(s: seq<T>, nfft: nat)
    requires |s| == nfft && (nfft % 2 == 0 || nfft == 1)
    ensures |HalfSwap(s, nfft)| == nfft
  {
  }

  /** For an even length (or one), entry i of the half swap is entry
      (i + nfft / 2) mod nfft of the input. */
  lemma HalfSwapAt<T>(s: seq<T>, nfft: nat, i: nat)
    requires |s| == nfft && (nfft % 2 == 0 || nfft == 1) && i < nfft
    ensures |HalfSwap(s, nfft)| == nfft
    ensures HalfSwap(s, nfft)[i] == s[(i + nfft / 2) % nfft]
  {
    var h := nfft / 2;
    if nfft == 1 {
      assert HalfSwap(s, nfft) == s;
    } else {
      assert HalfSwap(s, nfft) == s[h..] + s[..h];
      if i < h {
        ModOfSmall(i + h, nfft);
      } else {
        ModOfWrapped(i + h, nfft);
      }
    }
  }

  /** For an even length (or one) the half swap is the rotation by nfft / 2
      (an FFT shift), hence a permutation of the bins. */
  lemma HalfSwapIsRotation<T>(s: seq<T>, nfft: nat)
    requires |s| == nfft && (nfft % 2 == 0 || nfft == 1)
    ensures |HalfSwap(s, nfft)| == nfft
    ensures forall i :: 0 <= i < nfft ==> HalfSwap(s, nfft)[i] == s[(i + nfft / 2) % nfft]
    ensures multiset(HalfSwap(s, nfft)) == multiset(s)
  {
    HalfSwapElements(s, nfft);
    HalfSwapPermutes(s, nfft);
  }

  lemma HalfSwapElements<T>(s: seq<T>, nfft: nat)
    requires |s| == nfft && (nfft % 2 == 0 || nfft == 1)
    ensures |HalfSwap(s, nfft)| == nfft
    ensures forall i :: 0 <= i < nfft ==> HalfSwap(s, nfft)[i] == s[(i + nfft / 2) % nfft]
  {
    forall i | 0 <= i < nfft
      ensures HalfSwap(s, nfft)[i] == s[(i + nfft / 2) % nfft]
    {
      HalfSwapAt(s, nfft, i);
    }
  }

  lemma HalfSwapPermutes<T>(s: seq<T>, nfft: nat)
    requires |s| == nfft && (nfft % 2 == 0 || nfft == 1)
    ensures multiset(HalfSwap(s, nfft)) == multiset(s)
  {
    var h := nfft / 2;
    if nfft == 1 {
      assert HalfSwap(s, nfft) == s;
    } else {
      assert HalfSwap(s, nfft) == s[h..] + s[..h];
      assert s == s[..h] + s[h..];
    }
  }

  /** For an odd length above one the two slices miss the middle bin: the
      result is one bin short and is the input without s[nfft / 2]. */
  lemma HalfSwapDropsMiddleWhenOdd<T>(s: seq<T>, nfft: nat)
    requires |s| == nfft && nfft >= 3 && nfft % 2 == 1
    ensures |HalfSwap(s, nfft)| == nfft - 1
    ensures multiset(HalfSwap(s, nfft)) + multiset{s[nfft / 2]} == multiset(s)
  {
    var h := nfft / 2;
    assert HalfSwap(s, nfft) == s[h + 1..] + s[..h];
    assert s == s[..h] + [s[h]] + s[h + 1..];
  }

  lemma SortedFrequenciesLength(nfft: nat, res: int, center: int)
    requires IsPowerOfTwo(nfft)
    ensures |SortedFrequencies(nfft, res, center)| == nfft
  {
    HalfSwapLength(WelchFrequencies(nfft, res), nfft);
  }

  /** After the swap and the shift, bin i sits at center + (i - nfft / 2) bin
      widths. */
  lemma SortedFrequencyAt(nfft: nat, res: int, center: int, i: nat)
    requires IsPowerOfTwo(nfft) && i < nfft
    ensures |SortedFrequencies(nfft, res, center)| == nfft
    ensures SortedFrequencies(nfft, res, center)[i] == center + (i - nfft / 2) * res
  {
    SwappedFrequencyAt(nfft, res, i);
  }

  /** Before the shift, bin i of the swapped axis is i - nfft / 2 bin widths. */
  lemma SwappedFrequencyAt(nfft: nat, res: int, i: nat)
    requires IsPowerOfTwo(nfft) && i < nfft
    ensures |HalfSwap(WelchFrequencies(nfft, res), nfft)| == nfft
    ensures HalfSwap(WelchFrequencies(nfft, res), nfft)[i] == (i - nfft / 2) * res
  {
    var w := WelchFrequencies(nfft, res);
    HalfSwapAt(w, nfft, i);
    ShiftedBinIndex(nfft, i);
  }

  /** Bin (i + nfft / 2) mod nfft of the `fftfreq` order stands for
      i - nfft / 2 bin widths. */
  lemma ShiftedBinIndex(nfft: nat, i: nat)
    requires IsPowerOfTwo(nfft) && i < nfft
    ensures FftBinIndex((i + nfft / 2) % nfft, nfft) == i - nfft / 2
  {
    var h := nfft / 2;
    PowerOfTwoEvenOrOne(nfft);
    if nfft > 1 {
      assert (nfft - 1) / 2 + 1 == h;
      if i < h {
        ModOfSmall(i + h, nfft);
      } else {
        ModOfWrapped(i + h, nfft);
      }
    }
  }

  /** The reordered axis is the uniform grid around the center and is
      ascending for a positive bin width. */
  lemma SortedFrequenciesGrid(nfft: nat, res: int, center: int)
    requires IsPowerOfTwo(nfft)
    ensures |SortedFrequencies(nfft, res, center)| == nfft
    ensures forall i :: 0 <= i < nfft ==>
              SortedFrequencies(nfft, res, center)[i] == center + (i - nfft / 2) * res
    ensures res > 0 ==> NumPy.StrictlyAscending(SortedFrequencies(nfft, res, center))
  {
    SortedFrequenciesValues(nfft, res, center);
    if res > 0 {
      GridAscending(SortedFrequencies(nfft, res, center), center, nfft / 2, res);
    }
  }

  lemma SortedFrequenciesValues(nfft: nat, res: int, center: int)
    requires IsPowerOfTwo(nfft)
    ensures |SortedFrequencies(nfft, res, center)| == nfft
    ensures forall i :: 0 <= i < nfft ==>
              SortedFrequencies(nfft, res, center)[i] == center + (i - nfft / 2) * res
  {
    SortedFrequenciesLength(nfft, res, center);
    forall i | 0 <= i < nfft
      ensures SortedFrequencies(nfft, res, center)[i] == center + (i - nfft / 2) * res
    {
      SortedFrequencyAt(nfft, res, center, i);
    }
  }

  /** A grid with a positive spacing is strictly ascending. */
  lemma GridAscending(f: seq<int>, center: int, h: int, res: int)
    requires res > 0
    requires forall i :: 0 <= i < |f| ==> f[i] == center + (i - h) * res
    ensures NumPy.StrictlyAscending(f)
  {
    forall i, j | 0 <= i < j < |f|
      ensures f[i] < f[j]
    {
      MulStrict(i - h, j - h, res);
    }
  }

  /** With an even nfft the reordered axis spans
      [center - nfft * res / 2, center + nfft * res / 2 - res], that is half a
      sample rate below the center to one bin short of half a sample rate above. */
  lemma SortedFrequenciesSpan(nfft: nat, res: int, center: int)
    requires IsPowerOfTwo(nfft) && nfft % 2 == 0
    ensures |SortedFrequencies(nfft, res, center)| == nfft
    ensures SortedFrequencies(nfft, res, center)[0] == center - (nfft * res) / 2
    ensures SortedFrequencies(nfft, res, center)[nfft - 1] == center + (nfft * res) / 2 - res
  {
    PowerOfTwoEvenOrOne(nfft);
    SortedFrequencyAt(nfft, res, center, 0);
    SortedFrequencyAt(nfft, res, center, nfft - 1);
    EdgeOffsets(nfft, nfft / 2, res);
  }

  lemma MulStrict(a: int, b: int, res: int)
    requires a < b && res > 0
    ensures a * res < b * res
  {
  }

  lemma EdgeOffsets(nfft: int, h: int, res: int)
    requires nfft == 2 * h
    ensures (0 - h) * res == -((nfft * res) / 2)
    ensures (nfft - 1 - h) * res == (nfft * res) / 2 - res
  {
    assert nfft * res == 2 * (h * res);
  }

}
