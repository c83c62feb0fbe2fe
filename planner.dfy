/** The list of sub-band center frequencies the sweep visits: one receiver
    bandwidth per step, each center half a bandwidth above the left edge of
    the stretch it covers. Frequencies are whole hertz. */
module SubBandPlanner {
  import NumPy

  /** `np.arange(freq_start + sample_rate // 2, freq_stop + sample_rate // 2, sample_rate)`. */
  function CenterFrequencies(freqStart: int, freqStop: int, sampleRate: int): seq<int>
    requires sampleRate > 0
  {
    NumPy.Arange(freqStart + sampleRate / 2, freqStop + sampleRate / 2, sampleRate)
  }

  lemma MulMonotone(i: int, j: int, s: int)
    requires 0 < s && i <= j
    ensures i * s <= j * s
  {
  }

  /** The plan starts half a bandwidth above freq_start, steps by exactly one
      bandwidth, stays below freq_stop + sample_rate // 2, has
      ceil((freq_stop - freq_start) / sample_rate) centers, and one more
      step would reach the stop value. */
  lemma PlanShape(freqStart: int, freqStop: int, sampleRate: int)
    requires sampleRate > 0
    ensures var c := CenterFrequencies(freqStart, freqStop, sampleRate);
      && |c| == NumPy.CeilDiv(freqStop - freqStart, sampleRate)
      && (|c| > 0 ==> c[0] == freqStart + sampleRate / 2)
      && (forall j :: 0 <= j < |c| ==> c[j] == freqStart + sampleRate / 2 + j * sampleRate)
      && (forall j :: 0 <= j < |c| - 1 ==> c[j + 1] - c[j] == sampleRate)
      && (forall j :: 0 <= j < |c| ==> c[j] < freqStop + sampleRate / 2)
      && freqStop <= freqStart + |c| * sampleRate
  {
    var start, stop := freqStart + sampleRate / 2, freqStop + sampleRate / 2;
    var c := CenterFrequencies(freqStart, freqStop, sampleRate);
    NumPy.ArangeShape(start, stop, sampleRate);
    var n := |c|;
    forall j | 0 <= j < n
      ensures c[j] < stop
    {
      MulMonotone(j, n - 1, sampleRate);
    }
    forall j | 0 <= j < n - 1
      ensures c[j + 1] - c[j] == sampleRate
    {
      assert c[j + 1] == start + (j + 1) * sampleRate;
    }
  }

  /** Center j of the plan. */
  lemma CenterAt(freqStart: int, freqStop: int, sampleRate: int, j: nat)
    requires sampleRate > 0
    requires j < |CenterFrequencies(freqStart, freqStop, sampleRate)|
    ensures CenterFrequencies(freqStart, freqStop, sampleRate)[j] == freqStart + sampleRate / 2 + j * sampleRate
    ensures CenterFrequencies(freqStart, freqStop, sampleRate)[j] < freqStop + sampleRate / 2
  {
    PlanShape(freqStart, freqStop, sampleRate);
  }

  /** The plan is empty exactly when freq_stop is not above freq_start. */
  lemma EmptyPlan(freqStart: int, freqStop: int, sampleRate: int)
    requires sampleRate > 0
    ensures CenterFrequencies(freqStart, freqStop, sampleRate) == [] <==> freqStop <= freqStart
  {
  }
}
