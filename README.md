# Spectrum scanner sweep: a Dafny model

This project models the measurement script `main_meas_script.py`. The script
drives a Pluto SDR across a wide frequency range and records a power spectral
density (PSD) over days.

The script does three things:

- It plans a list of sub-band center frequencies, one receiver bandwidth apart.
- For each center, `measure_psd_wideband` does the following:
  - tunes the receiver;
  - destroys the receive buffer;
  - captures one buffer;
  - takes a two-sided Welch estimate;
  - reorders the estimate from FFT-native order into ascending frequency;
  - shifts the estimate to the center;
  - trims the last sub-band at `freq_stop + freq_bin_res // 2`.
- Its main block runs one sweep for timing, then runs `n_sweeps` sweeps. After each sweep it saves:
  - the list of sweep-midpoint timestamps;
  - the concatenated frequency axis, on the first sweep only;
  - the sweep's concatenated PSD, under the sweep index.

The modules follow the parts of the script:

- `NumPy` (numpy.dfy) models `np.arange`, `np.where(a <= t)`, fancy indexing and `np.concatenate`, over integer sequences.
- `SpectralEstimator` (estimator.dfy) models the `fftfreq` grid that `ss.welch` returns and the half swap `np.concatenate((a[-(n//2):], a[0:n//2]))`. It proves that the half swap is the rotation by nfft/2, and so a permutation. It also proves that the recentered axis is the ascending grid `center + (i - nfft/2) * res`.
- `SubBandPlanner` (planner.dfy) models the `center_freq_lst` plan.
- `SpectrumStitcher` (stitcher.dfy) models:
  - the per-sub-band chunks;
  - the last-sub-band trim;
  - the wideband axis that the chunks concatenate into. For the planned centers this axis is the uniform grid `freq_start + m * res`.
- `Pluto` (receiver.dfy) models the receiver as a class with an event trace of tune, destroy-buffer and capture calls.
- `Persistence` (store.dfy) models the `np.save` files as an append-only log of save operations.
- `SweepEngine` (engine.dfy) models `measure_psd_wideband` as imperative methods. They are proved against the functions above.
- `SweepScheduler` (scheduler.dfy) models the sweep loop: midpoint timestamps, the save-once flag and the per-sweep saves.
- `MeasurementScript` (script.dfy) models the main block, and states the script's own configuration as constants with lemmas about them. The lemmas show:
  - 44 centers;
  - a 180001-bin axis from exactly 300 MHz to 3 GHz in 15 kHz steps;
  - 15841 saves over 7920 sweeps.

Frequencies are whole hertz. The bin width `res` is `sample_rate / nfft`, where nfft is the FFT length. A precondition asks for `sample_rate % nfft == 0`; the script's 61440000 / 4096 = 15000 meets it. Timestamps are integer microseconds, as Python's `datetime` keeps them.

## Model

| member | source | states |
|---|---|---|
| NumPy.CeilDiv | main_meas_script.py:50 | zero for an empty range; otherwise the least n with d <= n * step, which is how many values `np.arange` yields |
| NumPy.Arange | main_meas_script.py:50 | `np.arange` for a positive step: every value lies in [start, stop); ArangeShape gives its length and values |
| NumPy.ArangeShape | main_meas_script.py:50 | `np.arange(start, stop, step)` has CeilDiv(stop - start, step) values, the i-th being start + i * step |
| NumPy.WhereAtMost | main_meas_script.py:28 | every selected index is in range and its entry is at most the threshold |
| NumPy.WhereAtMostIncreasing | main_meas_script.py:28 | the indices `np.where` returns are strictly increasing |
| NumPy.Where | main_meas_script.py:28 | `np.where(a <= t)` returns only in-range indices whose entry is at most t |
| NumPy.WhereSelectsExactly | main_meas_script.py:28 | an index is selected if and only if its entry is at most t |
| NumPy.WhereAllAbove | main_meas_script.py:28 | nothing is selected from a stretch whose entries all exceed t |
| NumPy.Take | main_meas_script.py:29-30 | fancy indexing `a[idx]` has one entry per index, entry k being a[idx[k]] |
| NumPy.WhereOnAscending | main_meas_script.py:28-30 | on an ascending array the selection is a leading run, and the first unselected entry exceeds t |
| NumPy.TakeWhereAscending | main_meas_script.py:28-30 | selecting an ascending array at its own `<= t` indices gives its prefix, cut just before the first entry above t |
| NumPy.ConcatenateUniform | main_meas_script.py:89 | equal-width chunks laid on one grid concatenate into that grid, with the expected length |
| NumPy.ConcatenateLengthBound | main_meas_script.py:89 | a concatenation of chunks at most w wide is at most w times the chunk count long |
| NumPy.ConcatenateSameLength | main_meas_script.py:89-92 | pairwise equal-length chunk lists concatenate to equal lengths |
| NumPy.Concatenate | main_meas_script.py:89-92 | `np.concatenate` as the join of the chunks in order; its shape is proved by ConcatenateUniform, ConcatenateLengthBound and ConcatenateSameLength |
| SpectralEstimator.WelchFrequencies | main_meas_script.py:20-21 | the two-sided Welch frequency array has nfft bins |
| SpectralEstimator.TailSlice | main_meas_script.py:23 | Python's `s[-h:]` length, including the `s[-0:]` case that returns the whole array |
| SpectralEstimator.HeadSlice | main_meas_script.py:23 | Python's `s[0:h]` length, clipped to the array |
| SpectralEstimator.Recenter | main_meas_script.py:23 | adding the center frequency shifts every bin by the center and keeps the length |
| SpectralEstimator.FftBinIndex | main_meas_script.py:20-21 | `fftfreq` order: bin k stands for k bin widths among the first (n - 1) // 2 + 1 bins, k - n otherwise; ShiftedBinIndex proves what the reorder makes of it |
| SpectralEstimator.HalfSwap | main_meas_script.py:23-24 | `np.concatenate((s[-(n//2):], s[0:n//2]))` with Python slice semantics; HalfSwapIsRotation and HalfSwapDropsMiddleWhenOdd state what it does |
| SpectralEstimator.SortedFrequencies | main_meas_script.py:23 | the reordered Welch axis plus the center; SortedFrequenciesGrid and SortedFrequenciesSpan state its values |
| SpectralEstimator.PowerOfTwoEvenOrOne | main_meas_script.py:43 | a power-of-two FFT length is 1 or even |
| SpectralEstimator.HalfSwapLength | main_meas_script.py:23-24 | for an even length (every power of two above one) or a length of one, the reorder keeps nfft bins |
| SpectralEstimator.HalfSwapAt | main_meas_script.py:23-24 | for an even length, reordered bin i is input bin (i + nfft/2) mod nfft |
| SpectralEstimator.HalfSwapIsRotation | main_meas_script.py:23-24 | for an even length the reorder is the rotation by nfft/2, and a permutation (same multiset) |
| SpectralEstimator.HalfSwapElements | main_meas_script.py:23-24 | pointwise form of the rotation for every bin |
| SpectralEstimator.HalfSwapPermutes | main_meas_script.py:23-24 | the reorder neither loses nor duplicates a bin (multiset equality) |
| SpectralEstimator.HalfSwapDropsMiddleWhenOdd | main_meas_script.py:23-24 | for an odd nfft >= 3 the two slices miss the middle bin: one bin short, exactly s[nfft/2] lost |
| SpectralEstimator.SortedFrequenciesLength | main_meas_script.py:23 | the reordered, recentered axis has nfft bins |
| SpectralEstimator.SortedFrequencyAt | main_meas_script.py:23 | reordered bin i is at center + (i - nfft/2) * res |
| SpectralEstimator.SwappedFrequencyAt | main_meas_script.py:20-23 | before the shift, reordered bin i is (i - nfft/2) * res |
| SpectralEstimator.ShiftedBinIndex | main_meas_script.py:20-21 | the `fftfreq` index of bin (i + nfft/2) mod nfft is i - nfft/2 |
| SpectralEstimator.SortedFrequenciesGrid | main_meas_script.py:23 | the reordered axis is the grid center + (i - nfft/2) * res, strictly ascending when res > 0 |
| SpectralEstimator.SortedFrequenciesValues | main_meas_script.py:23 | every reordered bin's value on that grid |
| SpectralEstimator.GridAscending | main_meas_script.py:23 | a grid with positive spacing is strictly ascending |
| SpectralEstimator.SortedFrequenciesSpan | main_meas_script.py:23 | the axis runs from center - nfft*res/2 to center + nfft*res/2 - res |
| SubBandPlanner.PlanShape | main_meas_script.py:50 | ceil((freq_stop - freq_start) / sample_rate) centers; the first at freq_start + sample_rate // 2; steps of exactly sample_rate; all below freq_stop + sample_rate // 2; the plan covers freq_stop |
| SubBandPlanner.CenterAt | main_meas_script.py:50 | center j is freq_start + sample_rate // 2 + j * sample_rate, below the stop bound |
| SubBandPlanner.CenterFrequencies | main_meas_script.py:50 | `center_freq_lst`, the arange from freq_start + sample_rate // 2 in steps of sample_rate; PlanShape states its shape |
| SubBandPlanner.EmptyPlan | main_meas_script.py:50 | the plan is empty exactly when freq_stop <= freq_start |
| SpectrumStitcher.FreqChunks | main_meas_script.py:14-35 | `freq_arr` holds one chunk per center |
| SpectrumStitcher.PsdChunks | main_meas_script.py:14-35 | `psd_arr` holds one chunk per center |
| SpectrumStitcher.TrimThreshold | main_meas_script.py:28 | `freq_stop + freq_bin_res // 2` with floor division |
| SpectrumStitcher.FreqChunk | main_meas_script.py:23-29 | the frequency array one iteration appends, trimmed by `np.where` only when last; SubBandChunks and LastFreqChunk state its contents |
| SpectrumStitcher.PsdChunk | main_meas_script.py:24-30 | the PSD array one iteration appends, cut at the same indices only when last; SubBandChunks and LastPsdChunk state its contents |
| SpectrumStitcher.LastChunkIndices | main_meas_script.py:27-28 | on the last sub-band `np.where` selects indices 0..m-1 of the ascending axis, and bin m (if any) exceeds the threshold |
| SpectrumStitcher.LastFreqChunk | main_meas_script.py:27-29 | the last frequency chunk is the leading run at or below the threshold: kept bins on the grid and within it, the first dropped bin above it, the lowest bin kept when it is within it |
| SpectrumStitcher.LastFreqChunkValues | main_meas_script.py:27-29 | every kept bin of the last sub-band is on its grid and within the threshold |
| SpectrumStitcher.LastFreqChunkCut | main_meas_script.py:27-29 | the last sub-band keeps all nfft bins or is cut before the first grid point above the threshold |
| SpectrumStitcher.LowestBinKept | main_meas_script.py:28 | the lowest bin is selected whenever it is within the threshold |
| SpectrumStitcher.SubBandChunks | main_meas_script.py:23-33 | the two arrays appended for a sub-band: equal length, at most nfft; frequency k paired with reordered PSD bin k; untrimmed unless last; the last trimmed to exactly the leading bins within the threshold |
| SpectrumStitcher.LastPsdChunk | main_meas_script.py:27-30 | the last PSD chunk is cut at the frequency chunk's length and keeps the leading reordered bins |
| SpectrumStitcher.WidebandLengths | main_meas_script.py:14-35 | for any centers, every sub-band but the last contributes nfft bins to both arrays, and the concatenated axis and PSD have equal length, at most nfft per center |
| SpectrumStitcher.PlannedBinOnGrid | main_meas_script.py:23 | bin i of planned sub-band j is freq_start + (j * nfft + i) * res |
| SpectrumStitcher.WidebandAxisIsUniformGrid | main_meas_script.py:23-35 | for the planned centers the concatenated axis is freq_start + m * res, starts at freq_start, is strictly ascending, stays within freq_stop + res // 2, has at most nfft bins per sub-band, keeps part of the last sub-band, and stops only where the next grid point would pass the threshold |
| SpectrumStitcher.PlannedAxis | main_meas_script.py:23-35 | the same, for a bin width given with sample_rate == nfft * res |
| SpectrumStitcher.PlannedChunksOnGrid | main_meas_script.py:23-33 | every planned chunk lies on the wideband grid, and all but the last have nfft entries |
| SpectrumStitcher.PlannedChunkOnGrid | main_meas_script.py:23-33 | chunk j lies on the grid at offsets j * nfft + i |
| SpectrumStitcher.FreqChunkPrefix | main_meas_script.py:27-30 | a chunk is a prefix of its sub-band's reordered axis, and the whole axis unless it is the last chunk |
| SpectrumStitcher.LastChunkCut | main_meas_script.py:27-30 | the last planned chunk keeps 0 < m <= nfft bins, its top bin is within the threshold, and it is cut where the next bin would pass it |
| SpectrumStitcher.StitchedGrid | main_meas_script.py:89 | grid chunks cut that way concatenate into the maximal prefix of the grid within the threshold |
| SpectrumStitcher.StitchedTop | main_meas_script.py:89 | the top entry of the concatenation is the top entry of the last chunk |
| SpectrumStitcher.LastBandKeepsLowestBin | main_meas_script.py:27-30 | the lowest bin of the last planned sub-band lies below freq_stop, so the trim never empties it |
| SweepEngine.SweepEventsOrder | main_meas_script.py:16-18 | a sweep makes three driver calls per sub-band in plan order: tune to the center, destroy the buffer, then capture. So there is one capture per sub-band, at its center, never from a stale buffer, and captures are exactly the positions p with p mod 3 == 2 |
| SweepEngine.SubBandEvents | main_meas_script.py:16-18 | the three driver calls of one sub-band: Tune(center), DestroyBuffer, Capture(center, not stale) |
| SweepEngine.SweepEvents | main_meas_script.py:14-18 | the calls of a whole sweep, sub-band after sub-band; SweepEventsOrder states their layout |
| SweepEngine.Estimates | main_meas_script.py:18-21 | one raw Welch estimate per center |
| SweepEngine.SweepAxis | main_meas_script.py:89 | `np.concatenate(freq_arr)` of one sweep; WidebandAxisIsUniformGrid states its values for the plan |
| SweepEngine.SweepPsd | main_meas_script.py:92 | `np.concatenate(psd_arr)` of one sweep; SweepPsdMatchesAxis states its length |
| SweepEngine.SweepPsdMatchesAxis | main_meas_script.py:89-92 | every sweep's concatenated PSD is as long as the concatenated axis, at most nfft per sub-band |
| SweepEngine.FreqArrAfterIsPrefix | main_meas_script.py:32 | after i iterations `freq_arr` is the first i chunks of the final list |
| SweepEngine.FreqArrAfter | main_meas_script.py:32 | `freq_arr` after the first i iterations; FreqArrAfterIsPrefix ties it to FreqChunks |
| SweepEngine.PsdArrAfter | main_meas_script.py:33 | `psd_arr` after the first i iterations; PsdArrAfterIsPrefix ties it to PsdChunks |
| SweepEngine.PsdArrAfterIsPrefix | main_meas_script.py:33 | after i iterations `psd_arr` is the first i chunks of the final list |
| SweepEngine.SweepEventsStep | main_meas_script.py:14-18 | the calls of the first i + 1 sub-bands extend those of the first i by one sub-band's three calls |
| SweepEngine.MeasureSubBand | main_meas_script.py:16-30 | one loop body: returns the sub-band's frequency chunk and the PSD chunk of the capture it takes; records tune, destroy and capture; one more capture; leaves the receiver tuned to the center with a fresh buffer |
| SweepEngine.SweepStep | main_meas_script.py:14-33 | one iteration extends `freq_arr` and `psd_arr` from their i-iteration values to their (i + 1)-iteration values |
| SweepEngine.MeasurePsdWideband | main_meas_script.py:10-35 | returns FreqChunks and PsdChunks of the estimates of its own captures; records the whole sweep's calls; makes one capture per center; leaves the receiver tuned to the last center |
| Pluto.Receiver.constructor | main_meas_script.py:55-61 | a receiver tuned to lo, not stale, with no captures and an empty trace |
| Pluto.Receiver.SetRxLo | main_meas_script.py:16 | sets the oscillator, marks the buffer stale, records Tune |
| Pluto.Receiver.RxDestroyBuffer | main_meas_script.py:17 | clears staleness, keeps the tuning, records DestroyBuffer |
| Pluto.Receiver.Rx | main_meas_script.py:18 | returns the block for the current tuning and capture number, counts the capture, records it with its staleness |
| Persistence.Store.constructor | main_meas_script.py:86-92 | the files start out unwritten: an empty log |
| Persistence.Store.Save | main_meas_script.py:86-92 | one `np.save` appends exactly that operation to the log |
| SweepScheduler.HalfDuration | main_meas_script.py:82-83 | `timedelta / 2`: exact for an even duration; for an odd one, the even neighbour of d/2 (round half to even) |
| SweepScheduler.Midpoint | main_meas_script.py:83 | within half a microsecond of the true midpoint, and between the two readings when they are in order |
| SweepScheduler.Midpoints | main_meas_script.py:75-84 | `datetime_arr` holds one entry per sweep |
| SweepScheduler.MidpointsShape | main_meas_script.py:75-84 | entry j is the midpoint of sweep j's two clock readings |
| SweepScheduler.RepeatLength | main_meas_script.py:76-79 | n back-to-back sweeps make n times one sweep's calls |
| SweepScheduler.RepeatAt | main_meas_script.py:76-79 | call p of sweep s sits at position s * |blk| + p |
| SweepScheduler.RepeatLayout | main_meas_script.py:76-79 | every sweep occupies its own block of the trace |
| SweepScheduler.RepeatedSweepEvents | main_meas_script.py:76-79 | in sweep s, sub-band j is tuned, destroyed and captured at its own three positions of the trace |
| SweepScheduler.SweepStartIs | main_meas_script.py:76-79 | sweep s's first capture is number firstCapture + s * count |
| SweepScheduler.SweepPsds | main_meas_script.py:92 | one PSD array per sweep |
| SweepScheduler.SweepPsdsAt | main_meas_script.py:92 | PSD array j is the PSD of the sweep starting at capture SweepStart(firstCapture, j, count) |
| SweepScheduler.SweepPsdsShape | main_meas_script.py:89-92 | every saved PSD array is as long as the saved axis |
| SweepScheduler.SweepLog | main_meas_script.py:76-92 | n sweeps save 2n + 1 times, or not at all when n is 0 |
| SweepScheduler.SweepSaves | main_meas_script.py:86-92 | the saves of sweep k: the midpoint list, the axis when k is 0, then the PSD under index k |
| SweepScheduler.SweepLogAxisOnce | main_meas_script.py:88-90 | the axis is saved exactly once, second in the log, on sweep 0 |
| SweepScheduler.SweepLogPsdAt | main_meas_script.py:92 | sweep j's PSD is saved under index j at position 2j + 2 |
| SweepScheduler.SweepLogStampsAt | main_meas_script.py:86 | after sweep j the saved timestamp list is the first j + 1 midpoints |
| SweepScheduler.SweepLogPsdIndex | main_meas_script.py:92 | a PSD save for index j can only be at position 2j + 2, so no index is saved twice |
| SweepScheduler.SweepLogLayout | main_meas_script.py:73-92 | the whole layout of n sweeps' saves: their count, the axis once and second, sweep j's timestamp prefix and its PSD (as long as the axis) under index j |
| SweepScheduler.SweepConcatenations | main_meas_script.py:89-92 | a sweep's concatenated arrays are the saved axis and that sweep's PSD |
| SweepScheduler.RunSweep | main_meas_script.py:78-92 | one pass of the loop: appends the midpoint and saves the list. With a non-empty plan it then saves the axis only while the flag is set, clears the flag and saves this sweep's PSD. With an empty plan `np.concatenate([])` raises right after the list is saved, and nothing else is saved. In both cases it makes one sweep's calls and captures and leaves the receiver tuned to the last center |
| SweepScheduler.SweepIteration | main_meas_script.py:76-92 | one iteration takes the loop state of k sweeps to that of k + 1, or to the raised state on an empty plan; the receiver ends tuned to the last center |
| SweepScheduler.RunSweeps | main_meas_script.py:73-92 | raises exactly when the plan is empty and there is a sweep to run, after saving one midpoint list. Otherwise it returns Midpoints(now, n) and appends SweepLog of the n sweeps' axis and PSDs. It makes n copies of the sweep's calls and n * |centers| captures, and leaves the receiver tuned to the last center with a fresh buffer once a sweep has run |
| MeasurementScript.Configuration | main_meas_script.py:39-48 | nfft 4096 is a power of two; 2 * nfft divides the sample rate; the bin width is 15 kHz; the buffer of 4194304 samples is within the 2**24 driver limit |
| MeasurementScript.ScriptPlan | main_meas_script.py:50 | 44 centers, 330.72 MHz then every 61.44 MHz up to 2972.64 MHz |
| MeasurementScript.ScriptAxis | main_meas_script.py:39-50 | the saved axis has 180001 bins from exactly 300 MHz to exactly 3 GHz in 15 kHz steps, strictly ascending |
| MeasurementScript.ScriptSaves | main_meas_script.py:70-92 | 7920 sweeps save 15841 times: the axis only second; sweep j's 180001-value PSD under index j at position 2j + 2, from captures first + 44j onward |
| MeasurementScript.MainBlock | main_meas_script.py:37-92 | the main block: one timing sweep, then the loop. It raises exactly when freq_stop <= freq_start and n > 0, leaving one saved midpoint list. Otherwise it returns the midpoints and appends the loop's save log for the sweeps that start one sweep after the timing sweep. It makes n + 1 sweeps' calls and (n + 1) * |centers| captures, and leaves the receiver tuned to the last center with a fresh buffer, or untouched when the plan is empty |

## Left out

- `ss.welch` (lines 20-21) is floating-point estimation in scipy. It is a parameter `welch` that returns nfft PSD values in FFT-native order for any block. Its window, overlap and scaling are not modelled. The frequency array it returns is modelled exactly, as the `fftfreq` grid.
- The Pluto driver and its setup (lines 52-61): connection, gain, bandwidth and buffer size. These are hardware I/O. The receiver is modelled only through the three calls the sweep makes. The samples it delivers are a parameter `samples(lo, n)`, for the n-th capture at tuning lo. The buffer size appears only in `MeasurementScript.Configuration`.
- `np.save` (lines 86, 89, 92) is disk I/O. It is an append to the store's log. File contents are modelled as the saved value. Overwriting `data/datetime_arr.npy` is modelled as a new log entry, whose last version is the saved list.
- Wall-clock reads: `datetime.datetime.now()` (lines 78, 80) is the parameter `now`, where sweep j reads `now(2j)` and `now(2j + 1)`. The `time.time()` readings around the timing sweep (lines 63-65) and the total-time estimate (line 71) only feed printouts, and are not modelled. The timing sweep itself is modelled, since it drives the receiver.
- The `print` calls (lines 47, 66, 71) and the unused matplotlib import.
- Floating point: frequencies are whole hertz.
  - `int(center_freq)` (line 16) is the identity on integers.
  - `freq_bin_res` (line 46) is the exact integer quotient, so `freq_bin_res // 2` is integer floor division.
  - Hence `SweepEngine.MeasurePsdWideband`, `SweepScheduler.RunSweeps` and `MeasurementScript.MainBlock` require `sample_rate % psd_nfft == 0`, which the script's configuration meets (`MeasurementScript.Configuration`).
  - `SpectrumStitcher.WidebandAxisIsUniformGrid` and its kin also ask for an even power-of-two nfft.
- NumPy.Arange: only a positive step, the only kind the script uses.
- SweepScheduler.RunSweep, SweepScheduler.RunSweeps and SweepScheduler.SweepIteration name the saved axis and PSDs through ghost parameters `axis` and `psdOf`, tied to the measurement by `SweepOutputs`. `MeasurementScript.MainBlock` instantiates them with `SweepAxis` and `PsdOfSweep`, so its contract is stated in the concrete functions.
- MeasurementScript.MainBlock takes the configuration (sample rate, band edges, FFT length, sweep count) as parameters rather than reading the constants. The script's literal values are covered by `MeasurementScript.Configuration`, `ScriptPlan`, `ScriptAxis` and `ScriptSaves`. `n_snapshots` only sets the buffer size.
- Inside `measure_psd_wideband`, `ss.welch` reads the global `sdr.sample_rate`, not the `sdr_obj` argument, and the trim reads the globals `freq_stop` and `freq_bin_res`. The model passes these in explicitly. In the script, `sdr` and `sdr_obj` are the same object.
- The code has no error handling, retries or cancellation, so none is modelled. A driver or disk failure ends the script. The one exception the script raises by itself, `np.concatenate` of the empty lists an empty plan yields (lines 89 and 92), is modelled by the `raised` result of `SweepScheduler.RunSweep`, `SweepScheduler.RunSweeps` and `MeasurementScript.MainBlock`.
