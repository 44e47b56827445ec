# EEG processing and dashboard analysis, modelled in Dafny

This project models the signal-processing core of an EEG dashboard. It verifies properties of that model.

- **Upload processing.** A CSV recording is uploaded. For each of its eight channel columns, `process_eeg_data` does the following:
  - it applies a 60 Hz notch filter;
  - it applies a 0.5 Hz high-pass and a 40 Hz low-pass Butterworth filter;
  - it applies a 1-30 Hz band-pass;
  - it computes a spectrogram and five band powers (delta, theta, alpha, beta, gamma);
  - it stores one analysis record per channel.

  After the loop, the recording is flagged as processed.

  As written, this never happens for a recording whose first channel can be analysed: `create` raises on that channel, so nothing is stored and `processed` is never set. Two things raise there (see "## Findings"): `json.dumps` of the `pd.Timestamp` values that line 62 produced, and the keyword arguments `notch_filtered=`/`bandpass_filtered=`, which the record type does not declare. `ChannelPipeline.ProcessingAsWritten` models that behaviour; the rest of the model, with `ChannelPipeline.CompleteRecording` as its summary, describes the evidently intended one, in which the store is a parameter.
- **Mood label.** The dashboard averages the band powers of the stored records. `analyze_sentiment` turns the averages into a mood label, with optional age and sex suffixes.
- **Brain-waves plot.** `create_brain_waves_plot` filters every channel into each band and averages across channels. It scales each band's average so that its peak magnitude is 0.5, then plots the first 500 points.

Modules:

- `Wrappers`: `Option`, `Result` (with `:-` propagation), and `Float`.
  - `Float` adds NaN to the reals. NaN is what `np.mean([])` and `0/0` give.
  - Every comparison with NaN is false, as in Python.
- `RealArith`: facts about real division that the normalisations rely on.
- `SignalLibrary`: what the pipeline uses of the numeric library.
  - The filter designs (`butter`, `iirnotch`) and filter application (`filtfilt`, `lfilter`).
  - `stft`.
  - The library's rejection rules. A design is rejected when its critical frequencies fall out of range. `filtfilt` raises on input no longer than its pad length, which is 3 × the number of coefficients.
  - The numeric output is a parameter `lib`. `Lawful(lib)` states the two things the pipeline relies on: application keeps the length, and it maps silence to silence.
- `EegProcessor`: the three Butterworth design helpers, the band table, and band power as the mean of squares.
- `ChannelPipeline`: `process_eeg_data`.
  - Its specification is a function `Processing`.
  - The timestamp column is converted in place before the loop, so when it sits among columns 1 to 8 the loop reads it as a channel of datetimes, and that channel fails.
  - A class `Recording` holds the stored records and the `processed` flag.
  - `Recording.Process` and its loops are proved against `Processing`.
- `Sentiment`: `analyze_sentiment`.
  - The averages, the decision chain and the rendered label.
  - A parser `ParseLabel` that reads a label back. It is used to show that the label is exactly the verdict (mood, intensity, age bracket, sex) and nothing else.
- `BrainWaves`: `create_brain_waves_plot`.
  - It is written as the loops of the source: an array accumulator, then division by the channel count, then a scan for the peak, then scaling.
  - It is proved equal to the specification function `Traces`.

## Model

| member | source | states |
|---|---|---|
| SignalLibrary.IirNotch | analysis/eeg_processor.py:72 | for a positive centre frequency, the notch succeeds exactly when 2·60 ≤ fs; fs = 0 is a division by zero; an accepted w0 lies in [0, 1] with w0·fs = 2·f0 |
| SignalLibrary.NotchNormalization | analysis/eeg_processor.py:72 | w0 = 2·f0/fs satisfies w0·fs = 2·f0; for fs > 0, w0 ≤ 1 iff 2·f0 ≤ fs; for fs < 0 and f0 > 0, w0 < 0 |
| SignalLibrary.FiltFilt | analysis/eeg_processor.py:73 | zero-phase application succeeds exactly when the input is longer than the pad length; it keeps the length and maps silence to silence |
| SignalLibrary.PadLength | analysis/eeg_processor.py:73 | `filtfilt`'s default pad length: 9 for the notch, 3·order + 3 for a high- or low-pass Butterworth, 6·order + 3 for a band-pass (27 at order 4) |
| SignalLibrary.DesignAndApply | analysis/eeg_processor.py:72-86 | a failed design is passed on unchanged; otherwise the result is that of `filtfilt`, same length as the input |
| EegProcessor.Normalized | analysis/eeg_processor.py:23-24 | the normalised cutoff times the Nyquist frequency 0.5·fs gives back the cutoff |
| EegProcessor.NormalizedInUnit | analysis/eeg_processor.py:23-25 | for fs > 0, the normalised cutoff is in (0, 1) iff the cutoff is in (0, fs/2) |
| EegProcessor.NormalizedMonotone | analysis/eeg_processor.py:49-51 | for fs > 0, normalisation preserves the order of two cutoffs, both ways |
| EegProcessor.ButterHighpass | analysis/eeg_processor.py:12-26 | for fs > 0, succeeds iff 0 < cutoff < fs/2; fs = 0 is a division by zero; the result is an order-4 high-pass whose cutoff times the Nyquist frequency is the cutoff |
| EegProcessor.ButterLowpass | analysis/eeg_processor.py:28-40 | same as the high-pass, for a low-pass response |
| EegProcessor.ButterBandpass | analysis/eeg_processor.py:42-53 | for fs > 0, succeeds iff 0 < lowcut < highcut < fs/2; both edges are normalised by the same Nyquist frequency |
| EegProcessor.BandpassEdges | analysis/views.py:326-331 | the duplicate `butter_bandpass` of the views: normalised edges are ordered iff the cutoffs are, and the design accepts them iff 0 < lowcut < highcut < fs/2 |
| EegProcessor.BandTable | analysis/eeg_processor.py:95-101 | five bands named delta, theta, alpha, beta, gamma, each with 0 < low < high, contiguous, from 0.5 Hz to 40 Hz |
| EegProcessor.BandTableDesignable | analysis/eeg_processor.py:95-105 | every band of the table can be designed iff fs > 80 |
| EegProcessor.SumSquaresOfSilence | analysis/eeg_processor.py:107 | the sum of squares of an all-zero signal is 0 |
| EegProcessor.MeanSquare | analysis/eeg_processor.py:107 | `np.mean(x**2)` is never negative |
| EegProcessor.MeanSquareOfSilence | analysis/eeg_processor.py:107 | the power of an all-zero signal is exactly 0 |
| EegProcessor.BandPower | analysis/eeg_processor.py:104-107 | one band's power succeeds iff its band-pass can be designed and the signal has more than 27 samples; it is non-negative, and 0 on silence |
| EegProcessor.BandPowerList | analysis/eeg_processor.py:103-107 | the power list succeeds iff every band's power does; entry i is band i's power |
| EegProcessor.BandPowersSucceed | analysis/eeg_processor.py:103-107 | above 80 Hz, on more than 27 samples, all five powers are computed |
| ChannelPipeline.ToSeconds | analysis/eeg_processor.py:61 | same length; each second value times 1000 is the millisecond value |
| ChannelPipeline.ColumnIndex | analysis/eeg_processor.py:61 | `df['Timestamp']`: the first column with that name, or None exactly when no column has it |
| ChannelPipeline.ChannelColumns | analysis/eeg_processor.py:64 | `df.columns[1:9]`: positions 1, 2, … in order, every position in [1, min(width, 9)) listed, position 0 never; eight of them when the table is wide enough |
| ChannelPipeline.Prefilter | analysis/eeg_processor.py:72-86 | every stage has the length of the input |
| ChannelPipeline.PrefilterSucceedsIff | analysis/eeg_processor.py:72-86 | the notch/high-pass/low-pass/band-pass chain succeeds iff fs ≥ 120 and there are more than 27 samples |
| ChannelPipeline.AnalyzeChannel | analysis/eeg_processor.py:65-122 | a record carries the channel's name, timestamps and raw samples; its notch and band-pass signals are the notch and band-pass stages of `Prefilter`; each of the five powers is the power of its band of the table over the band-passed signal, hence non-negative |
| ChannelPipeline.ChannelSucceedsIff | analysis/eeg_processor.py:72-107 | a channel is analysed iff fs ≥ 120 and it has more than 27 samples (the 60 Hz notch and the pad length decide) |
| ChannelPipeline.SilentChannel | analysis/eeg_processor.py:72-107 | an all-zero channel gives all-zero filtered signals and five zero powers |
| ChannelPipeline.DatetimeChannel | analysis/eeg_processor.py:61-73 | the converted timestamp column read as a channel never yields a record: the notch design error when the notch cannot be designed, otherwise "too short" for at most 9 samples and a datetime-arithmetic error for more |
| ChannelPipeline.ColumnResult | analysis/eeg_processor.py:61-122 | the timestamp column fails; any other column gives its `AnalyzeChannel` result; a record carries its column's name and samples |
| ChannelPipeline.RunChannels | analysis/eeg_processor.py:64-122 | the channel loop; characterised by RunShape, RunStores, RunEndsAt and RunStopsAtFailure below |
| ChannelPipeline.Processing | analysis/eeg_processor.py:55-125 | `process_eeg_data`; characterised by ProcessingShape, CompleteRecording, TimestampAmongChannels, LowRateStoresNothing and ProcessingAsWritten below |
| ChannelPipeline.RunStopsAtFailure | analysis/eeg_processor.py:64-122 | after the first error no later channel is visited |
| ChannelPipeline.RunStores | analysis/eeg_processor.py:110-122 | a successful, accepted channel appends its record and the loop continues |
| ChannelPipeline.RunEndsAt | analysis/eeg_processor.py:64-122 | a failing channel ends the run with the records of earlier channels and that error |
| ChannelPipeline.RunShape | analysis/eeg_processor.py:64-122 | at most one record per channel; record i is channel i's analysis, accepted by the store; no error iff every channel was stored |
| ChannelPipeline.RunCompletes | analysis/eeg_processor.py:64-122 | when every channel succeeds and the store accepts everything, the run ends without error |
| ChannelPipeline.RunWithRefusingStore | analysis/eeg_processor.py:110-122 | a store that refuses every record stores nothing |
| ChannelPipeline.RunRecords | analysis/eeg_processor.py:64-122 | records are stored in column order: record i belongs to column i + 1 |
| ChannelPipeline.ChannelRunShape | analysis/eeg_processor.py:64-122 | over the channel columns, record i is the analysis of column i + 1; the loop ends without error iff all channel columns were stored |
| ChannelPipeline.ProcessingShape | analysis/eeg_processor.py:55-125 | a missing timestamp column stores nothing; otherwise record i is column i + 1's analysis, and the run succeeds iff every channel column was stored |
| ChannelPipeline.CompleteRecording | analysis/eeg_processor.py:55-125 | with a timestamp column outside columns 1 to 8, at least nine columns, channels of more than 27 samples, fs ≥ 120 and an accepting store, exactly eight records are stored and no error is raised |
| ChannelPipeline.LowRateStoresNothing | analysis/eeg_processor.py:72-73 | below 120 Hz the first channel already fails: nothing is stored and the error is a filter error |
| ChannelPipeline.RefusingStoreStoresNothing | analysis/eeg_processor.py:110-122 | a store that refuses every record leaves the recording without records |
| ChannelPipeline.TimestampAmongChannels | analysis/eeg_processor.py:61-73 | a timestamp column at position t among 1 to 8 makes the run fail, with fewer than t records stored |
| ChannelPipeline.ProcessingAsWritten | analysis/eeg_processor.py:110-125 | with a store that refuses every record, as `create` does as written: nothing is stored; with any channel column the run ends in an error (so `processed` is never set); when the first channel can be analysed, that error is the store's refusal |
| ChannelPipeline.PrefilterColumn | analysis/eeg_processor.py:72-86 | the sequential filter stages compute `Prefilter` |
| ChannelPipeline.MeasureBands | analysis/eeg_processor.py:103-107 | the band loop fills the powers in table order, equal to the power list, with no band failing |
| ChannelPipeline.AnalyzeColumn | analysis/eeg_processor.py:65-122 | one iteration of the channel loop computes `AnalyzeChannel` |
| ChannelPipeline.Recording.constructor | analysis/models.py:14-15 | sampling rate 250 by default; a new recording is unprocessed and has no records |
| ChannelPipeline.Recording.Process | analysis/eeg_processor.py:55-125 | appends exactly `Processing`'s records; succeeds iff the run has no error, and reports that error otherwise; `processed` becomes true only when the loop finished |
| ChannelPipeline.Recording.StoreChannels | analysis/eeg_processor.py:64-122 | the channel loop appends the run's records and returns its error; the flag is untouched |
| Sentiment.Mean | analysis/views.py:33-37 | `np.mean`: NaN exactly for an empty list; otherwise the mean times the count is the sum |
| Sentiment.SumWithin | analysis/views.py:33-37 | elementwise bounds lo ≤ x ≤ hi bound the sum by lo·n and hi·n |
| Sentiment.MeanWithin | analysis/views.py:32-38 | the mean of a non-empty list is finite and within the elements' bounds |
| Sentiment.AverageOfIsMean | analysis/views.py:32-38 | each entry of `avg` is the mean of that band's powers |
| Sentiment.AveragesAreMeans | analysis/views.py:32-38 | an average is NaN iff there are no analyses; otherwise it times the count is the sum of that band's powers |
| Sentiment.Average | analysis/views.py:32-38 | `avg`; characterised by AverageOfIsMean and AveragesAreMeans |
| Sentiment.AveragesOfPowersAreNonNegative | analysis/views.py:32-38 | for at least one analysis with powers in [0, hi], each average is finite and in [0, hi] |
| Sentiment.ClassifyMood | analysis/views.py:41-50 | stress iff β > 1.5·α, intense iff also γ > 0.08; relaxation iff not stress and α > 1.2·β, deep iff also θ > 0.1; drowsiness iff neither and θ exceeds α and β; comparisons with NaN are false |
| Sentiment.BracketOf | analysis/views.py:53-59 | no bracket iff the age is missing or 0; young below 18, adult from 18 to 65 inclusive, elderly above 65 |
| Sentiment.SexMarkOf | analysis/views.py:61-64 | ♀ iff the code is "F", ♂ iff it is "M"; anything else adds nothing |
| Sentiment.AnalyzeSentiment | analysis/views.py:30-69 | `avg_values` are the band means; the label reads back as exactly the verdict the averages, age and sex determine |
| Sentiment.Render | analysis/views.py:41-64 | the label text; characterised by ParseRender, RenderInjective, LabelPrecedence and LabelSuffixes below |
| Sentiment.SuffixStart | analysis/views.py:52-64 | what follows the base label is empty or starts with a space and '(' or a sex sign |
| Sentiment.ParseSexText | analysis/views.py:61-64 | the sex suffix reads back as the mark it was written from |
| Sentiment.ParseBracketText | analysis/views.py:53-64 | the age suffix followed by the sex suffix reads back as the bracket, leaving the sex suffix |
| Sentiment.ParseStressText | analysis/views.py:43-45 | "Agitação/Estresse" with or without " Intensa", followed by a suffix, reads back as stress of that intensity |
| Sentiment.ParseRelaxationText | analysis/views.py:46-48 | "Relaxamento" with or without " Profundo", followed by a suffix, reads back as relaxation of that depth |
| Sentiment.ParseMoodText | analysis/views.py:41-50 | every base label followed by a suffix reads back as its mood and leaves the suffix |
| Sentiment.ParseRender | analysis/views.py:41-64 | every label reads back as the verdict it was built from |
| Sentiment.RenderInjective | analysis/views.py:41-64 | two different verdicts never give the same label |
| Sentiment.LabelPrecedence | analysis/views.py:41-50 | the label starts with "Agitação/Estresse" iff β > 1.5·α; with " Intensa" after it iff also γ > 0.08; with "Relaxamento" iff not that and α > 1.2·β; with " Profundo" iff also θ > 0.1; with "Sonolência/Criatividade" iff neither and θ > α and θ > β; with "Neutro" otherwise |
| Sentiment.MoodPrefixes | analysis/views.py:41-50 | a rendered mood followed by a suffix starts with exactly its own base text and intensity text |
| Sentiment.LabelSuffixes | analysis/views.py:52-64 | no age suffix for a missing or zero age; " (Jovem)", " (Adulto)" or " (Idoso)" by bracket; then " ♀", " ♂" or nothing, last |
| Sentiment.NoAnalysesIsNeutral | analysis/views.py:30-50 | with no analyses every average is NaN and the base label is "Neutro" |
| BrainWaves.Take | analysis/views.py:133-134 | `s[:500]`: a prefix of length min(\|s\|, 500) |
| BrainWaves.CaseFoldChars | analysis/views.py:135 | `capitalize`, character by character: the first upper-cased, every other lower-cased (ASCII) |
| BrainWaves.CapitalizeIdempotent | analysis/views.py:135 | capitalising twice is capitalising once; a capitalised word starts with no lower-case letter and continues with no upper-case one |
| BrainWaves.CapitalizeLowerCase | analysis/views.py:135 | a lower-case name such as "delta" is capitalised by upper-casing its first letter ("Delta") |
| BrainWaves.Filtered | analysis/views.py:117-119 | succeeds iff the band-pass can be designed, else the design error; the filtered signal has the channel's length |
| BrainWaves.SumFiltered | analysis/views.py:106-123 | a successful accumulator has the first channel's length |
| BrainWaves.BandAverage | analysis/views.py:125 | a successful average has the accumulator's length |
| BrainWaves.BandAverages | analysis/views.py:104-125 | one average per band, each of the first channel's length; it succeeds iff every band's average does, and entry b is band b's `BandAverage` |
| BrainWaves.MaxAbs | analysis/views.py:130 | `np.max(np.abs(s))` bounds every magnitude and is attained |
| BrainWaves.PeakOfSilence | analysis/views.py:130 | the peak is non-negative, and 0 iff the signal is silent |
| BrainWaves.ScaledWithin | analysis/views.py:130 | a sample of magnitude at most p, divided by p and scaled by 0.5, lies in [-0.5, 0.5]; magnitude p lands on ±0.5 |
| BrainWaves.ScaledSamples | analysis/views.py:130 | scaling keeps the length |
| BrainWaves.ScaledByPeak | analysis/views.py:130 | scaled by its peak, a signal has every finite sample in [-0.5, 0.5], NaN samples iff it is silent, and a sample of magnitude 0.5 when it is not silent |
| BrainWaves.Normalize | analysis/views.py:130 | fails iff the signal is empty; NaN everywhere iff silent; otherwise every sample in [-0.5, 0.5] and the peak at 0.5 |
| BrainWaves.NormalizedTraces | analysis/views.py:128-137 | one trace per band |
| BrainWaves.TraceContents | analysis/views.py:128-137 | trace i is named by band i's capitalised name, has the first 500 timestamps, and the first 500 samples of band i's normalised average |
| BrainWaves.SumIsChannelSum | analysis/views.py:106-123 | with equal-length channels, the accumulator holds, sample by sample, the sum of the filtered channels |
| BrainWaves.AverageIsChannelMean | analysis/views.py:104-125 | the average times the channel count is the sum over channels, sample by sample |
| BrainWaves.PlotShape | analysis/views.py:71-137 | for equal-length non-empty channels and fs > 80: five traces in table order named by the capitalised band names, min(n, 500) samples each within [-0.5, 0.5] against the first 500 timestamps |
| BrainWaves.PlottedAverage | analysis/views.py:104-137 | under the same conditions, band b's trace is the first 500 samples of band b's average (the channel mean of AverageIsChannelMean) scaled to its peak |
| BrainWaves.Traces | analysis/views.py:71-137 | no analyses fail; a plot has one trace per band; characterised further by PlotShape and PlottedAverage |
| BrainWaves.AveragesSucceed | analysis/views.py:104-125 | when every band can be designed and the channels have equal length, averaging succeeds |
| BrainWaves.TracesSucceed | analysis/views.py:128-137 | non-empty averages always give traces |
| BrainWaves.NoAnalysesNoPlot | analysis/views.py:73 | `analyses[0]` of no analyses fails before any filtering |
| BrainWaves.SumStopsAtFailure | analysis/views.py:111-122 | the first channel that fails decides the error of the inner loop |
| BrainWaves.AveragesStopAtFailure | analysis/views.py:106-125 | the first band that fails decides the error of the outer loop |
| BrainWaves.AveragesStep | analysis/views.py:104-125 | one band more: its average is appended, or its error ends the averaging |
| BrainWaves.TracesStopAtFailure | analysis/views.py:128-137 | the first band whose normalisation fails decides the error of the plotting loop |
| BrainWaves.TracesStep | analysis/views.py:128-137 | one band more: its trace (capitalised name, first 500 timestamps and scaled samples) is appended, or its normalisation error ends the plot |
| BrainWaves.AccumulateInto | analysis/views.py:122 | the in-place add leaves the array equal to `Added` of its old contents |
| BrainWaves.AverageBand | analysis/views.py:106-125 | the accumulator loop and the division compute `BandAverage` |
| BrainWaves.Peak | analysis/views.py:130 | the scan returns `MaxAbs` |
| BrainWaves.MaxAbsStep | analysis/views.py:130 | one more sample keeps the larger of the old peak and its magnitude |
| BrainWaves.NormalizeSignal | analysis/views.py:130 | the scaling loop computes `Normalize` |
| BrainWaves.AverageBands | analysis/views.py:104-125 | the outer averaging loop computes `BandAverages` over the band table |
| BrainWaves.PlotTraces | analysis/views.py:128-137 | the plotting loop computes `NormalizedTraces` |
| BrainWaves.BrainWavesPlot | analysis/views.py:71-137 | `create_brain_waves_plot` computes `Traces` |

## Left out

- The numeric output of `butter`, `iirnotch`, `filtfilt`, `lfilter` and `stft` is not modelled; only its failure rules are. It is the `SignalLib` parameter. `Lawful` is what the model assumes of it: length preserved, silence kept silent.
- The floating-point rounding of the normalisations, means and scalings is not modelled. They are computed on reals, with NaN added only where numpy produces it (`np.mean([])`, `0/0`).
- Reading the CSV (`pd.read_csv`) is not modelled. The table arrives as named columns of numbers.
- `pd.to_datetime` on the timestamps (line 62) is modelled only where the converted column is read as a channel. The timestamps stored in a record are kept as seconds.
- Duplicate column names are not modelled: `df[name]` is taken to be the first column of that name.
- The JSON serialisation of the stored signals and spectrogram is not modelled. `json.dumps`/`json.loads` are treated as the identity, so a record holds the sequences themselves.
- The database is not modelled. `EEGChannelAnalysis.objects.create` is a parameter `persists` that accepts or refuses a record.
  - As written, the call passes `notch_filtered` and `bandpass_filtered`, while analysis/models.py declares `notch`, `bandpass`, `highpass` and `lowpass`, and its arguments hold `pd.Timestamp` values `json.dumps` cannot serialise. Both raise (see "## Findings"); the store that refuses everything, `CreateAsWritten`, models that.
  - `eeg_data.save()` is the assignment to `processed`.
- The spectrogram's contents are left to the library. The model keeps only that it is taken of the band-passed signal with 256-sample segments.
- BrainWaves.BrainWavesPlot: each analysis's own `eeg_data.sampling_rate` is replaced by one sampling rate `fs`. All analyses passed to the plot belong to one recording.
- The colours, layout and HTML output of the plot are not modelled; a trace is its legend name, x values and y values.
- BrainWaves.Capitalize: only ASCII letters change case; Python's Unicode title-casing of other first characters is not modelled. The remaining Django views (`upload_eeg`, `dashboard`, `channel_detail`, `EEGList`, the topographic map), the forms and the URL configuration are not part of this model.
- The data type of `np.zeros_like(raw_signal)` is not modelled. For an integer-valued first channel, numpy would refuse the in-place add of float samples; the accumulator here is always real.
- EegProcessor.MeanSquareOfSilence: states only that silence gives zero power, not the converse.
- SignalLibrary.Butter: filter order and response type are kept, but not the coefficients. The pad length uses the coefficient counts `butter` and `iirnotch` produce: order + 1, 2·order + 1 for a band-pass, and 3 for the notch.

## Findings

| source | as written | input that shows it | evidently intended | confidence | as-written member | corrected member |
|---|---|---|---|---|---|---|
| analysis/eeg_processor.py:110-115 | `create` is given `notch_filtered=` and `bandpass_filtered=`, fields the record type (analysis/models.py:29-32) does not declare, so it raises `TypeError` | a table with a "Timestamp" column at position 0 and a first channel of more than 27 samples, fs = 250: the first `create` raises, nothing is stored, `processed` stays false | one record per channel stored under the declared fields, then `processed` set | not executed | ChannelPipeline.ProcessingAsWritten | ChannelPipeline.CompleteRecording |
| analysis/eeg_processor.py:113 | `json.dumps` is applied to `df['Timestamp'].tolist()` after line 62 turned the column into `pd.Timestamp` values, which it cannot serialise | the same table: the arguments of the first `create` raise before the call | the timestamps serialised as numbers or strings | not executed | ChannelPipeline.ProcessingAsWritten | ChannelPipeline.CompleteRecording |
