/** The brain-waves plot of `create_brain_waves_plot` in analysis/views.py: for each
    band of the table, every channel's raw signal is band-pass filtered (causally)
    and added elementwise into an accumulator shaped like the first channel's
    signal; the sum is divided by the number of channels, scaled so that its largest
    magnitude becomes 0.5, and the first 500 points of it are plotted against the
    first channel's timestamps. */
module BrainWaves {
  import opened Wrappers
  import opened SignalLibrary
  import opened EegProcessor
  import opened ChannelPipeline
  import RealArith

  /** Points plotted per trace. */
  const PlotPoints: nat := 500
  /** Height of the largest peak after scaling. */
  const PlotAmplitude: real := 0.5

  datatype PlotError =
    | NoAnalyses                     // `analyses[0]` of an empty list
    | DesignFailed(cause: FilterError)
    | ShapeMismatch                  // `band_signals += filtered` cannot broadcast
    | EmptySignal                    // `np.max` of an empty array

  /** One line of the figure: legend name, time axis, scaled samples. */
  datatype Trace = Trace(band: string, x: seq<real>, y: seq<Float>)

  function Abs(v: real): real {
    if v < 0.0 then -v else v
  }

  /** Python's `s[:k]`. */
  function Take<T>(s: seq<T>, k: nat): (t: seq<T>)
    ensures |t| == Min(|s|, k)
    ensures t <= s
  {
    if |s| <= k then s else s[..k]
  }

  /** ASCII upper case of one character; other characters are kept. */
  function Upper(c: char): char {
    if 'a' <= c <= 'z' then (c as int - 32) as char else c
  }

  /** ASCII lower case of one character; other characters are kept. */
  function Lower(c: char): char {
    if 'A' <= c <= 'Z' then (c as int + 32) as char else c
  }

  /** Python's `s.capitalize()` on ASCII text: the first character in upper case,
      the rest in lower case. */
  function Capitalize(s: string): (r: string)
    ensures |r| == |s|
  {
    CaseFold(s, true)
  }

  /** `s` with its first character in upper case when `first` holds, and every
      other character in lower case. */
  function CaseFold(s: string, first: bool): (r: string)
    ensures |r| == |s|
  {
    if s == [] then []
    else [if first then Upper(s[0]) else Lower(s[0])] + CaseFold(s[1..], false)
  }

  /** Character by character: the first one upper-cased when `first` holds, and
      lower-cased otherwise, like all the others. */
  lemma {:induction false} CaseFoldChars(s: string, first: bool)
    ensures s != [] ==> CaseFold(s, first)[0] == if first then Upper(s[0]) else Lower(s[0])
    ensures forall i :: 0 < i < |s| ==> CaseFold(s, first)[i] == Lower(s[i])
  {
    if s != [] {
      CaseFoldChars(s[1..], false);
    }
  }

  /** Capitalising twice changes nothing more, and a capitalised name starts with
      no lower-case letter and continues with no upper-case one. */
  lemma CapitalizeIdempotent(s: string)
    ensures Capitalize(Capitalize(s)) == Capitalize(s)
    ensures s != [] ==> !('a' <= Capitalize(s)[0] <= 'z')
    ensures forall i :: 0 < i < |s| ==> !('A' <= Capitalize(s)[i] <= 'Z')
  {
    var r := Capitalize(s);
    CaseFoldChars(s, true);
    CaseFoldChars(r, true);
    assert Capitalize(r) == r;
  }

  /** A word in lower case, such as the band table's names, is capitalised by
      upper-casing its first letter alone ("delta" becomes "Delta"). */
  lemma CapitalizeLowerCase(s: string)
    requires s != []
    requires forall i :: 0 <= i < |s| ==> 'a' <= s[i] <= 'z'
    ensures Capitalize(s) == [Upper(s[0])] + s[1..]
    ensures 'A' <= Capitalize(s)[0] <= 'Z'
  {
    CaseFoldChars(s, true);
  }

  // ---------------------------------------------------------------- specification

  /** `acc + y` with numpy broadcasting into `acc`'s shape: y has acc's length, or a
      single sample that is added everywhere. */
  predicate Broadcastable(acc: seq<real>, y: seq<real>) {
    |y| == |acc| || |y| == 1
  }

  function Added(acc: seq<real>, y: seq<real>): (r: seq<real>)
    requires Broadcastable(acc, y)
    ensures |r| == |acc|
    ensures forall i :: 0 <= i < |acc| ==> r[i] == acc[i] + (if |y| == |acc| then y[i] else y[0])
  {
    seq(|acc|, i requires 0 <= i < |acc| => acc[i] + (if |y| == |acc| then y[i] else y[0]))
  }

  /** `b, a = butter_bandpass(low, high, fs)` then `lfilter(b, a, channel_signal)`. */
  function Filtered(lib: SignalLib, fs: real, band: Band, a: ChannelAnalysis): (r: Result<seq<real>, PlotError>)
    requires Lawful(lib)
    ensures r.Ok? <==> ButterBandpass(band.low, band.high, fs).Ok?
    ensures r.Err? ==> r.error == DesignFailed(ButterBandpass(band.low, band.high, fs).error)
    ensures r.Ok? ==> |r.value| == |a.raw|
  {
    match ButterBandpass(band.low, band.high, fs)
    case Err(e) => Err(DesignFailed(e))
    case Ok(f) => Ok(lib.causal(f, a.raw))
  }

  /** The accumulator after the inner loop has visited `analyses`, starting from
      `n` zeros; the first failing step decides the error. */
  function SumFiltered(lib: SignalLib, fs: real, band: Band, analyses: seq<ChannelAnalysis>, n: nat)
    : (r: Result<seq<real>, PlotError>)
    requires Lawful(lib)
    ensures r.Ok? ==> |r.value| == n
    decreases |analyses|
  {
    if analyses == [] then Ok(Zeros(n))
    else
      var acc :- SumFiltered(lib, fs, band, analyses[..|analyses| - 1], n);
      var y :- Filtered(lib, fs, band, analyses[|analyses| - 1]);
      if Broadcastable(acc, y) then Ok(Added(acc, y)) else Err(ShapeMismatch)
  }

  /** `band_signals / len(analyses)`. */
  function BandAverage(lib: SignalLib, fs: real, band: Band, analyses: seq<ChannelAnalysis>, n: nat)
    : (r: Result<seq<real>, PlotError>)
    requires Lawful(lib)
    requires analyses != []
    ensures r.Ok? ==> |r.value| == n
  {
    var sum :- SumFiltered(lib, fs, band, analyses, n);
    Ok(seq(|sum|, i requires 0 <= i < |sum| => sum[i] / (|analyses| as real)))
  }

  /** `avg_signals`, band by band in table order. */
  function BandAverages(lib: SignalLib, fs: real, bands: seq<Band>, analyses: seq<ChannelAnalysis>, n: nat)
    : (r: Result<seq<seq<real>>, PlotError>)
    requires Lawful(lib)
    requires analyses != []
    ensures r.Ok? ==> |r.value| == |bands| && forall i :: 0 <= i < |bands| ==> |r.value[i]| == n
    ensures r.Ok? <==> forall b :: 0 <= b < |bands| ==> BandAverage(lib, fs, bands[b], analyses, n).Ok?
    ensures r.Ok? ==> forall b :: 0 <= b < |bands| ==> BandAverage(lib, fs, bands[b], analyses, n) == Ok(r.value[b])
    decreases |bands|
  {
    if bands == [] then Ok([])
    else
      var init := bands[..|bands| - 1];
      assert forall b :: 0 <= b < |init| ==> init[b] == bands[b];
      var avgs :- BandAverages(lib, fs, init, analyses, n);
      var avg :- BandAverage(lib, fs, bands[|bands| - 1], analyses, n);
      Ok(avgs + [avg])
  }

  /** `np.max(np.abs(s))`: a largest magnitude, attained by some sample. */
  function MaxAbs(s: seq<real>): (m: real)
    requires s != []
    ensures forall k :: 0 <= k < |s| ==> Abs(s[k]) <= m
    ensures exists k :: 0 <= k < |s| && Abs(s[k]) == m
  {
    if |s| == 1 then Abs(s[0])
    else
      var m := MaxAbs(s[..|s| - 1]);
      assert forall k :: 0 <= k < |s| - 1 ==> s[..|s| - 1][k] == s[k];
      if Abs(s[|s| - 1]) > m then Abs(s[|s| - 1]) else m
  }

  predicate Silent(s: seq<real>) {
    forall j :: 0 <= j < |s| ==> s[j] == 0.0
  }

  /** The largest magnitude is zero exactly for a silent signal, and positive
      otherwise. */
  lemma PeakOfSilence(s: seq<real>)
    requires s != []
    ensures MaxAbs(s) >= 0.0
    ensures MaxAbs(s) == 0.0 <==> Silent(s)
  {
    var top :| 0 <= top < |s| && Abs(s[top]) == MaxAbs(s);
    if !Silent(s) {
      var j :| 0 <= j < |s| && s[j] != 0.0;
      assert Abs(s[j]) > 0.0;
    }
  }

  /** A sample of magnitude at most p, divided by p and scaled, lies in
      [-0.5, 0.5]; one of magnitude p lands on ±0.5. */
  lemma ScaledWithin(a: real, p: real)
    requires p > 0.0
    requires Abs(a) <= p
    ensures -PlotAmplitude <= a / p * PlotAmplitude <= PlotAmplitude
    ensures Abs(a) == p ==> Abs(a / p * PlotAmplitude) == PlotAmplitude
  {
    RealArith.QuotientBounds(a, p);
  }

  /** One sample divided by `peak` and scaled; 0/0 is NaN. */
  function ScaledSample(v: real, peak: real): Float {
    if peak == 0.0 then NaN else Finite(v / peak * PlotAmplitude)
  }

  /** Every sample divided by `peak` and scaled. */
  function ScaledSamples(s: seq<real>, peak: real): (y: seq<Float>)
    ensures |y| == |s|
  {
    seq(|s|, k requires 0 <= k < |s| => ScaledSample(s[k], peak))
  }

  /** Scaling by the largest magnitude puts every sample in [-0.5, 0.5], lands the
      peak on 0.5 exactly, and gives NaN only for a silent signal. */
  lemma ScaledByPeak(s: seq<real>)
    requires s != []
    ensures var y := ScaledSamples(s, MaxAbs(s));
            && (forall k :: 0 <= k < |s| ==> (y[k].NaN? <==> Silent(s)))
            && (forall k :: 0 <= k < |s| && y[k].Finite? ==> -PlotAmplitude <= y[k].v <= PlotAmplitude)
            && (!Silent(s) ==> exists k :: 0 <= k < |s| && y[k].Finite? && Abs(y[k].v) == PlotAmplitude)
  {
    var peak := MaxAbs(s);
    var y := ScaledSamples(s, peak);
    PeakOfSilence(s);
    if !Silent(s) {
      forall k | 0 <= k < |s|
        ensures -PlotAmplitude <= y[k].v <= PlotAmplitude
      {
        ScaledWithin(s[k], peak);
      }
      var top :| 0 <= top < |s| && Abs(s[top]) == peak;
      ScaledWithin(s[top], peak);
      assert Abs(y[top].v) == PlotAmplitude;
    }
  }

  /** `signal / np.max(np.abs(signal)) * 0.5`: every sample scaled into
      [-0.5, 0.5], the largest magnitude landing on 0.5 exactly; a silent signal
      gives 0/0, NaN everywhere; an empty one raises. */
  function Normalize(s: seq<real>): (r: Result<seq<Float>, PlotError>)
    ensures r.Err? <==> s == []
    ensures r.Err? ==> r.error == EmptySignal
    ensures r.Ok? ==> |r.value| == |s|
    ensures r.Ok? ==> forall k :: 0 <= k < |s| ==> (r.value[k].NaN? <==> Silent(s))
    ensures r.Ok? ==> forall k :: 0 <= k < |s| && r.value[k].Finite? ==>
                        -PlotAmplitude <= r.value[k].v <= PlotAmplitude
    ensures r.Ok? && !Silent(s) ==>
              exists k :: 0 <= k < |s| && r.value[k].Finite? && Abs(r.value[k].v) == PlotAmplitude
  {
    if s == [] then Err(EmptySignal)
    else
      ScaledByPeak(s);
      Ok(ScaledSamples(s, MaxAbs(s)))
  }

  /** The traces, band by band: first 500 timestamps and first 500 scaled samples. */
  function NormalizedTraces(bands: seq<Band>, averages: seq<seq<real>>, times: seq<real>)
    : (r: Result<seq<Trace>, PlotError>)
    requires |averages| == |bands|
    ensures r.Ok? ==> |r.value| == |bands|
    decreases |bands|
  {
    if bands == [] then Ok([])
    else
      var k := |bands| - 1;
      var traces :- NormalizedTraces(bands[..k], averages[..k], times);
      var y :- Normalize(averages[k]);
      Ok(traces + [Trace(Capitalize(bands[k].name), Take(times, PlotPoints), Take(y, PlotPoints))])
  }

  /** Trace i is band i's capitalised name, the first 500 timestamps and the first 500 samples
      of band i's normalised average. */
  lemma {:induction false} TraceContents(bands: seq<Band>, averages: seq<seq<real>>, times: seq<real>)
    requires |averages| == |bands|
    ensures var r := NormalizedTraces(bands, averages, times);
            r.Ok? ==> forall i :: 0 <= i < |bands| ==>
                        && r.value[i].band == Capitalize(bands[i].name)
                        && r.value[i].x == Take(times, PlotPoints)
                        && Normalize(averages[i]).Ok?
                        && r.value[i].y == Take(Normalize(averages[i]).value, PlotPoints)
    decreases |bands|
  {
    if bands != [] {
      var k := |bands| - 1;
      TraceContents(bands[..k], averages[..k], times);
      var r := NormalizedTraces(bands, averages, times);
      if r.Ok? {
        var prev := NormalizedTraces(bands[..k], averages[..k], times).value;
        assert r.value == prev + [r.value[k]];
        forall i | 0 <= i < k
          ensures r.value[i] == prev[i] && bands[..k][i] == bands[i] && averages[..k][i] == averages[i]
        {
        }
      }
    }
  }

  /** `create_brain_waves_plot(analyses)` as a specification. */
  function Traces(lib: SignalLib, fs: real, analyses: seq<ChannelAnalysis>): (r: Result<seq<Trace>, PlotError>)
    requires Lawful(lib)
    ensures analyses == [] ==> r == Err(NoAnalyses)
    ensures r.Ok? ==> |r.value| == |BandTable()|
  {
    if analyses == [] then Err(NoAnalyses)
    else
      var averages :- BandAverages(lib, fs, BandTable(), analyses, |analyses[0].raw|);
      NormalizedTraces(BandTable(), averages, analyses[0].times)
  }

  // ---------------------------------------------------------------- properties

  /** Sum over channels of sample `i` of each channel's filtered signal. */
  function ChannelSum(lib: SignalLib, f: Filter, analyses: seq<ChannelAnalysis>, i: nat): real
    requires Lawful(lib)
    requires forall j :: 0 <= j < |analyses| ==> i < |analyses[j].raw|
    decreases |analyses|
  {
    if analyses == [] then 0.0
    else ChannelSum(lib, f, analyses[..|analyses| - 1], i) + lib.causal(f, analyses[|analyses| - 1].raw)[i]
  }

  /** When every channel is as long as the first, the accumulator holds, sample by
      sample, the sum of the filtered channels. */
  lemma {:induction false} SumIsChannelSum(lib: SignalLib, fs: real, band: Band, analyses: seq<ChannelAnalysis>, n: nat)
    requires Lawful(lib)
    requires ButterBandpass(band.low, band.high, fs).Ok?
    requires forall j :: 0 <= j < |analyses| ==> |analyses[j].raw| == n
    ensures var r := SumFiltered(lib, fs, band, analyses, n);
            && r.Ok?
            && forall i :: 0 <= i < n ==>
                 r.value[i] == ChannelSum(lib, ButterBandpass(band.low, band.high, fs).value, analyses, i)
    decreases |analyses|
  {
    if analyses != [] {
      var init := analyses[..|analyses| - 1];
      assert forall j :: 0 <= j < |init| ==> init[j] == analyses[j];
      SumIsChannelSum(lib, fs, band, init, n);
    }
  }

  /** Each band's averaged signal is as long as the first channel's raw signal, and
      m times each sample is the sum of that sample over the m filtered channels. */
  lemma AverageIsChannelMean(lib: SignalLib, fs: real, band: Band, analyses: seq<ChannelAnalysis>)
    requires Lawful(lib)
    requires analyses != []
    requires ButterBandpass(band.low, band.high, fs).Ok?
    requires forall j :: 0 <= j < |analyses| ==> |analyses[j].raw| == |analyses[0].raw|
    ensures var n := |analyses[0].raw|;
            var r := BandAverage(lib, fs, band, analyses, n);
            && r.Ok? && |r.value| == n
            && forall i :: 0 <= i < n ==>
                 r.value[i] * (|analyses| as real)
                 == ChannelSum(lib, ButterBandpass(band.low, band.high, fs).value, analyses, i)
  {
    var n, m := |analyses[0].raw|, |analyses| as real;
    SumIsChannelSum(lib, fs, band, analyses, n);
    var sum := SumFiltered(lib, fs, band, analyses, n).value;
    forall i | 0 <= i < n
      ensures (sum[i] / m) * m == sum[i]
    {
      RealArith.DivMul(sum[i], m);
    }
  }

  /** A plot of channels of one length n > 0, sampled above 80 Hz (so that every band
      can be designed), has one trace per band in table order, each of min(n, 500)
      samples within [-0.5, 0.5] against the first 500 timestamps. */
  lemma PlotShape(lib: SignalLib, fs: real, analyses: seq<ChannelAnalysis>)
    requires Lawful(lib)
    requires analyses != []
    requires fs > 80.0
    requires |analyses[0].raw| > 0
    requires forall j :: 0 <= j < |analyses| ==> |analyses[j].raw| == |analyses[0].raw|
    ensures var r := Traces(lib, fs, analyses);
            && r.Ok?
            && |r.value| == |BandTable()|
            && forall b :: 0 <= b < |r.value| ==>
                 && r.value[b].band == Capitalize(BandTable()[b].name)
                 && |r.value[b].x| == Min(|analyses[0].times|, PlotPoints)
                 && |r.value[b].y| == Min(|analyses[0].raw|, PlotPoints)
                 && forall k :: 0 <= k < |r.value[b].y| && r.value[b].y[k].Finite? ==>
                      -PlotAmplitude <= r.value[b].y[k].v <= PlotAmplitude
  {
    var n := |analyses[0].raw|;
    BandTableDesignable(fs);
    AveragesSucceed(lib, fs, BandTable(), analyses, n);
    var averages := BandAverages(lib, fs, BandTable(), analyses, n).value;
    TracesSucceed(BandTable(), averages, analyses[0].times, n);
    TraceContents(BandTable(), averages, analyses[0].times);
    var r := Traces(lib, fs, analyses).value;
    forall b, k | 0 <= b < |r| && 0 <= k < |r[b].y| && r[b].y[k].Finite?
      ensures -PlotAmplitude <= r[b].y[k].v <= PlotAmplitude
    {
      assert r[b].y[k] == Normalize(averages[b]).value[k];
    }
  }

  /** Band b's trace shows the first 500 samples of band b's average (the mean of
      the filtered channels, by AverageIsChannelMean), scaled to its peak. */
  lemma PlottedAverage(lib: SignalLib, fs: real, analyses: seq<ChannelAnalysis>, b: nat)
    requires Lawful(lib)
    requires analyses != []
    requires fs > 80.0
    requires |analyses[0].raw| > 0
    requires forall j :: 0 <= j < |analyses| ==> |analyses[j].raw| == |analyses[0].raw|
    requires b < |BandTable()|
    ensures var avg := BandAverage(lib, fs, BandTable()[b], analyses, |analyses[0].raw|);
            var r := Traces(lib, fs, analyses);
            && avg.Ok? && r.Ok? && b < |r.value|
            && Normalize(avg.value).Ok?
            && r.value[b].y == Take(Normalize(avg.value).value, PlotPoints)
  {
    var n := |analyses[0].raw|;
    BandTableDesignable(fs);
    AveragesSucceed(lib, fs, BandTable(), analyses, n);
    var averages := BandAverages(lib, fs, BandTable(), analyses, n).value;
    TracesSucceed(BandTable(), averages, analyses[0].times, n);
    TraceContents(BandTable(), averages, analyses[0].times);
  }

  lemma {:induction false} AveragesSucceed(lib: SignalLib, fs: real, bands: seq<Band>, analyses: seq<ChannelAnalysis>, n: nat)
    requires Lawful(lib)
    requires analyses != []
    requires forall b :: 0 <= b < |bands| ==> ButterBandpass(bands[b].low, bands[b].high, fs).Ok?
    requires forall j :: 0 <= j < |analyses| ==> |analyses[j].raw| == n
    ensures BandAverages(lib, fs, bands, analyses, n).Ok?
    decreases |bands|
  {
    if bands != [] {
      var init := bands[..|bands| - 1];
      assert forall b :: 0 <= b < |init| ==> init[b] == bands[b];
      AveragesSucceed(lib, fs, init, analyses, n);
      SumIsChannelSum(lib, fs, bands[|bands| - 1], analyses, n);
    }
  }

  lemma {:induction false} TracesSucceed(bands: seq<Band>, averages: seq<seq<real>>, times: seq<real>, n: nat)
    requires |averages| == |bands|
    requires n > 0
    requires forall b :: 0 <= b < |averages| ==> |averages[b]| == n
    ensures NormalizedTraces(bands, averages, times).Ok?
    decreases |bands|
  {
    if bands != [] {
      var k := |bands| - 1;
      assert forall b :: 0 <= b < k ==> averages[..k][b] == averages[b];
      TracesSucceed(bands[..k], averages[..k], times, n);
    }
  }

  /** Without analyses the plot fails before any filtering. */
  lemma NoAnalysesNoPlot(lib: SignalLib, fs: real)
    requires Lawful(lib)
    ensures Traces(lib, fs, []) == Err(NoAnalyses)
  {
  }

  // ---------------------------------------------------------------- failure propagation

  lemma {:induction false} SumStopsAtFailure(lib: SignalLib, fs: real, band: Band, analyses: seq<ChannelAnalysis>, n: nat, k: nat)
    requires Lawful(lib)
    requires k <= |analyses|
    requires SumFiltered(lib, fs, band, analyses[..k], n).Err?
    ensures SumFiltered(lib, fs, band, analyses, n) == SumFiltered(lib, fs, band, analyses[..k], n)
    decreases |analyses| - k
  {
    if k < |analyses| {
      var init := analyses[..|analyses| - 1];
      assert init[..k] == analyses[..k];
      SumStopsAtFailure(lib, fs, band, init, n, k);
    } else {
      assert analyses[..k] == analyses;
    }
  }

  lemma {:induction false} AveragesStopAtFailure(lib: SignalLib, fs: real, bands: seq<Band>, analyses: seq<ChannelAnalysis>, n: nat, k: nat)
    requires Lawful(lib)
    requires analyses != []
    requires k <= |bands|
    requires BandAverages(lib, fs, bands[..k], analyses, n).Err?
    ensures BandAverages(lib, fs, bands, analyses, n) == BandAverages(lib, fs, bands[..k], analyses, n)
    decreases |bands| - k
  {
    if k < |bands| {
      var init := bands[..|bands| - 1];
      assert init[..k] == bands[..k];
      AveragesStopAtFailure(lib, fs, init, analyses, n, k);
    } else {
      assert bands[..k] == bands;
    }
  }

  lemma {:induction false} TracesStopAtFailure(bands: seq<Band>, averages: seq<seq<real>>, times: seq<real>, k: nat)
    requires |averages| == |bands|
    requires k <= |bands|
    requires NormalizedTraces(bands[..k], averages[..k], times).Err?
    ensures NormalizedTraces(bands, averages, times) == NormalizedTraces(bands[..k], averages[..k], times)
    decreases |bands| - k
  {
    if k < |bands| {
      var last := |bands| - 1;
      assert bands[..last][..k] == bands[..k];
      assert averages[..last][..k] == averages[..k];
      TracesStopAtFailure(bands[..last], averages[..last], times, k);
    } else {
      assert bands[..k] == bands;
      assert averages[..k] == averages;
    }
  }

  // ---------------------------------------------------------------- the loops

  /** `band_signals += filtered`, in place. */
  method AccumulateInto(acc: array<real>, y: seq<real>)
    requires Broadcastable(acc[..], y)
    modifies acc
    ensures acc[..] == Added(old(acc[..]), y)
  {
    ghost var before := acc[..];
    var k := 0;
    while k < acc.Length
      invariant 0 <= k <= acc.Length
      invariant forall i :: 0 <= i < k ==> acc[i] == before[i] + (if |y| == |before| then y[i] else y[0])
      invariant forall i :: k <= i < acc.Length ==> acc[i] == before[i]
    {
      acc[k] := acc[k] + (if |y| == acc.Length then y[k] else y[0]);
      k := k + 1;
    }
  }

  /** One band of the outer loop: the accumulator, the inner loop over channels, and
      the division by the channel count. */
  method AverageBand(lib: SignalLib, fs: real, band: Band, analyses: seq<ChannelAnalysis>)
    returns (r: Result<seq<real>, PlotError>)
    requires Lawful(lib)
    requires analyses != []
    ensures r == BandAverage(lib, fs, band, analyses, |analyses[0].raw|)
  {
    var n := |analyses[0].raw|;
    var acc := new real[n](_ => 0.0);
    assert acc[..] == Zeros(n);
    var j := 0;
    while j < |analyses|
      invariant 0 <= j <= |analyses|
      invariant acc.Length == n
      invariant SumFiltered(lib, fs, band, analyses[..j], n) == Ok(acc[..])
    {
      assert analyses[..j + 1][..j] == analyses[..j];
      var design := ButterBandpass(band.low, band.high, fs);
      if design.Err? {
        SumStopsAtFailure(lib, fs, band, analyses, n, j + 1);
        return Err(DesignFailed(design.error));
      }
      var filtered := lib.causal(design.value, analyses[j].raw);
      if !Broadcastable(acc[..], filtered) {
        SumStopsAtFailure(lib, fs, band, analyses, n, j + 1);
        return Err(ShapeMismatch);
      }
      AccumulateInto(acc, filtered);
      j := j + 1;
    }
    assert analyses[..j] == analyses;
    ghost var sum := acc[..];
    var m := |analyses| as real;
    var k := 0;
    while k < n
      invariant 0 <= k <= n
      invariant forall i :: 0 <= i < k ==> acc[i] == sum[i] / m
      invariant forall i :: k <= i < n ==> acc[i] == sum[i]
    {
      acc[k] := acc[k] / m;
      k := k + 1;
    }
    assert acc[..] == seq(|sum|, i requires 0 <= i < |sum| => sum[i] / m);
    r := Ok(acc[..]);
  }

  /** `np.max(np.abs(signal))`, by a scan of the samples. */
  method Peak(s: seq<real>) returns (peak: real)
    requires s != []
    ensures peak == MaxAbs(s)
  {
    peak := Abs(s[0]);
    var k := 1;
    while k < |s|
      invariant 1 <= k <= |s|
      invariant peak == MaxAbs(s[..k])
    {
      MaxAbsStep(s, k);
      if Abs(s[k]) > peak {
        peak := Abs(s[k]);
      }
      k := k + 1;
    }
    assert s[..k] == s;
  }

  /** Extending a prefix by one sample keeps the larger of the old peak and the new
      sample's magnitude. */
  lemma MaxAbsStep(s: seq<real>, k: nat)
    requires 1 <= k < |s|
    ensures MaxAbs(s[..k + 1]) == if Abs(s[k]) > MaxAbs(s[..k]) then Abs(s[k]) else MaxAbs(s[..k])
  {
    assert s[..k + 1][..k] == s[..k];
  }

  /** The normalisation of one averaged signal: the largest magnitude, then every
      sample divided by it and scaled. */
  method NormalizeSignal(s: seq<real>) returns (r: Result<seq<Float>, PlotError>)
    ensures r == Normalize(s)
  {
    if |s| == 0 {
      return Err(EmptySignal);
    }
    var peak := Peak(s);
    var y := new Float[|s|](_ => NaN);
    var k := 0;
    while k < |s|
      invariant 0 <= k <= |s|
      invariant forall i :: 0 <= i < k ==> y[i] == ScaledSample(s[i], peak)
    {
      y[k] := ScaledSample(s[k], peak);
      k := k + 1;
    }
    assert y[..] == ScaledSamples(s, peak);
    r := Ok(y[..]);
  }

  /** The outer averaging loop: `avg_signals`, filled band by band. */
  method AverageBands(lib: SignalLib, fs: real, analyses: seq<ChannelAnalysis>)
    returns (r: Result<seq<seq<real>>, PlotError>)
    requires Lawful(lib)
    requires analyses != []
    ensures r == BandAverages(lib, fs, BandTable(), analyses, |analyses[0].raw|)
  {
    var n := |analyses[0].raw|;
    var bands := BandTable();
    var averages: seq<seq<real>> := [];
    var b := 0;
    while b < |bands|
      invariant 0 <= b <= |bands|
      invariant BandAverages(lib, fs, bands[..b], analyses, n) == Ok(averages)
    {
      var avg := AverageBand(lib, fs, bands[b], analyses);
      AveragesStep(lib, fs, bands, analyses, n, b);
      if avg.Err? {
        AveragesStopAtFailure(lib, fs, bands, analyses, n, b + 1);
        return Err(avg.error);
      }
      averages := averages + [avg.value];
      b := b + 1;
    }
    assert bands[..b] == bands;
    r := Ok(averages);
  }

  /** The step of the averaging loop for band b. */
  lemma AveragesStep(lib: SignalLib, fs: real, bands: seq<Band>, analyses: seq<ChannelAnalysis>, n: nat, b: nat)
    requires Lawful(lib)
    requires analyses != []
    requires b < |bands|
    requires BandAverages(lib, fs, bands[..b], analyses, n).Ok?
    ensures var prev, avg := BandAverages(lib, fs, bands[..b], analyses, n), BandAverage(lib, fs, bands[b], analyses, n);
            BandAverages(lib, fs, bands[..b + 1], analyses, n)
            == if avg.Ok? then Ok(prev.value + [avg.value]) else Err(avg.error)
  {
    assert bands[..b + 1][..b] == bands[..b];
  }

  /** The step of the plotting loop for band b. */
  lemma TracesStep(bands: seq<Band>, averages: seq<seq<real>>, times: seq<real>, b: nat)
    requires |averages| == |bands|
    requires b < |bands|
    requires NormalizedTraces(bands[..b], averages[..b], times).Ok?
    ensures var prev, y := NormalizedTraces(bands[..b], averages[..b], times), Normalize(averages[b]);
            NormalizedTraces(bands[..b + 1], averages[..b + 1], times)
            == if y.Ok? then Ok(prev.value + [Trace(Capitalize(bands[b].name), Take(times, PlotPoints), Take(y.value, PlotPoints))])
               else Err(y.error)
  {
    assert bands[..b + 1][..b] == bands[..b];
    assert averages[..b + 1][..b] == averages[..b];
  }

  /** The plotting loop: each averaged signal normalised and cut to 500 points. */
  method PlotTraces(averages: seq<seq<real>>, times: seq<real>) returns (r: Result<seq<Trace>, PlotError>)
    requires |averages| == |BandTable()|
    ensures r == NormalizedTraces(BandTable(), averages, times)
  {
    var bands := BandTable();
    var traces: seq<Trace> := [];
    var b := 0;
    while b < |bands|
      invariant 0 <= b <= |bands|
      invariant NormalizedTraces(bands[..b], averages[..b], times) == Ok(traces)
    {
      var y := NormalizeSignal(averages[b]);
      TracesStep(bands, averages, times, b);
      if y.Err? {
        TracesStopAtFailure(bands, averages, times, b + 1);
        return Err(y.error);
      }
      traces := traces + [Trace(Capitalize(bands[b].name), Take(times, PlotPoints), Take(y.value, PlotPoints))];
      b := b + 1;
    }
    assert bands[..b] == bands && averages[..b] == averages;
    r := Ok(traces);
  }

  /** `create_brain_waves_plot(analyses)`: the first channel gives the shape of the
      accumulators and the time axis; the averaging loop, then the plotting loop. */
  method BrainWavesPlot(lib: SignalLib, fs: real, analyses: seq<ChannelAnalysis>)
    returns (r: Result<seq<Trace>, PlotError>)
    requires Lawful(lib)
    ensures r == Traces(lib, fs, analyses)
  {
    if |analyses| == 0 {
      return Err(NoAnalyses);
    }
    var first := analyses[0];
    var averages := AverageBands(lib, fs, analyses);
    if averages.Err? {
      return Err(averages.error);
    }
    r := PlotTraces(averages.value, first.times);
  }
}
