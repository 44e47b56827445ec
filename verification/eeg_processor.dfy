/** Filter design and band power in analysis/eeg_processor.py: cutoffs normalised
    to the Nyquist frequency, the five-band table, and power as the mean of squared
    samples. */
module EegProcessor {
  import opened Wrappers
  import opened SignalLibrary
  import RealArith

  /** Order of every Butterworth design in the pipeline. */
  const DefaultOrder: nat := 4

  /** Default sampling rate of a recording, in Hz. */
  const DefaultSamplingRate: real := 250.0

  function Nyquist(fs: real): real {
    0.5 * fs
  }

  /** A cutoff in Hz as a fraction of the Nyquist frequency. */
  function Normalized(cutoff: real, fs: real): (wn: real)
    requires fs != 0.0
    ensures wn * Nyquist(fs) == cutoff
  {
    RealArith.DivMul(cutoff, Nyquist(fs));
    cutoff / Nyquist(fs)
  }

  /** For a positive sampling rate, a normalised cutoff lies strictly inside (0, 1)
      exactly when the cutoff lies strictly between 0 and the Nyquist frequency. */
  lemma NormalizedInUnit(cutoff: real, fs: real)
    requires fs > 0.0
    ensures 0.0 < Normalized(cutoff, fs) < 1.0 <==> 0.0 < cutoff < Nyquist(fs)
  {
    RealArith.QuotientBounds(cutoff, Nyquist(fs));
  }

  /** Normalisation by a positive sampling rate preserves the order of cutoffs. */
  lemma NormalizedMonotone(lowcut: real, highcut: real, fs: real)
    requires fs > 0.0
    ensures lowcut < highcut <==> Normalized(lowcut, fs) < Normalized(highcut, fs)
  {
    RealArith.QuotientMonotone(lowcut, highcut, Nyquist(fs));
  }

  /** `butter_highpass(cutoff, fs, order)`. */
  function ButterHighpass(cutoff: real, fs: real, order: nat := DefaultOrder): (r: Result<Filter, FilterError>)
    ensures fs > 0.0 ==> (r.Ok? <==> 0.0 < cutoff < Nyquist(fs))
    ensures fs == 0.0 ==> r == Err(DivisionByZero)
    ensures r.Ok? ==> r.value.Butterworth? && r.value.order == order && r.value.response.HighPass?
                      && 0.0 < r.value.response.wn < 1.0
                      && r.value.response.wn * Nyquist(fs) == cutoff
  {
    if fs == 0.0 then Err(DivisionByZero)
    else
      var wn := Normalized(cutoff, fs);
      if fs > 0.0 then NormalizedInUnit(cutoff, fs); Butter(order, HighPass(wn))
      else Butter(order, HighPass(wn))
  }

  /** `butter_lowpass(cutoff, fs, order)`. */
  function ButterLowpass(cutoff: real, fs: real, order: nat := DefaultOrder): (r: Result<Filter, FilterError>)
    ensures fs > 0.0 ==> (r.Ok? <==> 0.0 < cutoff < Nyquist(fs))
    ensures fs == 0.0 ==> r == Err(DivisionByZero)
    ensures r.Ok? ==> r.value.Butterworth? && r.value.order == order && r.value.response.LowPass?
                      && 0.0 < r.value.response.wn < 1.0
                      && r.value.response.wn * Nyquist(fs) == cutoff
  {
    if fs == 0.0 then Err(DivisionByZero)
    else
      var wn := Normalized(cutoff, fs);
      if fs > 0.0 then NormalizedInUnit(cutoff, fs); Butter(order, LowPass(wn))
      else Butter(order, LowPass(wn))
  }

  /** `butter_bandpass(lowcut, highcut, fs, order)`: both edges normalised by the
      same Nyquist frequency. */
  function ButterBandpass(lowcut: real, highcut: real, fs: real, order: nat := DefaultOrder)
    : (r: Result<Filter, FilterError>)
    ensures fs > 0.0 ==> (r.Ok? <==> 0.0 < lowcut < highcut < Nyquist(fs))
    ensures fs == 0.0 ==> r == Err(DivisionByZero)
    ensures r.Ok? ==> r.value.Butterworth? && r.value.order == order && r.value.response.BandPass?
                      && 0.0 < r.value.response.low < r.value.response.high < 1.0
                      && r.value.response.low * Nyquist(fs) == lowcut
                      && r.value.response.high * Nyquist(fs) == highcut
  {
    if fs == 0.0 then Err(DivisionByZero)
    else
      var response := BandPass(Normalized(lowcut, fs), Normalized(highcut, fs));
      if fs > 0.0 then BandpassEdges(lowcut, highcut, fs); Butter(order, response)
      else Butter(order, response)
  }

  /** The second `butter_bandpass`, in analysis/views.py, is the same normalisation:
      for a positive sampling rate the normalised edges are in the order of the
      cutoffs, and the design accepts them exactly when 0 < lowcut < highcut < fs/2. */
  lemma BandpassEdges(lowcut: real, highcut: real, fs: real)
    requires fs > 0.0
    ensures lowcut < highcut <==> Normalized(lowcut, fs) < Normalized(highcut, fs)
    ensures ValidResponse(BandPass(Normalized(lowcut, fs), Normalized(highcut, fs)))
            <==> 0.0 < lowcut < highcut < Nyquist(fs)
  {
    NormalizedMonotone(lowcut, highcut, fs);
    NormalizedInUnit(lowcut, fs);
    NormalizedInUnit(highcut, fs);
  }

  /** A canonical EEG frequency band, edges in Hz. */
  datatype Band = Band(name: string, low: real, high: real)

  /** The band table: delta, theta, alpha, beta, gamma, contiguous from 0.5 to 40 Hz. */
  function BandTable(): (t: seq<Band>)
    ensures |t| == 5
    ensures t[0].name == "delta" && t[1].name == "theta" && t[2].name == "alpha"
            && t[3].name == "beta" && t[4].name == "gamma"
    ensures forall i :: 0 <= i < |t| ==> 0.0 < t[i].low < t[i].high
    ensures forall i :: 0 <= i < |t| - 1 ==> t[i].high == t[i + 1].low
    ensures t[0].low == 0.5 && t[4].high == 40.0
  {
    [ Band("delta", 0.5, 4.0),
      Band("theta", 4.0, 8.0),
      Band("alpha", 8.0, 13.0),
      Band("beta", 13.0, 30.0),
      Band("gamma", 30.0, 40.0) ]
  }

  /** Every band of the table can be designed at a sampling rate exactly when the
      rate is above twice the table's top edge (the gamma band needs fs > 80). */
  lemma BandTableDesignable(fs: real)
    requires fs > 0.0
    ensures (forall i :: 0 <= i < |BandTable()| ==>
               ButterBandpass(BandTable()[i].low, BandTable()[i].high, fs).Ok?)
            <==> fs > 80.0
  {
    var t := BandTable();
    if fs <= 80.0 {
      assert !ButterBandpass(t[4].low, t[4].high, fs).Ok?;
    }
  }

  /** `v**2` for one sample. */
  function Square(v: real): (s: real)
    ensures s >= 0.0
  {
    v * v
  }

  /** Sum of squared samples. */
  function SumSquares(x: seq<real>): (s: real)
    ensures s >= 0.0
  {
    if x == [] then 0.0 else SumSquares(x[..|x| - 1]) + Square(x[|x| - 1])
  }

  /** The sum of squares of a silent signal is zero. */
  lemma {:induction false} SumSquaresOfSilence(x: seq<real>)
    requires forall i :: 0 <= i < |x| ==> x[i] == 0.0
    ensures SumSquares(x) == 0.0
  {
    if x != [] {
      SumSquaresOfSilence(x[..|x| - 1]);
    }
  }

  /** Band power, `np.mean(x**2)`: the mean of squared samples, never negative. */
  function MeanSquare(x: seq<real>): (p: real)
    requires |x| > 0
    ensures p >= 0.0
  {
    RealArith.QuotientBounds(SumSquares(x), |x| as real);
    SumSquares(x) / (|x| as real)
  }

  /** The band power of an all-zero signal is exactly zero. */
  lemma MeanSquareOfSilence(x: seq<real>)
    requires |x| > 0
    ensures (forall i :: 0 <= i < |x| ==> x[i] == 0.0) ==> MeanSquare(x) == 0.0
  {
    if forall i :: 0 <= i < |x| ==> x[i] == 0.0 {
      SumSquaresOfSilence(x);
      RealArith.QuotientBounds(SumSquares(x), |x| as real);
    }
  }

  /** Power in one band: design the band-pass, apply it in zero-phase mode, take the
      mean square. */
  function BandPower(lib: SignalLib, fs: real, band: Band, x: seq<real>): (r: Result<real, FilterError>)
    requires Lawful(lib)
    ensures r.Ok? <==> ButterBandpass(band.low, band.high, fs).Ok? && |x| > 3 * (2 * DefaultOrder + 1)
    ensures r.Ok? ==> r.value >= 0.0
    ensures r.Ok? && x == Zeros(|x|) ==> r.value == 0.0
  {
    var y :- DesignAndApply(lib, ButterBandpass(band.low, band.high, fs), x);
    MeanSquareOfSilence(y);
    Ok(MeanSquare(y))
  }

  /** The power metrics, one per band of `bands`, in table order (the source fills a
      dictionary keyed by band name, in the same order). */
  function BandPowerList(lib: SignalLib, fs: real, x: seq<real>, bands: seq<Band>)
    : (r: Result<seq<real>, FilterError>)
    requires Lawful(lib)
    ensures r.Ok? <==> forall i :: 0 <= i < |bands| ==> BandPower(lib, fs, bands[i], x).Ok?
    ensures r.Ok? ==> |r.value| == |bands|
    ensures r.Ok? ==> forall i :: 0 <= i < |bands| ==> r.value[i] == BandPower(lib, fs, bands[i], x).value
    decreases |bands|
  {
    if bands == [] then Ok([])
    else
      var init := bands[..|bands| - 1];
      assert forall i :: 0 <= i < |init| ==> init[i] == bands[i];
      var powers :- BandPowerList(lib, fs, x, init);
      var p :- BandPower(lib, fs, bands[|bands| - 1], x);
      Ok(powers + [p])
  }

  /** Above 80 Hz every band of the table can be designed, so a signal the band-pass
      filter accepts (more than 27 samples) has all five band powers. */
  lemma BandPowersSucceed(lib: SignalLib, fs: real, x: seq<real>)
    requires Lawful(lib)
    requires fs > 80.0 && |x| > 27
    ensures BandPowerList(lib, fs, x, BandTable()).Ok?
  {
    BandTableDesignable(fs);
  }
}
