/** The numeric library the pipeline delegates to: Butterworth and notch designs,
    zero-phase (`filtfilt`) and causal (`lfilter`) application, and the short-time
    Fourier transform. Its floating-point output is not modelled; a `SignalLib` value
    stands for it, and `Lawful` states what the pipeline relies on: application keeps
    the length of its input and maps silence to silence. What the library rejects
    (critical frequencies out of range, input shorter than the pad length) is modelled
    exactly, since it decides whether a recording is processed. */
module SignalLibrary {
  import opened Wrappers
  import RealArith

  /** A Butterworth response with its critical frequencies normalised to the
      Nyquist frequency. */
  datatype Response = HighPass(wn: real) | LowPass(wn: real) | BandPass(low: real, high: real)

  /** A designed filter: its coefficient pair (b, a) is left abstract. */
  datatype Filter =
    | Butterworth(order: nat, response: Response)
    | NotchPeak(w0: real, quality: real)

  datatype FilterError =
    | DivisionByZero          // a normalisation divided by a zero Nyquist frequency
    | InvalidFilterParameters // the design rejected a critical frequency
    | SignalTooShort          // zero-phase application needs more samples than its pad length
    | NotNumeric              // zero-phase application of datetimes fails on their arithmetic

  /** Magnitude of the short-time Fourier transform: frequency axis, time axis, matrix. */
  datatype Spectrogram = Spectrogram(freq: seq<real>, time: seq<real>, magnitude: seq<seq<real>>)

  datatype SignalLib = SignalLib(
    zeroPhase: (Filter, seq<real>) -> seq<real>,
    causal: (Filter, seq<real>) -> seq<real>,
    stft: (seq<real>, real, nat) -> Spectrogram)

  function Zeros(n: nat): (z: seq<real>)
    ensures |z| == n && forall i :: 0 <= i < n ==> z[i] == 0.0
  {
    seq(n, _ => 0.0)
  }

  /** What the pipeline assumes of the library: both applications preserve the
      length of the signal, and both map an all-zero signal to itself (they are
      linear and start from rest). */
  ghost predicate Lawful(lib: SignalLib) {
    && (forall f, x :: |lib.zeroPhase(f, x)| == |x|)
    && (forall f, x :: |lib.causal(f, x)| == |x|)
    && (forall f, n: nat :: lib.zeroPhase(f, Zeros(n)) == Zeros(n))
    && (forall f, n: nat :: lib.causal(f, Zeros(n)) == Zeros(n))
  }

  /** The library's acceptance test for a Butterworth design: every critical
      frequency strictly inside (0, 1), and a band's edges in increasing order. */
  predicate ValidResponse(r: Response) {
    match r
    case HighPass(wn) => 0.0 < wn < 1.0
    case LowPass(wn) => 0.0 < wn < 1.0
    case BandPass(low, high) => 0.0 < low < 1.0 && 0.0 < high < 1.0 && low < high
  }

  /** `butter(order, Wn, btype)`: fails on a critical frequency it rejects. */
  function Butter(order: nat, r: Response): (res: Result<Filter, FilterError>)
    ensures res.Ok? <==> ValidResponse(r)
    ensures res.Ok? ==> res.value == Butterworth(order, r)
  {
    if ValidResponse(r) then Ok(Butterworth(order, r)) else Err(InvalidFilterParameters)
  }

  /** `iirnotch(w0, Q, fs)`: the centre frequency is normalised as 2*w0/fs and
      rejected only when it falls outside the closed interval [0, 1]. */
  function IirNotch(w0Hz: real, quality: real, fs: real): (res: Result<Filter, FilterError>)
    ensures w0Hz > 0.0 ==> (res.Ok? <==> 2.0 * w0Hz <= fs)
    ensures fs == 0.0 ==> res == Err(DivisionByZero)
    ensures res.Ok? ==> res.value.NotchPeak? && 0.0 <= res.value.w0 <= 1.0 && res.value.w0 * fs == 2.0 * w0Hz
  {
    if fs == 0.0 then Err(DivisionByZero)
    else
      var w0 := 2.0 * w0Hz / fs;
      NotchNormalization(w0Hz, fs);
      if w0 > 1.0 || w0 < 0.0 then Err(InvalidFilterParameters) else Ok(NotchPeak(w0, quality))
  }

  /** What the normalised centre frequency 2*w0/fs says about w0 and fs. */
  lemma NotchNormalization(w0Hz: real, fs: real)
    requires fs != 0.0
    ensures (2.0 * w0Hz / fs) * fs == 2.0 * w0Hz
    ensures fs > 0.0 ==> (0.0 <= 2.0 * w0Hz / fs <==> 0.0 <= w0Hz)
    ensures fs > 0.0 ==> (2.0 * w0Hz / fs <= 1.0 <==> 2.0 * w0Hz <= fs)
    ensures fs < 0.0 && w0Hz > 0.0 ==> 2.0 * w0Hz / fs < 0.0
  {
    RealArith.DivMul(2.0 * w0Hz, fs);
    if fs > 0.0 {
      RealArith.QuotientBounds(2.0 * w0Hz, fs);
    } else if w0Hz > 0.0 {
      RealArith.QuotientByNegative(2.0 * w0Hz, fs);
    }
  }

  /** Length of the coefficient vectors b and a. */
  function CoefficientCount(f: Filter): nat {
    match f
    case Butterworth(n, BandPass(_, _)) => 2 * n + 1
    case Butterworth(n, _) => n + 1
    case NotchPeak(_, _) => 3
  }

  /** `filtfilt`'s default pad length, 3 * max(len(a), len(b)). */
  function PadLength(f: Filter): (p: nat)
    ensures f.NotchPeak? ==> p == 9
    ensures f.Butterworth? && f.response.BandPass? ==> p == 6 * f.order + 3
    ensures f.Butterworth? && !f.response.BandPass? ==> p == 3 * f.order + 3
  {
    3 * CoefficientCount(f)
  }

  /** `filtfilt(b, a, x)`: zero-phase application, which raises when the input is
      not longer than the pad length. */
  function FiltFilt(lib: SignalLib, f: Filter, x: seq<real>): (r: Result<seq<real>, FilterError>)
    requires Lawful(lib)
    ensures r.Ok? <==> |x| > PadLength(f)
    ensures r.Ok? ==> |r.value| == |x|
    ensures r.Ok? && x == Zeros(|x|) ==> r.value == x
  {
    if |x| <= PadLength(f) then Err(SignalTooShort) else Ok(lib.zeroPhase(f, x))
  }

  /** Design a filter and apply it in zero-phase mode; a failed design is passed on. */
  function DesignAndApply(lib: SignalLib, design: Result<Filter, FilterError>, x: seq<real>)
    : (r: Result<seq<real>, FilterError>)
    requires Lawful(lib)
    ensures r.Ok? <==> design.Ok? && |x| > PadLength(design.value)
    ensures r.Ok? ==> |r.value| == |x|
    ensures design.Err? ==> r == Err(design.error)
  {
    var f :- design;
    FiltFilt(lib, f, x)
  }
}
