/** `process_eeg_data` in analysis/eeg_processor.py: for every channel column of an
    uploaded table, a notch filter, a high-pass/low-pass chain, a band-pass, a
    spectrogram and five band powers, stored as one analysis record per channel; the
    recording's `processed` flag is set once every channel has been stored. */
module ChannelPipeline {
  import opened Wrappers
  import opened SignalLibrary
  import opened EegProcessor

  const NotchFrequency: real := 60.0
  const NotchQuality: real := 30.0
  const HighpassCutoff: real := 0.5
  const LowpassCutoff: real := 40.0
  const BandpassLow: real := 1.0
  const BandpassHigh: real := 30.0
  /** Samples per short-time Fourier transform segment. */
  const SpectrogramWindow: nat := 256
  const TimestampColumn: string := "Timestamp"
  /** The channels are the columns at positions 1 up to (not including) 9. */
  const FirstChannel: nat := 1
  const ChannelEnd: nat := 9

  /** A named column of the uploaded table. */
  datatype Column = Column(name: string, values: seq<real>)

  /** The uploaded table as read from its file, columns in file order. */
  datatype Table = Table(columns: seq<Column>)

  datatype PowerMetrics = PowerMetrics(delta: real, theta: real, alpha: real, beta: real, gamma: real)

  /** The record stored for one channel. */
  datatype ChannelAnalysis = ChannelAnalysis(
    channel: string,
    times: seq<real>,     // timestamps, in seconds
    raw: seq<real>,
    notch: seq<real>,
    bandpass: seq<real>,
    spectrogram: Spectrogram,
    powers: PowerMetrics)

  datatype PipelineError =
    | MissingTimestamp              // the table has no column named "Timestamp"
    | FilterFailed(cause: FilterError)
    | PersistenceFailure            // the store refused a channel's record

  /** The four filtered versions of a channel, in the order they are produced. */
  datatype Stages = Stages(notch: seq<real>, highpassed: seq<real>, lowpassed: seq<real>, bandpassed: seq<real>)

  function Min(a: nat, b: nat): nat {
    if a <= b then a else b
  }

  /** `df['Timestamp'] / 1000`: milliseconds to seconds. */
  function ToSeconds(ms: seq<real>): (s: seq<real>)
    ensures |s| == |ms|
    ensures forall i :: 0 <= i < |ms| ==> s[i] * 1000.0 == ms[i]
  {
    seq(|ms|, i requires 0 <= i < |ms| => ms[i] / 1000.0)
  }

  /** Position of the first column called `name` at or after `from`. */
  function ColumnIndex(t: Table, name: string, from: nat := 0): (r: Option<nat>)
    ensures r.Some? ==> from <= r.value < |t.columns| && t.columns[r.value].name == name
    ensures r.Some? ==> forall j :: from <= j < r.value ==> t.columns[j].name != name
    ensures r.None? ==> forall j :: from <= j < |t.columns| ==> t.columns[j].name != name
    decreases |t.columns| - from
  {
    if from >= |t.columns| then None
    else if t.columns[from].name == name then Some(from)
    else ColumnIndex(t, name, from + 1)
  }

  /** `df.columns[1:9]` for a table of `width` columns: positions 1 to 8 in order,
      cut short by a narrower table; position 0 is never a channel. */
  function ChannelColumns(width: nat): (cols: seq<nat>)
    ensures forall i :: 0 <= i < |cols| ==> cols[i] == FirstChannel + i
    ensures forall i :: 0 <= i < |cols| ==> FirstChannel <= cols[i] < Min(width, ChannelEnd)
    ensures forall i, j :: 0 <= i < j < |cols| ==> cols[i] < cols[j]
    ensures forall c :: FirstChannel <= c < Min(width, ChannelEnd) ==> c in cols
    ensures 0 !in cols
    ensures width >= ChannelEnd ==> |cols| == ChannelEnd - FirstChannel
  {
    if width <= FirstChannel then []
    else
      var cols := seq(Min(width, ChannelEnd) - FirstChannel, i => FirstChannel + i);
      EveryPositionListed(cols, Min(width, ChannelEnd));
      cols
  }

  /** A sequence listing FirstChannel, FirstChannel + 1, ... up to `end` contains every
      position in that range. */
  lemma EveryPositionListed(cols: seq<nat>, end: nat)
    requires |cols| + FirstChannel == end
    requires forall i :: 0 <= i < |cols| ==> cols[i] == FirstChannel + i
    ensures forall c :: FirstChannel <= c < end ==> c in cols
  {
    forall c | FirstChannel <= c < end
      ensures c in cols
    {
      assert cols[c - FirstChannel] == c;
    }
  }

  /** Notch at 60 Hz, then high-pass at 0.5 Hz, low-pass at 40 Hz and band-pass
      1-30 Hz, each designed at `fs` and applied in zero-phase mode to the previous
      stage's output. */
  function Prefilter(lib: SignalLib, fs: real, x: seq<real>): (r: Result<Stages, FilterError>)
    requires Lawful(lib)
    ensures r.Ok? ==> |r.value.notch| == |r.value.highpassed| == |r.value.lowpassed|
                      == |r.value.bandpassed| == |x|
  {
    var notch :- DesignAndApply(lib, IirNotch(NotchFrequency, NotchQuality, fs), x);
    var high :- DesignAndApply(lib, ButterHighpass(HighpassCutoff, fs), notch);
    var low :- DesignAndApply(lib, ButterLowpass(LowpassCutoff, fs), high);
    var band :- DesignAndApply(lib, ButterBandpass(BandpassLow, BandpassHigh, fs), low);
    Ok(Stages(notch, high, low, band))
  }

  /** The record one iteration of the channel loop creates, or the error it raises. */
  function AnalyzeChannel(lib: SignalLib, fs: real, times: seq<real>, column: Column)
    : (r: Result<ChannelAnalysis, FilterError>)
    requires Lawful(lib)
    ensures r.Ok? ==> r.value.channel == column.name && r.value.times == times && r.value.raw == column.values
    ensures r.Ok? ==> |r.value.notch| == |column.values| && |r.value.bandpass| == |column.values|
    ensures r.Ok? ==> var p := r.value.powers;
                      p.delta >= 0.0 && p.theta >= 0.0 && p.alpha >= 0.0 && p.beta >= 0.0 && p.gamma >= 0.0
    ensures r.Ok? ==> var s := Prefilter(lib, fs, column.values);
                      s.Ok? && r.value.notch == s.value.notch && r.value.bandpass == s.value.bandpassed
    ensures r.Ok? ==> var p, y, t := r.value.powers, r.value.bandpass, BandTable();
                      && BandPower(lib, fs, t[0], y) == Ok(p.delta) && BandPower(lib, fs, t[1], y) == Ok(p.theta)
                      && BandPower(lib, fs, t[2], y) == Ok(p.alpha) && BandPower(lib, fs, t[3], y) == Ok(p.beta)
                      && BandPower(lib, fs, t[4], y) == Ok(p.gamma)
  {
    var stages :- Prefilter(lib, fs, column.values);
    var powers :- BandPowerList(lib, fs, stages.bandpassed, BandTable());
    Ok(ChannelAnalysis(
         column.name, times, column.values, stages.notch, stages.bandpassed,
         lib.stft(stages.bandpassed, fs, SpectrogramWindow),
         PowerMetrics(powers[0], powers[1], powers[2], powers[3], powers[4])))
  }

  /** What a run over some channel columns leaves behind: the records it stored, in
      order, and the error that stopped it, if any. */
  datatype RunOutcome = RunOutcome(stored: seq<ChannelAnalysis>, failure: Option<PipelineError>)

  /** The type of what one iteration of the channel loop computes. */
  type ChannelResult = Result<ChannelAnalysis, FilterError>

  predicate ValidColumns(table: Table, cols: seq<nat>) {
    forall i :: 0 <= i < |cols| ==> cols[i] < |table.columns|
  }

  /** The timestamp column read as a channel, once it has been converted to datetimes
      in place: the notch is designed as for any channel, zero-phase filtering still
      rejects a signal no longer than the notch's pad length, and on a longer one it
      fails on datetime arithmetic. The column never yields a record. */
  function DatetimeChannel(fs: real, n: nat): (r: ChannelResult)
    ensures r.Err?
    ensures IirNotch(NotchFrequency, NotchQuality, fs).Err? ==> r.error == IirNotch(NotchFrequency, NotchQuality, fs).error
    ensures IirNotch(NotchFrequency, NotchQuality, fs).Ok? ==>
              (r.error == SignalTooShort <==> n <= 9) && (r.error == NotNumeric <==> n > 9)
  {
    var notch :- IirNotch(NotchFrequency, NotchQuality, fs);
    if n <= PadLength(notch) then Err(SignalTooShort) else Err(NotNumeric)
  }

  /** One iteration of the channel loop on column `c`, after the column at `ts` (the
      timestamp column) has been converted to datetimes. */
  function ColumnResult(lib: SignalLib, fs: real, times: seq<real>, table: Table, ts: nat, c: nat)
    : (r: ChannelResult)
    requires Lawful(lib)
    requires c < |table.columns|
    ensures c == ts ==> r.Err?
    ensures c != ts ==> r == AnalyzeChannel(lib, fs, times, table.columns[c])
    ensures r.Ok? ==> r.value.channel == table.columns[c].name && r.value.raw == table.columns[c].values
  {
    if c == ts then DatetimeChannel(fs, |table.columns[c].values|)
    else AnalyzeChannel(lib, fs, times, table.columns[c])
  }

  /** The analysis of each channel column, as the loop would compute it if it
      visited them all. */
  function ChannelResults(lib: SignalLib, fs: real, times: seq<real>, table: Table, ts: nat, cols: seq<nat>)
    : (results: seq<ChannelResult>)
    requires Lawful(lib)
    requires ValidColumns(table, cols)
    ensures |results| == |cols|
    ensures forall i :: 0 <= i < |cols| ==> results[i] == ColumnResult(lib, fs, times, table, ts, cols[i])
    ensures forall i :: 0 <= i < |cols| && results[i].Ok? ==>
              results[i].value.channel == table.columns[cols[i]].name
              && results[i].value.raw == table.columns[cols[i]].values
  {
    seq(|cols|, i requires 0 <= i < |cols| => ColumnResult(lib, fs, times, table, ts, cols[i]))
  }

  /** The channel loop over the channels' results, in column order: each record is
      stored before the next channel starts, and the first error ends the loop. */
  function RunChannels(persists: ChannelAnalysis -> bool, results: seq<ChannelResult>): RunOutcome
    decreases |results|
  {
    if results == [] then RunOutcome([], None)
    else
      var prev := RunChannels(persists, results[..|results| - 1]);
      if prev.failure.Some? then prev
      else
        match results[|results| - 1]
        case Err(e) => RunOutcome(prev.stored, Some(FilterFailed(e)))
        case Ok(a) =>
          if persists(a) then RunOutcome(prev.stored + [a], None)
          else RunOutcome(prev.stored, Some(PersistenceFailure))
  }

  /** The whole of `process_eeg_data`, as a specification: the timestamp column is
      looked up by name (a missing one raises before any channel) and converted in
      place, then the channel loop runs over columns 1 to 8. */
  function Processing(lib: SignalLib, persists: ChannelAnalysis -> bool, fs: real, table: Table): RunOutcome
    requires Lawful(lib)
  {
    match ColumnIndex(table, TimestampColumn)
    case None => RunOutcome([], Some(MissingTimestamp))
    case Some(t) =>
      var cols := ChannelColumns(|table.columns|);
      RunChannels(persists, ChannelResults(lib, fs, ToSeconds(table.columns[t].values), table, t, cols))
  }

  /** Once a run has failed on a prefix of the channels, the remaining channels are
      never visited. */
  lemma {:induction false} RunStopsAtFailure(persists: ChannelAnalysis -> bool, results: seq<ChannelResult>, k: nat)
    requires k <= |results|
    requires RunChannels(persists, results[..k]).failure.Some?
    ensures RunChannels(persists, results) == RunChannels(persists, results[..k])
    decreases |results| - k
  {
    if k < |results| {
      var init := results[..|results| - 1];
      assert init[..k] == results[..k];
      RunStopsAtFailure(persists, init, k);
    } else {
      assert results[..k] == results;
    }
  }

  /** The step that stores the next channel's record. */
  lemma RunStores(persists: ChannelAnalysis -> bool, results: seq<ChannelResult>, i: nat)
    requires i < |results|
    requires RunChannels(persists, results[..i]).failure.None?
    requires results[i].Ok? && persists(results[i].value)
    ensures RunChannels(persists, results[..i + 1])
            == RunOutcome(RunChannels(persists, results[..i]).stored + [results[i].value], None)
  {
    assert results[..i + 1][..i] == results[..i];
  }

  /** The step that fails on the next channel ends the whole run there. */
  lemma RunEndsAt(persists: ChannelAnalysis -> bool, results: seq<ChannelResult>, i: nat, e: PipelineError)
    requires i < |results|
    requires RunChannels(persists, results[..i]).failure.None?
    requires || (results[i].Err? && e == FilterFailed(results[i].error))
             || (results[i].Ok? && !persists(results[i].value) && e == PersistenceFailure)
    ensures RunChannels(persists, results) == RunOutcome(RunChannels(persists, results[..i]).stored, Some(e))
  {
    assert results[..i + 1][..i] == results[..i];
    RunStopsAtFailure(persists, results, i + 1);
  }

  /** A run stores at most one record per channel, the i-th record being the i-th
      channel's analysis, accepted by the store; it ends without error exactly when
      every channel has been stored. */
  lemma {:induction false} RunShape(persists: ChannelAnalysis -> bool, results: seq<ChannelResult>)
    ensures var o := RunChannels(persists, results);
            && |o.stored| <= |results|
            && (o.failure.None? <==> |o.stored| == |results|)
            && forall i :: 0 <= i < |o.stored| ==> results[i] == Ok(o.stored[i]) && persists(o.stored[i])
    decreases |results|
  {
    if results != [] {
      var init := results[..|results| - 1];
      RunShape(persists, init);
      assert forall i :: 0 <= i < |init| ==> init[i] == results[i];
    }
  }

  /** A run over channels that can all be analysed, with a store that accepts every
      record, ends without error. */
  lemma {:induction false} RunCompletes(persists: ChannelAnalysis -> bool, results: seq<ChannelResult>)
    requires forall i :: 0 <= i < |results| ==> results[i].Ok?
    requires forall a :: persists(a)
    ensures RunChannels(persists, results).failure.None?
    decreases |results|
  {
    if results != [] {
      var init := results[..|results| - 1];
      assert forall i :: 0 <= i < |init| ==> init[i] == results[i];
      RunCompletes(persists, init);
    }
  }

  /** A store that refuses every record is left empty. */
  lemma {:induction false} RunWithRefusingStore(persists: ChannelAnalysis -> bool, results: seq<ChannelResult>)
    requires forall a :: !persists(a)
    ensures RunChannels(persists, results).stored == []
    decreases |results|
  {
    if results != [] {
      RunWithRefusingStore(persists, results[..|results| - 1]);
    }
  }

  /** `process_eeg_data` end to end: without a timestamp column nothing is stored;
      otherwise the i-th stored record is the analysis of column i + 1, and the run
      ends without error exactly when all channel columns have been stored. */
  lemma ProcessingShape(lib: SignalLib, persists: ChannelAnalysis -> bool, fs: real, table: Table)
    requires Lawful(lib)
    ensures var o := Processing(lib, persists, fs, table);
            && (ColumnIndex(table, TimestampColumn).None? ==> o == RunOutcome([], Some(MissingTimestamp)))
            && |o.stored| <= |ChannelColumns(|table.columns|)|
            && (o.failure.None? <==> ColumnIndex(table, TimestampColumn).Some?
                                     && |o.stored| == |ChannelColumns(|table.columns|)|)
            && forall i :: 0 <= i < |o.stored| ==>
                 && o.stored[i].channel == table.columns[i + 1].name
                 && o.stored[i].raw == table.columns[i + 1].values
                 && persists(o.stored[i])
  {
    match ColumnIndex(table, TimestampColumn)
    case None =>
    case Some(t) =>
      ChannelRunShape(lib, persists, fs, ToSeconds(table.columns[t].values), table, t);
  }

  /** The channel loop over the channel columns: the i-th stored record is the
      analysis of column i + 1, accepted by the store, and the loop ends without error
      exactly when every channel column has been stored. */
  lemma ChannelRunShape(lib: SignalLib, persists: ChannelAnalysis -> bool, fs: real, times: seq<real>, table: Table, ts: nat)
    requires Lawful(lib)
    ensures var cols := ChannelColumns(|table.columns|);
            var o := RunChannels(persists, ChannelResults(lib, fs, times, table, ts, cols));
            && |o.stored| <= |cols|
            && (o.failure.None? <==> |o.stored| == |cols|)
            && forall i :: 0 <= i < |o.stored| ==>
                 && o.stored[i].channel == table.columns[i + 1].name
                 && o.stored[i].raw == table.columns[i + 1].values
                 && persists(o.stored[i])
  {
    var cols := ChannelColumns(|table.columns|);
    var results := ChannelResults(lib, fs, times, table, ts, cols);
    forall i | 0 <= i < |results| && results[i].Ok?
      ensures results[i].value.channel == table.columns[i + 1].name
      ensures results[i].value.raw == table.columns[i + 1].values
    {
      assert cols[i] == i + 1;
    }
    RunRecords(persists, results, table);
  }

  /** A run over results whose i-th entry, when it succeeds, is the analysis of
      column i + 1 stores those analyses in order. */
  lemma RunRecords(persists: ChannelAnalysis -> bool, results: seq<ChannelResult>, table: Table)
    requires results == [] || |results| < |table.columns|
    requires forall i :: 0 <= i < |results| && results[i].Ok? ==>
               && results[i].value.channel == table.columns[i + 1].name
               && results[i].value.raw == table.columns[i + 1].values
    ensures var o := RunChannels(persists, results);
            && |o.stored| <= |results|
            && (o.failure.None? <==> |o.stored| == |results|)
            && forall i :: 0 <= i < |o.stored| ==>
                 && o.stored[i].channel == table.columns[i + 1].name
                 && o.stored[i].raw == table.columns[i + 1].values
                 && persists(o.stored[i])
  {
    RunShape(persists, results);
  }

  /** A table with a timestamp column outside columns 1 to 8 and eight channel
      columns, each longer than 27 samples, sampled at 120 Hz or more and stored by a
      store that accepts every record, yields exactly eight records and no error. */
  lemma CompleteRecording(lib: SignalLib, persists: ChannelAnalysis -> bool, fs: real, table: Table)
    requires Lawful(lib)
    requires ColumnIndex(table, TimestampColumn).Some?
    requires !(FirstChannel <= ColumnIndex(table, TimestampColumn).value < ChannelEnd)
    requires |table.columns| >= ChannelEnd
    requires forall c :: FirstChannel <= c < ChannelEnd ==> |table.columns[c].values| > 27
    requires fs >= 120.0
    requires forall a :: persists(a)
    ensures Processing(lib, persists, fs, table).failure.None?
    ensures |Processing(lib, persists, fs, table).stored| == ChannelEnd - FirstChannel
  {
    var ts := ColumnIndex(table, TimestampColumn).value;
    var cols := ChannelColumns(|table.columns|);
    var times := ToSeconds(table.columns[ts].values);
    var results := ChannelResults(lib, fs, times, table, ts, cols);
    forall i | 0 <= i < |cols|
      ensures results[i].Ok?
    {
      ChannelSucceedsIff(lib, fs, times, table.columns[cols[i]]);
    }
    RunCompletes(persists, results);
    ProcessingShape(lib, persists, fs, table);
  }

  /** Below 120 Hz the first channel already fails: nothing is stored and the run
      reports a filter error (or the missing timestamp column). */
  lemma LowRateStoresNothing(lib: SignalLib, persists: ChannelAnalysis -> bool, fs: real, table: Table)
    requires Lawful(lib)
    requires fs < 120.0
    requires |table.columns| > FirstChannel
    ensures Processing(lib, persists, fs, table).stored == []
    ensures ColumnIndex(table, TimestampColumn).Some? ==>
              Processing(lib, persists, fs, table).failure.value.FilterFailed?
  {
    match ColumnIndex(table, TimestampColumn)
    case None =>
    case Some(t) =>
      var times := ToSeconds(table.columns[t].values);
      var cols := ChannelColumns(|table.columns|);
      var results := ChannelResults(lib, fs, times, table, t, cols);
      ChannelSucceedsIff(lib, fs, times, table.columns[cols[0]]);
      assert results[..0] == [];
      RunEndsAt(persists, results, 0, FilterFailed(results[0].error));
  }

  /** A store that refuses every record leaves nothing stored. */
  lemma RefusingStoreStoresNothing(lib: SignalLib, persists: ChannelAnalysis -> bool, fs: real, table: Table)
    requires Lawful(lib)
    requires forall a :: !persists(a)
    ensures Processing(lib, persists, fs, table).stored == []
  {
    match ColumnIndex(table, TimestampColumn)
    case None =>
    case Some(t) =>
      var times := ToSeconds(table.columns[t].values);
      RunWithRefusingStore(persists, ChannelResults(lib, fs, times, table, t, ChannelColumns(|table.columns|)));
  }

  /** A timestamp column among columns 1 to 8 is itself visited as a channel after its
      conversion to datetimes: the run fails, at the latest there, having stored
      fewer records than the channels before it. */
  lemma TimestampAmongChannels(lib: SignalLib, persists: ChannelAnalysis -> bool, fs: real, table: Table)
    requires Lawful(lib)
    requires ColumnIndex(table, TimestampColumn).Some?
    requires FirstChannel <= ColumnIndex(table, TimestampColumn).value < ChannelEnd
    ensures Processing(lib, persists, fs, table).failure.Some?
    ensures |Processing(lib, persists, fs, table).stored| < ColumnIndex(table, TimestampColumn).value
  {
    var t := ColumnIndex(table, TimestampColumn).value;
    var cols := ChannelColumns(|table.columns|);
    var results := ChannelResults(lib, fs, ToSeconds(table.columns[t].values), table, t, cols);
    assert t in cols;
    assert cols[t - FirstChannel] == t;
    assert results[t - FirstChannel].Err?;
    RunShape(persists, results);
  }

  /** As written, `create` never returns a record: the source passes it field names
      the record does not declare, and timestamps that cannot be serialised. */
  const CreateAsWritten: ChannelAnalysis -> bool := _ => false

  /** `process_eeg_data` as written: nothing is stored, and a table with at least one
      channel column ends in an error, so `processed` is never set. */
  lemma ProcessingAsWritten(lib: SignalLib, fs: real, table: Table)
    requires Lawful(lib)
    ensures Processing(lib, CreateAsWritten, fs, table).stored == []
    ensures |table.columns| > FirstChannel ==> Processing(lib, CreateAsWritten, fs, table).failure.Some?
    ensures && ColumnIndex(table, TimestampColumn).Some? && ColumnIndex(table, TimestampColumn).value != FirstChannel
            && |table.columns| > FirstChannel && fs >= 120.0 && |table.columns[FirstChannel].values| > 27
            ==> Processing(lib, CreateAsWritten, fs, table).failure == Some(PersistenceFailure)
  {
    RefusingStoreStoresNothing(lib, CreateAsWritten, fs, table);
    ProcessingShape(lib, CreateAsWritten, fs, table);
    var ts := ColumnIndex(table, TimestampColumn);
    if ts.Some? && ts.value != FirstChannel && |table.columns| > FirstChannel
       && fs >= 120.0 && |table.columns[FirstChannel].values| > 27
    {
      var times := ToSeconds(table.columns[ts.value].values);
      var cols := ChannelColumns(|table.columns|);
      var results := ChannelResults(lib, fs, times, table, ts.value, cols);
      assert cols[0] == FirstChannel;
      ChannelSucceedsIff(lib, fs, times, table.columns[FirstChannel]);
      assert results[..0] == [];
      RunEndsAt(CreateAsWritten, results, 0, PersistenceFailure);
    }
  }

  /** With fewer than 120 samples per second the 60 Hz notch cannot be designed, and
      every channel fails; a longer chain of checks (40 Hz low-pass, gamma band)
      would need only fs > 80. A channel is analysed exactly when fs >= 120 and it
      has more samples than the band-pass pad length, 27. */
  lemma ChannelSucceedsIff(lib: SignalLib, fs: real, times: seq<real>, column: Column)
    requires Lawful(lib)
    ensures AnalyzeChannel(lib, fs, times, column).Ok? <==> fs >= 120.0 && |column.values| > 27
  {
    var x := column.values;
    PrefilterSucceedsIff(lib, fs, x);
    if fs >= 120.0 && |x| > 27 {
      var s := Prefilter(lib, fs, x);
      BandTableDesignable(fs);
      assert BandPowerList(lib, fs, s.value.bandpassed, BandTable()).Ok?;
    }
  }

  /** The filter stages succeed exactly at 120 Hz or more (the notch's 60 Hz must
      not exceed the Nyquist frequency) on more than 27 samples (the band-pass
      filter's pad length). */
  lemma PrefilterSucceedsIff(lib: SignalLib, fs: real, x: seq<real>)
    requires Lawful(lib)
    ensures Prefilter(lib, fs, x).Ok? <==> fs >= 120.0 && |x| > 27
  {
    if fs >= 120.0 && |x| > 27 {
      assert Prefilter(lib, fs, x).Ok?;
    }
    if Prefilter(lib, fs, x).Ok? {
      assert IirNotch(NotchFrequency, NotchQuality, fs).Ok?;
      var s := Prefilter(lib, fs, x).value;
      assert DesignAndApply(lib, ButterBandpass(BandpassLow, BandpassHigh, fs), s.lowpassed).Ok?;
    }
  }

  /** A silent channel (all samples zero) is analysed into silent filtered signals
      and five zero band powers. */
  lemma SilentChannel(lib: SignalLib, fs: real, times: seq<real>, column: Column)
    requires Lawful(lib)
    requires fs >= 120.0 && |column.values| > 27
    requires column.values == Zeros(|column.values|)
    ensures var r := AnalyzeChannel(lib, fs, times, column);
            && r.Ok?
            && r.value.notch == column.values && r.value.bandpass == column.values
            && r.value.powers == PowerMetrics(0.0, 0.0, 0.0, 0.0, 0.0)
  {
    ChannelSucceedsIff(lib, fs, times, column);
    var s := Prefilter(lib, fs, column.values);
    assert s.Ok?;
    assert s.value.notch == column.values;
    assert s.value.highpassed == column.values;
    assert s.value.lowpassed == column.values;
    assert s.value.bandpassed == column.values;
  }

  /** The filter stages of one iteration of the channel loop, each stage applied to
      the previous stage's output; the first failure is returned. */
  method PrefilterColumn(lib: SignalLib, fs: real, data: seq<real>) returns (r: Result<Stages, FilterError>)
    requires Lawful(lib)
    ensures r == Prefilter(lib, fs, data)
  {
    var notch := DesignAndApply(lib, IirNotch(NotchFrequency, NotchQuality, fs), data);
    if notch.Err? {
      return Err(notch.error);
    }
    var filtered := DesignAndApply(lib, ButterHighpass(HighpassCutoff, fs), notch.value);
    if filtered.Err? {
      return Err(filtered.error);
    }
    var high := filtered.value;
    filtered := DesignAndApply(lib, ButterLowpass(LowpassCutoff, fs), high);
    if filtered.Err? {
      return Err(filtered.error);
    }
    var bandpass := DesignAndApply(lib, ButterBandpass(BandpassLow, BandpassHigh, fs), filtered.value);
    if bandpass.Err? {
      return Err(bandpass.error);
    }
    r := Ok(Stages(notch.value, high, filtered.value, bandpass.value));
  }

  /** The band-power loop: the power of each band of the table, in table order. At a
      rate the notch accepts and on a signal the filters accept, no band fails. */
  method MeasureBands(lib: SignalLib, fs: real, x: seq<real>) returns (powers: seq<real>)
    requires Lawful(lib)
    requires fs >= 120.0 && |x| > 27
    ensures BandPowerList(lib, fs, x, BandTable()) == Ok(powers)
  {
    var bands := BandTable();
    BandPowersSucceed(lib, fs, x);
    powers := [];
    var b := 0;
    while b < |bands|
      invariant 0 <= b <= |bands|
      invariant BandPowerList(lib, fs, x, bands[..b]) == Ok(powers)
    {
      assert bands[..b + 1][..b] == bands[..b];
      powers := powers + [BandPower(lib, fs, bands[b], x).value];
      b := b + 1;
    }
    assert bands[..b] == bands;
  }

  /** The method form of one iteration of the channel loop: the filter stages, the
      spectrogram, then the band powers. */
  method AnalyzeColumn(lib: SignalLib, fs: real, times: seq<real>, column: Column)
    returns (r: Result<ChannelAnalysis, FilterError>)
    requires Lawful(lib)
    ensures r == AnalyzeChannel(lib, fs, times, column)
  {
    var stages := PrefilterColumn(lib, fs, column.values);
    if stages.Err? {
      return Err(stages.error);
    }
    PrefilterSucceedsIff(lib, fs, column.values);
    var bandpass := stages.value.bandpassed;
    var spectrogram := lib.stft(bandpass, fs, SpectrogramWindow);
    var powers := MeasureBands(lib, fs, bandpass);
    r := Ok(ChannelAnalysis(
           column.name, times, column.values, stages.value.notch, bandpass, spectrogram,
           PowerMetrics(powers[0], powers[1], powers[2], powers[3], powers[4])));
  }

  /** An uploaded recording: its table and sampling rate, the analysis records stored
      for it, and whether it has been processed. */
  class Recording {
    const table: Table
    const samplingRate: real
    var processed: bool
    var analyses: seq<ChannelAnalysis>

    constructor (table: Table, samplingRate: real := DefaultSamplingRate)
      ensures this.table == table && this.samplingRate == samplingRate
      ensures !processed && analyses == []
    {
      this.table := table;
      this.samplingRate := samplingRate;
      processed := false;
      analyses := [];
    }

    /** `process_eeg_data(eeg_data)`: stores one record per channel column, in
        column order, and sets `processed` only once the loop has finished; an error
        leaves the records of earlier channels stored and the flag as it was. */
    method Process(lib: SignalLib, persists: ChannelAnalysis -> bool) returns (outcome: Result<(), PipelineError>)
      requires Lawful(lib)
      modifies this
      ensures analyses == old(analyses) + Processing(lib, persists, samplingRate, table).stored
      ensures outcome.Ok? <==> Processing(lib, persists, samplingRate, table).failure.None?
      ensures outcome.Err? ==> Processing(lib, persists, samplingRate, table).failure == Some(outcome.error)
      ensures processed == (old(processed) || outcome.Ok?)
    {
      var ts := ColumnIndex(table, TimestampColumn);
      if ts.None? {
        return Err(MissingTimestamp);
      }
      var times := ToSeconds(table.columns[ts.value].values);
      var cols := ChannelColumns(|table.columns|);
      assert Processing(lib, persists, samplingRate, table)
          == RunChannels(persists, ChannelResults(lib, samplingRate, times, table, ts.value, cols));
      var failure := StoreChannels(lib, persists, times, ts.value, cols);
      if failure.Some? {
        return Err(failure.value);
      }
      processed := true;
      outcome := Ok(());
    }

    /** The channel loop: analyse each column in turn (the converted timestamp column,
        at `ts`, as datetimes) and store its record before moving on; the first error
        stops the loop. */
    method StoreChannels(lib: SignalLib, persists: ChannelAnalysis -> bool, times: seq<real>, ts: nat, cols: seq<nat>)
      returns (failure: Option<PipelineError>)
      requires Lawful(lib)
      requires ValidColumns(table, cols)
      modifies this
      ensures var run := RunChannels(persists, ChannelResults(lib, samplingRate, times, table, ts, cols));
              analyses == old(analyses) + run.stored && failure == run.failure
      ensures processed == old(processed)
    {
      ghost var results := ChannelResults(lib, samplingRate, times, table, ts, cols);
      ghost var before := analyses;
      var i := 0;
      while i < |cols|
        invariant 0 <= i <= |cols|
        invariant RunChannels(persists, results[..i]).failure.None?
        invariant analyses == before + RunChannels(persists, results[..i]).stored
        invariant processed == old(processed)
      {
        var record;
        if cols[i] == ts {
          record := DatetimeChannel(samplingRate, |table.columns[cols[i]].values|);
        } else {
          record := AnalyzeColumn(lib, samplingRate, times, table.columns[cols[i]]);
        }
        if record.Err? {
          RunEndsAt(persists, results, i, FilterFailed(record.error));
          return Some(FilterFailed(record.error));
        }
        if !persists(record.value) {
          RunEndsAt(persists, results, i, PersistenceFailure);
          return Some(PersistenceFailure);
        }
        RunStores(persists, results, i);
        analyses := analyses + [record.value];
        i := i + 1;
      }
      assert results[..i] == results;
      failure := None;
    }
  }
}
