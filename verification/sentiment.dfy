/** `analyze_sentiment` in analysis/views.py: the five band powers averaged over a
    recording's channel analyses, a mood label chosen by an ordered chain of
    threshold comparisons, then an optional age-bracket suffix and an optional sex
    suffix. The label is built as a `Verdict` and rendered as the Portuguese string
    the dashboard shows; `ParseLabel` reads the verdict back from that string. */
module Sentiment {
  import opened Wrappers
  import opened ChannelPipeline
  import RealArith

  // ---------------------------------------------------------------- averages

  datatype BandKey = Delta | Theta | Alpha | Beta | Gamma

  function PowerOf(p: PowerMetrics, k: BandKey): real {
    match k
    case Delta => p.delta
    case Theta => p.theta
    case Alpha => p.alpha
    case Beta => p.beta
    case Gamma => p.gamma
  }

  /** `[a.<band>_power for a in analyses]`. */
  function BandPowers(analyses: seq<ChannelAnalysis>, k: BandKey): (xs: seq<real>)
    ensures |xs| == |analyses|
    ensures forall i :: 0 <= i < |analyses| ==> xs[i] == PowerOf(analyses[i].powers, k)
  {
    seq(|analyses|, i requires 0 <= i < |analyses| => PowerOf(analyses[i].powers, k))
  }

  function Sum(xs: seq<real>): real {
    if xs == [] then 0.0 else Sum(xs[..|xs| - 1]) + xs[|xs| - 1]
  }

  /** `np.mean(xs)`: the arithmetic mean, NaN for an empty list. */
  function Mean(xs: seq<real>): (m: Float)
    ensures m.NaN? <==> xs == []
    ensures m.Finite? ==> m.v * (|xs| as real) == Sum(xs)
  {
    if xs == [] then NaN
    else
      RealArith.DivMul(Sum(xs), |xs| as real);
      Finite(Sum(xs) / (|xs| as real))
  }

  /** Bounds on every element bound the sum. */
  lemma {:induction false} SumWithin(xs: seq<real>, lo: real, hi: real)
    requires forall i :: 0 <= i < |xs| ==> lo <= xs[i] <= hi
    ensures lo * (|xs| as real) <= Sum(xs) <= hi * (|xs| as real)
  {
    if xs != [] {
      SumWithin(xs[..|xs| - 1], lo, hi);
    }
  }

  /** The mean of a non-empty list lies between any bounds of its elements. */
  lemma MeanWithin(xs: seq<real>, lo: real, hi: real)
    requires xs != []
    requires forall i :: 0 <= i < |xs| ==> lo <= xs[i] <= hi
    ensures Mean(xs).Finite? && lo <= Mean(xs).v <= hi
  {
    SumWithin(xs, lo, hi);
    RealArith.QuotientWithin(Sum(xs), |xs| as real, lo, hi);
  }

  /** The `avg_values` dictionary. */
  datatype Averages = Averages(delta: Float, theta: Float, alpha: Float, beta: Float, gamma: Float)

  function AverageOf(avg: Averages, k: BandKey): Float {
    match k
    case Delta => avg.delta
    case Theta => avg.theta
    case Alpha => avg.alpha
    case Beta => avg.beta
    case Gamma => avg.gamma
  }

  function Average(analyses: seq<ChannelAnalysis>): Averages {
    Averages(Mean(BandPowers(analyses, Delta)), Mean(BandPowers(analyses, Theta)),
             Mean(BandPowers(analyses, Alpha)), Mean(BandPowers(analyses, Beta)),
             Mean(BandPowers(analyses, Gamma)))
  }

  /** Each entry of `avg_values` is that band's arithmetic mean over the analyses:
      NaN when there are none, and otherwise n times the average is the sum. */
  lemma AveragesAreMeans(analyses: seq<ChannelAnalysis>, k: BandKey)
    ensures AverageOf(Average(analyses), k).NaN? <==> analyses == []
    ensures AverageOf(Average(analyses), k).Finite? ==>
              AverageOf(Average(analyses), k).v * (|analyses| as real) == Sum(BandPowers(analyses, k))
  {
    AverageOfIsMean(analyses, k);
    assert |BandPowers(analyses, k)| == |analyses|;
  }

  lemma AverageOfIsMean(analyses: seq<ChannelAnalysis>, k: BandKey)
    ensures AverageOf(Average(analyses), k) == Mean(BandPowers(analyses, k))
  {
  }

  /** Powers bounded below by 0 (as band powers are) give averages that are finite
      and bounded below by 0 too, as long as there is at least one analysis. */
  lemma AveragesOfPowersAreNonNegative(analyses: seq<ChannelAnalysis>, k: BandKey, hi: real)
    requires analyses != []
    requires forall i :: 0 <= i < |analyses| ==> 0.0 <= PowerOf(analyses[i].powers, k) <= hi
    ensures AverageOf(Average(analyses), k).Finite?
    ensures 0.0 <= AverageOf(Average(analyses), k).v <= hi
  {
    MeanWithin(BandPowers(analyses, k), 0.0, hi);
  }

  // ---------------------------------------------------------------- decision

  /** The base label, with its intensity suffix where it has one. */
  datatype Mood =
    | Stress(intense: bool)      // "Agitação/Estresse", " Intensa"
    | Relaxation(deep: bool)     // "Relaxamento", " Profundo"
    | Drowsiness                 // "Sonolência/Criatividade"
    | Neutral                    // "Neutro"

  datatype AgeBracket = Young | Adult | Elderly
  datatype SexMark = Female | Male

  /** Everything the label says. */
  datatype Verdict = Verdict(mood: Mood, bracket: Option<AgeBracket>, sex: Option<SexMark>)

  const StressRatio: real := 1.5
  const RelaxationRatio: real := 1.2
  const IntenseGamma: real := 0.08
  const DeepTheta: real := 0.1
  const AdultFrom: int := 18
  const AdultUpTo: int := 65

  /** The chain of comparisons: stress first, then relaxation, then drowsiness; a
      comparison involving NaN is false, so no analyses at all means "Neutro". */
  function ClassifyMood(avg: Averages): (m: Mood)
    ensures m.Stress? <==> Greater(avg.beta, Scaled(avg.alpha, StressRatio))
    ensures m.Stress? ==> (m.intense <==> Greater(avg.gamma, Finite(IntenseGamma)))
    ensures m.Relaxation? <==> !Greater(avg.beta, Scaled(avg.alpha, StressRatio))
                               && Greater(avg.alpha, Scaled(avg.beta, RelaxationRatio))
    ensures m.Relaxation? ==> (m.deep <==> Greater(avg.theta, Finite(DeepTheta)))
    ensures m.Drowsiness? <==> !Greater(avg.beta, Scaled(avg.alpha, StressRatio))
                               && !Greater(avg.alpha, Scaled(avg.beta, RelaxationRatio))
                               && Greater(avg.theta, avg.alpha) && Greater(avg.theta, avg.beta)
  {
    if Greater(avg.beta, Scaled(avg.alpha, StressRatio)) then
      Stress(Greater(avg.gamma, Finite(IntenseGamma)))
    else if Greater(avg.alpha, Scaled(avg.beta, RelaxationRatio)) then
      Relaxation(Greater(avg.theta, Finite(DeepTheta)))
    else if Greater(avg.theta, avg.alpha) && Greater(avg.theta, avg.beta) then
      Drowsiness
    else
      Neutral
  }

  /** `if age:` — no bracket for a missing age or an age of 0; otherwise exactly one
      of the three brackets, split at 18 and 65 (both inclusive for adults). */
  function BracketOf(age: Option<int>): (b: Option<AgeBracket>)
    ensures b.None? <==> age.None? || age.value == 0
    ensures b == Some(Young) <==> age.Some? && age.value != 0 && age.value < AdultFrom
    ensures b == Some(Adult) <==> age.Some? && AdultFrom <= age.value <= AdultUpTo
    ensures b == Some(Elderly) <==> age.Some? && age.value > AdultUpTo
  {
    match age
    case None => None
    case Some(a) =>
      if a == 0 then None
      else if a < AdultFrom then Some(Young)
      else if a <= AdultUpTo then Some(Adult)
      else Some(Elderly)
  }

  /** Only the codes "F" and "M" add a mark; "O", a missing value and anything else
      add nothing. */
  function SexMarkOf(sex: Option<string>): (x: Option<SexMark>)
    ensures x == Some(Female) <==> sex == Some("F")
    ensures x == Some(Male) <==> sex == Some("M")
  {
    if sex == Some("F") then Some(Female)
    else if sex == Some("M") then Some(Male)
    else None
  }

  function Assess(analyses: seq<ChannelAnalysis>, age: Option<int>, sex: Option<string>): Verdict {
    Verdict(ClassifyMood(Average(analyses)), BracketOf(age), SexMarkOf(sex))
  }

  // ---------------------------------------------------------------- rendering

  const StressText: string := "Agitação/Estresse"
  const IntenseText: string := " Intensa"
  const RelaxationText: string := "Relaxamento"
  const DeepText: string := " Profundo"
  const DrowsinessText: string := "Sonolência/Criatividade"
  const NeutralText: string := "Neutro"
  const YoungText: string := " (Jovem)"
  const AdultText: string := " (Adulto)"
  const ElderlyText: string := " (Idoso)"
  const FemaleText: string := " ♀"
  const MaleText: string := " ♂"

  function MoodText(m: Mood): string {
    match m
    case Stress(intense) => if intense then StressText + IntenseText else StressText
    case Relaxation(deep) => if deep then RelaxationText + DeepText else RelaxationText
    case Drowsiness => DrowsinessText
    case Neutral => NeutralText
  }

  function BracketText(b: Option<AgeBracket>): string {
    match b
    case None => ""
    case Some(Young) => YoungText
    case Some(Adult) => AdultText
    case Some(Elderly) => ElderlyText
  }

  function SexText(x: Option<SexMark>): string {
    match x
    case None => ""
    case Some(Female) => FemaleText
    case Some(Male) => MaleText
  }

  /** The label: base text, intensity, then the age suffix, then the sex suffix. */
  function Render(v: Verdict): string {
    MoodText(v.mood) + BracketText(v.bracket) + SexText(v.sex)
  }

  /** The dictionary `analyze_sentiment` returns. */
  datatype Report = Report(sentiment: string, averages: Averages)

  /** `analyze_sentiment(analyses, age, sex)`: the rendered label decodes to the
      verdict the averages, the age and the sex determine. */
  function AnalyzeSentiment(analyses: seq<ChannelAnalysis>, age: Option<int> := None, sex: Option<string> := None)
    : (r: Report)
    ensures r.averages == Average(analyses)
    ensures ParseLabel(r.sentiment) == Some(Assess(analyses, age, sex))
  {
    var v := Assess(analyses, age, sex);
    ParseRender(v);
    Report(Render(v), Average(analyses))
  }

  // ---------------------------------------------------------------- parsing

  function Drop(prefix: string, s: string): string
    requires prefix <= s
  {
    s[|prefix|..]
  }

  /** Reads the base label and its intensity off the front of a label. */
  function ParseMood(s: string): Option<(Mood, string)> {
    if StressText <= s then
      var rest := Drop(StressText, s);
      if IntenseText <= rest then Some((Stress(true), Drop(IntenseText, rest))) else Some((Stress(false), rest))
    else if RelaxationText <= s then
      var rest := Drop(RelaxationText, s);
      if DeepText <= rest then Some((Relaxation(true), Drop(DeepText, rest))) else Some((Relaxation(false), rest))
    else if DrowsinessText <= s then Some((Drowsiness, Drop(DrowsinessText, s)))
    else if NeutralText <= s then Some((Neutral, Drop(NeutralText, s)))
    else None
  }

  /** Reads an optional age suffix off the front of the rest of a label. */
  function ParseBracket(s: string): (Option<AgeBracket>, string) {
    if YoungText <= s then (Some(Young), Drop(YoungText, s))
    else if AdultText <= s then (Some(Adult), Drop(AdultText, s))
    else if ElderlyText <= s then (Some(Elderly), Drop(ElderlyText, s))
    else (None, s)
  }

  /** The sex suffix must be all that is left. */
  function ParseSex(s: string): Option<Option<SexMark>> {
    if s == "" then Some(None)
    else if s == FemaleText then Some(Some(Female))
    else if s == MaleText then Some(Some(Male))
    else None
  }

  /** The verdict a label shows, or None for a string that is not a label. */
  function ParseLabel(s: string): Option<Verdict> {
    match ParseMood(s)
    case None => None
    case Some((mood, rest)) =>
      var (bracket, tail) := ParseBracket(rest);
      match ParseSex(tail)
      case None => None
      case Some(sex) => Some(Verdict(mood, bracket, sex))
  }

  /** What may follow the base label: nothing, or a space followed by '(' or a sex
      sign. */
  lemma SuffixStart(b: Option<AgeBracket>, x: Option<SexMark>)
    ensures var t := BracketText(b) + SexText(x);
            t == [] || (|t| >= 2 && t[0] == ' ' && (t[1] == '(' || t[1] == '♀' || t[1] == '♂'))
  {
  }

  lemma ParseSexText(x: Option<SexMark>)
    ensures ParseSex(SexText(x)) == Some(x)
  {
  }

  lemma ParseBracketText(b: Option<AgeBracket>, x: Option<SexMark>)
    ensures ParseBracket(BracketText(b) + SexText(x)) == (b, SexText(x))
  {
    var t := BracketText(b) + SexText(x);
    match b
    case None =>
      assert !(YoungText <= t) && !(AdultText <= t) && !(ElderlyText <= t) by {
        assert t == SexText(x);
        assert t == [] || t[1] != '(';
      }
    case Some(Young) =>
      assert YoungText <= t;
      assert Drop(YoungText, t) == SexText(x);
    case Some(Adult) =>
      assert !(YoungText <= t) by { assert t[2] == 'A'; }
      assert AdultText <= t;
      assert Drop(AdultText, t) == SexText(x);
    case Some(Elderly) =>
      assert !(YoungText <= t) by { assert t[2] == 'I'; }
      assert !(AdultText <= t) by { assert t[2] == 'I'; }
      assert ElderlyText <= t;
      assert Drop(ElderlyText, t) == SexText(x);
  }

  lemma ParseMoodText(m: Mood, t: string)
    requires t == [] || (|t| >= 2 && t[0] == ' ' && (t[1] == '(' || t[1] == '♀' || t[1] == '♂'))
    ensures ParseMood(MoodText(m) + t) == Some((m, t))
  {
    match m
    case Stress(intense) => ParseStressText(intense, t);
    case Relaxation(deep) => ParseRelaxationText(deep, t);
    case Drowsiness =>
      var s := MoodText(m) + t;
      assert !(StressText <= s) && !(RelaxationText <= s) by { assert s[0] == 'S'; }
      assert DrowsinessText <= s;
      assert Drop(DrowsinessText, s) == t;
    case Neutral =>
      var s := MoodText(m) + t;
      assert !(StressText <= s) && !(RelaxationText <= s) && !(DrowsinessText <= s) by { assert s[0] == 'N'; }
      assert NeutralText <= s;
      assert Drop(NeutralText, s) == t;
  }

  lemma ParseStressText(intense: bool, t: string)
    requires t == [] || (|t| >= 2 && t[0] == ' ' && (t[1] == '(' || t[1] == '♀' || t[1] == '♂'))
    ensures ParseMood(MoodText(Stress(intense)) + t) == Some((Stress(intense), t))
  {
    var s := MoodText(Stress(intense)) + t;
    assert StressText <= s;
    if intense {
      assert Drop(StressText, s) == IntenseText + t;
      assert Drop(IntenseText, IntenseText + t) == t;
    } else {
      assert Drop(StressText, s) == t;
      assert !(IntenseText <= t) by { assert t == [] || t[1] != 'I'; }
    }
  }

  lemma ParseRelaxationText(deep: bool, t: string)
    requires t == [] || (|t| >= 2 && t[0] == ' ' && (t[1] == '(' || t[1] == '♀' || t[1] == '♂'))
    ensures ParseMood(MoodText(Relaxation(deep)) + t) == Some((Relaxation(deep), t))
  {
    var s := MoodText(Relaxation(deep)) + t;
    assert !(StressText <= s) by { assert s[0] == 'R'; }
    assert RelaxationText <= s;
    if deep {
      assert Drop(RelaxationText, s) == DeepText + t;
      assert Drop(DeepText, DeepText + t) == t;
    } else {
      assert Drop(RelaxationText, s) == t;
      assert !(DeepText <= t) by { assert t == [] || t[1] != 'P'; }
    }
  }

  /** Every label reads back as the verdict it was rendered from, so two different
      verdicts never share a label. */
  lemma ParseRender(v: Verdict)
    ensures ParseLabel(Render(v)) == Some(v)
  {
    var t := BracketText(v.bracket) + SexText(v.sex);
    SuffixStart(v.bracket, v.sex);
    assert Render(v) == MoodText(v.mood) + t;
    ParseMoodText(v.mood, t);
    ParseBracketText(v.bracket, v.sex);
    ParseSexText(v.sex);
  }

  lemma RenderInjective(v: Verdict, w: Verdict)
    ensures Render(v) == Render(w) ==> v == w
  {
    ParseRender(v);
    ParseRender(w);
  }

  // ---------------------------------------------------------------- the label

  /** The base label of `analyze_sentiment`'s result follows the chain's precedence:
      it starts with "Agitação/Estresse" exactly when avg beta > 1.5 avg alpha, with
      " Intensa" exactly when also avg gamma > 0.08; otherwise with "Relaxamento"
      exactly when avg alpha > 1.2 avg beta, with " Profundo" exactly when also avg
      theta > 0.1; otherwise with "Sonolência/Criatividade" exactly when avg theta
      exceeds both avg alpha and avg beta; and "Neutro" in every remaining case. */
  lemma LabelPrecedence(analyses: seq<ChannelAnalysis>, age: Option<int>, sex: Option<string>)
    ensures var avg := Average(analyses);
            var s := AnalyzeSentiment(analyses, age, sex).sentiment;
            var stress := Greater(avg.beta, Scaled(avg.alpha, StressRatio));
            var relaxed := Greater(avg.alpha, Scaled(avg.beta, RelaxationRatio));
            var drowsy := Greater(avg.theta, avg.alpha) && Greater(avg.theta, avg.beta);
            && (StressText <= s <==> stress)
            && (StressText + IntenseText <= s <==> stress && Greater(avg.gamma, Finite(IntenseGamma)))
            && (RelaxationText <= s <==> !stress && relaxed)
            && (RelaxationText + DeepText <= s <==> !stress && relaxed && Greater(avg.theta, Finite(DeepTheta)))
            && (DrowsinessText <= s <==> !stress && !relaxed && drowsy)
            && (NeutralText <= s <==> !stress && !relaxed && !drowsy)
  {
    var v := Assess(analyses, age, sex);
    var t := BracketText(v.bracket) + SexText(v.sex);
    SuffixStart(v.bracket, v.sex);
    assert AnalyzeSentiment(analyses, age, sex).sentiment == MoodText(v.mood) + t;
    MoodPrefixes(v.mood, t);
  }

  /** Which base texts a label starts with: the first character decides the base
      label, the character after the base text decides the intensity. */
  lemma MoodPrefixes(m: Mood, t: string)
    requires t == [] || (|t| >= 2 && t[0] == ' ' && (t[1] == '(' || t[1] == '♀' || t[1] == '♂'))
    ensures var s := MoodText(m) + t;
            && (StressText <= s <==> m.Stress?)
            && (StressText + IntenseText <= s <==> m == Stress(true))
            && (RelaxationText <= s <==> m.Relaxation?)
            && (RelaxationText + DeepText <= s <==> m == Relaxation(true))
            && (DrowsinessText <= s <==> m == Drowsiness)
            && (NeutralText <= s <==> m == Neutral)
  {
    var s := MoodText(m) + t;
    assert StressText <= s ==> s[0] == 'A';
    assert RelaxationText <= s ==> s[0] == 'R';
    assert DrowsinessText <= s ==> s[0] == 'S';
    assert NeutralText <= s ==> s[0] == 'N';
    assert StressText + IntenseText <= s ==> s[0] == 'A' && s[18] == 'I';
    assert RelaxationText + DeepText <= s ==> s[0] == 'R' && s[12] == 'P';
    match m
    case Stress(intense) =>
      assert StressText <= s;
      if intense { assert StressText + IntenseText <= s; }
      else { assert |s| <= 18 || s[18] != 'I'; }
    case Relaxation(deep) =>
      assert RelaxationText <= s;
      if deep { assert RelaxationText + DeepText <= s; }
      else { assert |s| <= 12 || s[12] != 'P'; }
    case Drowsiness =>
      assert DrowsinessText <= s;
    case Neutral =>
      assert NeutralText <= s;
  }

  /** Exactly one age suffix when the age is truthy, none otherwise; the sex suffix
      comes last. */
  lemma LabelSuffixes(analyses: seq<ChannelAnalysis>, age: Option<int>, sex: Option<string>)
    ensures var s := AnalyzeSentiment(analyses, age, sex).sentiment;
            var base := MoodText(ClassifyMood(Average(analyses)));
            && (age.None? || age.value == 0 ==> s == base + SexText(SexMarkOf(sex)))
            && (age.Some? && age.value != 0 && age.value < 18 ==> s == base + YoungText + SexText(SexMarkOf(sex)))
            && (age.Some? && 18 <= age.value <= 65 ==> s == base + AdultText + SexText(SexMarkOf(sex)))
            && (age.Some? && age.value > 65 ==> s == base + ElderlyText + SexText(SexMarkOf(sex)))
            && (sex == Some("F") ==> s == base + BracketText(BracketOf(age)) + FemaleText)
            && (sex == Some("M") ==> s == base + BracketText(BracketOf(age)) + MaleText)
            && (sex != Some("F") && sex != Some("M") ==> s == base + BracketText(BracketOf(age)))
  {
    var v := Assess(analyses, age, sex);
    ParseRender(v);
  }

  /** With no analyses every average is NaN, every comparison is false and the base
      label is "Neutro". */
  lemma NoAnalysesIsNeutral(age: Option<int>, sex: Option<string>)
    ensures AnalyzeSentiment([], age, sex).sentiment
            == NeutralText + BracketText(BracketOf(age)) + SexText(SexMarkOf(sex))
  {
    var v := Assess([], age, sex);
    ParseRender(v);
    AveragesAreMeans([], Beta);
    AveragesAreMeans([], Alpha);
    AveragesAreMeans([], Theta);
  }
}
