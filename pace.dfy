/**
  The pace model and race-time predictor: the Riegel power-law prediction, the decayed
  time-trial target band and the three pace zones derived from a 5K base pace. Times
  and paces are minutes as exact reals.
 */
module Pace {
  import opened Wrappers
  import opened Text
  import opened Rounding
  import opened TimeText

  /** Miles in a 5K, the distance every base pace refers to. */
  const FiveKMiles: real := 3.1

  /** The exponent of the Riegel model used when the caller gives none. */
  const RiegelExponent: real := 1.06

  /** The default `improvement_rate` of `compute_tt_target_range`: 1.5% per wave. */
  const DefaultImprovementRate: real := 0.015

  // ---------- Riegel prediction ----------

  /** The real power `x ** y`, computed by `pow`. */
  function Power(pow: (real, real) -> real, x: real, y: real): real {
    pow(x, y)
  }

  /** The distance ratio `d2 / d1` the power is taken of. */
  function Ratio(d2: real, d1: real): (q: real)
    requires d1 != 0.0
    ensures q * d1 == d2
  {
    d2 / d1
  }

  /**
    `predict_distance_time`: the time for `d2` given a time for `d1`, as
    `t1 * (d2 / d1) ** exponent`. The real power is the parameter `pow`. A zero `d1`
    raises a `ZeroDivisionError` the code does not catch, so callers must avoid it once
    the time parses.
   */
  function PredictDistanceTime(timeText: string, d1: real, d2: real, exponent: real,
                               pow: (real, real) -> real): (r: Option<real>)
    requires ParseMinSec(timeText).Some? ==> d1 != 0.0
    ensures r.None? <==> ParseMinSec(timeText).None?
  {
    match ParseMinSec(timeText)
    case None => None
    case Some(ms) => Some(Minutes(ms) * Power(pow, Ratio(d2, d1), exponent))
  }

  /** Predicting for the distance the time was run at returns that time. */
  lemma PredictSameDistance(timeText: string, d: real, exponent: real, pow: (real, real) -> real)
    requires d != 0.0 && Power(pow, 1.0, exponent) == 1.0
    ensures PredictDistanceTime(timeText, d, d, exponent, pow) ==
      if ParseMinSec(timeText).Some? then Some(Minutes(ParseMinSec(timeText).value)) else None
  {
    assert Ratio(d, d) == 1.0;
  }

  /** `predict_time`: the predicted time printed as `M:SS`, or `Invalid Time`. */
  function PredictTime(timeText: string, trialDist: real, goalDist: real,
                       pow: (real, real) -> real): (r: string)
    requires ParseMinSec(timeText).Some? ==> trialDist != 0.0
    ensures r == "Invalid Time" <==> ParseMinSec(timeText).None?
  {
    match PredictDistanceTime(timeText, trialDist, goalDist, RiegelExponent, pow)
    case Some(minutes) => FormatPaceHasColon(minutes); FormatPace(minutes)
    case None => "Invalid Time"
  }

  /** Predicting for the distance the time was run at prints that time through `format_pace`. */
  lemma PredictTimeSameDistance(timeText: string, d: real, pow: (real, real) -> real)
    requires d != 0.0 && Power(pow, 1.0, RiegelExponent) == 1.0 && ParseMinSec(timeText).Some?
    ensures PredictTime(timeText, d, d, pow) == FormatPace(Minutes(ParseMinSec(timeText).value))
  {
    PredictSameDistance(timeText, d, RiegelExponent, pow);
  }

  /** A 25:00 5K predicts a 25:00 5K. */
  lemma PredictTimeExample(pow: (real, real) -> real)
    requires Power(pow, 1.0, RiegelExponent) == 1.0
    ensures PredictTime("25:00", 3.1, 3.1, pow) == "25:00"
  {
    TwentyFiveMinutes();
    PredictTimeSameDistance("25:00", 3.1, pow);
    assert Minutes((25, 0)) == 25.0;
  }

  /** A time without a colon is invalid. */
  lemma PredictTimeNoColon(pow: (real, real) -> real)
    ensures PredictTime("2500", 3.1, 3.1, pow) == "Invalid Time"
  {
  }

  // ---------- Time-trial targets ----------

  /** `max(0, 1 - improvement_rate * wave_num)`. */
  function DecayFactor(improvementRate: real, waveNum: int): (f: real)
    ensures 0.0 <= f
    ensures improvementRate * waveNum as real >= 0.0 ==> f <= 1.0
    ensures f >= 1.0 - improvementRate * waveNum as real
    ensures f == 0.0 || f == 1.0 - improvementRate * waveNum as real
  {
    Max(0.0, 1.0 - improvementRate * waveNum as real)
  }

  /** With a non-negative rate, later waves never get a larger factor. */
  lemma DecayFactorNonIncreasing(improvementRate: real, w1: int, w2: int)
    requires improvementRate >= 0.0 && w1 <= w2
    ensures DecayFactor(improvementRate, w2) <= DecayFactor(improvementRate, w1)
  {
    assert improvementRate * (w2 - w1) as real >= 0.0;
    assert improvementRate * w2 as real == improvementRate * w1 as real + improvementRate * (w2 - w1) as real;
  }

  /**
    With the default rate of 1.5% per wave the factor is exactly `1 - 0.015 * wave` and
    still positive up to wave 66; from wave 67 on it is clamped to zero.
   */
  lemma DefaultDecay(waveNum: int)
    ensures 0 <= waveNum <= 66 ==> DecayFactor(DefaultImprovementRate, waveNum) == 1.0 - 0.015 * waveNum as real > 0.0
    ensures waveNum >= 67 ==> DecayFactor(DefaultImprovementRate, waveNum) == 0.0
  {
    if waveNum >= 67 {
      assert DefaultImprovementRate * waveNum as real >= DefaultImprovementRate * 67.0;
    }
  }

  /** The decayed time-trial target: the predicted trial time scaled by the decay factor. */
  function TtTarget(pr5k: string, waveNum: int, ttDist: real, improvementRate: real,
                    pow: (real, real) -> real): (t: Option<real>)
    ensures t.None? <==> ParseMinSec(pr5k).None?
  {
    var baseline := PredictDistanceTime(pr5k, FiveKMiles, ttDist, RiegelExponent, pow);
    if baseline.Some? then Some(baseline.value * DecayFactor(improvementRate, waveNum)) else None
  }

  /**
    `compute_tt_target_range`: predict the time-trial time from the 5K PR, shrink it by
    the decay factor, and print the target widened by the buffer either way.
   */
  function ComputeTtTargetRange(pr5k: string, waveNum: int, ttDist: real, improvementRate: real,
                                bufferPct: real, pow: (real, real) -> real): (r: (string, string))
    ensures r == ("Invalid PR", "Invalid PR") <==> ParseMinSec(pr5k).None?
  {
    match TtTarget(pr5k, waveNum, ttDist, improvementRate, pow)
    case None => ("Invalid PR", "Invalid PR")
    case Some(target) =>
      var low := target * (1.0 - bufferPct);
      FormatPaceHasColon(low);
      (FormatPace(low), FormatPace(target * (1.0 + bufferPct)))
  }
  /** With a non-negative PR and a non-negative power, the decayed target is non-negative. */
  lemma TtTargetNonNegative(pr5k: string, waveNum: int, ttDist: real, improvementRate: real,
                            pow: (real, real) -> real)
    requires ParseMinSec(pr5k).Some?
    requires Minutes(ParseMinSec(pr5k).value) >= 0.0
    requires Power(pow, Ratio(ttDist, FiveKMiles), RiegelExponent) >= 0.0
    ensures TtTarget(pr5k, waveNum, ttDist, improvementRate, pow).value >= 0.0
  {
    var baseline := PredictDistanceTime(pr5k, FiveKMiles, ttDist, RiegelExponent, pow).value;
    PredictionNonNegative(pr5k, FiveKMiles, ttDist, RiegelExponent, pow);
    MulNonNegative(baseline, DecayFactor(improvementRate, waveNum));
  }

  /** A non-negative time and a non-negative power give a non-negative prediction. */
  lemma PredictionNonNegative(timeText: string, d1: real, d2: real, exponent: real,
                              pow: (real, real) -> real)
    requires ParseMinSec(timeText).Some? && d1 != 0.0
    requires Minutes(ParseMinSec(timeText).value) >= 0.0
    requires Power(pow, Ratio(d2, d1), exponent) >= 0.0
    ensures PredictDistanceTime(timeText, d1, d2, exponent, pow).value >= 0.0
  {
    MulNonNegative(Minutes(ParseMinSec(timeText).value), Power(pow, Ratio(d2, d1), exponent));
  }

  /** The band printed is the target shrunk and widened by the buffer, each printed by `format_pace`. */
  lemma TargetRangeOfTarget(pr5k: string, waveNum: int, ttDist: real, improvementRate: real,
                            bufferPct: real, pow: (real, real) -> real)
    requires ParseMinSec(pr5k).Some?
    ensures var target := TtTarget(pr5k, waveNum, ttDist, improvementRate, pow).value;
            ComputeTtTargetRange(pr5k, waveNum, ttDist, improvementRate, bufferPct, pow) ==
              (FormatPace(target * (1.0 - bufferPct)), FormatPace(target * (1.0 + bufferPct)))
  {
  }

  /**
    Widening a non-negative target by a non-negative buffer brackets it: low <= target <= high,
    and so in the whole seconds `format_pace` shows (see `ShownSecondsOfPace`) too.
   */
  lemma BufferBand(target: real, bufferPct: real)
    requires target >= 0.0 && bufferPct >= 0.0
    ensures var low, high := target * (1.0 - bufferPct), target * (1.0 + bufferPct);
            && low <= target <= high
            && RoundHalfEven(60.0 * low) <= RoundHalfEven(60.0 * target) <= RoundHalfEven(60.0 * high)
  {
    var low, high := target * (1.0 - bufferPct), target * (1.0 + bufferPct);
    MulNonNegative(target, bufferPct);
    RoundHalfEvenMonotone(60.0 * low, 60.0 * target);
    RoundHalfEvenMonotone(60.0 * target, 60.0 * high);
  }

  // ---------- Pace zones ----------

  /**
    One zone's text: `LOW–HIGH min/mile (zoneLabel)`. The text before the first en dash
    is the low bound as `format_pace` prints it, which reads back as that pace in whole seconds.
    When the label has no en dash, the text splits at en dashes into exactly the printed low
    bound and the printed high bound followed by the unit and the label.
   */
  function PaceRange(low: real, high: real, zoneLabel: string): (r: string)
    ensures Split(r, '\U{2013}')[0] == FormatPace(low)
    ensures ShownSeconds(Split(r, '\U{2013}')[0]) == Some(RoundHalfEven(60.0 * low))
    ensures '\U{2013}' !in zoneLabel ==>
      Split(r, '\U{2013}') == [FormatPace(low), FormatPace(high) + " min/mile (" + zoneLabel + ")"]
  {
    var rest := FormatPace(high) + " min/mile (" + zoneLabel + ")";
    LeadingPace(low, rest);
    PaceHasNoEnDash(high);
    ZoneTail(FormatPace(high), zoneLabel);
    FormatPace(low) + ['\U{2013}'] + rest
  }

  /**
    A printed pace followed by an en dash is the first en-dash piece, and reads back in whole
    seconds; when the rest has no en dash, the rest is the only other piece.
   */
  lemma LeadingPace(low: real, rest: string)
    ensures Split(FormatPace(low) + ['\U{2013}'] + rest, '\U{2013}')[0] == FormatPace(low)
    ensures ShownSeconds(FormatPace(low)) == Some(RoundHalfEven(60.0 * low))
    ensures '\U{2013}' !in rest ==>
      Split(FormatPace(low) + ['\U{2013}'] + rest, '\U{2013}') == [FormatPace(low), rest]
  {
    PaceHasNoEnDash(low);
    SplitFirst(FormatPace(low), '\U{2013}', rest);
    if '\U{2013}' !in rest {
      SplitTwo(FormatPace(low), '\U{2013}', rest);
    }
    ShownSecondsOfPace(low);
  }

  /** A text without an en dash, the unit and a label without an en dash hold no en dash. */
  lemma ZoneTail(a: string, zoneLabel: string)
    requires '\U{2013}' !in a
    ensures '\U{2013}' !in zoneLabel ==> '\U{2013}' !in a + " min/mile (" + zoneLabel + ")"
  {
    if '\U{2013}' !in zoneLabel {
      var unit := " min/mile (";
      assert '\U{2013}' !in unit;
      NotInConcat('\U{2013}', a, unit);
      NotInConcat('\U{2013}', a + unit, zoneLabel);
      NotInConcat('\U{2013}', a + unit + zoneLabel, ")");
    }
  }

  /** A printed pace holds no en dash. */
  lemma PaceHasNoEnDash(x: real)
    ensures '\U{2013}' !in FormatPace(x)
  {
    FormatPaceChars(x);
    forall k | 0 <= k < |FormatPace(x)| ensures FormatPace(x)[k] != '\U{2013}' { }
  }

  /**
    A session's pace annotation: a zone of paces, which prints as `PaceRange` does, or a
    fixed text such as `All-out`.
   */
  datatype PaceNote = Zone(low: real, high: real, zoneLabel: string) | Note(text: string)

  /**
    The `context_pace` string a pace annotation prints as: a zone shows its low bound
    first, readable back in whole seconds; a fixed text prints as itself.
   */
  function Render(p: PaceNote): (r: string)
    ensures p.Zone? ==> ShownSeconds(Split(r, '\U{2013}')[0]) == Some(RoundHalfEven(60.0 * p.low))
    ensures p.Zone? && '\U{2013}' !in p.zoneLabel ==>
      Split(r, '\U{2013}') == [FormatPace(p.low), FormatPace(p.high) + " min/mile (" + p.zoneLabel + ")"]
    ensures p.Note? ==> r == p.text
  {
    if p.Zone? then PaceRange(p.low, p.high, p.zoneLabel) else p.text
  }

  /** `rpe_to_pace_map`: the interval, tempo and long-run pace ranges around a 5K pace. */
  function RpeToPaceMap(basePace: real): (zones: map<string, PaceNote>)
    ensures zones.Keys == {"interval", "tempo", "long"}
  {
    map[
      "interval" := Zone(basePace - 0.3, basePace - 0.15, "Intervals @ RPE 9"),
      "tempo" := Zone(basePace + 0.25, basePace + 0.5, "Tempo @ RPE 7"),
      "long" := Zone(basePace + 0.75, basePace + 1.25, "Long @ RPE 4")
    ]
  }

  /**
    The six bounds of the zones, in the whole seconds `format_pace` shows for them (see
    `ShownSecondsOfPace`), never decrease from the fast end of the interval zone to the
    slow end of the long-run zone.
   */
  lemma PaceZonesOrdered(basePace: real)
    ensures var z := RpeToPaceMap(basePace);
            && RoundHalfEven(60.0 * z["interval"].low) <= RoundHalfEven(60.0 * z["interval"].high)
            && RoundHalfEven(60.0 * z["interval"].high) <= RoundHalfEven(60.0 * z["tempo"].low)
            && RoundHalfEven(60.0 * z["tempo"].low) <= RoundHalfEven(60.0 * z["tempo"].high)
            && RoundHalfEven(60.0 * z["tempo"].high) <= RoundHalfEven(60.0 * z["long"].low)
            && RoundHalfEven(60.0 * z["long"].low) <= RoundHalfEven(60.0 * z["long"].high)
  {
    RoundHalfEvenMonotone(60.0 * (basePace - 0.3), 60.0 * (basePace - 0.15));
    RoundHalfEvenMonotone(60.0 * (basePace - 0.15), 60.0 * (basePace + 0.25));
    RoundHalfEvenMonotone(60.0 * (basePace + 0.25), 60.0 * (basePace + 0.5));
    RoundHalfEvenMonotone(60.0 * (basePace + 0.5), 60.0 * (basePace + 0.75));
    RoundHalfEvenMonotone(60.0 * (basePace + 0.75), 60.0 * (basePace + 1.25));
  }
}
