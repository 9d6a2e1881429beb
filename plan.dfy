/**
  The plan builder: four-week waves of progressive volume closed by a deload week with
  a time trial, chained from week 1 while at least two weeks remain, then a taper week
  and a race week. Dates are whole day numbers.
 */
module PlanBuilder {
  import opened Wrappers
  import opened Text
  import opened Rounding
  import opened Pace
  import opened Workouts

  /** One week of the plan; `weekLabel` is absent on ordinary wave weeks. */
  datatype Week = Week(weekNum: int, minutes: real, sessions: seq<Session>, weekLabel: Option<string>)

  /** The offset, within a wave, of its deload week. */
  const DeloadOffset: int := 3

  /** `goal.lower() == "5k"`. */
  predicate IsFiveK(goal: string) {
    Lower(goal) == "5k"
  }

  /** `f"{tt_dist} mile TT"`: a 2-mile trial for a 5K goal, 3.1 miles otherwise. */
  function TtName(goal: string): (name: string)
    ensures name == "2 mile TT" <==> IsFiveK(goal)
    ensures name == "3.1 mile TT" <==> !IsFiveK(goal)
  {
    if IsFiveK(goal) then "2 mile TT" else "3.1 mile TT"
  }

  /**
    The time-trial session that replaces the first session of a deload week: it keeps
    that session's day, and is the 2-mile trial exactly for a 5K goal.
   */
  function TtSession(goal: string): (s: Session)
    ensures s.day == DayLabel(1)
    ensures s.workout == "2 mile TT" <==> IsFiveK(goal)
    ensures s.workout == "3.1 mile TT" <==> !IsFiveK(goal)
    ensures s.duration == 20 && s.rpe == 9 && s.contextPace == Note("All-out")
    ensures s.description == "Time trial \U{2013} log result"
  {
    DayLabels();
    Session("Day 1", TtName(goal), 20, 9, Note("All-out"), "Time trial \U{2013} log result")
  }

  /**
    The goal test of the race name agrees with the 5K test: `goal.upper()` is `5K` exactly
    when `goal.lower()` is `5k`, so the race session of a 5K goal is the `5K Race`.
   */
  lemma FiveKRaceName(goal: string)
    ensures IsFiveK(goal) <==> Upper(goal) == "5K"
  {
    if IsFiveK(goal) {
      assert Lower(goal)[0] == '5' && Lower(goal)[1] == 'k';
      assert Upper(goal) == [UpperChar(goal[0]), UpperChar(goal[1])];
    }
    if Upper(goal) == "5K" {
      assert Upper(goal)[0] == '5' && Upper(goal)[1] == 'K';
      assert Lower(goal) == [LowerChar(goal[0]), LowerChar(goal[1])];
    }
  }

  /**
    The volume multiplier of the week at `offset` in a wave: `1 + 0.08 * offset` while
    progressing, `0.7` in the deload week (the default `progression_rate` and
    `deload_factor`).
   */
  function VolumeFactor(offset: int): real {
    if offset == DeloadOffset then 0.7 else 1.0 + 0.08 * offset as real
  }

  /** The minutes of the week at `offset` in a wave over `baseMinutes`, to one decimal. */
  function WeekMinutes(baseMinutes: real, offset: int): real {
    Round1(baseMinutes * VolumeFactor(offset))
  }

  /** The week at `offset` of the wave starting at week `startWeek`. */
  function WaveWeek(profile: Profile, startWeek: int, baseMinutes: real, offset: int): Week {
    var minutes := WeekMinutes(baseMinutes, offset);
    var sessions := WeekSessions(profile.base5kPace);
    if offset == DeloadOffset then
      Week(startWeek + offset, minutes, sessions[0 := TtSession(profile.goalDistance)], Some("Deload Week"))
    else
      Week(startWeek + offset, minutes, sessions, None)
  }

  /** The four weeks `generate_wave` returns, numbered on from `startWeek`. */
  function Wave(profile: Profile, startWeek: int, baseMinutes: real): (wave: seq<Week>)
    ensures |wave| == 4
    ensures forall k :: 0 <= k < 4 ==> wave[k].weekNum == startWeek + k
  {
    seq(4, k => WaveWeek(profile, startWeek, baseMinutes, k))
  }

  /**
    `generate_wave`: build each week's three sessions and, in the deload week, overwrite
    the first one with the time trial.
   */
  method GenerateWave(profile: Profile, startWeek: int, baseMinutes: real) returns (wave: seq<Week>)
    ensures wave == Wave(profile, startWeek, baseMinutes)
  {
    wave := [];
    for offset := 0 to 4
      invariant |wave| == offset
      invariant forall k :: 0 <= k < offset ==> wave[k] == WaveWeek(profile, startWeek, baseMinutes, k)
    {
      var wk := startWeek + offset;
      var isDeload := offset == DeloadOffset;
      var minutes := Round1(baseMinutes * VolumeFactor(offset));
      var sessions := GenerateWeek(profile, wk);
      var entry;
      if isDeload {
        sessions := sessions[0 := TtSession(profile.goalDistance)];
        entry := Week(wk, minutes, sessions, Some("Deload Week"));
      } else {
        entry := Week(wk, minutes, sessions, None);
      }
      assert entry == WaveWeek(profile, startWeek, baseMinutes, offset);
      wave := wave + [entry];
    }
  }

  /**
    A wave is four weeks numbered from its start week; only the last is a deload week,
    its first session is the goal's time trial, and every other session is the
    generated week's.
   */
  lemma WaveShape(profile: Profile, startWeek: int, baseMinutes: real)
    ensures var wave := Wave(profile, startWeek, baseMinutes);
            var week := WeekSessions(profile.base5kPace);
            && |wave| == 4
            && (forall k :: 0 <= k < 4 ==> wave[k].weekNum == startWeek + k)
            && (forall k :: 0 <= k < 3 ==> wave[k].weekLabel.None? && wave[k].sessions == week)
            && wave[3].weekLabel == Some("Deload Week")
            && |wave[3].sessions| == 3
            && wave[3].sessions[0] == TtSession(profile.goalDistance)
            && wave[3].sessions[1..] == week[1..]
  {
  }

  /** The wave's minutes: the base grown by 8% a week for three weeks, then 70% of it. */
  lemma WaveMinutes(profile: Profile, startWeek: int, baseMinutes: real)
    ensures var wave := Wave(profile, startWeek, baseMinutes);
            && wave[0].minutes == Round1(baseMinutes)
            && wave[1].minutes == Round1(baseMinutes * 1.08)
            && wave[2].minutes == Round1(baseMinutes * 1.16)
            && wave[3].minutes == Round1(baseMinutes * 0.7)
  {
    assert VolumeFactor(0) == 1.0 && VolumeFactor(1) == 1.08;
    assert VolumeFactor(2) == 1.16 && VolumeFactor(3) == 0.7;
  }

  /** With a non-negative base, the deload week is the lightest and volume grows over the first three weeks. */
  lemma WaveVolumes(baseMinutes: real)
    requires baseMinutes >= 0.0
    ensures Round1(baseMinutes * 0.7) <= Round1(baseMinutes)
    ensures Round1(baseMinutes) <= Round1(baseMinutes * 1.08) <= Round1(baseMinutes * 1.16)
  {
    Round1Monotone(baseMinutes * 0.7, baseMinutes);
    Round1Monotone(baseMinutes, baseMinutes * 1.08);
    Round1Monotone(baseMinutes * 1.08, baseMinutes * 1.16);
  }

  // ---------- The whole plan ----------

  /** `(race - start).days // 7`: whole weeks from the start day to the race day. */
  function TotalWeeks(startDay: int, raceDay: int): (weeks: int)
    ensures 7 * weeks <= raceDay - startDay < 7 * weeks + 7
  {
    (raceDay - startDay) / 7
  }

  /** How many times the loop `while total_weeks - wk_cursor >= 2` runs, the cursor starting at 1 and moving by 4. */
  function WaveCount(totalWeeks: int): (n: nat)
    ensures n == 0 <==> totalWeeks < 3
    ensures 0 < n ==> totalWeeks - (4 * (n - 1) + 1) >= 2
    ensures totalWeeks - (4 * n + 1) < 2
  {
    if totalWeeks < 3 then 0 else (totalWeeks - 3) / 4 + 1
  }

  /** The loop stops after exactly `WaveCount` rounds. */
  lemma WaveCountExact(totalWeeks: int, j: nat)
    requires j == 0 || totalWeeks - (4 * (j - 1) + 1) >= 2
    requires totalWeeks - (4 * j + 1) < 2
    ensures j == WaveCount(totalWeeks)
  {
  }

  /** The base minutes the wave with index `j` (from 0) starts from: the third-week minutes of the wave before. */
  function BaseAt(baseMinutes: real, j: nat): real {
    if j == 0 then baseMinutes
    else WeekMinutes(BaseAt(baseMinutes, j - 1), 2)
  }

  /** The running `peak` after `j` waves: the largest of the initial base and the bases the waves handed on. */
  function Peak(baseMinutes: real, j: nat): (peak: real)
    ensures peak >= baseMinutes
  {
    if j == 0 then baseMinutes else Max(Peak(baseMinutes, j - 1), BaseAt(baseMinutes, j))
  }

  /** The first `n` waves of a plan, the wave with index `j` starting at week `4 * j + 1`. */
  function Waves(profile: Profile, baseMinutes: real, n: nat): (waves: seq<Week>)
    ensures |waves| == 4 * n
  {
    if n == 0 then []
    else
      Waves(profile, baseMinutes, n - 1) +
      Wave(profile, 4 * (n - 1) + 1, BaseAt(baseMinutes, n - 1))
  }

  /**
    The taper week: the generated week at seven tenths of the peak volume, so never
    heavier than the peak (rounded alike) when the peak is not negative.
   */
  function TaperWeek(profile: Profile, weekNum: int, peak: real): (w: Week)
    ensures peak >= 0.0 ==> w.minutes <= Round1(peak)
  {
    var w := Week(weekNum, Round1(peak * 0.7), WeekSessions(profile.base5kPace), Some("Taper Week"));
    assert peak >= 0.0 ==> w.minutes <= Round1(peak) by {
      if peak >= 0.0 { Round1Monotone(peak * 0.7, peak); }
    }
    w
  }

  /**
    The two race-week sessions: strides on day 1 and the race itself on day 3, 25 minutes
    for a 5K goal and 60 otherwise.
   */
  function RaceSessions(goal: string): (r: seq<Session>)
    ensures |r| == 2
    ensures r[1].duration == 25 <==> IsFiveK(goal)
    ensures r[1].duration == 60 <==> !IsFiveK(goal)
    ensures r[0].day == "Day 1" && r[0].workout == "6x400m Strides" && r[0].duration == 20 && r[0].rpe == 7
    ensures r[0].contextPace == Note("10K pace") && r[0].description == "Sharpen up"
    ensures r[1].day == "Day 3" && r[1].workout == Upper(goal) + " Race" && r[1].rpe == 9
    ensures r[1].contextPace == Note("All-out") && r[1].description == "Race day!"
  {
    [Session("Day 1", "6x400m Strides", 20, 7, Note("10K pace"), "Sharpen up"),
     Session("Day 3", Upper(goal) + " Race", if IsFiveK(goal) then 25 else 60, 9, Note("All-out"), "Race day!")]
  }

  /**
    The race week: half the peak volume and the two race sessions, so never heavier than
    the taper week when the peak is not negative.
   */
  function RaceWeek(profile: Profile, weekNum: int, peak: real): (w: Week)
    ensures peak >= 0.0 ==> w.minutes <= TaperWeek(profile, weekNum, peak).minutes
  {
    var w := Week(weekNum, Round1(peak * 0.5), RaceSessions(profile.goalDistance), Some("Race Week"));
    assert peak >= 0.0 ==> w.minutes <= Round1(peak * 0.7) by {
      if peak >= 0.0 { Round1Monotone(peak * 0.5, peak * 0.7); }
    }
    w
  }

  /**
    The plan `generate_plan` returns: `None` exactly when the race is less than a week
    away, and otherwise four weeks per wave plus the taper and race weeks.
   */
  function Plan(profile: Profile, startDay: int, raceDay: int, baseMinutes: real): (r: Option<seq<Week>>)
    ensures r.None? <==> TotalWeeks(startDay, raceDay) <= 0
    ensures r.Some? ==> |r.value| == 4 * WaveCount(TotalWeeks(startDay, raceDay)) + 2
  {
    var totalWeeks := TotalWeeks(startDay, raceDay);
    if totalWeeks <= 0 then None
    else
      var n := WaveCount(totalWeeks);
      var peak := Peak(baseMinutes, n);
      Some(Waves(profile, baseMinutes, n) + [TaperWeek(profile, 4 * n + 1, peak), RaceWeek(profile, 4 * n + 2, peak)])
  }

  /**
    `generate_plan`: chain waves from week 1 while at least two weeks remain after the
    cursor, each starting from the previous wave's third-week minutes and raising the
    running peak, then append the taper week and the race week.
   */
  method GeneratePlan(profile: Profile, startDay: int, raceDay: int, baseMinutes: real)
    returns (result: Option<seq<Week>>)
    ensures result == Plan(profile, startDay, raceDay, baseMinutes)
  {
    var totalWeeks := (raceDay - startDay) / 7;
    if totalWeeks <= 0 {
      return None;
    }
    var plan: seq<Week> := [];
    var wkCursor := 1;
    var base := baseMinutes;
    var peak := base;
    ghost var j: nat := 0;
    while totalWeeks - wkCursor >= 2
      invariant wkCursor == 4 * j + 1
      invariant j == 0 || totalWeeks - (4 * (j - 1) + 1) >= 2
      invariant base == BaseAt(baseMinutes, j) && peak == Peak(baseMinutes, j)
      invariant plan == Waves(profile, baseMinutes, j)
      decreases totalWeeks - wkCursor
    {
      var wave := GenerateWave(profile, wkCursor, base);
      plan := plan + wave;
      base := wave[|wave| - 2].minutes;
      peak := Max(peak, base);
      wkCursor := wkCursor + 4;
      j := j + 1;
    }
    WaveCountExact(totalWeeks, j);
    ghost var waves := plan;
    var taper := Round1(peak * 0.7);
    var taperSessions := GenerateWeek(profile, wkCursor);
    var taperWeek := Week(wkCursor, taper, taperSessions, Some("Taper Week"));
    assert taperWeek == TaperWeek(profile, 4 * j + 1, peak);
    plan := plan + [taperWeek];
    wkCursor := wkCursor + 1;
    var raceSessions := RaceSessions(profile.goalDistance);
    var raceWeek := Week(wkCursor, Round1(peak * 0.5), raceSessions, Some("Race Week"));
    assert raceWeek == RaceWeek(profile, 4 * j + 2, peak);
    plan := plan + [raceWeek];
    assert plan == waves + [TaperWeek(profile, 4 * j + 1, peak), RaceWeek(profile, 4 * j + 2, peak)];
    assert totalWeeks == TotalWeeks(startDay, raceDay);
    return Some(plan);
  }

  /**
    The time-trial dates the app lists (the loop that steps a week cursor `w` from 1 by 4
    while `total_weeks - w >= 2`, adding the date `w + 2` weeks after the start): one
    per wave, the wave with index `j` giving `4 * j + 3` weeks after the start.
   */
  method TimeTrialDates(startDay: int, raceDay: int) returns (dates: seq<int>)
    ensures |dates| == WaveCount(TotalWeeks(startDay, raceDay))
    ensures forall j :: 0 <= j < |dates| ==> dates[j] == startDay + 7 * (4 * j + 3)
  {
    var totalWeeks := (raceDay - startDay) / 7;
    dates := [];
    var w := 1;
    while totalWeeks - w >= 2
      invariant w == 4 * |dates| + 1
      invariant |dates| == 0 || totalWeeks - (4 * (|dates| - 1) + 1) >= 2
      invariant forall j :: 0 <= j < |dates| ==> dates[j] == startDay + 7 * (4 * j + 3)
      decreases totalWeeks - w
    {
      dates := dates + [startDay + 7 * (w + 2)];
      w := w + 4;
    }
    WaveCountExact(totalWeeks, |dates|);
  }
}
