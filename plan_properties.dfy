/**
  What a generated plan looks like: its week numbers and length, where the deload,
  taper and race weeks fall, how volume is handed from wave to wave, and how the
  deload weeks line up with the listed time-trial dates.
 */
module PlanProperties {
  import opened Wrappers
  import opened Text
  import opened Rounding
  import opened Workouts
  import opened PlanBuilder

  // ---------- The chained waves ----------

  /** Week `4 * j + k` of the chained waves is the week at offset `k` of the wave with index `j`. */
  lemma WaveIndex(j: nat, k: int)
    requires 0 <= k < 4
    ensures (4 * j + k) / 4 == j && (4 * j + k) % 4 == k
  {
  }

  /** `n` waves are `4 * n` weeks numbered from 1. */
  lemma {:induction false} WavesNumbers(profile: Profile, baseMinutes: real, n: nat)
    ensures |Waves(profile, baseMinutes, n)| == 4 * n
    ensures forall i :: 0 <= i < 4 * n ==> Waves(profile, baseMinutes, n)[i].weekNum == i + 1
  {
    if n > 0 {
      var prev := Waves(profile, baseMinutes, n - 1);
      var wave := Wave(profile, 4 * (n - 1) + 1, BaseAt(baseMinutes, n - 1));
      WavesNumbers(profile, baseMinutes, n - 1);
      var all := Waves(profile, baseMinutes, n);
      assert all == prev + wave;
      forall i | 4 * (n - 1) <= i < 4 * n ensures all[i].weekNum == i + 1 {
        assert all[i] == wave[i - 4 * (n - 1)];
      }
    }
  }

  /** In `n` waves every fourth week, and only those, is a deload week. */
  lemma {:induction false} WavesLabels(profile: Profile, baseMinutes: real, n: nat)
    ensures |Waves(profile, baseMinutes, n)| == 4 * n
    ensures forall i :: 0 <= i < 4 * n ==>
      Waves(profile, baseMinutes, n)[i].weekLabel == (if i % 4 == 3 then Some("Deload Week") else None)
  {
    if n > 0 {
      var prev := Waves(profile, baseMinutes, n - 1);
      var wave := Wave(profile, 4 * (n - 1) + 1, BaseAt(baseMinutes, n - 1));
      WavesLabels(profile, baseMinutes, n - 1);
      var all := Waves(profile, baseMinutes, n);
      assert all == prev + wave;
      forall i | 4 * (n - 1) <= i < 4 * n
        ensures all[i].weekLabel == (if i % 4 == 3 then Some("Deload Week") else None)
      {
        var k := i - 4 * (n - 1);
        WaveIndex(n - 1, k);
        assert all[i] == wave[k];
      }
    }
  }

  /**
    Week `i` of the chained waves has the minutes of offset `i % 4` in wave `i / 4`,
    whose base is `BaseAt(baseMinutes, i / 4)`: the first wave starts from the given
    base and each later one from the third-week minutes of the wave before.
   */
  lemma {:induction false} WavesMinutes(profile: Profile, baseMinutes: real, n: nat)
    ensures |Waves(profile, baseMinutes, n)| == 4 * n
    ensures forall i :: 0 <= i < 4 * n ==>
      Waves(profile, baseMinutes, n)[i].minutes == WeekMinutes(BaseAt(baseMinutes, i / 4), i % 4)
  {
    if n > 0 {
      var prev := Waves(profile, baseMinutes, n - 1);
      var base := BaseAt(baseMinutes, n - 1);
      var wave := Wave(profile, 4 * (n - 1) + 1, base);
      WavesMinutes(profile, baseMinutes, n - 1);
      var all := Waves(profile, baseMinutes, n);
      assert all == prev + wave;
      forall i | 0 <= i < 4 * n
        ensures all[i].minutes == WeekMinutes(BaseAt(baseMinutes, i / 4), i % 4)
      {
        if i >= 4 * (n - 1) {
          var k := i - 4 * (n - 1);
          WaveIndex(n - 1, k);
          assert all[i] == wave[k];
        }
      }
    }
  }

  /**
    Week `i` of the chained waves holds the generated week, except that a deload week
    has the goal's time trial in place of its first session.
   */
  lemma {:induction false} WavesSessions(profile: Profile, baseMinutes: real, n: nat)
    ensures |Waves(profile, baseMinutes, n)| == 4 * n
    ensures forall i :: 0 <= i < 4 * n ==>
      Waves(profile, baseMinutes, n)[i].sessions ==
        if i % 4 == 3 then WeekSessions(profile.base5kPace)[0 := TtSession(profile.goalDistance)]
        else WeekSessions(profile.base5kPace)
  {
    if n > 0 {
      var prev := Waves(profile, baseMinutes, n - 1);
      var wave := Wave(profile, 4 * (n - 1) + 1, BaseAt(baseMinutes, n - 1));
      WavesSessions(profile, baseMinutes, n - 1);
      var all := Waves(profile, baseMinutes, n);
      assert all == prev + wave;
      forall i | 0 <= i < 4 * n
        ensures all[i].sessions ==
          if i % 4 == 3 then WeekSessions(profile.base5kPace)[0 := TtSession(profile.goalDistance)]
          else WeekSessions(profile.base5kPace)
      {
        if i >= 4 * (n - 1) {
          var k := i - 4 * (n - 1);
          WaveIndex(n - 1, k);
          assert all[i] == wave[k];
        }
      }
    }
  }

  // ---------- Peak volume ----------

  /** The peak is at least every base handed on so far, and is one of them. */
  lemma {:induction false} PeakIsLargestBase(baseMinutes: real, n: nat)
    ensures forall j :: 0 <= j <= n ==> BaseAt(baseMinutes, j) <= Peak(baseMinutes, n)
    ensures exists j :: 0 <= j <= n && Peak(baseMinutes, n) == BaseAt(baseMinutes, j)
  {
    if n == 0 {
      assert Peak(baseMinutes, 0) == BaseAt(baseMinutes, 0);
    } else {
      PeakIsLargestBase(baseMinutes, n - 1);
      var j0 :| 0 <= j0 <= n - 1 && Peak(baseMinutes, n - 1) == BaseAt(baseMinutes, j0);
      if Peak(baseMinutes, n) == BaseAt(baseMinutes, n) {
      } else {
        assert Peak(baseMinutes, n) == BaseAt(baseMinutes, j0);
      }
    }
  }

  /** From a base of at least 0.3125 minutes, rounding cannot undo an 8%-a-week climb: each wave hands on at least its own base. */
  lemma HandOnGrows(base: real)
    requires base >= 0.3125
    ensures BaseAt(base, 0) <= WeekMinutes(base, 2)
  {
    assert VolumeFactor(2) == 1.16;
    assert base * 1.16 - 0.05 >= base;
  }

  /** With such a base the bases never shrink, so the peak is simply the last base handed on. */
  lemma {:induction false} PeakIsLastBase(baseMinutes: real, n: nat)
    requires baseMinutes >= 0.3125
    ensures BaseAt(baseMinutes, n) >= baseMinutes
    ensures Peak(baseMinutes, n) == BaseAt(baseMinutes, n)
  {
    if n > 0 {
      PeakIsLastBase(baseMinutes, n - 1);
      var prev := BaseAt(baseMinutes, n - 1);
      HandOnGrows(prev);
      assert BaseAt(prev, 0) == prev;
      assert BaseAt(baseMinutes, n) == WeekMinutes(prev, 2);
    }
  }

  // ---------- The whole plan ----------

  /**
    A plan holds `4 * WaveCount + 2` weeks numbered 1, 2, ... in order. That is at least
    the number of whole weeks to the race and may be up to three more.
   */
  lemma PlanWeekNumbers(profile: Profile, startDay: int, raceDay: int, baseMinutes: real)
    requires TotalWeeks(startDay, raceDay) > 0
    ensures var plan := Plan(profile, startDay, raceDay, baseMinutes).value;
            var totalWeeks := TotalWeeks(startDay, raceDay);
            && |plan| == 4 * WaveCount(totalWeeks) + 2
            && totalWeeks <= |plan| <= totalWeeks + 3
            && forall i :: 0 <= i < |plan| ==> plan[i].weekNum == i + 1
  {
    var n := WaveCount(TotalWeeks(startDay, raceDay));
    WavesNumbers(profile, baseMinutes, n);
    var plan := Plan(profile, startDay, raceDay, baseMinutes).value;
    forall i | 0 <= i < |plan| ensures plan[i].weekNum == i + 1 {
      if i < 4 * n {
        assert plan[i] == Waves(profile, baseMinutes, n)[i];
      }
    }
  }

  /** Eight weeks to the race give a ten-week plan: two waves, then taper in week 9 and race in week 10. */
  lemma EightWeeksGiveTenWeekPlan(profile: Profile, startDay: int, baseMinutes: real)
    ensures var plan := Plan(profile, startDay, startDay + 56, baseMinutes);
            && plan.Some? && |plan.value| == 10
            && plan.value[8].weekLabel == Some("Taper Week")
            && plan.value[9].weekLabel == Some("Race Week")
  {
    assert TotalWeeks(startDay, startDay + 56) == 8;
    assert WaveCount(8) == 2;
    WavesNumbers(profile, baseMinutes, 2);
  }

  /**
    Labels: the next-to-last week is the taper week, the last the race week, and of the
    weeks before them exactly those with `i % 4 == 3` are deload weeks; the rest carry none.
   */
  lemma PlanLabels(profile: Profile, startDay: int, raceDay: int, baseMinutes: real)
    requires TotalWeeks(startDay, raceDay) > 0
    ensures var plan := Plan(profile, startDay, raceDay, baseMinutes).value;
            && |plan| >= 2
            && plan[|plan| - 2].weekLabel == Some("Taper Week")
            && plan[|plan| - 1].weekLabel == Some("Race Week")
            && forall i :: 0 <= i < |plan| - 2 ==>
                 plan[i].weekLabel == (if i % 4 == 3 then Some("Deload Week") else None)
  {
    var n := WaveCount(TotalWeeks(startDay, raceDay));
    WavesLabels(profile, baseMinutes, n);
    var plan := Plan(profile, startDay, raceDay, baseMinutes).value;
    assert forall i :: 0 <= i < 4 * n ==> plan[i] == Waves(profile, baseMinutes, n)[i];
  }

  /**
    The taper week repeats the generated week at `round(peak * 0.7, 1)` minutes; the race
    week runs `round(peak * 0.5, 1)` minutes with two sessions: 20 minutes of strides at
    RPE 7 on day 1 and the race at RPE 9 on day 3, 25 minutes for a 5K and 60 otherwise.
   */
  lemma PlanEnds(profile: Profile, startDay: int, raceDay: int, baseMinutes: real)
    requires TotalWeeks(startDay, raceDay) > 0
    ensures var plan := Plan(profile, startDay, raceDay, baseMinutes).value;
            var peak := Peak(baseMinutes, WaveCount(TotalWeeks(startDay, raceDay)));
            var taper, race := plan[|plan| - 2], plan[|plan| - 1];
            && |plan| >= 2
            && taper.minutes == Round1(peak * 0.7)
            && taper.sessions == WeekSessions(profile.base5kPace)
            && race.minutes == Round1(peak * 0.5)
            && |race.sessions| == 2
            && race.sessions[0].day == "Day 1" && race.sessions[0].workout == "6x400m Strides"
            && race.sessions[0].duration == 20 && race.sessions[0].rpe == 7
            && race.sessions[1].day == "Day 3"
            && race.sessions[1].workout == Upper(profile.goalDistance) + " Race"
            && race.sessions[1].duration == (if IsFiveK(profile.goalDistance) then 25 else 60)
            && race.sessions[1].rpe == 9
            && race.sessions == RaceSessions(profile.goalDistance)
  {
    var n := WaveCount(TotalWeeks(startDay, raceDay));
    WavesNumbers(profile, baseMinutes, n);
  }

  /**
    Every deload week of a plan, and only those, replaces the first generated session by
    the time trial; sessions 2 and 3 stay as generated.
   */
  lemma PlanDeloadSessions(profile: Profile, startDay: int, raceDay: int, baseMinutes: real)
    requires TotalWeeks(startDay, raceDay) > 0
    ensures var plan := Plan(profile, startDay, raceDay, baseMinutes).value;
            var week := WeekSessions(profile.base5kPace);
            forall i :: 0 <= i < |plan| - 2 ==>
              if i % 4 == 3 then
                |plan[i].sessions| == 3 && plan[i].sessions[0] == TtSession(profile.goalDistance) &&
                plan[i].sessions[1..] == week[1..]
              else plan[i].sessions == week
  {
    var n := WaveCount(TotalWeeks(startDay, raceDay));
    WavesSessions(profile, baseMinutes, n);
    var plan := Plan(profile, startDay, raceDay, baseMinutes).value;
    assert forall i :: 0 <= i < 4 * n ==> plan[i] == Waves(profile, baseMinutes, n)[i];
  }

  /**
    Every session of a plan is one of the generated week's sessions, the goal's time
    trial, or one of the two race-week sessions.
   */
  lemma PlanSessionsFromPool(profile: Profile, startDay: int, raceDay: int, baseMinutes: real)
    requires TotalWeeks(startDay, raceDay) > 0
    ensures var plan := Plan(profile, startDay, raceDay, baseMinutes).value;
            var pool := WeekSessions(profile.base5kPace) + [TtSession(profile.goalDistance)] +
                        RaceSessions(profile.goalDistance);
            forall i, k :: 0 <= i < |plan| && 0 <= k < |plan[i].sessions| ==> plan[i].sessions[k] in pool
  {
    var plan := Plan(profile, startDay, raceDay, baseMinutes).value;
    var week := WeekSessions(profile.base5kPace);
    var race := RaceSessions(profile.goalDistance);
    var pool := week + [TtSession(profile.goalDistance)] + race;
    PlanDeloadSessions(profile, startDay, raceDay, baseMinutes);
    PlanEnds(profile, startDay, raceDay, baseMinutes);
    assert plan[|plan| - 1].sessions == race;
    forall i, k | 0 <= i < |plan| && 0 <= k < |plan[i].sessions|
      ensures plan[i].sessions[k] in pool
    {
      if i == |plan| - 1 {
        assert plan[i].sessions[k] == pool[4 + k];
      } else if i == |plan| - 2 || i % 4 != 3 {
        assert plan[i].sessions[k] == pool[k];
      } else if k == 0 {
        assert plan[i].sessions[k] == pool[3];
      } else {
        assert plan[i].sessions[k] == week[k] == pool[k];
      }
    }
  }

  // ---------- Time trials ----------

  /** The number of weeks labelled as deload weeks. */
  function DeloadCount(weeks: seq<Week>): nat {
    if |weeks| == 0 then 0
    else DeloadCount(weeks[..|weeks| - 1]) + (if weeks[|weeks| - 1].weekLabel == Some("Deload Week") then 1 else 0)
  }

  lemma {:induction false} DeloadCountAppend(a: seq<Week>, b: seq<Week>)
    ensures DeloadCount(a + b) == DeloadCount(a) + DeloadCount(b)
  {
    if |b| > 0 {
      assert (a + b)[..|a + b| - 1] == a + b[..|b| - 1];
      DeloadCountAppend(a, b[..|b| - 1]);
    } else {
      assert a + b == a;
    }
  }

  /** Four weeks of which only the last is a deload week count one. */
  lemma CountOfFour(w: seq<Week>)
    requires |w| == 4 && w[3].weekLabel == Some("Deload Week")
    requires w[0].weekLabel.None? && w[1].weekLabel.None? && w[2].weekLabel.None?
    ensures DeloadCount(w) == 1
  {
    assert w[..3][..2] == w[..2] && w[..2][..1] == w[..1] && w[..1][..0] == [];
    assert DeloadCount(w[..1]) == 0;
    assert DeloadCount(w[..2]) == 0;
    assert DeloadCount(w[..3]) == 0;
  }

  /** Each wave holds exactly one deload week. */
  lemma {:induction false} WavesDeloadCount(profile: Profile, baseMinutes: real, n: nat)
    ensures DeloadCount(Waves(profile, baseMinutes, n)) == n
  {
    if n > 0 {
      var wave := Wave(profile, 4 * (n - 1) + 1, BaseAt(baseMinutes, n - 1));
      WavesDeloadCount(profile, baseMinutes, n - 1);
      DeloadCountAppend(Waves(profile, baseMinutes, n - 1), wave);
      CountOfFour(wave);
    }
  }

  /** A plan has one deload week per wave. */
  lemma PlanDeloadCount(profile: Profile, startDay: int, raceDay: int, baseMinutes: real)
    requires TotalWeeks(startDay, raceDay) > 0
    ensures DeloadCount(Plan(profile, startDay, raceDay, baseMinutes).value) ==
            WaveCount(TotalWeeks(startDay, raceDay))
  {
    var n := WaveCount(TotalWeeks(startDay, raceDay));
    var plan := Plan(profile, startDay, raceDay, baseMinutes).value;
    var waves := Waves(profile, baseMinutes, n);
    var peak := Peak(baseMinutes, n);
    var ends := [TaperWeek(profile, 4 * n + 1, peak), RaceWeek(profile, 4 * n + 2, peak)];
    WavesDeloadCount(profile, baseMinutes, n);
    DeloadCountAppend(waves, ends);
    NoDeloadWeeks(ends);
  }

  lemma {:induction false} NoDeloadWeeks(weeks: seq<Week>)
    requires forall i :: 0 <= i < |weeks| ==> weeks[i].weekLabel != Some("Deload Week")
    ensures DeloadCount(weeks) == 0
  {
    if |weeks| > 0 {
      NoDeloadWeeks(weeks[..|weeks| - 1]);
    }
  }

  /**
    A plan has as many deload weeks as the app lists time-trial dates (`TimeTrialDates`
    yields `WaveCount` of them), and the date with index `j`, `4 * j + 3` weeks after the
    start, is the first day of the `j`-th deload week.
   */
  lemma DeloadWeeksMatchTimeTrials(profile: Profile, startDay: int, raceDay: int, baseMinutes: real)
    requires TotalWeeks(startDay, raceDay) > 0
    ensures var plan := Plan(profile, startDay, raceDay, baseMinutes).value;
            var n := WaveCount(TotalWeeks(startDay, raceDay));
            && DeloadCount(plan) == n
            && |plan| == 4 * n + 2
            && forall j :: 0 <= j < n ==>
                 plan[4 * j + 3].weekLabel == Some("Deload Week") &&
                 startDay + 7 * (4 * j + 3) == startDay + 7 * (plan[4 * j + 3].weekNum - 1)
  {
    PlanDeloadCount(profile, startDay, raceDay, baseMinutes);
    PlanWeekNumbers(profile, startDay, raceDay, baseMinutes);
    PlanLabels(profile, startDay, raceDay, baseMinutes);
    var n := WaveCount(TotalWeeks(startDay, raceDay));
    forall j | 0 <= j < n ensures (4 * j + 3) % 4 == 3 {
    }
  }
}
