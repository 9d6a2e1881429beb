/**
  Recalibration after a time trial: a new 5K PR gives a new base pace and new pace
  zones, and every session of the plan except the time trial gets its pace annotation
  looked up again, by the session's workout name, in those zones.
 */
module Recalibration {
  import opened Text
  import opened TimeText
  import opened Pace
  import opened Workouts
  import opened PlanBuilder
  import opened PlanProperties

  /** `(mins * 60 + secs) / 3.1 / 60`: the per-mile pace, in minutes, of a 5K run in `mins:secs`. */
  function NewBasePace(ms: (int, int)): (pace: real)
    ensures pace * FiveKMiles * 60.0 == (ms.0 * 60 + ms.1) as real
  {
    (ms.0 * 60 + ms.1) as real / 3.1 / 60.0
  }

  /** `zones.get(key, "N/A")`. */
  function ZoneOrNA(zones: map<string, PaceNote>, key: string): PaceNote {
    if key in zones then zones[key] else Note("N/A")
  }

  /**
    One session after the update: the goal's time trial is left alone; any other session
    keeps everything but its pace, which becomes the zone named by its lower-cased
    workout name, or `N/A`.
   */
  function RefreshSession(s: Session, goal: string, zones: map<string, PaceNote>): (r: Session)
    ensures r.day == s.day && r.workout == s.workout && r.duration == s.duration
    ensures r.rpe == s.rpe && r.description == s.description
    ensures s.workout == TtName(goal) ==> r == s
    ensures s.workout != TtName(goal) ==> r.contextPace == ZoneOrNA(zones, Lower(s.workout))
  {
    if s.workout != TtName(goal) then s.(contextPace := ZoneOrNA(zones, Lower(s.workout))) else s
  }

  /** One week after the update: its number, minutes and label kept, each session refreshed. */
  function RefreshWeek(w: Week, goal: string, zones: map<string, PaceNote>): (r: Week)
    ensures r.weekNum == w.weekNum && r.minutes == w.minutes && r.weekLabel == w.weekLabel
    ensures |r.sessions| == |w.sessions|
    ensures forall k :: 0 <= k < |w.sessions| ==> r.sessions[k] == RefreshSession(w.sessions[k], goal, zones)
  {
    w.(sessions := seq(|w.sessions|, k requires 0 <= k < |w.sessions| => RefreshSession(w.sessions[k], goal, zones)))
  }

  /** The whole plan after the update, week by week. */
  function RefreshPlan(weeks: seq<Week>, goal: string, zones: map<string, PaceNote>): (r: seq<Week>)
    ensures |r| == |weeks|
    ensures forall i :: 0 <= i < |weeks| ==> r[i] == RefreshWeek(weeks[i], goal, zones)
  {
    seq(|weeks|, i requires 0 <= i < |weeks| => RefreshWeek(weeks[i], goal, zones))
  }

  /**
    `update_plan_with_new_pr`: parse the new PR as `MM:SS`; if it does not parse, leave
    the plan as it is. Otherwise rewrite, in place, the pace of every session that is not
    the goal's time trial. The plan itself is returned.
   */
  method UpdatePlanWithNewPr(plan: array<Week>, newPr: string, goalDistance: string)
    returns (updated: array<Week>)
    modifies plan
    ensures updated == plan
    ensures ParseMinSec(newPr).None? ==> plan[..] == old(plan[..])
    ensures ParseMinSec(newPr).Some? ==>
      plan[..] == RefreshPlan(old(plan[..]), goalDistance, RpeToPaceMap(NewBasePace(ParseMinSec(newPr).value)))
  {
    var parsed := ParseMinSec(newPr);
    if parsed.None? {
      return plan;
    }
    var newBasePace := NewBasePace(parsed.value);
    var newPaceZones := RpeToPaceMap(newBasePace);
    var ttName := TtName(goalDistance);
    for i := 0 to plan.Length
      invariant forall j :: 0 <= j < i ==> plan[j] == RefreshWeek(old(plan[j]), goalDistance, newPaceZones)
      invariant forall j :: i <= j < plan.Length ==> plan[j] == old(plan[j])
    {
      var week := plan[i];
      var sessions := week.sessions;
      for k := 0 to |sessions|
        invariant |sessions| == |week.sessions|
        invariant forall m :: 0 <= m < k ==> sessions[m] == RefreshSession(week.sessions[m], goalDistance, newPaceZones)
        invariant forall m :: k <= m < |sessions| ==> sessions[m] == week.sessions[m]
      {
        var session := sessions[k];
        if session.workout != ttName {
          sessions := sessions[k := session.(contextPace := ZoneOrNA(newPaceZones, Lower(session.workout)))];
        }
      }
      plan[i] := week.(sessions := sessions);
    }
    return plan;
  }

  /**
    The update depends only on what it never changes, so updating twice is updating
    once with the later zones: the last PR wins.
   */
  lemma LastUpdateWins(weeks: seq<Week>, goal: string, zones1: map<string, PaceNote>,
                       zones2: map<string, PaceNote>)
    ensures RefreshPlan(RefreshPlan(weeks, goal, zones1), goal, zones2) == RefreshPlan(weeks, goal, zones2)
  {
    var once := RefreshPlan(weeks, goal, zones1);
    forall i | 0 <= i < |weeks|
      ensures RefreshWeek(once[i], goal, zones2) == RefreshWeek(weeks[i], goal, zones2)
    {
      var a, b := RefreshWeek(once[i], goal, zones2), RefreshWeek(weeks[i], goal, zones2);
      assert a.sessions == b.sessions by {
        forall k | 0 <= k < |b.sessions| ensures a.sessions[k] == b.sessions[k] {
          assert once[i].sessions[k] == RefreshSession(weeks[i].sessions[k], goal, zones1);
        }
      }
    }
  }

  /**
    No pace-zone key holds a space, so a workout name with a space never finds its zone:
    the lookup falls back to `N/A`.
   */
  lemma NamedWorkoutGetsNA(s: Session, goal: string, basePace: real)
    requires ' ' in s.workout && s.workout != TtName(goal)
    ensures RefreshSession(s, goal, RpeToPaceMap(basePace)).contextPace == Note("N/A")
  {
    var key := Lower(s.workout);
    var i :| 0 <= i < |s.workout| && s.workout[i] == ' ';
    assert key[i] == ' ';
    assert ' ' !in "interval" && ' ' !in "tempo" && ' ' !in "long";
    assert key !in RpeToPaceMap(basePace);
  }

  /** Every workout name in the generated week holds a space. */
  lemma WeekNamesHaveSpaces(zones: map<string, PaceNote>)
    requires WorkoutLibrary.Keys <= zones.Keys
    ensures forall k :: 0 <= k < |WeekOf(zones)| ==> ' ' in WeekOf(zones)[k].workout
  {
    WeekLayout(zones);
    assert "Norwegian 4x4"[9] == ' ' && "Tempo Run"[5] == ' ' && "Long Run"[4] == ' ';
  }

  /** So do the time-trial and race-week workout names. */
  lemma SpecialNamesHaveSpaces(goal: string)
    ensures ' ' in TtSession(goal).workout
    ensures forall k :: 0 <= k < |RaceSessions(goal)| ==> ' ' in RaceSessions(goal)[k].workout
  {
    assert "2 mile TT"[1] == ' ' && "3.1 mile TT"[3] == ' ' && "6x400m Strides"[6] == ' ';
    assert (Upper(goal) + " Race")[|Upper(goal)|] == ' ';
  }

  /** Every workout name in a generated plan holds a space. */
  lemma PlanNamesHaveSpaces(profile: Profile, startDay: int, raceDay: int, baseMinutes: real)
    requires TotalWeeks(startDay, raceDay) > 0
    ensures var plan := Plan(profile, startDay, raceDay, baseMinutes).value;
            forall i, k :: 0 <= i < |plan| && 0 <= k < |plan[i].sessions| ==> ' ' in plan[i].sessions[k].workout
  {
    var week := WeekSessions(profile.base5kPace);
    var race := RaceSessions(profile.goalDistance);
    var pool := week + [TtSession(profile.goalDistance)] + race;
    PlanSessionsFromPool(profile, startDay, raceDay, baseMinutes);
    WeekNamesHaveSpaces(RpeToPaceMap(profile.base5kPace));
    SpecialNamesHaveSpaces(profile.goalDistance);
    forall j | 0 <= j < |pool| ensures ' ' in pool[j].workout {
      if j < 3 {
        assert pool[j] == week[j];
      } else if j > 3 {
        assert pool[j] == race[j - 4];
      }
    }
  }

  /**
    Applied to a generated plan, the update gives every session other than the goal's
    time trial the pace `N/A`, whatever the new PR, and leaves the time trials as they
    were.
   */
  lemma UpdateOfGeneratedPlan(profile: Profile, startDay: int, raceDay: int, baseMinutes: real,
                              goal: string, newBasePace: real)
    requires TotalWeeks(startDay, raceDay) > 0
    ensures var plan := Plan(profile, startDay, raceDay, baseMinutes).value;
            var updated := RefreshPlan(plan, goal, RpeToPaceMap(newBasePace));
            && |updated| == |plan|
            && forall i, k :: 0 <= i < |plan| && 0 <= k < |plan[i].sessions| ==>
                 if plan[i].sessions[k].workout == TtName(goal) then updated[i].sessions[k] == plan[i].sessions[k]
                 else updated[i].sessions[k].contextPace == Note("N/A")
  {
    var plan := Plan(profile, startDay, raceDay, baseMinutes).value;
    PlanNamesHaveSpaces(profile, startDay, raceDay, baseMinutes);
    forall i, k | 0 <= i < |plan| && 0 <= k < |plan[i].sessions| && plan[i].sessions[k].workout != TtName(goal)
      ensures RefreshSession(plan[i].sessions[k], goal, RpeToPaceMap(newBasePace)).contextPace == Note("N/A")
    {
      NamedWorkoutGetsNA(plan[i].sessions[k], goal, newBasePace);
    }
  }
}
