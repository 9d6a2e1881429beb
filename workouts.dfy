/**
  The fixed workout library and the three-session week built from it. Each session is
  a record carrying the pace range of its workout type, taken from the pace zones of the
  runner's 5K base pace.
 */
module Workouts {
  import opened Text
  import opened Pace

  /** The runner fields the engine reads: the goal race (as typed) and the 5K base pace. */
  datatype Profile = Profile(goalDistance: string, base5kPace: real)

  /** One scheduled session of a week. */
  datatype Session = Session(day: string, workout: string, duration: int, rpe: int,
                             contextPace: PaceNote, description: string)

  /** A library entry: a workout's name, nominal minutes, RPE and structure. */
  datatype Workout = Workout(name: string, duration: int, rpe: int, structure: string)

  /** `workout_library`. */
  const WorkoutLibrary: map<string, Workout> := map[
    "interval" := Workout("Norwegian 4x4", 40, 9, "4 min hard, 2 min rest x 4"),
    "tempo" := Workout("Tempo Run", 40, 7, "20 min warm up, 20 min tempo, 5 min cool down"),
    "long" := Workout("Long Run", 75, 4, "Easy pace, conversational")
  ]

  /** The order in which a week visits the library. */
  const WeekKeys: seq<string> := ["interval", "tempo", "long"]

  /** `f"Day {i}"`. */
  function DayLabel(i: nat): string {
    "Day " + NatToString(i)
  }

  /** The three day labels read `Day 1`, `Day 2`, `Day 3`. */
  lemma DayLabels()
    ensures DayLabel(1) == "Day 1" && DayLabel(2) == "Day 2" && DayLabel(3) == "Day 3"
  {
    assert NatToString(1) == "1" && NatToString(2) == "2" && NatToString(3) == "3";
  }

  /** The session a week schedules on day `dayNum` for library entry `key`. */
  function LibrarySession(key: string, dayNum: nat, zones: map<string, PaceNote>): Session
    requires key in WorkoutLibrary && key in zones
  {
    var w := WorkoutLibrary[key];
    Session(DayLabel(dayNum), w.name, w.duration, w.rpe, zones[key], w.structure)
  }

  /**
    The three sessions of a week over pace zones `zones`: one library session per key, on
    days 1 to 3, each session's pace annotation being its workout type's zone.
   */
  function WeekOf(zones: map<string, PaceNote>): (w: seq<Session>)
    requires WorkoutLibrary.Keys <= zones.Keys
    ensures |w| == 3
    ensures w[0].contextPace == zones["interval"]
    ensures w[1].contextPace == zones["tempo"]
    ensures w[2].contextPace == zones["long"]
  {
    [LibrarySession(WeekKeys[0], 1, zones), LibrarySession(WeekKeys[1], 2, zones),
     LibrarySession(WeekKeys[2], 3, zones)]
  }

  /** The week `generate_week` returns for a runner with 5K pace `basePace`. */
  function WeekSessions(basePace: real): seq<Session> {
    WeekOf(RpeToPaceMap(basePace))
  }

  /**
    Every week is the same fixed layout, whatever the zones: the Norwegian 4x4 (40 min,
    RPE 9) on day 1, the tempo run (40 min, RPE 7) on day 2 and the long run (75 min,
    RPE 4) on day 3.
   */
  lemma WeekLayout(zones: map<string, PaceNote>)
    requires WorkoutLibrary.Keys <= zones.Keys
    ensures var w := WeekOf(zones);
            && |w| == 3
            && w[0].day == "Day 1" && w[1].day == "Day 2" && w[2].day == "Day 3"
            && w[0].workout == "Norwegian 4x4" && w[0].duration == 40 && w[0].rpe == 9
            && w[1].workout == "Tempo Run" && w[1].duration == 40 && w[1].rpe == 7
            && w[2].workout == "Long Run" && w[2].duration == 75 && w[2].rpe == 4
            && w[0].description == "4 min hard, 2 min rest x 4"
            && w[1].description == "20 min warm up, 20 min tempo, 5 min cool down"
            && w[2].description == "Easy pace, conversational"
  {
    DayLabels();
  }

  /**
    `generate_week`: take the pace zones of the runner's 5K pace and append one session
    per library key, in order. The week number does not influence the result.
   */
  method GenerateWeek(profile: Profile, weekNum: int) returns (weekPlan: seq<Session>)
    ensures weekPlan == WeekSessions(profile.base5kPace)
  {
    var zones := RpeToPaceMap(profile.base5kPace);
    weekPlan := ScheduleWeek(zones);
  }

  /** The loop of `generate_week` over the zones it computed. */
  method ScheduleWeek(zones: map<string, PaceNote>) returns (weekPlan: seq<Session>)
    requires WorkoutLibrary.Keys <= zones.Keys
    ensures weekPlan == WeekOf(zones)
  {
    weekPlan := [];
    for i := 0 to 3
      invariant |weekPlan| == i
      invariant forall k :: 0 <= k < i ==> weekPlan[k] == LibrarySession(WeekKeys[k], k + 1, zones)
    {
      var key := WeekKeys[i];
      var w := WorkoutLibrary[key];
      weekPlan := weekPlan + [Session(DayLabel(i + 1), w.name, w.duration, w.rpe, zones[key], w.structure)];
    }
  }
}
