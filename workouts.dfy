/** The workout catalog: a constant list of workouts, the "workout of the day"
    chosen by day-of-year modulo the catalog size, and lookup by id. */
module Workouts {
  import opened Wrappers

  datatype Exercise = Exercise(id: string, name: string, reps: string, notes: Option<string>)

  datatype Difficulty = Beginner | Intermediate | Advanced {
    /** The string literal the source uses for each difficulty. */
    function Name(): string {
      match this
      case Beginner => "beginner"
      case Intermediate => "intermediate"
      case Advanced => "advanced"
    }
  }

  datatype Workout = Workout(
    id: string,
    name: string,
    description: string,
    difficulty: Difficulty,
    estimatedMinutes: nat,
    exercises: seq<Exercise>,
    tags: seq<string>)

  function Ex(id: string, name: string, reps: string): Exercise {
    Exercise(id, name, reps, None)
  }

  function ExNote(id: string, name: string, reps: string, notes: string): Exercise {
    Exercise(id, name, reps, Some(notes))
  }

  /** The `workouts` catalog constant. */
  const Catalog: seq<Workout> := [
    Workout("wod-001", "THE GRIND",
      "A classic functional circuit to build mental toughness and full-body endurance.",
      Intermediate, 25,
      [ Ex("ex-001-1", "Burpees", "15"),
        Ex("ex-001-2", "Air Squats", "20"),
        Ex("ex-001-3", "Push-ups", "15"),
        Ex("ex-001-4", "Lunges", "20 (10 each leg)"),
        Ex("ex-001-5", "Mountain Climbers", "30"),
        Ex("ex-001-6", "Plank Hold", "60 sec") ],
      ["full-body", "no-equipment", "endurance"]),
    Workout("wod-002", "IRON WILL",
      "Push your limits with this high-intensity upper body destroyer.",
      Advanced, 30,
      [ Ex("ex-002-1", "Diamond Push-ups", "12"),
        Ex("ex-002-2", "Pike Push-ups", "10"),
        Ex("ex-002-3", "Wide Push-ups", "15"),
        ExNote("ex-002-4", "Tricep Dips", "15", "Use chair or bench"),
        Ex("ex-002-5", "Plank to Push-up", "10"),
        Ex("ex-002-6", "Superman Hold", "45 sec"),
        Ex("ex-002-7", "Arm Circles", "30 sec each direction") ],
      ["upper-body", "push", "strength"]),
    Workout("wod-003", "SIGMA LEGS",
      "Forge unbreakable legs with this brutal lower body session.",
      Intermediate, 20,
      [ Ex("ex-003-1", "Jump Squats", "15"),
        Ex("ex-003-2", "Bulgarian Split Squats", "12 each leg"),
        Ex("ex-003-3", "Glute Bridges", "20"),
        Ex("ex-003-4", "Calf Raises", "25"),
        Ex("ex-003-5", "Wall Sit", "45 sec"),
        ExNote("ex-003-6", "Box Jumps", "10", "Use stairs or sturdy surface") ],
      ["lower-body", "legs", "explosive"]),
    Workout("wod-004", "CORE DOMINANCE",
      "Sculpt an iron core with this abs-focused gauntlet.",
      Beginner, 15,
      [ Ex("ex-004-1", "Crunches", "20"),
        Ex("ex-004-2", "Leg Raises", "15"),
        Ex("ex-004-3", "Russian Twists", "20 (10 each side)"),
        Ex("ex-004-4", "Bicycle Crunches", "20"),
        Ex("ex-004-5", "Dead Bug", "10 each side"),
        Ex("ex-004-6", "Plank Hold", "45 sec") ],
      ["core", "abs", "no-equipment"]),
    Workout("wod-005", "APEX PREDATOR",
      "The ultimate full-body AMRAP. Complete as many rounds as possible in 20 minutes.",
      Advanced, 20,
      [ Ex("ex-005-1", "Burpees", "10"),
        ExNote("ex-005-2", "Pistol Squats", "5 each leg", "Use wall for balance if needed"),
        ExNote("ex-005-3", "Handstand Push-ups", "5", "Pike push-ups as alternative"),
        Ex("ex-005-4", "Tuck Jumps", "10"),
        Ex("ex-005-5", "V-ups", "15") ],
      ["full-body", "amrap", "advanced", "functional"])
  ]

  /** Ids in the list are pairwise distinct. */
  ghost predicate DistinctWorkoutIds(ws: seq<Workout>) {
    forall i, j :: 0 <= i < j < |ws| ==> ws[i].id != ws[j].id
  }

  ghost predicate DistinctExerciseIds(w: Workout) {
    forall i, j :: 0 <= i < j < |w.exercises| ==> w.exercises[i].id != w.exercises[j].id
  }

  /** The workout at index `k` has at least one exercise, with distinct ids. */
  lemma CatalogEntryWellFormed(k: nat)
    requires k < |Catalog|
    ensures |Catalog[k].exercises| > 0 && DistinctExerciseIds(Catalog[k])
  {
    if k == 0 {
      assert DistinctExerciseIds(Catalog[0]);
    } else if k == 1 {
      assert DistinctExerciseIds(Catalog[1]);
    } else if k == 2 {
      assert DistinctExerciseIds(Catalog[2]);
    } else if k == 3 {
      assert DistinctExerciseIds(Catalog[3]);
    } else {
      assert DistinctExerciseIds(Catalog[4]);
    }
  }

  /** The data invariants the catalog satisfies: five workouts, distinct
      workout ids, and in each workout at least one exercise and distinct
      exercise ids. */
  lemma CatalogWellFormed()
    ensures |Catalog| == 5
    ensures DistinctWorkoutIds(Catalog)
    ensures forall w :: w in Catalog ==> |w.exercises| > 0 && DistinctExerciseIds(w)
  {
    forall w | w in Catalog ensures |w.exercises| > 0 && DistinctExerciseIds(w) {
      var k :| 0 <= k < |Catalog| && Catalog[k] == w;
      CatalogEntryWellFormed(k);
    }
  }

  /** `getTodaysWorkout`, with the day of the year (a whole number of days
      since the last day of the previous year) given as a parameter. */
  function TodaysWorkout(dayOfYear: nat): (w: Workout)
    ensures w in Catalog
    ensures dayOfYear < |Catalog| ==> w == Catalog[dayOfYear]
  {
    Catalog[dayOfYear % |Catalog|]
  }

  /** The selection cycles with the catalog's length: days five apart get
      the same workout. */
  lemma TodaysWorkoutPeriodic(dayOfYear: nat)
    ensures TodaysWorkout(dayOfYear + 5) == TodaysWorkout(dayOfYear)
    ensures TodaysWorkout(dayOfYear + |Catalog|) == TodaysWorkout(dayOfYear)
  {
    CatalogWellFormed();
    assert (dayOfYear + 5) % 5 == dayOfYear % 5;
  }

  /** `Array.prototype.find` by id: the first workout in `ws` whose id equals
      `id`, or `None` when there is none. */
  function FindById(ws: seq<Workout>, id: string): (r: Option<Workout>)
    ensures r.None? <==> forall w :: w in ws ==> w.id != id
    ensures r.Some? ==> exists i :: 0 <= i < |ws| && ws[i] == r.value && r.value.id == id
                          && forall j :: 0 <= j < i ==> ws[j].id != id
  {
    if |ws| == 0 then None
    else if ws[0].id == id then Some(ws[0])
    else
      var r := FindById(ws[1..], id);
      assert r.Some? ==> exists i :: 1 <= i < |ws| && ws[i] == r.value && r.value.id == id
                           && forall j :: 0 <= j < i ==> ws[j].id != id by {
        if r.Some? {
          var i :| 0 <= i < |ws[1..]| && ws[1..][i] == r.value && r.value.id == id
                   && forall j :: 0 <= j < i ==> ws[1..][j].id != id;
          assert ws[i + 1] == r.value;
          assert forall j :: 0 <= j < i + 1 ==> ws[j].id != id by {
            forall j | 0 <= j < i + 1 ensures ws[j].id != id {
              if j > 0 { assert ws[j] == ws[1..][j - 1]; }
            }
          }
        }
      }
      assert r.None? ==> forall w :: w in ws ==> w.id != id by {
        if r.None? {
          forall w | w in ws ensures w.id != id {
            if w != ws[0] { assert w in ws[1..]; }
          }
        }
      }
      r
  }

  /** `getWorkoutById`. */
  function WorkoutById(id: string): (r: Option<Workout>)
    ensures r.None? <==> forall w :: w in Catalog ==> w.id != id
    ensures r.Some? ==> r.value in Catalog && r.value.id == id
  {
    FindById(Catalog, id)
  }

  /** In a list with distinct ids, looking a member up by its own id returns
      that member. */
  lemma FindByIdOfMember(ws: seq<Workout>, w: Workout)
    requires DistinctWorkoutIds(ws) && w in ws
    ensures FindById(ws, w.id) == Some(w)
  {
    var r := FindById(ws, w.id);
    var k :| 0 <= k < |ws| && ws[k] == w;
    var i :| 0 <= i < |ws| && ws[i] == r.value && r.value.id == w.id
             && forall j :: 0 <= j < i ==> ws[j].id != w.id;
    if i < k {
      assert ws[i].id != ws[k].id;
    }
  }

  /** Looking a catalog workout up by its own id returns that workout, because
      catalog ids are distinct. */
  lemma WorkoutByIdOfCatalogMember(w: Workout)
    requires w in Catalog
    ensures WorkoutById(w.id) == Some(w)
  {
    CatalogWellFormed();
    FindByIdOfMember(Catalog, w);
  }

  /** Every workout of the day can be found again by its id. */
  lemma TodaysWorkoutFoundById(dayOfYear: nat)
    ensures WorkoutById(TodaysWorkout(dayOfYear).id) == Some(TodaysWorkout(dayOfYear))
  {
    WorkoutByIdOfCatalogMember(TodaysWorkout(dayOfYear));
  }
}
