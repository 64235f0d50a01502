/** The workout session and its completion history: the state held by
    `WorkoutProvider` (the current workout, the set of exercise ids marked
    done, and the log of completed workouts) and the actions that change it.
    The persisted copy of the log (one storage slot) is a field; whether a
    storage read or write succeeds is a parameter of the action. */
module WorkoutContext {
  import opened Wrappers
  import opened Workouts

  /** One entry of the completion log. */
  datatype CompletedWorkout = CompletedWorkout(
    workoutId: string,
    workoutName: string,
    completedAt: string,
    exerciseCount: nat,
    nftMinted: bool,
    nftMintAddress: Option<string>)

  // ---------------------------------------------------------------------------
  // isWorkoutComplete

  /** `exercises.every((ex) => done.has(ex.id))`. */
  function EveryExerciseDone(exercises: seq<Exercise>, done: set<string>): (r: bool)
    ensures r <==> forall i :: 0 <= i < |exercises| ==> exercises[i].id in done
  {
    if |exercises| == 0 then true
    else exercises[0].id in done && EveryExerciseDone(exercises[1..], done)
  }

  /** The derived `isWorkoutComplete` value for a given session state: some
      workout is selected, it has an exercise, and each of its exercise ids
      is done. */
  predicate SessionComplete(current: Option<Workout>, done: set<string>)
    ensures SessionComplete(current, done) <==>
              current.Some? && |current.value.exercises| > 0
              && forall i :: 0 <= i < |current.value.exercises| ==> current.value.exercises[i].id in done
  {
    current.Some? && |current.value.exercises| > 0
    && EveryExerciseDone(current.value.exercises, done)
  }

  /** A session is complete exactly when there is a current workout, it has at
      least one exercise, and every one of its exercise ids is marked done. */
  lemma SessionCompleteIff(current: Option<Workout>, done: set<string>)
    ensures SessionComplete(current, done) <==>
              current.Some? && |current.value.exercises| > 0
              && forall e :: e in current.value.exercises ==> e.id in done
  {
    if current.Some? && |current.value.exercises| > 0 {
      var exs := current.value.exercises;
      if forall e :: e in exs ==> e.id in done {
        assert forall i :: 0 <= i < |exs| ==> exs[i].id in done by {
          forall i | 0 <= i < |exs| ensures exs[i].id in done {
            assert exs[i] in exs;
          }
        }
      }
    }
  }

  /** Ids in the done set that are not exercise ids of the current workout
      have no effect on completeness. */
  lemma SessionCompleteIgnoresOtherIds(w: Workout, done: set<string>, extra: set<string>)
    requires forall e :: e in w.exercises ==> e.id !in extra
    ensures SessionComplete(Some(w), done + extra) == SessionComplete(Some(w), done)
  {
    var exs := w.exercises;
    if EveryExerciseDone(exs, done + extra) {
      forall i | 0 <= i < |exs| ensures exs[i].id in done {
        assert exs[i] in exs;
      }
    }
  }

  // ---------------------------------------------------------------------------
  // toggleExercise

  /** Copy the set, then delete `id` if present or add it otherwise. */
  function Toggle(s: set<string>, id: string): (r: set<string>)
    ensures id in r <==> id !in s
    ensures forall x :: x != id ==> (x in r <==> x in s)
  {
    if id in s then s - {id} else s + {id}
  }

  /** Toggling the same id twice restores the original set. */
  lemma ToggleTwice(s: set<string>, id: string)
    ensures Toggle(Toggle(s, id), id) == s
  {
    if id in s {
      assert Toggle(s, id) == s - {id};
      assert (s - {id}) + {id} == s;
    } else {
      assert Toggle(s, id) == s + {id};
      assert (s + {id}) - {id} == s;
    }
  }

  /** The effect of a sequence of toggles, applied first to last. */
  function ToggleAll(s: set<string>, ids: seq<string>): set<string>
    decreases |ids|
  {
    if |ids| == 0 then s else ToggleAll(Toggle(s, ids[0]), ids[1..])
  }

  /** How many times `x` occurs in `ids`. */
  function Occurrences(ids: seq<string>, x: string): nat
  {
    if |ids| == 0 then 0 else (if ids[0] == x then 1 else 0) + Occurrences(ids[1..], x)
  }

  /** After any sequence of toggles, an id is in the set exactly when it was in
      the set before and was toggled an even number of times, or was not in it
      and was toggled an odd number of times. No id outside the current
      workout is filtered out: the source does not check membership. */
  lemma {:induction false} ToggleAllParity(s: set<string>, ids: seq<string>, x: string)
    ensures x in ToggleAll(s, ids) <==> ((x in s) != (Occurrences(ids, x) % 2 == 1))
    decreases |ids|
  {
    if |ids| > 0 {
      ToggleAllParity(Toggle(s, ids[0]), ids[1..], x);
    }
  }

  // ---------------------------------------------------------------------------
  // markNftMinted

  /** The record rewrite applied by `markNftMinted` to each log entry. */
  function MarkRecord(w: CompletedWorkout, workoutId: string, mintAddress: string): (r: CompletedWorkout)
    ensures r.workoutId == w.workoutId && r.workoutName == w.workoutName
    ensures r.completedAt == w.completedAt && r.exerciseCount == w.exerciseCount
    ensures w.workoutId == workoutId ==> r.nftMinted
    ensures w.workoutId == workoutId && !w.nftMinted ==> r.nftMintAddress == Some(mintAddress)
    ensures w.workoutId != workoutId || w.nftMinted ==> r == w
  {
    if w.workoutId == workoutId && !w.nftMinted
    then w.(nftMinted := true, nftMintAddress := Some(mintAddress))
    else w
  }

  /** `completedWorkouts.map(...)`: every unminted record of the given workout
      id is marked minted with the given address; every other record is kept. */
  function MarkMinted(ws: seq<CompletedWorkout>, workoutId: string, mintAddress: string)
    : (r: seq<CompletedWorkout>)
    ensures |r| == |ws|
    ensures forall i :: 0 <= i < |ws| && ws[i].workoutId == workoutId && !ws[i].nftMinted ==>
              r[i] == ws[i].(nftMinted := true, nftMintAddress := Some(mintAddress))
    ensures forall i :: 0 <= i < |ws| && (ws[i].workoutId != workoutId || ws[i].nftMinted) ==>
              r[i] == ws[i]
  {
    seq(|ws|, i requires 0 <= i < |ws| => MarkRecord(ws[i], workoutId, mintAddress))
  }

  /** A second identical call changes nothing. */
  lemma MarkMintedIdempotent(ws: seq<CompletedWorkout>, workoutId: string, mintAddress: string)
    ensures MarkMinted(MarkMinted(ws, workoutId, mintAddress), workoutId, mintAddress)
            == MarkMinted(ws, workoutId, mintAddress)
  {
    var once := MarkMinted(ws, workoutId, mintAddress);
    var twice := MarkMinted(once, workoutId, mintAddress);
    forall i | 0 <= i < |ws| ensures twice[i] == once[i] {
      assert once[i].workoutId == workoutId ==> once[i].nftMinted;
    }
  }

  /** Afterwards no record of that workout id is left unminted. */
  lemma MarkMintedLeavesNoneUnminted(ws: seq<CompletedWorkout>, workoutId: string, mintAddress: string)
    ensures forall w :: w in MarkMinted(ws, workoutId, mintAddress) && w.workoutId == workoutId ==>
              w.nftMinted
  {
    var r := MarkMinted(ws, workoutId, mintAddress);
    forall w | w in r && w.workoutId == workoutId ensures w.nftMinted {
      var i :| 0 <= i < |r| && r[i] == w;
    }
  }

  /** `w2` is `w1`, or `w1` unminted and `w2` the same completion marked
      minted: the completion data never changes, and a minted record never
      changes again. */
  ghost predicate SameCompletion(w1: CompletedWorkout, w2: CompletedWorkout)
  {
    w2 == w1 || (!w1.nftMinted && w2.nftMinted && w2 == w1.(nftMinted := true, nftMintAddress := w2.nftMintAddress))
  }

  /** `after` keeps every record of `before` in place, up to the one allowed
      field update, and may add records at the end. */
  ghost predicate LogExtends(before: seq<CompletedWorkout>, after: seq<CompletedWorkout>)
  {
    |before| <= |after| && forall i :: 0 <= i < |before| ==> SameCompletion(before[i], after[i])
  }

  /** Marking keeps the log's shape: same length, same completions, minted
      records untouched. */
  lemma MarkMintedExtends(ws: seq<CompletedWorkout>, workoutId: string, mintAddress: string)
    ensures LogExtends(ws, MarkMinted(ws, workoutId, mintAddress))
    ensures |MarkMinted(ws, workoutId, mintAddress)| == |ws|
  {
  }

  /** Marking distributes over a log split in two, so a record appended later
      is handled exactly as if it were marked on its own. */
  lemma MarkMintedAppend(a: seq<CompletedWorkout>, b: seq<CompletedWorkout>, workoutId: string, mintAddress: string)
    ensures MarkMinted(a + b, workoutId, mintAddress)
            == MarkMinted(a, workoutId, mintAddress) + MarkMinted(b, workoutId, mintAddress)
  {
    var l := MarkMinted(a + b, workoutId, mintAddress);
    var r := MarkMinted(a, workoutId, mintAddress) + MarkMinted(b, workoutId, mintAddress);
    forall i | 0 <= i < |l| ensures l[i] == r[i] {
      if i < |a| {
        assert (a + b)[i] == a[i];
      } else {
        assert (a + b)[i] == b[i - |a|];
      }
    }
  }

  /** Two unminted completions of the same workout are BOTH marked by one
      call: the source rewrites every matching record, not only the first. */
  lemma MarkMintedMarksEveryMatch(w1: CompletedWorkout, w2: CompletedWorkout, mintAddress: string)
    requires w1.workoutId == w2.workoutId && !w1.nftMinted && !w2.nftMinted
    ensures MarkMinted([w1, w2], w1.workoutId, mintAddress)[0].nftMinted
    ensures MarkMinted([w1, w2], w1.workoutId, mintAddress)[1].nftMinted
    ensures MarkMinted([w1, w2], w1.workoutId, mintAddress)[1].nftMintAddress == Some(mintAddress)
  {
  }

  // ---------------------------------------------------------------------------
  // completeWorkout

  /** The record `completeWorkout` creates for workout `w` at time `completedAt`. */
  function NewRecord(w: Workout, completedAt: string): (r: CompletedWorkout)
    ensures r.workoutId == w.id && r.workoutName == w.name && r.completedAt == completedAt
    ensures r.exerciseCount == |w.exercises| && !r.nftMinted && r.nftMintAddress.None?
  {
    CompletedWorkout(w.id, w.name, completedAt, |w.exercises|, false, None)
  }

  /** The state of `WorkoutProvider`. */
  class WorkoutProvider {
    var currentWorkout: Option<Workout>
    var completedExercises: set<string>
    var completedWorkouts: seq<CompletedWorkout>
    /** The persisted storage slot: `None` while the key has never been written. */
    var storage: Option<seq<CompletedWorkout>>

    /** A fresh provider over the given storage slot; history starts empty
        until it is loaded. */
    constructor (stored: Option<seq<CompletedWorkout>>)
      ensures currentWorkout == None && completedExercises == {}
      ensures completedWorkouts == [] && storage == stored
    {
      currentWorkout := None;
      completedExercises := {};
      completedWorkouts := [];
      storage := stored;
    }

    /** `isWorkoutComplete`. */
    predicate IsWorkoutComplete()
      reads this
      ensures IsWorkoutComplete() <==>
                currentWorkout.Some? && |currentWorkout.value.exercises| > 0
                && forall i :: 0 <= i < |currentWorkout.value.exercises| ==>
                     currentWorkout.value.exercises[i].id in completedExercises
    {
      SessionComplete(currentWorkout, completedExercises)
    }

    /** `startWorkout`: a new current workout with nothing done, whatever the
        prior state; history and storage untouched. */
    method StartWorkout(workout: Workout)
      modifies this
      ensures currentWorkout == Some(workout) && completedExercises == {}
      ensures completedWorkouts == old(completedWorkouts) && storage == old(storage)
      ensures !IsWorkoutComplete()
    {
      currentWorkout := Some(workout);
      completedExercises := {};
      if |workout.exercises| > 0 {
        assert workout.exercises[0].id !in completedExercises;
      }
    }

    /** `toggleExercise`: flips membership of exactly `exerciseId`; the id is
        not checked against the current workout. */
    method ToggleExercise(exerciseId: string)
      modifies this
      ensures exerciseId in completedExercises <==> exerciseId !in old(completedExercises)
      ensures forall x :: x != exerciseId ==> (x in completedExercises <==> x in old(completedExercises))
      ensures currentWorkout == old(currentWorkout) && completedWorkouts == old(completedWorkouts)
      ensures storage == old(storage)
    {
      var next := completedExercises;
      if exerciseId in next {
        next := next - {exerciseId};
      } else {
        next := next + {exerciseId};
      }
      completedExercises := next;
    }

    /** `completeWorkout`: when the session is complete, appends a new record
        and writes the whole log to storage; a failed write is swallowed and
        the record is returned all the same. Otherwise returns `None` and
        changes nothing. The session itself is left as it is. */
    method CompleteWorkout(completedAt: string, writeSucceeds: bool) returns (r: Option<CompletedWorkout>)
      modifies this
      ensures currentWorkout == old(currentWorkout) && completedExercises == old(completedExercises)
      ensures !old(IsWorkoutComplete()) ==>
                r == None && completedWorkouts == old(completedWorkouts) && storage == old(storage)
      ensures old(IsWorkoutComplete()) ==>
                && r == Some(NewRecord(old(currentWorkout).value, completedAt))
                && completedWorkouts == old(completedWorkouts) + [r.value]
                && storage == (if writeSucceeds then Some(completedWorkouts) else old(storage))
      ensures LogExtends(old(completedWorkouts), completedWorkouts)
    {
      if currentWorkout.None? || !IsWorkoutComplete() {
        return None;
      }
      var completed := NewRecord(currentWorkout.value, completedAt);
      var updatedWorkouts := completedWorkouts + [completed];
      completedWorkouts := updatedWorkouts;
      if writeSucceeds {
        storage := Some(updatedWorkouts);
      }
      r := Some(completed);
    }

    /** `resetWorkout`: back to no current workout with nothing done; history
        and storage untouched. */
    method ResetWorkout()
      modifies this
      ensures currentWorkout == None && completedExercises == {}
      ensures completedWorkouts == old(completedWorkouts) && storage == old(storage)
      ensures !IsWorkoutComplete()
    {
      currentWorkout := None;
      completedExercises := {};
    }

    /** `loadCompletedWorkouts`: replaces the in-memory log with the stored
        one when the slot holds a log and it reads back; a missing slot or a
        failed read or parse leaves the log as it was. */
    method LoadCompletedWorkouts(readSucceeds: bool)
      modifies this
      ensures completedWorkouts ==
                (if readSucceeds && storage.Some? then storage.value else old(completedWorkouts))
      ensures currentWorkout == old(currentWorkout) && completedExercises == old(completedExercises)
      ensures storage == old(storage)
    {
      if readSucceeds && storage.Some? {
        completedWorkouts := storage.value;
      }
    }

    /** `markNftMinted`: every unminted record of `workoutId` becomes minted
        with `mintAddress`, the log keeps its length and all other records,
        then the log is written to storage (a failed write is swallowed). */
    method MarkNftMinted(workoutId: string, mintAddress: string, writeSucceeds: bool)
      modifies this
      ensures completedWorkouts == MarkMinted(old(completedWorkouts), workoutId, mintAddress)
      ensures storage == (if writeSucceeds then Some(completedWorkouts) else old(storage))
      ensures currentWorkout == old(currentWorkout) && completedExercises == old(completedExercises)
      ensures LogExtends(old(completedWorkouts), completedWorkouts)
    {
      var updatedWorkouts := MarkMinted(completedWorkouts, workoutId, mintAddress);
      MarkMintedExtends(completedWorkouts, workoutId, mintAddress);
      completedWorkouts := updatedWorkouts;
      if writeSucceeds {
        storage := Some(updatedWorkouts);
      }
    }
  }

  /** The "wod-004" walk-through on the completion predicate: five of its
      six exercise ids done is not complete; all six is. */
  lemma Wod004Completion()
    ensures |Catalog[3].exercises| == 6
    ensures !SessionComplete(Some(Catalog[3]), {"ex-004-1", "ex-004-2", "ex-004-3", "ex-004-4", "ex-004-5"})
    ensures SessionComplete(Some(Catalog[3]), {"ex-004-1", "ex-004-2", "ex-004-3", "ex-004-4", "ex-004-5", "ex-004-6"})
  {
    var exs := Catalog[3].exercises;
    assert exs[5].id == "ex-004-6";
  }
}
