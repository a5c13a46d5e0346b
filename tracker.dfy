/**
 * The application object's record logic: the private `#workouts` array and
 * the operations that change it, namely a create-form submit (`_newWorkout`),
 * the lookup and in-place update of an edit (`_editWorkoutProps`), the
 * restore at start-up (`_getLocalStorage`) and what is saved after each
 * change (`_setLocalStorage`).  The map, the DOM and the storage key itself
 * are collaborators outside the model: a map click is the `at` argument, the
 * clock gives `id` and `date`, and storage is the saved array passed in or
 * handed back.
 */
module Tracker {
  import opened Wrappers
  import opened Numbers
  import opened Workouts
  import opened Forms
  import opened Storage

  /** The position of the first record with this id, as `Array.prototype.find` picks it. */
  function FirstMatch(ws: seq<Workout>, id: string): (r: Option<nat>)
    ensures r.None? <==> forall j :: 0 <= j < |ws| ==> ws[j].id != id
    ensures r.Some? ==> r.value < |ws| && ws[r.value].id == id &&
                        forall j :: 0 <= j < r.value ==> ws[j].id != id
  {
    if ws == [] then None
    else if ws[0].id == id then Some(0)
    else match FirstMatch(ws[1..], id)
      case None => None
      case Some(k) => Some(k + 1)
  }

  /** A property of `updatedParams` as the assignment reads it: absent means undefined. */
  function PropertyValue(p: Option<Value>): (r: Value)
    ensures p.Some? ==> r == p.value
    ensures p.None? ==> r == Undefined
  {
    match p
    case Some(x) => x
    case None => Undefined
  }

  /** What `_editWorkoutProps` makes of the record it edits: distance, duration
      and the variant's own extra overwritten from the patch (an absent property
      overwrites with undefined), the metric recomputed, and the id, date,
      coordinates, clicks, description and variant kept. */
  function Edited(w: Workout, params: Patch): (r: Workout)
    ensures r.id == w.id && r.date == w.date && r.coords == w.coords && r.clicks == w.clicks
    ensures r.description == w.description && r.Variant() == w.Variant()
    ensures r.distance == PropertyValue(params.distance) && r.duration == PropertyValue(params.duration)
    ensures r.Extra() == PropertyValue(if w.Variant() == Running then params.cadence else params.elevationGain)
    ensures r.Consistent()
  {
    var moved := w.(distance := PropertyValue(params.distance), duration := PropertyValue(params.duration));
    match moved.details
    case RunningDetails(_, pace) =>
      moved.(details := RunningDetails(PropertyValue(params.cadence), pace)).CalcPace()
    case CyclingDetails(_, speed) =>
      moved.(details := CyclingDetails(PropertyValue(params.elevationGain), speed)).CalcSpeed()
  }

  /** After an edit with finite numbers the metric is the textbook formula over
      the new values (the edit itself checks nothing, so a zero divisor is
      excluded here, not there). */
  lemma EditedMetric(w: Workout, distance: real, duration: real, extra: Value)
    ensures w.Variant() == Running && distance != 0.0 ==>
      Edited(w, Patch(Some(Finite(distance)), Some(Finite(duration)), Some(extra), None)).Metric()
        == Finite(duration / distance)
    ensures w.Variant() == Cycling && duration != 0.0 ==>
      Edited(w, Patch(Some(Finite(distance)), Some(Finite(duration)), None, Some(extra))).Metric()
        == Finite(distance / (duration / 60.0))
  {
  }

  /** Applying the same patch twice leaves the record as one application
      does, so an edit form whose submit reaches several stacked listeners
      (one is added each time an edit form is opened) edits as if once. */
  lemma EditedIdempotent(w: Workout, params: Patch)
    ensures Edited(Edited(w, params), params) == Edited(w, params)
  {
  }

  /** What a submit did. */
  datatype SubmitOutcome = Committed | Rejected(alert: string)

  /** What start-up found in storage. */
  datatype RestoreOutcome = NothingStored | Restored | UnknownType

  class App {
    /** `#workouts`, in insertion order. */
    var workouts: seq<Workout>

    /** Every record holds a defined metric: true of everything the app
        creates, edits or restores, and what makes saving then restoring give
        the same list back. */
    ghost predicate Valid()
      reads this
    {
      forall i :: 0 <= i < |workouts| ==> workouts[i].Metric() != Undefined
    }

    /** `new App()`: the list starts empty and is then restored from storage. */
    constructor (stored: Option<seq<StoredWorkout>>)
      ensures Valid()
      ensures stored.Some? && ReviveAll(stored.value).Some? ==> workouts == ReviveAll(stored.value).value
      ensures stored.None? || ReviveAll(stored.value).None? ==> workouts == []
    {
      workouts := [];
      new;
      var _ := GetLocalStorage(stored);
    }

    /** `_newWorkout`: validate the form; on success append one new record.
        A rejected submit leaves the list as it was. */
    method NewWorkout(input: FormInput, id: string, date: Date, at: Coords) returns (outcome: SubmitOutcome)
      requires Valid()
      modifies this
      ensures Valid()
      ensures outcome == Committed <==> Accepted(input)
      ensures outcome != Committed ==> outcome == Rejected(RejectionMessage)
      ensures Accepted(input) ==> workouts == old(workouts) + [Create(input, id, date, at)]
      ensures !Accepted(input) ==> workouts == old(workouts)
    {
      var distance, duration := input.distance, input.duration;
      var workout;
      if input.kind == Running {
        var cadence := input.cadence;
        if !ValidInputs([distance, duration, cadence]) || !AllPositive([distance, duration, cadence]) {
          return Rejected(RejectionMessage);
        }
        workout := NewRunning(id, date, at, distance, duration, cadence);
      } else {
        var elevation := input.elevation;
        if !ValidInputs([distance, duration, elevation]) || !AllPositive([distance, duration]) {
          return Rejected(RejectionMessage);
        }
        workout := NewCycling(id, date, at, distance, duration, elevation);
      }
      workouts := workouts + [workout];
      outcome := Committed;
    }

    /** `this.#workouts.find(el => el.id === workoutId)`, as a position. */
    method Find(workoutId: string) returns (index: Option<nat>)
      ensures index == FirstMatch(workouts, workoutId)
    {
      var i := 0;
      while i < |workouts|
        invariant 0 <= i <= |workouts|
        invariant forall j :: 0 <= j < i ==> workouts[j].id != workoutId
      {
        if workouts[i].id == workoutId {
          return Some(i);
        }
        i := i + 1;
      }
      return None;
    }

    /** `_editWorkoutProps`: overwrite the first record with this id and
        recompute its metric; every other record and the length stay as they
        were.  With no such record the source fails on the first assignment,
        before changing anything: here that is `found == false`. */
    method EditWorkoutProps(workoutId: string, params: Patch) returns (found: bool)
      requires Valid()
      modifies this
      ensures Valid()
      ensures found <==> FirstMatch(old(workouts), workoutId).Some?
      ensures !found ==> workouts == old(workouts)
      ensures found ==>
        var i := FirstMatch(old(workouts), workoutId).value;
        workouts == old(workouts)[i := Edited(old(workouts)[i], params)]
    {
      var index := Find(workoutId);
      if index.None? {
        return false;
      }
      var i := index.value;
      var current := workouts[i];
      current := current.(distance := PropertyValue(params.distance));
      current := current.(duration := PropertyValue(params.duration));
      if current.Variant() == Running {
        current := current.(details := current.details.(cadence := PropertyValue(params.cadence)));
        current := current.CalcPace();
      } else {
        current := current.(details := current.details.(elevationGain := PropertyValue(params.elevationGain)));
        current := current.CalcSpeed();
      }
      workouts := workouts[i := current];
      found := true;
    }

    /** The submit listener `_editWorkout` installs: parse the edit form's
        rows for the record's type, then apply the patch to the record.  The
        listener's `workoutType` is the type of the first record with the id,
        captured when the form was opened. */
    method SubmitEditForm(workoutId: string, workoutType: Kind, rows: seq<Row>) returns (found: bool)
      requires Valid()
      requires FirstMatch(workouts, workoutId).Some? ==>
        workouts[FirstMatch(workouts, workoutId).value].Variant() == workoutType
      modifies this
      ensures Valid()
      ensures found <==> FirstMatch(old(workouts), workoutId).Some?
      ensures !found ==> workouts == old(workouts)
      ensures found ==>
        var i := FirstMatch(old(workouts), workoutId).value;
        workouts == old(workouts)[i := Edited(old(workouts)[i], PatchOf(rows, workoutType))]
      ensures found ==>
        var w := workouts[FirstMatch(old(workouts), workoutId).value];
        && w.distance == PropertyValue(LastInput(rows, DistanceLabel))
        && w.duration == PropertyValue(LastInput(rows, DurationLabel))
        && w.Extra() == PropertyValue(LastInput(rows, ExtraLabel(workoutType)))
    {
      var updatedParams := ParseEditForm(rows, workoutType);
      found := EditWorkoutProps(workoutId, updatedParams);
    }

    /** `_setLocalStorage`: the array written under the 'workouts' key. */
    method SetLocalStorage() returns (saved: seq<StoredWorkout>)
      requires Valid()
      ensures saved == SerializeAll(workouts)
      ensures ReviveAll(saved) == Some(workouts)
    {
      saved := [];
      var i := 0;
      while i < |workouts|
        invariant 0 <= i <= |workouts|
        invariant saved == SerializeAll(workouts[..i])
      {
        saved := saved + [Serialize(workouts[i])];
        i := i + 1;
      }
      assert workouts[..i] == workouts;
      RestoreSaved(workouts);
    }

    /** `_getLocalStorage`: with nothing stored, keep the list; otherwise
        replace it by the stored items mapped by their type, count and order
        kept and every stored property copied. */
    method GetLocalStorage(data: Option<seq<StoredWorkout>>) returns (outcome: RestoreOutcome)
      requires Valid()
      modifies this
      ensures Valid()
      ensures data.None? ==> outcome == NothingStored && workouts == old(workouts)
      ensures data.Some? && ReviveAll(data.value).Some? ==>
        outcome == Restored && workouts == ReviveAll(data.value).value
      ensures data.Some? && ReviveAll(data.value).None? ==>
        outcome == UnknownType && workouts == old(workouts)
    {
      if data.None? {
        return NothingStored;
      }
      var items := data.value;
      var restored: seq<Workout> := [];
      var i := 0;
      while i < |items|
        invariant 0 <= i <= |items|
        invariant |restored| == i
        invariant forall j :: 0 <= j < i ==> Revive(items[j]) == Some(restored[j])
      {
        var work := Revive(items[i]);
        if work.None? {
          return UnknownType;
        }
        restored := restored + [work.value];
        i := i + 1;
      }
      forall j | 0 <= j < |restored| ensures restored[j].Metric() != Undefined {
        ReviveDefinesMetric(items[j]);
      }
      workouts := restored;
      outcome := Restored;
    }
  }

  /** The sample records of the source's comments, driven through the
      contracts alone: create, reject, edit, save and restore. */
  method Scenarios() {
    var app := new App(None);
    var at, date := Coords(39.0, -12.0), Date(3, 14);

    var run := FormInput(Running, Finite(5.2), Finite(24.0), Finite(178.0), Finite(0.0));
    RunningAcceptedIff(run);
    var outcome := app.NewWorkout(run, "1000000001", date, at);
    assert outcome == Committed && |app.workouts| == 1;
    CreatedRecord(run, "1000000001", date, at);
    assert app.workouts[0].Metric() == Finite(24.0 / 5.2);

    var ride := FormInput(Cycling, Finite(27.0), Finite(95.0), Finite(0.0), Finite(523.0));
    CyclingAcceptedIff(ride);
    outcome := app.NewWorkout(ride, "1000000002", date, at);
    assert outcome == Committed && |app.workouts| == 2;
    CreatedRecord(ride, "1000000002", date, at);
    assert app.workouts[1].Metric() == Finite(27.0 / (95.0 / 60.0));

    var stalled := FormInput(Cycling, Finite(27.0), Finite(0.0), Finite(0.0), Finite(-40.0));
    CyclingAcceptedIff(stalled);
    var before := app.workouts;
    outcome := app.NewWorkout(stalled, "1000000003", date, at);
    assert outcome == Rejected(RejectionMessage) && app.workouts == before;

    EditFormPatch(Running, NaN, Finite(5.2), Finite(30.0), Finite(178.0));
    var found := app.SubmitEditForm("1000000001", Running,
      EditFormRows(Running, NaN, Finite(5.2), Finite(30.0), Finite(178.0)));
    assert found && |app.workouts| == 2 && app.workouts[1] == before[1];
    EditedMetric(before[0], 5.2, 30.0, Finite(178.0));
    assert app.workouts[0].Metric() == Finite(30.0 / 5.2);
    assert app.workouts[0].Extra() == Finite(178.0) && app.workouts[0].id == "1000000001";

    var saved := app.SetLocalStorage();
    var reloaded := new App(Some(saved));
    assert reloaded.workouts == app.workouts;
  }
}
