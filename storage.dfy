/**
 * The records as saved under the 'workouts' key and read back at start-up:
 * `JSON.stringify(this.#workouts)` in `_setLocalStorage` and the
 * type-dispatched `Object.assign` in `_getLocalStorage`.  The JSON text itself
 * is not modelled; a stored item is the object the text denotes.
 */
module Storage {
  import opened Wrappers
  import opened Numbers
  import opened Workouts

  /** One saved item: the record's own properties by name.  A property the
      item lacks reads as Undefined.  `workoutType` is the `type` property. */
  datatype StoredWorkout = StoredWorkout(
    workoutType: string,
    id: string,
    date: Date,
    coords: Coords,
    distance: Value,
    duration: Value,
    clicks: nat,
    description: string,
    cadence: Value,
    pace: Value,
    elevationGain: Value,
    speed: Value)

  /** The object a record is saved as: its common properties, its `type`, and
      the two properties of its own variant (the other variant's are absent). */
  function Serialize(w: Workout): (s: StoredWorkout)
    ensures s.workoutType == w.Type()
    ensures s.id == w.id && s.date == w.date && s.coords == w.coords && s.clicks == w.clicks
    ensures s.distance == w.distance && s.duration == w.duration && s.description == w.description
    ensures w.Variant() == Running ==>
      s.cadence == w.Extra() && s.pace == w.Metric() && s.elevationGain == Undefined && s.speed == Undefined
    ensures w.Variant() == Cycling ==>
      s.elevationGain == w.Extra() && s.speed == w.Metric() && s.cadence == Undefined && s.pace == Undefined
  {
    match w.details
    case RunningDetails(cadence, pace) =>
      StoredWorkout("running", w.id, w.date, w.coords, w.distance, w.duration, w.clicks, w.description,
                    cadence, pace, Undefined, Undefined)
    case CyclingDetails(elevationGain, speed) =>
      StoredWorkout("cycling", w.id, w.date, w.coords, w.distance, w.duration, w.clicks, w.description,
                    Undefined, Undefined, elevationGain, speed)
  }

  /** `Object.assign` for one property: the stored value if the item has the
      property, otherwise what the argument-less constructor left there. */
  function Assigned(stored: Value, default: Value): (r: Value)
    ensures stored != Undefined ==> r == stored
    ensures stored == Undefined ==> r == default
  {
    if stored == Undefined then default else stored
  }

  /** The callback of `data.map` in `_getLocalStorage`: `Object.assign(new
      Running(), work)` for type 'running', `Object.assign(new Cycling(), work)`
      for type 'cycling', and nothing for any other type.  The argument-less
      constructor leaves every numeric property undefined except the metric,
      which it computes from undefined fields. */
  function Revive(s: StoredWorkout): (r: Option<Workout>)
    ensures r.Some? <==> s.workoutType == "running" || s.workoutType == "cycling"
    ensures r.Some? ==> r.value.Type() == s.workoutType
    ensures r.Some? ==> && r.value.id == s.id && r.value.date == s.date && r.value.coords == s.coords
                        && r.value.clicks == s.clicks && r.value.description == s.description
                        && r.value.distance == s.distance && r.value.duration == s.duration
    ensures r.Some? && s.workoutType == "running" ==>
      r.value.Extra() == s.cadence && r.value.Metric() == Assigned(s.pace, NaN)
    ensures r.Some? && s.workoutType == "cycling" ==>
      r.value.Extra() == s.elevationGain && r.value.Metric() == Assigned(s.speed, NaN)
  {
    if s.workoutType == "running" then
      Some(Workout(s.id, s.date, s.coords, s.distance, s.duration, s.clicks, s.description,
                   RunningDetails(s.cadence, Assigned(s.pace, Pace(Undefined, Undefined)))))
    else if s.workoutType == "cycling" then
      Some(Workout(s.id, s.date, s.coords, s.distance, s.duration, s.clicks, s.description,
                   CyclingDetails(s.elevationGain, Assigned(s.speed, Speed(Undefined, Undefined)))))
    else None
  }

  /** A restored record never holds an undefined metric. */
  lemma ReviveDefinesMetric(s: StoredWorkout)
    requires Revive(s).Some?
    ensures Revive(s).value.Metric() != Undefined
  {
  }

  /** `data.map(...)` over the whole saved array: every item restored, in order,
      or None when some item's type is neither 'running' nor 'cycling'. */
  function ReviveAll(data: seq<StoredWorkout>): (r: Option<seq<Workout>>)
    ensures r.Some? <==> forall i :: 0 <= i < |data| ==> Revive(data[i]).Some?
    ensures r.Some? ==> |r.value| == |data| &&
                        forall i :: 0 <= i < |data| ==> Revive(data[i]) == Some(r.value[i])
  {
    if data == [] then Some([])
    else match (Revive(data[0]), ReviveAll(data[1..]))
      case (Some(w), Some(ws)) => Some([w] + ws)
      case (_, _) => None
  }

  /** The array `JSON.stringify(this.#workouts)` saves: one item per record, in order. */
  function SerializeAll(ws: seq<Workout>): (data: seq<StoredWorkout>)
    ensures |data| == |ws| && forall i :: 0 <= i < |ws| ==> data[i] == Serialize(ws[i])
  {
    seq(|ws|, i requires 0 <= i < |ws| => Serialize(ws[i]))
  }

  /** Saving a record and restoring it gives the record back, provided its
      metric is defined (JSON drops undefined properties, and restore would
      put NaN in its place). */
  lemma ReviveSerialized(w: Workout)
    requires w.Metric() != Undefined
    ensures Revive(Serialize(w)) == Some(w)
  {
  }

  /** Saving a list of records and restoring it gives the same list. */
  lemma {:induction false} RestoreSaved(ws: seq<Workout>)
    requires forall i :: 0 <= i < |ws| ==> ws[i].Metric() != Undefined
    ensures ReviveAll(SerializeAll(ws)) == Some(ws)
  {
    var data := SerializeAll(ws);
    forall i | 0 <= i < |ws|
      ensures Revive(data[i]) == Some(ws[i])
    {
      ReviveSerialized(ws[i]);
    }
    var r := ReviveAll(data);
    assert r.Some?;
    assert forall i :: 0 <= i < |ws| ==> r.value[i] == ws[i];
    assert r.value == ws;
  }
}
