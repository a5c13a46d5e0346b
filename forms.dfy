/**
 * The two forms: the create form's validation (`validInputs`, `allPositive`
 * and the per-variant rules of `_newWorkout`) and the edit form's parsing of
 * labelled rows into a partial update (`updatedParams` in `_editWorkout`).
 */
module Forms {
  import opened Wrappers
  import opened Numbers
  import opened Workouts

  /** The create form as submitted: the chosen type and the four inputs,
      each already coerced with unary `+`. */
  datatype FormInput = FormInput(kind: Kind, distance: Value, duration: Value, cadence: Value, elevation: Value)

  /** `validInputs(...inputs)`: every input is a finite number, so none is
      NaN or `undefined`, and on such inputs `allPositive` is the real
      comparison. */
  predicate ValidInputs(inputs: seq<Value>): (b: bool)
    ensures b ==> forall i :: 0 <= i < |inputs| ==> inputs[i] != NaN && inputs[i] != Undefined
    ensures b ==> (AllPositive(inputs) <==> forall i :: 0 <= i < |inputs| ==> inputs[i].Finite? && inputs[i].v > 0.0)
  {
    forall i :: 0 <= i < |inputs| ==> IsFinite(inputs[i])
  }

  /** `allPositive(...inputs)`: every input is greater than zero, so none is
      NaN, `undefined` or -Infinity. */
  predicate AllPositive(inputs: seq<Value>): (b: bool)
    ensures b ==> forall i :: 0 <= i < |inputs| ==>
      inputs[i] != NaN && inputs[i] != Undefined && inputs[i] != NegInfinity
  {
    forall i :: 0 <= i < |inputs| ==> IsPositive(inputs[i])
  }

  /** The guard of `_newWorkout`: true when the submit goes on to create a
      record.  Either variant needs a finite, strictly positive distance and
      duration; the exact rule of each is stated by the two lemmas below. */
  predicate Accepted(input: FormInput): (b: bool)
    ensures b ==> && input.distance.Finite? && input.distance.v > 0.0
                  && input.duration.Finite? && input.duration.v > 0.0
  {
    var extra := if input.kind == Running then input.cadence else input.elevation;
    var inputs := [input.distance, input.duration, extra];
    assert inputs[0] == input.distance && inputs[1] == input.duration;
    match input.kind
    case Running => ValidInputs(inputs) && AllPositive(inputs)
    case Cycling => ValidInputs(inputs) && AllPositive(inputs[..2])
  }

  /** The message `_newWorkout` alerts when it rejects a submit. */
  const RejectionMessage := "Inputs have to be positive numbers!"

  /** A running submit is accepted exactly when distance, duration and cadence
      are finite and strictly positive; the elevation input plays no part. */
  lemma RunningAcceptedIff(input: FormInput)
    requires input.kind == Running
    ensures Accepted(input) <==>
      && input.distance.Finite? && input.distance.v > 0.0
      && input.duration.Finite? && input.duration.v > 0.0
      && input.cadence.Finite? && input.cadence.v > 0.0
  {
    var xs := [input.distance, input.duration, input.cadence];
    assert xs[0] == input.distance && xs[1] == input.duration && xs[2] == input.cadence;
  }

  /** A cycling submit is accepted exactly when all three inputs are finite and
      distance and duration are strictly positive; the cadence input plays no part. */
  lemma CyclingAcceptedIff(input: FormInput)
    requires input.kind == Cycling
    ensures Accepted(input) <==>
      && input.distance.Finite? && input.distance.v > 0.0
      && input.duration.Finite? && input.duration.v > 0.0
      && input.elevation.Finite?
  {
    var xs := [input.distance, input.duration, input.elevation];
    assert xs[0] == input.distance && xs[1] == input.duration && xs[2] == input.elevation;
    var ys := [input.distance, input.duration];
    assert ys[0] == input.distance && ys[1] == input.duration;
  }

  /** Elevation gain has no sign requirement: a descent is a valid ride. */
  lemma NegativeElevationAccepted(distance: real, duration: real, elevation: real, cadence: Value)
    requires distance > 0.0 && duration > 0.0
    ensures Accepted(FormInput(Cycling, Finite(distance), Finite(duration), cadence, Finite(elevation)))
  {
  }

  /** The record an accepted submit creates. */
  function Create(input: FormInput, id: string, date: Date, at: Coords): (w: Workout)
    ensures w.Variant() == input.kind
  {
    match input.kind
    case Running => NewRunning(id, date, at, input.distance, input.duration, input.cadence)
    case Cycling => NewCycling(id, date, at, input.distance, input.duration, input.elevation)
  }

  /** What an accepted submit creates: a fresh record with no clicks, the form's
      values, the description of its variant and date, and the textbook pace or
      speed. */
  lemma CreatedRecord(input: FormInput, id: string, date: Date, at: Coords)
    requires Accepted(input)
    ensures var w := Create(input, id, date, at);
      && w.id == id && w.date == date && w.coords == at && w.clicks == 0
      && w.distance == input.distance && w.duration == input.duration
      && w.description == Description(input.kind, date)
      && w.Consistent()
      && (input.kind == Running ==>
            w.Extra() == input.cadence && w.Metric() == Finite(input.duration.v / input.distance.v))
      && (input.kind == Cycling ==>
            w.Extra() == input.elevation && w.Metric() == Finite(input.distance.v / (input.duration.v / 60.0)))
  {
    if input.kind == Running {
      RunningAcceptedIff(input);
    } else {
      CyclingAcceptedIff(input);
    }
  }

  // ---------------------------------------------------------------------------
  // The edit form

  /** One `.form__row` of the edit form: its label text and its input coerced with `+`. */
  datatype Row = Row(labelText: string, input: Value)

  const TypeLabel := "Type"
  const DistanceLabel := "Distance"
  const DurationLabel := "Duration"
  const CadenceLabel := "Cadence"
  const ElevationLabel := "Elev Gain"

  /** `updatedParams`: the properties the edit form sets; None for a property never set. */
  datatype Patch = Patch(distance: Option<Value>, duration: Option<Value>, cadence: Option<Value>, elevationGain: Option<Value>)

  /** The input of the last row carrying the label `name`, if any row does. */
  function LastInput(rows: seq<Row>, name: string): (r: Option<Value>)
    ensures r.None? <==> forall i :: 0 <= i < |rows| ==> rows[i].labelText != name
    ensures r.Some? ==> exists i :: 0 <= i < |rows| && rows[i] == Row(name, r.value) &&
                               (forall j :: i < j < |rows| ==> rows[j].labelText != name)
  {
    if rows == [] then None
    else if rows[|rows| - 1].labelText == name then Some(rows[|rows| - 1].input)
    else LastInput(rows[..|rows| - 1], name)
  }

  /** The patch a sequence of rows yields for a record of type `kind`: distance
      and duration from their rows, and the cadence or the elevation row only
      for the matching variant. */
  function PatchOf(rows: seq<Row>, kind: Kind): (p: Patch)
    ensures p.distance.Some? <==> exists i :: 0 <= i < |rows| && rows[i].labelText == DistanceLabel
    ensures p.duration.Some? <==> exists i :: 0 <= i < |rows| && rows[i].labelText == DurationLabel
    ensures p.cadence.Some? <==>
      kind == Running && exists i :: 0 <= i < |rows| && rows[i].labelText == CadenceLabel
    ensures p.elevationGain.Some? <==>
      kind == Cycling && exists i :: 0 <= i < |rows| && rows[i].labelText == ElevationLabel
  {
    Patch(
      LastInput(rows, DistanceLabel),
      LastInput(rows, DurationLabel),
      if kind == Running then LastInput(rows, CadenceLabel) else None,
      if kind == Cycling then LastInput(rows, ElevationLabel) else None)
  }

  /** The `forEach` over the edit form's rows that fills `updatedParams`. */
  method ParseEditForm(rows: seq<Row>, workoutType: Kind) returns (updatedParams: Patch)
    ensures updatedParams == PatchOf(rows, workoutType)
  {
    updatedParams := Patch(None, None, None, None);
    var i := 0;
    while i < |rows|
      invariant 0 <= i <= |rows|
      invariant updatedParams == PatchOf(rows[..i], workoutType)
    {
      assert rows[..i + 1][..i] == rows[..i];
      var labelText, inputValue := rows[i].labelText, rows[i].input;
      if labelText == DurationLabel {
        updatedParams := updatedParams.(duration := Some(inputValue));
      } else if labelText == DistanceLabel {
        updatedParams := updatedParams.(distance := Some(inputValue));
      } else if workoutType == Running && labelText == CadenceLabel {
        updatedParams := updatedParams.(cadence := Some(inputValue));
      } else if workoutType == Cycling && labelText == ElevationLabel {
        updatedParams := updatedParams.(elevationGain := Some(inputValue));
      }
      i := i + 1;
    }
    assert rows[..i] == rows;
  }

  /** Whether a row's label is one the parser takes for a record of type `kind`. */
  predicate Recognised(name: string, kind: Kind) {
    name == DistanceLabel || name == DurationLabel ||
    (kind == Running && name == CadenceLabel) ||
    (kind == Cycling && name == ElevationLabel)
  }

  /** A row whose label the parser does not take for this variant (the 'Type'
      row, the other variant's extra row, anything else) changes nothing. */
  lemma UnrecognisedRowIgnored(rows: seq<Row>, row: Row, kind: Kind)
    requires !Recognised(row.labelText, kind)
    ensures PatchOf(rows + [row], kind) == PatchOf(rows, kind)
  {
  }

  /** A recognised row sets exactly its own property of the patch. */
  lemma RecognisedRowSets(rows: seq<Row>, row: Row, kind: Kind)
    requires Recognised(row.labelText, kind)
    ensures var p, q := PatchOf(rows, kind), PatchOf(rows + [row], kind);
      && q.distance == (if row.labelText == DistanceLabel then Some(row.input) else p.distance)
      && q.duration == (if row.labelText == DurationLabel then Some(row.input) else p.duration)
      && q.cadence == (if row.labelText == CadenceLabel then Some(row.input) else p.cadence)
      && q.elevationGain == (if row.labelText == ElevationLabel then Some(row.input) else p.elevationGain)
  {
  }

  /** The label of the variant's own row in the edit form. */
  function ExtraLabel(kind: Kind): string {
    if kind == Running then CadenceLabel else ElevationLabel
  }

  /** The rows `_editWorkout` renders for a record, in order, with whatever the
      user typed into them. */
  function EditFormRows(kind: Kind, typeInput: Value, distance: Value, duration: Value, extra: Value): seq<Row> {
    [Row(TypeLabel, typeInput), Row(DistanceLabel, distance), Row(DurationLabel, duration), Row(ExtraLabel(kind), extra)]
  }

  /** On the form `_editWorkout` renders, the parser sets distance, duration and
      the variant's extra to the typed values and nothing else. */
  lemma EditFormPatch(kind: Kind, typeInput: Value, distance: Value, duration: Value, extra: Value)
    ensures PatchOf(EditFormRows(kind, typeInput, distance, duration, extra), kind) ==
      if kind == Running then Patch(Some(distance), Some(duration), Some(extra), None)
      else Patch(Some(distance), Some(duration), None, Some(extra))
  {
    var rows := EditFormRows(kind, typeInput, distance, duration, extra);
    UnrecognisedRowIgnored([], rows[0], kind);
    assert [] + [rows[0]] == rows[..1];
    RecognisedRowSets(rows[..1], rows[1], kind);
    assert rows[..1] + [rows[1]] == rows[..2];
    RecognisedRowSets(rows[..2], rows[2], kind);
    assert rows[..2] + [rows[2]] == rows[..3];
    RecognisedRowSets(rows[..3], rows[3], kind);
    assert rows[..3] + [rows[3]] == rows;
  }
}
