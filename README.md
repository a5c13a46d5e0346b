# Workout tracker: record model in Dafny

This project models the record logic of a browser workout tracker (a "mapty"
app). You click the map, fill in a form, and the app records a running or
cycling workout. It computes the pace or the speed, keeps the records in an
ordered list, lets you edit a record through a labelled form, and saves the
list to local storage so it can be restored at start-up.

The model covers:

- **Records** (`workouts.dfy`, module `Workouts`). `Workout` is a datatype. It holds an id, the creation date (month and day), coordinates, distance, duration, a click counter, a description, and a variant payload: cadence and pace for running, elevation gain and speed for cycling. The module also has `click`, `calcPace`, `calcSpeed`, the description string, and the `new Running(...)` / `new Cycling(...)` constructors.
- **JavaScript numbers** (`numbers.dfy`, module `Numbers`). `Value` is a finite real, ±Infinity, NaN, or `undefined` (for a property that was never set). It comes with `Number.isFinite`, the comparison `> 0` and the operator `/`, including division by zero. The edit flow checks nothing, so a record can end up holding any of these values. The model therefore needs no precondition to rule out a zero divisor.
- **Text** (`text.dfy`, module `Text`). The decimal numeral of the day and its inverse, upper-casing the first letter, and splitting a string at its first space. These are used to prove that a description determines its variant, month and day.
- **Forms** (`forms.dfy`, module `Forms`). The create form's `validInputs` / `allPositive` rules for each variant, and the record an accepted submit creates. It also parses the edit form's rows, keyed by label text, into a partial patch (`updatedParams`).
- **Storage** (`storage.dfy`, module `Storage`). The object each record is saved as, the type-dispatched `Object.assign` restore of one item and of the whole array, and the save-then-restore round trip.
- **The application object** (`tracker.dfy`, module `Tracker`). Class `App` holds `#workouts` as a `seq<Workout>`. Its methods are the submit with validation and append, the first-match lookup, the in-place edit with recomputation, the edit-form submit, the save, and the restore. The methods keep the invariant that every record's metric is defined. That invariant is what makes save-then-restore return the same list. `Scenarios` at the end walks through the source's commented sample records (5.2 km in 24 min; 27 km in 95 min) by the contracts alone: a create, a rejected submit, an edit, a save and a restore.

Notes on what the source does, which the model follows:

- **Edit with a missing field.** An edit whose patch lacks a field writes `undefined` into that field. It does not leave the field unchanged (`script.js:421-424`).
- **Restore keeps the saved metric.** Restore copies the persisted pace or speed as stored. It does not recompute it (`script.js:300-307`).
- **Edit does not validate.** Edit checks none of its inputs, so only records made by the create form are guaranteed to have a positive distance and duration.
- **Duplicate ids.** Nothing prevents two records from sharing an id. Lookups take the first match (`script.js:419`).

## Model

| member | source | states |
|---|---|---|
| Numbers.Div | script.js:51 | JavaScript `/` on reals: finite over nonzero finite is the real quotient; the result is finite exactly when the dividend is finite and the divisor is a nonzero finite number or an infinity; never undefined |
| Numbers.IsFinite | script.js:158 | `Number.isFinite` accepts only finite numbers, never NaN or `undefined`; on a finite number `> 0` is the real comparison |
| Numbers.IsPositive | script.js:159 | `x > 0` holds for no NaN, `undefined` or -Infinity |
| Numbers.ToNumber | script.js:51 | an arithmetic operand `undefined` becomes NaN; any other value is itself |
| Numbers.DivByZero | script.js:68 | dividing by zero never gives a finite number: positive over zero is +Infinity, zero over zero is NaN |
| Text.DecimalString | script.js:31 | the day as the template literal renders it: a non-empty string of decimal digits |
| Text.DecimalRoundTrip | script.js:31 | the day numeral rendered by the template literal reads back as the same day |
| Text.DecimalStringInjective | script.js:31 | different days render as different numerals |
| Text.ToUpper | script.js:31 | `toUpperCase` maps a lower-case letter to its capital and leaves other characters alone |
| Text.Capitalize | script.js:31 | `s[0].toUpperCase() + s.slice(1)`: same length, the first character upper-cased, the rest unchanged |
| Workouts.Workout.Click | script.js:34-36 | `clicks` grows by exactly one and every other field is unchanged |
| Workouts.Workout.CalcPace | script.js:49-53 | the stored pace becomes duration / distance; the record is then consistent; nothing else changes; on a record whose pace is already current it changes nothing (so a second call stores and returns the same value) |
| Workouts.Workout.CalcSpeed | script.js:66-70 | the stored speed becomes distance / (duration / 60); consistent afterwards; nothing else changes; no-op on an already consistent record |
| Workouts.Pace | script.js:49-53 | pace is never undefined; with finite fields and a nonzero distance it is duration/distance; over a zero distance it is not finite |
| Workouts.Speed | script.js:66-70 | speed is never undefined; with finite fields and a nonzero duration it is distance/(duration/60); over a zero duration it is not finite |
| Workouts.MonthName | script.js:17-29 | each of the twelve month indices names a non-empty month without spaces |
| Workouts.MonthNameInjective | script.js:17-29 | the twelve month names are pairwise different |
| Workouts.Title | script.js:31 | the capitalised type is exactly "Running" for running and "Cycling" for cycling |
| Workouts.Description | script.js:15-32 | the description starts with exactly "Running on " or "Cycling on ", followed by the month name, a space and the day numeral |
| Workouts.DescriptionInjective | script.js:15-32 | two equal descriptions have the same variant, month and day |
| Workouts.NewRunning | script.js:39-47 | a new running record has the given id, date, coordinates, distance, duration and cadence, zero clicks, the running description of its date, and a pace consistent with its fields |
| Workouts.NewCycling | script.js:56-64 | a new cycling record likewise, with elevation gain and a consistent speed |
| Forms.ValidInputs | script.js:158 | all inputs finite, so none is NaN or `undefined`; on such inputs `allPositive` is the comparison of their real values |
| Forms.AllPositive | script.js:159 | all inputs greater than zero, so none is NaN, `undefined` or -Infinity |
| Forms.Accepted | script.js:171-188 | a submit of either variant is accepted only with a finite, strictly positive distance and duration |
| Forms.RunningAcceptedIff | script.js:171-176 | a running submit is accepted exactly when distance, duration and cadence are all finite and strictly positive |
| Forms.CyclingAcceptedIff | script.js:183-188 | a cycling submit is accepted exactly when distance, duration and elevation are finite and distance and duration are strictly positive |
| Forms.NegativeElevationAccepted | script.js:186-187 | a ride with zero or negative elevation gain and positive distance and duration is accepted |
| Forms.Create | script.js:178-190 | the record built for a submit has the submitted type (its fields are stated by Forms.CreatedRecord) |
| Forms.CreatedRecord | script.js:170-191 | an accepted submit builds a record with zero clicks, the form's values, the description of its type and date, and pace = duration/distance or speed = distance/(duration/60) |
| Forms.LastInput | script.js:385-409 | the value taken for a label is that of the last row with that label, and none when no row has it |
| Forms.PatchOf | script.js:385-409 | a patch property is set exactly when some row carries its label; cadence only for a running record and elevation gain only for a cycling one |
| Forms.ParseEditForm | script.js:381-409 | the row loop yields, for each property, the last matching row's value: distance and duration for both variants, cadence only for running, elevation gain only for cycling |
| Forms.UnrecognisedRowIgnored | script.js:397-408 | a row whose label the parser does not take for the variant (the Type row, the other variant's row, any other label) leaves the patch unchanged |
| Forms.RecognisedRowSets | script.js:389-407 | a recognised row sets its own property of the patch and no other |
| Forms.EditFormPatch | script.js:325-409 | on the rows the edit form renders, the patch holds exactly the typed distance, duration and variant extra |
| Storage.Serialize | script.js:292 | a record is saved with its type, all common properties, and its own variant's two properties; the other variant's are absent |
| Storage.SerializeAll | script.js:292 | the saved array has one item per record, in order |
| Storage.Assigned | script.js:300-306 | `Object.assign` on one property: the stored value when the item has it, otherwise the constructor's default |
| Storage.Revive | script.js:300-307 | an item is restored exactly when its type is 'running' or 'cycling'; the restored record has that type and every stored property, with the metric defaulting to NaN when the item lacks it |
| Storage.ReviveDefinesMetric | script.js:301-306 | a restored record's metric is never undefined |
| Storage.ReviveAll | script.js:300-307 | the whole array restores exactly when every item does, and then keeps the count and the order, item by item |
| Storage.ReviveSerialized | script.js:292-307 | saving a record with a defined metric and restoring it gives the same record |
| Storage.RestoreSaved | script.js:292-307 | saving a list whose metrics are defined and restoring it gives the same list |
| Tracker.FirstMatch | script.js:419 | the position found holds the id and no earlier record does; none exactly when no record has the id |
| Tracker.PropertyValue | script.js:421-424 | reading a patch property gives its value when set and `undefined` when absent |
| Tracker.Edited | script.js:416-449 | the edited record takes distance, duration and its own variant's extra from the patch (undefined where the patch lacks them), gets its metric recomputed, and keeps id, date, coordinates, clicks, description and variant |
| Tracker.EditedIdempotent | script.js:377-413 | applying the same patch twice gives the record that one application gives, so a submit that reaches several stacked listeners edits as if once |
| Tracker.EditedMetric | script.js:431-447 | after an edit with finite values the stored pace is duration/distance (distance nonzero) and the stored speed is distance/(duration/60) (duration nonzero) |
| Tracker.App.constructor | script.js:92-99 | the list starts empty and is replaced by the restored records when storage holds a restorable array |
| Tracker.App.NewWorkout | script.js:157-207 | a submit is committed exactly when the variant's rule accepts it, and then exactly one created record is appended after the unchanged earlier ones; a rejected submit alerts the message and leaves the list as it was |
| Tracker.App.Find | script.js:419 | returns the position of the first record with the id, or none |
| Tracker.App.EditWorkoutProps | script.js:416-449 | only the first record with the id is replaced by its edited form; every other record and the length are unchanged; with no such record nothing changes |
| Tracker.App.SubmitEditForm | script.js:377-413 | given the type of the first record with the id, as the form captured it, submitting the edit form applies the patch parsed from its rows to that record only: its distance, duration and own extra become the last typed value of their rows (`undefined` where a row is missing) |
| Tracker.App.SetLocalStorage | script.js:291-293 | the saved array is the serialisation of the list, and restoring it gives the list back |
| Tracker.App.GetLocalStorage | script.js:295-310 | with nothing stored the list is kept; otherwise it becomes the stored items restored in order, and when some item has an unknown type the list is kept and that is reported |

## Left out

- Rendering and DOM wiring are not modelled: list items, the marker and popup HTML, showing, hiding and toggling the form, the duplicate edit-form check, the form-id check in the submit listener, and the listeners that pile up with each opened edit form. They are presentation and event wiring, not record logic. Tracker.EditedIdempotent shows that a submit reaching several listeners edits the record as one does.
- Leaflet and geolocation are not modelled (`_getPosition`, `_loadMap`, `_moveToPopup`, `_renderWorkoutMarker`). They are foreign library and browser calls. A map click enters the model only as the `at` coordinates.
- `Date.now()` and `new Date()` are not modelled, because they read the clock. The id and the (month, day) of a record are parameters.
- The text coercion `+input.value` is not modelled, because string-to-number conversion is outside the core. Form inputs arrive already converted (an empty field would have become 0).
- Floating point is not modelled: no IEEE-754 rounding, no negative zero, no `toFixed(1)`. Finite numbers are exact reals, so `5.2` is the real 5.2.
- `localStorage`, the JSON text and the `setTimeout` deferral are not modelled, because they are I/O and scheduling. Storage is the saved array passed to restore or returned by the save. The JSON encoding also turns NaN and ±Infinity into `null` and the date into a string. That is not modelled either; a stored item keeps the record's values.
- `reset()` is not modelled: it removes the storage key and reloads the page.
- Form types other than the two options are not modelled. The type input is modelled as the two options of its select element. For any other value the source would push `undefined` and then fail while rendering.
- Tracker.App.GetLocalStorage, Storage.ReviveAll: an item with an unknown type is reported and the list is kept. The source instead places `undefined` in the list and then fails while rendering it.
- Storage.Revive: a stored item is assumed to have its id, date, coordinates, clicks and description. The argument-less constructor's defaults for them (a fresh clock id, today's date) are not modelled. Properties of the other variant in a stored item are dropped, where the source would carry them along unused.
- Tracker.App.EditWorkoutProps: the recomputation of pace or speed sits inside the source's update loop over the rendered list item. The model assumes that item is rendered, as it always is. With no matching id the source throws before changing anything; the model returns `found == false` with the same unchanged list. The save that the source starts inside the edit is not part of this method; `setTimeout` defers it until after the recomputation, so it writes what Tracker.App.SetLocalStorage describes for the edited list.
- Text.ToUpper: `toUpperCase` is modelled for the letters a to z only. It is only ever applied to the first letter of 'running' or 'cycling'.
- Records are values: `click`, `calcPace`, `calcSpeed` and the edit return an updated record, and the list replaces its element. In the source each record object is referenced only from the list, so there is no aliasing to lose.
- Click counting is not wired up in the app. The only call of `click` is commented out in the source, so `Click` is modelled on its own.
