/**
 * Workout records: the common record (`Workout`) and its two variants
 * (`Running` with cadence and pace, `Cycling` with elevation gain and speed),
 * the description string, the click counter and the derived metrics.
 */
module Workouts {
  import opened Numbers
  import opened Text

  /** `Date.prototype.getMonth()`: 0 for January to 11 for December. */
  type Month = m: nat | m < 12

  /** `Date.prototype.getDate()`: the day of the month. */
  type Day = d: nat | 1 <= d <= 31 witness 1

  /** The creation date, as far as the description uses it. */
  datatype Date = Date(month: Month, day: Day)

  /** `[lat, lng]` of the map click the record was made for. */
  datatype Coords = Coords(lat: real, lng: real)

  /** The `type` discriminator: 'running' or 'cycling'. */
  datatype Kind = Running | Cycling

  /** The variant-specific fields: exactly one of cadence and elevation gain,
      each with its own derived metric. */
  datatype Details =
    | RunningDetails(cadence: Value, pace: Value)
    | CyclingDetails(elevationGain: Value, speed: Value)

  datatype Workout = Workout(
    id: string,
    date: Date,
    coords: Coords,
    distance: Value,     // km
    duration: Value,     // min
    clicks: nat,
    description: string,
    details: Details)
  {
    function Variant(): (k: Kind)
      ensures k == Running <==> details.RunningDetails?
    {
      if details.RunningDetails? then Running else Cycling
    }

    /** The record's `type` property. */
    function Type(): string {
      TypeName(Variant())
    }

    /** Cadence for a running record, elevation gain for a cycling one. */
    function Extra(): Value {
      match details
      case RunningDetails(cadence, _) => cadence
      case CyclingDetails(elevationGain, _) => elevationGain
    }

    /** Pace for a running record, speed for a cycling one. */
    function Metric(): Value {
      match details
      case RunningDetails(_, pace) => pace
      case CyclingDetails(_, speed) => speed
    }

    /** The stored metric agrees with its formula over the current fields. */
    predicate Consistent() {
      Metric() == (if Variant() == Running then Pace(duration, distance) else Speed(distance, duration))
    }

    /** `click()`: one more click, every other field as it was. */
    function Click(): (r: Workout)
      ensures r.clicks == clicks + 1
      ensures r.(clicks := clicks) == this
    {
      this.(clicks := clicks + 1)
    }

    /** `calcPace()`: stores and returns duration / distance. */
    function CalcPace(): (r: Workout)
      requires Variant() == Running
      ensures r.Variant() == Running && r.Consistent()
      ensures r.Metric() == Pace(duration, distance)
      ensures r.(details := details) == this && r.Extra() == Extra()
      ensures Consistent() ==> r == this
    {
      this.(details := details.(pace := Pace(duration, distance)))
    }

    /** `calcSpeed()`: stores and returns distance / (duration / 60). */
    function CalcSpeed(): (r: Workout)
      requires Variant() == Cycling
      ensures r.Variant() == Cycling && r.Consistent()
      ensures r.Metric() == Speed(distance, duration)
      ensures r.(details := details) == this && r.Extra() == Extra()
      ensures Consistent() ==> r == this
    {
      this.(details := details.(speed := Speed(distance, duration)))
    }
  }

  /** Minutes per km, as `calcPace` computes it: with finite fields and a
      nonzero distance the real quotient, and never finite over a zero
      distance; never `undefined`, whatever the fields hold. */
  function Pace(duration: Value, distance: Value): (r: Value)
    ensures r != Undefined
    ensures duration.Finite? && distance.Finite? && distance.v != 0.0 ==> r == Finite(duration.v / distance.v)
    ensures distance == Finite(0.0) ==> !r.Finite?
  {
    Div(duration, distance)
  }

  /** Km per hour, as `calcSpeed` computes it: with finite fields and a
      nonzero duration distance over duration in hours, and never finite over
      a zero duration; never `undefined`, whatever the fields hold. */
  function Speed(distance: Value, duration: Value): (r: Value)
    ensures r != Undefined
    ensures distance.Finite? && duration.Finite? && duration.v != 0.0 ==>
      r == Finite(distance.v / (duration.v / 60.0))
    ensures duration == Finite(0.0) ==> !r.Finite?
  {
    Div(distance, Div(duration, Finite(60.0)))
  }

  function TypeName(k: Kind): (s: string)
    ensures |s| == 7
  {
    match k
    case Running => "running"
    case Cycling => "cycling"
  }

  const MonthNames: seq<string> :=
    ["January", "February", "March", "April", "May", "June", "July",
     "August", "September", "October", "November", "December"]

  function MonthName(m: Month): (s: string)
    ensures HasNoSpace(s) && |s| > 0
  {
    MonthNames[m]
  }

  /** The twelve month names are pairwise different. */
  lemma MonthNameInjective(m: Month, n: Month)
    ensures MonthName(m) == MonthName(n) ==> m == n
  {
  }

  /** The capitalised type name at the head of a description. */
  function Title(k: Kind): (t: string)
    ensures t == Capitalize(TypeName(k))
    ensures t == if k == Running then "Running" else "Cycling"
  {
    Capitalize(TypeName(k))
  }

  /** `_setDescription()`: "Running on April 14", "Cycling on May 3".  The
      first eleven characters are the title and " on "; the rest is the month
      name, a space and the day numeral. */
  function Description(k: Kind, date: Date): (d: string)
    ensures |d| > 11
    ensures d[..11] == if k == Running then "Running on " else "Cycling on "
    ensures d[11..] == MonthName(date.month) + " " + DecimalString(date.day)
  {
    var head, tail := Title(k) + " on ", MonthName(date.month) + " " + DecimalString(date.day);
    assert (head + tail)[..11] == head && (head + tail)[11..] == tail;
    head + tail
  }

  /** The description determines the variant, the month and the day. */
  lemma DescriptionInjective(k1: Kind, date1: Date, k2: Kind, date2: Date)
    ensures Description(k1, date1) == Description(k2, date2) ==> k1 == k2 && date1 == date2
  {
    var d1, d2 := Description(k1, date1), Description(k2, date2);
    if d1 == d2 {
      assert d1[..11][0] == d2[..11][0];
      assert k1 == k2;
      assert d1[11..] == d2[11..];
      SplitAtFirstSpace(MonthName(date1.month), DecimalString(date1.day),
                        MonthName(date2.month), DecimalString(date2.day));
      MonthNameInjective(date1.month, date2.month);
      DecimalStringInjective(date1.day, date2.day);
    }
  }

  /** `new Running(coords, distance, duration, cadence)` */
  function NewRunning(id: string, date: Date, coords: Coords, distance: Value, duration: Value, cadence: Value): (w: Workout)
    ensures w.Variant() == Running && w.Consistent()
    ensures w.id == id && w.date == date && w.coords == coords && w.clicks == 0
    ensures w.distance == distance && w.duration == duration && w.Extra() == cadence
    ensures w.description == Description(Running, date)
  {
    Workout(id, date, coords, distance, duration, 0, "", RunningDetails(cadence, Undefined))
      .CalcPace()
      .(description := Description(Running, date))
  }

  /** `new Cycling(coords, distance, duration, elevationGain)` */
  function NewCycling(id: string, date: Date, coords: Coords, distance: Value, duration: Value, elevationGain: Value): (w: Workout)
    ensures w.Variant() == Cycling && w.Consistent()
    ensures w.id == id && w.date == date && w.coords == coords && w.clicks == 0
    ensures w.distance == distance && w.duration == duration && w.Extra() == elevationGain
    ensures w.description == Description(Cycling, date)
  {
    Workout(id, date, coords, distance, duration, 0, "", CyclingDetails(elevationGain, Undefined))
      .CalcSpeed()
      .(description := Description(Cycling, date))
  }
}
