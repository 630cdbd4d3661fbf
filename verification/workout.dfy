/** The workout domain: a shared base record and the two variants, running and
    cycling, each with its derived metric, plus the derived id and description. */
module Workouts {
  import opened Decimal

  /** A map position, `[lat, lng]`. */
  datatype Coords = Coords(lat: real, lng: real)

  /** `Date.prototype.getMonth()`: 0 for January through 11 for December. */
  type Month = m: int | 0 <= m < 12

  /** `Date.prototype.getDate()`: the day of the month. */
  type Day = d: int | 1 <= d <= 31 witness 1

  datatype CalendarDate = CalendarDate(month: Month, day: Day)

  /** What the constructors read from the browser clock: `Date.now()` in milliseconds
      for the id, and the calendar day of `new Date()` for the date. */
  datatype Clock = Clock(now: nat, today: CalendarDate)

  /** The `type` discriminator. */
  datatype Kind = Running | Cycling {
    function Name(): (s: string)
      ensures |s| == 7
    {
      match this
      case Running => "running"
      case Cycling => "cycling"
    }
  }

  /** The fields every workout shares. */
  datatype Base = Base(
    coords: Coords,
    distance: real,     // km
    duration: real,     // min
    date: CalendarDate,
    id: string,
    clicks: nat,
    description: string)

  /** A workout is one of the two variants, each adding its own input and metric. */
  datatype Workout =
    | RunningWorkout(base: Base, cadence: real, pace: real)
    | CyclingWorkout(base: Base, elevationGain: real, speed: real)
  {
    function Type(): Kind {
      if RunningWorkout? then Running else Cycling
    }
  }

  const MonthNames: seq<string> :=
    ["January", "February", "March", "April", "May", "June", "July",
     "August", "September", "October", "November", "December"]

  /** `String.prototype.toUpperCase()` on one character, for the ASCII letters the
      type names are made of. */
  function ToUpper(c: char): char {
    if 'a' <= c <= 'z' then (c as int - 32) as char else c
  }

  /** The first character upper-cased, the rest kept: `s[0].toUpperCase() + s.slice(1)`.
      Indexing the empty string fails in the source, hence the precondition. */
  function Capitalize(s: string): (r: string)
    requires |s| > 0
    ensures |r| == |s|
  {
    [ToUpper(s[0])] + s[1..]
  }

  /** The description text: "<Type> on <Month> <day>". */
  function Description(kind: Kind, date: CalendarDate): string {
    Capitalize(kind.Name()) + " on " + MonthNames[date.month] + " " + Digits(date.day)
  }

  function Min(a: nat, b: nat): nat {
    if a <= b then a else b
  }

  /** The id, `(Date.now() + '').slice(-10)`: at most the last ten characters of the
      timestamp's decimal text. */
  function Id(now: nat): (id: string)
    ensures |id| == Min(10, |Digits(now)|)
    ensures id == Suffix(Digits(now), |id|)
  {
    var text := Digits(now);
    if |text| <= 10 then text else Suffix(text, 10)
  }

  /** The id read as a number is the timestamp modulo 10^10: it drops exactly the
      leading digits beyond the tenth, so two timestamps share an id iff they agree
      modulo 10^10. */
  lemma IdIsTimestampModulo(now: nat)
    ensures AllDigits(Id(now))
    ensures Parse(Id(now)) == now % Pow10(10)
  {
    var text := Digits(now);
    var p := Pow10(10);
    ParseDigits(now);
    if |text| <= 10 {
      assert Id(now) == text;
      if now >= p {
        DigitsLength(now, 10);
      }
      SmallMod(now, p);
    } else {
      assert Id(now) == Suffix(text, 10);
      ParseSuffix(text, 10);
    }
  }

  lemma SmallMod(n: nat, p: nat)
    requires n < p
    ensures n % p == n
  {
  }

  /** Every timestamp from 10^9 ms onward (any date after 1970-01-12) has a full
      ten-character id. */
  lemma IdHasTenCharacters(now: nat)
    requires now >= Pow10(9)
    ensures |Id(now)| == 10
  {
    DigitsLength(now, 9);
  }

  function NewBase(coords: Coords, distance: real, duration: real, kind: Kind, clock: Clock): Base {
    Base(coords, distance, duration, clock.today, Id(clock.now), 0, Description(kind, clock.today))
  }

  /** `new Running(coords, distance, duration, cadence)`: the base fields as given,
      the cadence as given, and the pace in minutes per kilometre. */
  function NewRunning(coords: Coords, distance: real, duration: real, cadence: real, clock: Clock): (w: Workout)
    requires distance != 0.0
    ensures w.Type() == Running && w.RunningWorkout?
    ensures w.base.coords == coords && w.base.distance == distance && w.base.duration == duration
    ensures w.base.date == clock.today && w.base.id == Id(clock.now) && w.base.clicks == 0
    ensures w.cadence == cadence
    ensures w.pace * distance == duration
    ensures w.base.description == Description(Running, clock.today)
  {
    RunningWorkout(NewBase(coords, distance, duration, Running, clock), cadence, duration / distance)
  }

  /** `new Cycling(coords, distance, duration, elevationGain)`: the base fields as
      given, the elevation gain as given, and the speed in kilometres per hour. */
  function NewCycling(coords: Coords, distance: real, duration: real, elevationGain: real, clock: Clock): (w: Workout)
    requires duration != 0.0
    ensures w.Type() == Cycling && w.CyclingWorkout?
    ensures w.base.coords == coords && w.base.distance == distance && w.base.duration == duration
    ensures w.base.date == clock.today && w.base.id == Id(clock.now) && w.base.clicks == 0
    ensures w.elevationGain == elevationGain
    ensures w.speed * duration == 60.0 * distance
    ensures w.base.description == Description(Cycling, clock.today)
  {
    CyclingWorkout(NewBase(coords, distance, duration, Cycling, clock), elevationGain, distance / (duration / 60.0))
  }

  /** `click()`: one more click, nothing else changes. */
  function Click(w: Workout): (w': Workout)
    ensures w'.base.clicks == w.base.clicks + 1
    ensures w'.Type() == w.Type()
    ensures w'.base.(clicks := w.base.clicks) == w.base
    ensures w'.RunningWorkout? ==> w'.cadence == w.cadence && w'.pace == w.pace
    ensures w'.CyclingWorkout? ==> w'.elevationGain == w.elevationGain && w'.speed == w.speed
  {
    w.(base := w.base.(clicks := w.base.clicks + 1))
  }

  /** The invariants a stored workout keeps: positive distance and duration, positive
      cadence for running, and derived fields that agree with the inputs. */
  predicate Valid(w: Workout) {
    && w.base.distance > 0.0
    && w.base.duration > 0.0
    && |w.base.id| <= 10
    && w.base.description == Description(w.Type(), w.base.date)
    && match w
       case RunningWorkout(b, cadence, pace) => cadence > 0.0 && pace * b.distance == b.duration
       case CyclingWorkout(b, _, speed) => speed * b.duration == 60.0 * b.distance
  }

  /** A running workout built from positive inputs is valid, with a positive pace. */
  lemma NewRunningValid(coords: Coords, distance: real, duration: real, cadence: real, clock: Clock)
    requires distance > 0.0 && duration > 0.0 && cadence > 0.0
    ensures Valid(NewRunning(coords, distance, duration, cadence, clock))
    ensures NewRunning(coords, distance, duration, cadence, clock).pace > 0.0
  {
    var w := NewRunning(coords, distance, duration, cadence, clock);
    assert w.pace == duration / distance;
    assert w.base.description == Description(Running, clock.today);
  }

  /** A cycling workout built from positive distance and duration is valid whatever
      the elevation gain, with a positive speed. */
  lemma NewCyclingValid(coords: Coords, distance: real, duration: real, elevationGain: real, clock: Clock)
    requires distance > 0.0 && duration > 0.0
    ensures Valid(NewCycling(coords, distance, duration, elevationGain, clock))
    ensures NewCycling(coords, distance, duration, elevationGain, clock).speed > 0.0
  {
    var w := NewCycling(coords, distance, duration, elevationGain, clock);
    assert duration / 60.0 > 0.0;
    assert w.speed == distance / (duration / 60.0);
    assert w.base.description == Description(Cycling, clock.today);
  }

  /** Clicking keeps a workout valid. */
  lemma ClickPreservesValid(w: Workout)
    requires Valid(w)
    ensures Valid(Click(w))
  {
  }
}
