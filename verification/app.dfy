/** The application's state rules: submitting the form appends a validated workout,
    and clicking a list entry looks its workout up by id to centre the map. */
module App {
  import opened Wrappers
  import opened Validation
  import opened Workouts

  /** `#mapZoomLevel`. */
  const MapZoomLevel: int := 13

  const InvalidInputsAlert: string := "Inputs have to be positive numbers!"

  /** The form fields after `+input.value`, and the type selector. */
  datatype Form = Form(kind: Kind, distance: Num, duration: Num, cadence: Num, elevation: Num)

  /** The workout list after a submit, and the alert shown, if any. */
  datatype Outcome = Outcome(workouts: seq<Workout>, alert: Option<string>)

  /** The view the map is asked to show. */
  datatype View = View(center: Coords, zoom: int)

  /** Acceptance read field by field: distance and duration finite and positive; for
      running the cadence finite and positive too, for cycling the elevation only
      finite. */
  predicate Acceptable(f: Form) {
    && f.distance.Finite? && f.distance.value > 0.0
    && f.duration.Finite? && f.duration.value > 0.0
    && match f.kind
       case Running => f.cadence.Finite? && f.cadence.value > 0.0
       case Cycling => f.elevation.Finite?
  }

  /** The submit handler's check, `validInputs(...) && allPositive(...)`, over the
      inputs each type passes to it. */
  function InputsValid(f: Form): (ok: bool)
    ensures ok <==> Acceptable(f)
  {
    match f.kind
    case Running =>
      var inputs := [f.distance, f.duration, f.cadence];
      assert AllFinite(inputs) <==> IsFinite(inputs[0]) && IsFinite(inputs[1]) && IsFinite(inputs[2]);
      assert AllPositive(inputs) <==> IsPositive(inputs[0]) && IsPositive(inputs[1]) && IsPositive(inputs[2]);
      AllFinite(inputs) && AllPositive(inputs)
    case Cycling =>
      var finite := [f.distance, f.duration, f.elevation];
      var positive := [f.distance, f.duration];
      assert AllFinite(finite) <==> IsFinite(finite[0]) && IsFinite(finite[1]) && IsFinite(finite[2]);
      assert AllPositive(positive) <==> IsPositive(positive[0]) && IsPositive(positive[1]);
      AllFinite(finite) && AllPositive(positive)
  }

  /** `_newWorkout`: on invalid inputs alert and leave the list alone; otherwise
      append exactly one workout of the selected type at the clicked position. */
  function NewWorkout(workouts: seq<Workout>, f: Form, click: Coords, clock: Clock): (r: Outcome)
    ensures r.alert.None? <==> Acceptable(f)
    ensures !Acceptable(f) ==> r.workouts == workouts && r.alert == Some(InvalidInputsAlert)
    ensures Acceptable(f) ==>
      && |r.workouts| == |workouts| + 1
      && r.workouts[..|workouts|] == workouts
      && var w := r.workouts[|workouts|];
         && w.Type() == f.kind
         && w.base.coords == click
         && w.base.distance == f.distance.value
         && w.base.duration == f.duration.value
         && w.base.id == Id(clock.now)
         && w.base.date == clock.today
         && w.base.clicks == 0
         && (w.RunningWorkout? ==> w.cadence == f.cadence.value)
         && (w.CyclingWorkout? ==> w.elevationGain == f.elevation.value)
         && Valid(w)
  {
    if !InputsValid(f) then
      Outcome(workouts, Some(InvalidInputsAlert))
    else
      var w := Build(f, click, clock);
      Outcome(workouts + [w], None)
  }

  /** The workout an accepted form yields. */
  function Build(f: Form, click: Coords, clock: Clock): (w: Workout)
    requires Acceptable(f)
    ensures Valid(w)
  {
    var distance := f.distance.value;
    var duration := f.duration.value;
    match f.kind
    case Running =>
      (NewRunningValid(click, distance, duration, f.cadence.value, clock);
       NewRunning(click, distance, duration, f.cadence.value, clock))
    case Cycling =>
      (NewCyclingValid(click, distance, duration, f.elevation.value, clock);
       NewCycling(click, distance, duration, f.elevation.value, clock))
  }

  predicate AllValid(workouts: seq<Workout>) {
    forall i :: 0 <= i < |workouts| ==> Valid(workouts[i])
  }

  /** Submitting keeps every stored workout valid. */
  lemma NewWorkoutPreservesValid(workouts: seq<Workout>, f: Form, click: Coords, clock: Clock)
    requires AllValid(workouts)
    ensures AllValid(NewWorkout(workouts, f, click, clock).workouts)
  {
  }

  /** A cycling submission with finite positive distance and duration is accepted
      for every finite elevation, zero and negative included. */
  lemma CyclingAcceptsAnyFiniteElevation(f: Form, click: Coords, clock: Clock, workouts: seq<Workout>)
    requires f.kind == Cycling
    requires f.distance.Finite? && f.distance.value > 0.0
    requires f.duration.Finite? && f.duration.value > 0.0
    ensures NewWorkout(workouts, f, click, clock).alert.None? <==> f.elevation.Finite?
  {
  }

  /** Each type reads only its own secondary field: the cadence field never affects a
      cycling submission and the elevation field never affects a running one. */
  lemma SecondaryFieldIgnored(workouts: seq<Workout>, f: Form, other: Num, click: Coords, clock: Clock)
    ensures f.kind == Running ==>
      NewWorkout(workouts, f.(elevation := other), click, clock) == NewWorkout(workouts, f, click, clock)
    ensures f.kind == Cycling ==>
      NewWorkout(workouts, f.(cadence := other), click, clock) == NewWorkout(workouts, f, click, clock)
  {
  }

  /** A running submission of 5 km in 24 min at cadence 178, clicked at (39, -12),
      stores one running workout there with a pace of 4.8 min/km. */
  lemma RunningSubmitScenario(clock: Clock)
    ensures var r := NewWorkout([], Form(Running, Finite(5.0), Finite(24.0), Finite(178.0), Finite(0.0)), Coords(39.0, -12.0), clock);
      && r.alert.None?
      && |r.workouts| == 1
      && r.workouts[0].RunningWorkout?
      && r.workouts[0].Type().Name() == "running"
      && r.workouts[0].base.coords == Coords(39.0, -12.0)
      && r.workouts[0].pace == 4.8
  {
  }

  /** A submission with distance -1 is refused and the empty list stays empty. */
  lemma NegativeDistanceScenario(kind: Kind, clock: Clock)
    ensures var r := NewWorkout([], Form(kind, Finite(-1.0), Finite(24.0), Finite(178.0), Finite(10.0)), Coords(39.0, -12.0), clock);
      && r.alert == Some(InvalidInputsAlert)
      && |r.workouts| == 0
  {
  }

  /** `workouts.find(work => work.id === id)`, as the index of the first match. */
  function FindIndex(workouts: seq<Workout>, id: string): (r: Option<nat>)
    ensures r.None? <==> forall i :: 0 <= i < |workouts| ==> workouts[i].base.id != id
    ensures r.Some? ==> r.value < |workouts| && workouts[r.value].base.id == id
    ensures r.Some? ==> forall j :: 0 <= j < r.value ==> workouts[j].base.id != id
  {
    if |workouts| == 0 then None
    else if workouts[0].base.id == id then Some(0)
    else match FindIndex(workouts[1..], id)
      case None => None
      case Some(i) => Some(i + 1)
  }

  /** The workout `find` returns: the first one with the requested id, or nothing
      when no workout has it. */
  function Find(workouts: seq<Workout>, id: string): (r: Option<Workout>)
    ensures r.None? <==> forall i :: 0 <= i < |workouts| ==> workouts[i].base.id != id
    ensures r.Some? ==> r.value in workouts && r.value.base.id == id
    ensures r.Some? ==> exists i :: 0 <= i < |workouts| && r.value == workouts[i]
                          && forall j :: 0 <= j < i ==> workouts[j].base.id != id
  {
    match FindIndex(workouts, id)
    case None => None
    case Some(i) => Some(workouts[i])
  }

  /** Appending a workout never changes which workout an existing id finds; the new
      workout is found by its id only when no earlier workout has that id. */
  lemma {:induction false} FindAfterAppend(workouts: seq<Workout>, w: Workout, id: string)
    ensures FindIndex(workouts + [w], id) ==
      if FindIndex(workouts, id).Some? then FindIndex(workouts, id)
      else if w.base.id == id then Some(|workouts|)
      else None
  {
    var all := workouts + [w];
    forall i | 0 <= i < |workouts|
      ensures all[i] == workouts[i]
    {
    }
    assert all[|workouts|] == w;
  }

  /** `_moveToPopup`: a click outside any list entry does nothing; a click on an entry
      centres the map on the first workout carrying that entry's id. The source
      dereferences the lookup result unguarded, so the id must be present. */
  function MoveToPopup(workouts: seq<Workout>, target: Option<string>): (r: Option<View>)
    requires target.Some? ==> Find(workouts, target.value).Some?
    ensures target.None? ==> r.None?
    ensures target.Some? ==>
      && r.Some?
      && r.value.zoom == MapZoomLevel
      && exists i :: 0 <= i < |workouts|
           && workouts[i].base.id == target.value
           && r.value.center == workouts[i].base.coords
           && forall j :: 0 <= j < i ==> workouts[j].base.id != target.value
  {
    match target
    case None => None
    case Some(id) =>
      var i := FindIndex(workouts, id).value;
      Some(View(workouts[i].base.coords, MapZoomLevel))
  }
}
