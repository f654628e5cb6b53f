// Keyboard events and the bird's velocity (game.py:91-101).
module Controls {
  import opened Geometry

  datatype Key = Up | Down | OtherKey

  datatype Event = Quit | KeyDown(key: Key) | KeyUp(key: Key) | OtherEvent

  /** An event that sets the velocity: pressing or releasing the up or down arrow. */
  predicate Steers(e: Event)
  {
    (e.KeyDown? || e.KeyUp?) && e.key != OtherKey
  }

  /** The velocity after one event, given the velocity before it and the speed multiplier `m`. */
  function React(e: Event, v: real, m: real): real
  {
    match e
    case KeyDown(Up) => -(BirdBaseSpeed as real) * m
    case KeyDown(Down) => BirdBaseSpeed as real * m
    case KeyUp(k) => if k == Up || k == Down then 0.0 else v
    case _ => v
  }

  /** The velocity after the frame's events, handled in order. */
  function Velocity(events: seq<Event>, v: real, m: real): (r: real)
    ensures r == v || r == 0.0 || r == BirdBaseSpeed as real * m || r == -(BirdBaseSpeed as real) * m
    ensures (forall j :: 0 <= j < |events| ==> !Steers(events[j])) ==> r == v
  {
    if events == [] then v
    else React(events[|events| - 1], Velocity(events[..|events| - 1], v, m), m)
  }

  /** A steering event sets the velocity whatever it was before. */
  lemma SteeringForgets(e: Event, v: real, w: real, m: real)
    requires Steers(e)
    ensures React(e, v, m) == React(e, w, m)
  {
  }

  /** Within one frame the last steering event decides the velocity. */
  lemma {:induction false} LastSteerWins(events: seq<Event>, k: nat, v: real, m: real)
    requires k < |events| && Steers(events[k])
    requires forall j :: k < j < |events| ==> !Steers(events[j])
    ensures Velocity(events, v, m) == React(events[k], v, m)
  {
    var n := |events| - 1;
    var prefix := events[..n];
    if k == n {
      SteeringForgets(events[k], Velocity(prefix, v, m), v, m);
    } else {
      assert forall j :: k < j < |prefix| ==> prefix[j] == events[j];
      LastSteerWins(prefix, k, v, m);
    }
  }
}
