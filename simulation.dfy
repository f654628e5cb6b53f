// One frame of the main loop as pure steps over a snapshot of the game's globals
// (game.py:70-80, 91-149). The class in game.dfy is proved against these steps.
module Simulation {
  import opened Geometry
  import opened Collision
  import opened Controls
  import opened PipeField
  import opened Difficulty

  /** HEIGHT // 2, where reset_game puts the bird. */
  const BirdStartY: real := (Height / 2) as real

  /** The module globals a frame reads and writes. */
  datatype World = World(
    birdY: real, velocity: real, score: real, pipes: seq<Rect>, lastPipe: int,
    multiplier: real, speed: int, gap: int, frequency: real, running: bool)
  {
    function Counters(): Tally { Tally(score, multiplier, frequency, gap) }
  }

  /** The answer game_over_screen waits for: SPACE restarts (reset_game reads the clock at `ticks`); ESC or closing the window exits the process. */
  datatype Reply = PlayAgain(ticks: int) | Leave

  /**
   * How a frame ends: the inner loop goes on, the inner loop ends because a QUIT
   * event cleared `running`, the inner loop is left by `break` after a restart from
   * the bounds check, or the process exits from the game-over screen.
   */
  datatype FrameEnd = Continued | Stopped | Restarting | Exited

  /** What holds from reset_game on: sane counters and the constant pipe speed. */
  predicate Consistent(w: World)
  {
    Sane(w.Counters()) && w.speed == InitialPipeSpeed
  }

  /** reset_game(), reading the clock at `ticks`; `running` is not one of its globals. */
  function Reset(w: World, ticks: int): (v: World)
    ensures Consistent(v) && v.running == w.running
    ensures v.pipes == [] && v.score == 0.0 && v.lastPipe == ticks
    ensures !OutOfBounds(BirdAt(v.birdY)) && v.velocity == 0.0
    ensures v.birdY == BirdStartY && v.frequency == InitialPipeFrequency
  {
    World(BirdStartY, 0.0, 0.0, [], ticks, 1.0, InitialPipeSpeed, InitialPipeGap, InitialPipeFrequency, w.running)
  }

  /** The event loop: velocity from the steering keys, QUIT clears `running`. */
  function Steer(w: World, events: seq<Event>): (v: World)
    ensures v == w.(velocity := v.velocity, running := v.running)
    ensures v.velocity == Velocity(events, w.velocity, w.multiplier)
    ensures v.running <==> w.running && Quit !in events
  {
    w.(velocity := Velocity(events, w.velocity, w.multiplier), running := w.running && Quit !in events)
  }

  /** bird_y += bird_velocity_y; no gravity takes part. */
  function Fly(w: World): (v: World)
    ensures v == w.(birdY := v.birdY) && v.birdY - w.birdY == w.velocity
  {
    w.(birdY := w.birdY + w.velocity)
  }

  /** current_time - last_pipe > pipe_frequency (strict). */
  predicate SpawnDue(w: World, now: int)
  {
    (now - w.lastPipe) as real > w.frequency
  }

  /** The spawn step at time `now`, `h` being the sample randint draws when it fires. */
  function Spawn(w: World, now: int, h: int): (v: World)
    requires OffsetFits(w.gap, h)
    ensures v == w.(pipes := v.pipes, lastPipe := v.lastPipe)
    ensures |w.pipes| <= |v.pipes| && v.pipes[..|w.pipes|] == w.pipes
    ensures |v.pipes| == |w.pipes| + (if SpawnDue(w, now) then 2 else 0)
    ensures v.lastPipe == if SpawnDue(w, now) then now else w.lastPipe
    ensures SpawnDue(w, now) ==> v.pipes[|w.pipes|] == CreatePipe(w.gap, h).0 && v.pipes[|w.pipes| + 1] == CreatePipe(w.gap, h).1
  {
    if SpawnDue(w, now) then
      var pair := CreatePipe(w.gap, h);
      w.(pipes := w.pipes + [pair.0, pair.1], lastPipe := now)
    else w
  }

  /** The filter-then-move step. */
  function MovePipes(w: World): (v: World)
    requires 0 <= w.speed && 0.0 <= w.multiplier
    ensures v == w.(pipes := v.pipes) && |v.pipes| <= |w.pipes|
    ensures v.pipes == Advance(w.pipes, w.speed, w.multiplier)
  {
    w.(pipes := Advance(w.pipes, w.speed, w.multiplier))
  }

  /** The scoring loop. */
  function Score(w: World): (v: World)
    requires 0.0 < w.multiplier
    ensures v.birdY == w.birdY && v.velocity == w.velocity && v.lastPipe == w.lastPipe
    ensures v.speed == w.speed && v.running == w.running
    ensures |v.pipes| == |w.pipes| && forall i :: 0 <= i < |w.pipes| ==> v.pipes[i] == Mark(w.pipes[i])
    ensures Consistent(w) ==> Consistent(v) && w.multiplier <= v.multiplier && v.frequency <= w.frequency
  {
    ScorePassTally(w.pipes, w.Counters());
    var (q, t) := ScorePass(w.pipes, w.Counters());
    w.(pipes := q, score := t.score, multiplier := t.multiplier, frequency := t.frequency, gap := t.gap)
  }

  /** The globals when the collision loop starts: after events, bird motion, spawn and advance. */
  function Staged(w: World, events: seq<Event>, now: int, h: int): (v: World)
    requires Consistent(w) && OffsetFits(w.gap, h)
    ensures Consistent(v)
  {
    MovePipes(Spawn(Fly(Steer(w, events)), now, h))
  }

  /** bird_rect as built at game.py:105, right after the bird moved; the rest of the frame uses it. */
  function StagedBird(w: World, events: seq<Event>): BirdRect
  {
    BirdAt(Fly(Steer(w, events)).birdY)
  }

  /**
   * One pass of the inner loop, in the source's order: events, bird motion, spawn,
   * filter/move, pipe collision, bounds check (on the bird rectangle built before a
   * collision restart), scoring.
   */
  function Step(w: World, events: seq<Event>, now: int, h: int, onHit: Reply, onOut: Reply): (r: (World, FrameEnd))
    requires Consistent(w) && w.running && OffsetFits(w.gap, h)
    ensures Consistent(r.0)
    ensures r.1 == Continued ==> r.0.running
    ensures r.1 == Stopped || r.1 == Exited ==> !r.0.running
    ensures Quit in events ==> !r.0.running
    ensures OutOfBounds(StagedBird(w, events)) ==> r.1 == Restarting || r.1 == Exited
    ensures AnyCollides(StagedBird(w, events), Staged(w, events, now, h).pipes) && onHit.Leave? ==>
      r.1 == Exited && !r.0.running
    ensures r.1 == Restarting || r.1 == Exited ==>
      OutOfBounds(StagedBird(w, events)) || AnyCollides(StagedBird(w, events), Staged(w, events, now, h).pipes)
    ensures !AnyCollides(StagedBird(w, events), Staged(w, events, now, h).pipes) && !OutOfBounds(StagedBird(w, events)) ==>
      r.0.running == (Quit !in events) && r.1 == (if Quit in events then Stopped else Continued)
    ensures OutOfBounds(StagedBird(w, events)) && !(AnyCollides(StagedBird(w, events), Staged(w, events, now, h).pipes) && onHit.Leave?) ==>
      r.1 == (if onOut.Leave? then Exited else Restarting)
    ensures r.1 == Restarting ==>
      onOut.PlayAgain? && r.0.pipes == [] && r.0.score == 0.0 && r.0.birdY == BirdStartY && r.0.lastPipe == onOut.ticks
  {
    var staged := Staged(w, events, now, h);
    var bird := StagedBird(w, events);
    var hit := AnyCollides(bird, staged.pipes);
    if hit && onHit.Leave? then (staged.(running := false), Exited)
    else
      var afterHit := if hit then Reset(staged, onHit.ticks) else staged;
      if OutOfBounds(bird) then
        if onOut.Leave? then (afterHit.(running := false), Exited)
        else (Reset(afterHit, onOut.ticks), Restarting)
      else
        var scored := Score(afterHit);
        (scored, if scored.running then Continued else Stopped)
  }

  /**
   * A frame with no game over moves the bird by exactly its velocity, scores the
   * advanced pipes, and only raises the multiplier and score and only shortens the
   * spawn interval.
   */
  lemma StepWithoutGameOver(w: World, events: seq<Event>, now: int, h: int, onHit: Reply, onOut: Reply)
    requires Consistent(w) && w.running && OffsetFits(w.gap, h)
    requires !AnyCollides(StagedBird(w, events), Staged(w, events, now, h).pipes)
    requires !OutOfBounds(StagedBird(w, events))
    ensures var (v, end) := Step(w, events, now, h, onHit, onOut);
      (end == Continued || end == Stopped) &&
      v.birdY == w.birdY + Velocity(events, w.velocity, w.multiplier) &&
      v.pipes == ScorePass(Staged(w, events, now, h).pipes, w.Counters()).0 &&
      w.multiplier <= v.multiplier && w.score <= v.score && v.frequency <= w.frequency
  {
    var staged := Staged(w, events, now, h);
    assert staged.Counters() == w.Counters();
    ScorePassTally(staged.pipes, staged.Counters());
  }

  /**
   * After a collision answered with SPACE, the frame carries on with the reset
   * globals; when the stale bird rectangle is in bounds the frame ends as a fresh game.
   */
  lemma CollisionThenRestart(w: World, events: seq<Event>, now: int, h: int, ticks: int, onOut: Reply)
    requires Consistent(w) && w.running && OffsetFits(w.gap, h)
    requires AnyCollides(StagedBird(w, events), Staged(w, events, now, h).pipes)
    requires !OutOfBounds(StagedBird(w, events))
    ensures var (v, end) := Step(w, events, now, h, PlayAgain(ticks), onOut);
      v == Reset(Staged(w, events, now, h), ticks) && (end == Continued || end == Stopped)
  {
    var reset := Reset(Staged(w, events, now, h), ticks);
    NothingToScore(reset.pipes, reset.Counters());
  }

  /**
   * The bounds check after a collision restart still looks at the bird rectangle
   * built before the reset: a bird that left the screen and hit a pipe in the same
   * frame meets the game-over screen twice, although the reset bird is in bounds.
   */
  lemma StaleRectAfterRestart(w: World, events: seq<Event>, now: int, h: int, ticks: int, onOut: Reply)
    requires Consistent(w) && w.running && OffsetFits(w.gap, h)
    requires AnyCollides(StagedBird(w, events), Staged(w, events, now, h).pipes)
    requires OutOfBounds(StagedBird(w, events))
    ensures !OutOfBounds(BirdAt(Reset(Staged(w, events, now, h), ticks).birdY))
    ensures Step(w, events, now, h, PlayAgain(ticks), onOut).1 == if onOut.Leave? then Exited else Restarting
  {
  }

  /** A frame that does not spawn leaves `last_pipe` alone; one that does records `now` and adds a moved pair at the end. */
  lemma SpawnInFrame(w: World, events: seq<Event>, now: int, h: int)
    requires Consistent(w) && OffsetFits(w.gap, h)
    ensures var s := Staged(w, events, now, h);
      var pair := CreatePipe(w.gap, h);
      var d := Stride(w.speed, w.multiplier);
      if SpawnDue(w, now) then
        s.lastPipe == now && s.pipes == Advance(w.pipes, w.speed, w.multiplier) + [pair.0.Move(-d, 0), pair.1.Move(-d, 0)]
      else
        s.lastPipe == w.lastPipe && s.pipes == Advance(w.pipes, w.speed, w.multiplier)
  {
    var flown := Fly(Steer(w, events));
    if SpawnDue(w, now) {
      SpawnedPairMovesAtOnce(w.pipes, w.gap, h, w.speed, w.multiplier);
      var pair := CreatePipe(w.gap, h);
      assert Spawn(flown, now, h).pipes == w.pipes + [pair.0, pair.1];
    }
  }

  /** From reset_game on the gap stays in [100, 130], so randint's range [50, 350 - gap] is never empty. */
  lemma SpawnRangeNonEmpty(w: World)
    requires Consistent(w)
    ensures MinPipeGap <= w.gap <= InitialPipeGap
    ensures OffsetFits(w.gap, Margin) && OffsetFits(w.gap, Height - w.gap - Margin)
  {
  }
}
