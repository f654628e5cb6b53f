// The game's module globals as one object whose methods are the main loop's steps
// (game.py:33-38, 70-80, 83-149).
module Game {
  import opened Numeric
  import opened Geometry
  import opened Collision
  import opened Controls
  import opened PipeField
  import opened Difficulty
  import opened Simulation

  class Session {
    var birdY: real
    var birdVelocityY: real
    var score: real
    var pipes: seq<Rect>
    var lastPipe: int
    var gameSpeedMultiplier: real
    var pipeSpeed: int
    var pipeGap: int
    var pipeFrequency: real
    var running: bool

    /** The abstract value of the session, the one Simulation's steps act on. */
    function Snapshot(): World
      reads this
    {
      World(birdY, birdVelocityY, score, pipes, lastPipe,
            gameSpeedMultiplier, pipeSpeed, pipeGap, pipeFrequency, running)
    }

    ghost predicate Valid()
      reads this
    {
      Consistent(Snapshot())
    }

    /** Program start: the globals of game.py:33-38, `running = True`, then reset_game() at `ticks`. */
    constructor (ticks: int)
      ensures Valid() && running
      ensures Snapshot() == Simulation.Reset(Snapshot(), ticks)
    {
      birdY, birdVelocityY, score, pipes, lastPipe := BirdStartY, 0.0, 0.0, [], ticks;
      gameSpeedMultiplier, pipeSpeed, pipeGap, pipeFrequency := 1.0, InitialPipeSpeed, InitialPipeGap, InitialPipeFrequency;
      running := true;
    }

    /** reset_game(), reading the clock at `ticks`. */
    method Reset(ticks: int)
      modifies this
      ensures Valid()
      ensures Snapshot() == Simulation.Reset(old(Snapshot()), ticks)
    {
      birdY := BirdStartY;
      birdVelocityY := 0.0;
      score := 0.0;
      pipes := [];
      lastPipe := ticks;
      gameSpeedMultiplier := 1.0;
      pipeSpeed := InitialPipeSpeed;
      pipeGap := InitialPipeGap;
      pipeFrequency := InitialPipeFrequency;
    }

    /** The event loop of one frame. */
    method HandleEvents(events: seq<Event>)
      modifies this
      ensures Snapshot() == Steer(old(Snapshot()), events)
    {
      for i := 0 to |events|
        invariant Snapshot() == Steer(old(Snapshot()), events[..i])
      {
        var event := events[i];
        if event == Quit {
          running := false;
        }
        if event.KeyDown? {
          if event.key == Up {
            birdVelocityY := -(BirdBaseSpeed as real) * gameSpeedMultiplier;
          } else if event.key == Down {
            birdVelocityY := BirdBaseSpeed as real * gameSpeedMultiplier;
          }
        }
        if event.KeyUp? && (event.key == Up || event.key == Down) {
          birdVelocityY := 0.0;
        }
        assert events[..i + 1][..i] == events[..i];
        assert events[..i + 1] == events[..i] + [event];
      }
      assert events[..|events|] == events;
    }

    /** Bird motion: one step of the current velocity. */
    method MoveBird()
      modifies this
      ensures Snapshot() == Fly(old(Snapshot()))
    {
      birdY := birdY + birdVelocityY;
    }

    /** The spawn step at time `now`; `h` is randint's sample. */
    method SpawnIfDue(now: int, h: int)
      requires OffsetFits(pipeGap, h)
      modifies this
      ensures Snapshot() == Spawn(old(Snapshot()), now, h)
    {
      if (now - lastPipe) as real > pipeFrequency {
        var pair := CreatePipe(pipeGap, h);
        pipes := pipes + [pair.0, pair.1];
        lastPipe := now;
      }
    }

    /** The comprehension that drops the pipes already off screen and moves the others. */
    method MovePipes()
      requires 0 <= pipeSpeed && 0.0 <= gameSpeedMultiplier
      modifies this
      ensures Snapshot() == Simulation.MovePipes(old(Snapshot()))
    {
      pipes := Advance(pipes, pipeSpeed, gameSpeedMultiplier);
    }

    /** One turn of the scoring loop, on the rectangle at index `i`. */
    method ScoreAt(i: nat)
      requires i < |pipes| && 0.0 < gameSpeedMultiplier
      modifies this
      ensures pipes == old(pipes)[i := Mark(old(pipes)[i])]
      ensures Snapshot().Counters() == if Eligible(old(pipes)[i]) then Bump(old(Snapshot().Counters())) else old(Snapshot().Counters())
      ensures birdY == old(birdY) && birdVelocityY == old(birdVelocityY) && lastPipe == old(lastPipe)
      ensures pipeSpeed == old(pipeSpeed) && running == old(running)
    {
      var pipe := pipes[i];
      if pipe.Right() < BirdX && !(pipe.w == 0) {
        score := score + 0.5;
        pipes := pipes[i := pipe.(w := 0)];
        gameSpeedMultiplier := gameSpeedMultiplier + 0.03;
        pipeFrequency := MaxReal(MinPipeFrequency, pipeFrequency * 0.97);
        pipeGap := GapFor(gameSpeedMultiplier);
      }
    }

    /** The scoring loop: marks each passed rectangle with width 0 and raises the difficulty. */
    method UpdateScore()
      requires 0.0 < gameSpeedMultiplier
      modifies this
      ensures Snapshot() == Simulation.Score(old(Snapshot()))
    {
      ghost var start := pipes;
      ghost var counters := Snapshot().Counters();
      for i := 0 to |pipes|
        invariant |pipes| == |start|
        invariant forall j :: 0 <= j < i ==> pipes[j] == Mark(start[j])
        invariant forall j :: i <= j < |start| ==> pipes[j] == start[j]
        invariant 0.0 < gameSpeedMultiplier
        invariant Snapshot().Counters() == ScorePass(start[..i], counters).1
        invariant birdY == old(birdY) && birdVelocityY == old(birdVelocityY) && lastPipe == old(lastPipe)
        invariant pipeSpeed == old(pipeSpeed) && running == old(running)
      {
        ScorePassSnoc(start[..i], pipes[i], counters);
        assert start[..i + 1] == start[..i] + [pipes[i]];
        ScoreAt(i);
      }
      assert start[..|start|] == start;
      assert pipes == ScorePass(start, counters).0;
    }

    /**
     * One pass of the inner loop at time `now`: `h` is randint's sample, `onHit` and
     * `onOut` the answers the game-over screen would get from the collision and the
     * bounds check.
     */
    method Frame(events: seq<Event>, now: int, h: int, onHit: Reply, onOut: Reply) returns (end: FrameEnd)
      requires Valid() && running && OffsetFits(pipeGap, h)
      modifies this
      ensures Valid()
      ensures (Snapshot(), end) == Step(old(Snapshot()), events, now, h, onHit, onOut)
    {
      HandleEvents(events);
      MoveBird();
      var birdRect := BirdAt(birdY);
      SpawnIfDue(now, h);
      MovePipes();
      var hit := FindCollision(birdRect, pipes);
      if hit {
        match onHit
        case Leave =>
          running := false;
          return Exited;
        case PlayAgain(ticks) =>
          Reset(ticks);
      }
      if OutOfBounds(birdRect) {
        match onOut
        case Leave =>
          running := false;
          return Exited;
        case PlayAgain(ticks) =>
          Reset(ticks);
          return Restarting;
      }
      UpdateScore();
      end := if running then Continued else Stopped;
    }

    /**
     * One turn of the nested loops: a frame, and after a restart from the bounds
     * check the outer loop's own reset_game() at `restartTicks` when `running` still holds.
     */
    method Turn(events: seq<Event>, now: int, h: int, onHit: Reply, onOut: Reply, restartTicks: int) returns (end: FrameEnd)
      requires Valid() && running && OffsetFits(pipeGap, h)
      modifies this
      ensures Valid()
      ensures var (v, e) := Step(old(Snapshot()), events, now, h, onHit, onOut);
        end == e && Snapshot() == if e == Restarting && v.running then Simulation.Reset(v, restartTicks) else v
    {
      end := Frame(events, now, h, onHit, onOut);
      if end == Restarting && running {
        Reset(restartTicks);
      }
    }
  }
}
