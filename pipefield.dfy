// The list of pipe rectangles: spawning and the filter-then-move step (game.py:107-114).
module PipeField {
  import opened Numeric
  import opened Geometry

  /** The filter of the comprehension at game.py:114, read on the position BEFORE the move. */
  predicate OnScreen(r: Rect)
  {
    r.x > -PipeWidth
  }

  /** The pipes the comprehension keeps, in their order. */
  function Kept(p: seq<Rect>): (q: seq<Rect>)
    ensures |q| <= |p|
    ensures forall r :: r in q ==> r in p && OnScreen(r)
  {
    if p == [] then []
    else (if OnScreen(p[0]) then [p[0]] else []) + Kept(p[1..])
  }

  /** Every rectangle moved `d` to the left: pipe.move(-d, 0). */
  function Shifted(p: seq<Rect>, d: int): (q: seq<Rect>)
    ensures |q| == |p|
    ensures forall i :: 0 <= i < |p| ==>
      q[i].x == p[i].x - d && q[i].y == p[i].y && q[i].w == p[i].w && q[i].h == p[i].h
  {
    if p == [] then [] else [p[0].Move(-d, 0)] + Shifted(p[1..], d)
  }

  /** int(pipe_speed * game_speed_multiplier): how far every pipe moves in one frame. */
  function Stride(speed: int, m: real): (d: int)
    requires 0 <= speed && 0.0 <= m
    ensures 0 <= d && d as real <= speed as real * m
    ensures 1.0 <= m ==> speed <= d
  {
    if 1.0 <= m then ScaleByAtLeastOne(speed as real, m); Trunc(speed as real * m)
    else Trunc(speed as real * m)
  }

  /** The whole of game.py:114: filter on the old position, then move. */
  function Advance(p: seq<Rect>, speed: int, m: real): (q: seq<Rect>)
    requires 0 <= speed && 0.0 <= m
    ensures |q| <= |p|
  {
    Shifted(Kept(p), Stride(speed, m))
  }

  /** Filtering commutes with concatenation, so the kept pipes stay in their order. */
  lemma {:induction false} KeptAppend(a: seq<Rect>, b: seq<Rect>)
    ensures Kept(a + b) == Kept(a) + Kept(b)
  {
    if a == [] {
      assert a + b == b;
    } else {
      assert (a + b)[0] == a[0];
      assert (a + b)[1..] == a[1..] + b;
      KeptAppend(a[1..], b);
    }
  }

  /** The filter keeps every on-screen rectangle as often as it occurs and drops every other. */
  lemma {:induction false} KeptExactly(p: seq<Rect>, r: Rect)
    ensures multiset(Kept(p))[r] == if OnScreen(r) then multiset(p)[r] else 0
  {
    if p != [] {
      KeptExactly(p[1..], r);
      assert p == [p[0]] + p[1..];
      assert multiset(p) == multiset{p[0]} + multiset(p[1..]);
    }
  }

  /** Moving commutes with concatenation. */
  lemma ShiftedAppend(a: seq<Rect>, b: seq<Rect>, d: int)
    ensures Shifted(a + b, d) == Shifted(a, d) + Shifted(b, d)
  {
    var l, r := Shifted(a + b, d), Shifted(a, d) + Shifted(b, d);
    assert |l| == |r|;
    forall i | 0 <= i < |l| ensures l[i] == r[i] {
      if i < |a| {
        assert (a + b)[i] == a[i];
      } else {
        assert (a + b)[i] == b[i - |a|];
      }
    }
  }

  /** The advance step treats the pipes one by one, in their order. */
  lemma AdvanceAppend(a: seq<Rect>, b: seq<Rect>, speed: int, m: real)
    requires 0 <= speed && 0.0 <= m
    ensures Advance(a + b, speed, m) == Advance(a, speed, m) + Advance(b, speed, m)
  {
    KeptAppend(a, b);
    ShiftedAppend(Kept(a), Kept(b), Stride(speed, m));
  }

  /**
   * A single pipe is kept iff its position before the move is on screen, and then
   * moved by the stride. So a pipe at x = -66 survives as x = -70 for one more frame.
   */
  lemma AdvanceOne(r: Rect, speed: int, m: real)
    requires 0 <= speed && 0.0 <= m
    ensures Advance([r], speed, m) == if OnScreen(r) then [r.Move(-Stride(speed, m), 0)] else []
  {
    assert [r][1..] == [];
  }

  /** A pair spawned this frame is moved in this same frame, right after the older pipes. */
  lemma SpawnedPairMovesAtOnce(p: seq<Rect>, gap: int, h: int, speed: int, m: real)
    requires OffsetFits(gap, h) && 0 <= speed && 0.0 <= m
    ensures var pair := CreatePipe(gap, h);
      Advance(p + [pair.0, pair.1], speed, m)
        == Advance(p, speed, m) + [pair.0.Move(-Stride(speed, m), 0), pair.1.Move(-Stride(speed, m), 0)]
  {
    var pair := CreatePipe(gap, h);
    AdvanceAppend(p, [pair.0, pair.1], speed, m);
    assert [pair.0, pair.1] == [pair.0] + [pair.1];
    AdvanceAppend([pair.0], [pair.1], speed, m);
    AdvanceOne(pair.0, speed, m);
    AdvanceOne(pair.1, speed, m);
  }
}
