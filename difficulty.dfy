// The scoring loop and the difficulty counters it drives (game.py:24-28, 143-149).
module Difficulty {
  import opened Numeric
  import opened Geometry

  const InitialPipeGap: int := 130
  const InitialPipeSpeed: int := 4
  const InitialPipeFrequency: real := 1500.0
  const MinPipeGap: int := 100
  const MinPipeFrequency: real := 800.0
  /** The factor each scored rectangle applies to the spawn interval. */
  const Decay: real := 0.97

  /** The counters the scoring loop accumulates into: score, multiplier, spawn interval, gap. */
  datatype Tally = Tally(score: real, multiplier: real, frequency: real, gap: int)

  /** max(100, int(initial_pipe_gap / multiplier)): the gap a multiplier allows. */
  function GapFor(m: real): (g: int)
    requires 0.0 < m
    ensures MinPipeGap <= g
    ensures 1.0 <= m ==> g <= InitialPipeGap
  {
    if 1.0 <= m then DivideByAtLeastOne(InitialPipeGap as real, m); MaxInt(MinPipeGap, Trunc(InitialPipeGap as real / m))
    else MaxInt(MinPipeGap, Trunc(InitialPipeGap as real / m))
  }

  /**
   * What holds of the counters from reset_game on: each scored rectangle adds 0.5
   * to the score and 0.03 to the multiplier, so the multiplier is 1 + 0.06 * score;
   * the spawn interval lies between its floor and its initial value; the gap is
   * the one the multiplier allows, hence within [100, 130].
   */
  predicate Sane(t: Tally)
  {
    0.0 <= t.score && t.multiplier == 1.0 + 0.06 * t.score &&
    MinPipeFrequency <= t.frequency <= InitialPipeFrequency &&
    t.gap == GapFor(t.multiplier)
  }

  /** The rectangle the scoring loop counts: wholly left of the bird and not yet marked. */
  predicate Eligible(r: Rect)
  {
    r.Right() < BirdX && r.w != 0
  }

  /** A rectangle after its turn in the scoring loop: counted ones get width 0. */
  function Mark(r: Rect): Rect
  {
    if Eligible(r) then r.(w := 0) else r
  }

  /** The counters after one rectangle is scored. */
  function Bump(t: Tally): (u: Tally)
    requires 0.0 < t.multiplier
    ensures t.multiplier < u.multiplier && t.score < u.score
    ensures Sane(t) ==> Sane(u) && u.frequency <= t.frequency
  {
    var m := t.multiplier + 0.03;
    Tally(t.score + 0.5, m, MaxReal(MinPipeFrequency, t.frequency * Decay), GapFor(m))
  }

  /** The scoring loop over `p`, front to back, starting from the counters `t`. */
  function ScorePass(p: seq<Rect>, t: Tally): (r: (seq<Rect>, Tally))
    requires 0.0 < t.multiplier
    ensures |r.0| == |p| && forall i :: 0 <= i < |p| ==> r.0[i] == Mark(p[i])
    ensures t.multiplier <= r.1.multiplier
  {
    if p == [] then (p, t)
    else
      var (q, u) := ScorePass(p[..|p| - 1], t);
      var last := p[|p| - 1];
      if Eligible(last) then (q + [last.(w := 0)], Bump(u)) else (q + [last], u)
  }

  /** The scoring loop taking one more rectangle at the end of the list. */
  lemma ScorePassSnoc(p: seq<Rect>, r: Rect, t: Tally)
    requires 0.0 < t.multiplier
    ensures ScorePass(p + [r], t).0 == ScorePass(p, t).0 + [Mark(r)]
    ensures ScorePass(p + [r], t).1 == if Eligible(r) then Bump(ScorePass(p, t).1) else ScorePass(p, t).1
    ensures Passed(p + [r]) == Passed(p) + if Eligible(r) then 1 else 0
  {
    assert (p + [r])[..|p|] == p;
  }

  /** How many rectangles of `p` the scoring loop counts. */
  function Passed(p: seq<Rect>): nat
  {
    if p == [] then 0
    else Passed(p[..|p| - 1]) + (if Eligible(p[|p| - 1]) then 1 else 0)
  }

  /**
   * One pass adds exactly 0.5 to the score and 0.03 to the multiplier per counted
   * rectangle, and keeps the counters sane with a spawn interval that never grows.
   */
  lemma {:induction false} ScorePassTally(p: seq<Rect>, t: Tally)
    requires 0.0 < t.multiplier
    ensures var u := ScorePass(p, t).1;
      u.score == t.score + 0.5 * Passed(p) as real &&
      u.multiplier == t.multiplier + 0.03 * Passed(p) as real &&
      (Sane(t) ==> Sane(u) && u.frequency <= t.frequency)
  {
    if p != [] {
      ScorePassTally(p[..|p| - 1], t);
    }
  }

  /** `b` raised to the power `n`. */
  function Pow(b: real, n: nat): (r: real)
    ensures 0.0 <= b ==> 0.0 <= r
  {
    if n == 0 then 1.0 else Pow(b, n - 1) * b
  }

  /** The interval `f` after `n` decay steps, each clamped to the floor. */
  function Decayed(f: real, n: nat): real
  {
    MaxReal(MinPipeFrequency, f * Pow(Decay, n))
  }

  /** One more decay step on an already decayed interval. */
  lemma DecayOnce(f: real, n: nat)
    requires MinPipeFrequency <= f
    ensures MaxReal(MinPipeFrequency, Decayed(f, n) * Decay) == Decayed(f, n + 1)
  {
    var pw := Pow(Decay, n);
    var x := f * pw;
    assert 0.0 <= x;
    assert f * (pw * Decay) == x * Decay;
  }

  /**
   * The spawn interval compounds: after a pass it is the old interval times
   * 0.97 once per counted rectangle, clamped to its floor.
   */
  lemma {:induction false} ScorePassFrequency(p: seq<Rect>, t: Tally)
    requires 0.0 < t.multiplier && MinPipeFrequency <= t.frequency
    ensures ScorePass(p, t).1.frequency == Decayed(t.frequency, Passed(p))
  {
    if p != [] {
      var prefix, r := p[..|p| - 1], p[|p| - 1];
      assert prefix + [r] == p;
      ScorePassSnoc(prefix, r, t);
      ScorePassFrequency(prefix, t);
      if Eligible(r) {
        DecayOnce(t.frequency, Passed(prefix));
      }
    }
  }

  /** Two scored rectangles from an interval of 1500 leave 1500 * 0.97 * 0.97. */
  lemma PairFrequency(top: Rect, bottom: Rect, t: Tally)
    requires 0.0 < t.multiplier && t.frequency == InitialPipeFrequency
    requires top.x == bottom.x && top.w == bottom.w && Eligible(top)
    ensures ScorePass([top, bottom], t).1.frequency == 1500.0 * 0.97 * 0.97
  {
    assert [top, bottom][..1] == [top];
    assert [top][..0] == [];
    assert Passed([top]) == 1;
    assert Passed([top, bottom]) == 2;
    ScorePassFrequency([top, bottom], t);
    assert Pow(Decay, 2) == Decay * Decay;
  }

  /** A pass over rectangles none of which is eligible changes nothing. */
  lemma {:induction false} NothingToScore(p: seq<Rect>, t: Tally)
    requires 0.0 < t.multiplier
    requires forall i :: 0 <= i < |p| ==> !Eligible(p[i])
    ensures ScorePass(p, t) == (p, t)
  {
    if p != [] {
      NothingToScore(p[..|p| - 1], t);
      assert p[..|p| - 1] + [p[|p| - 1]] == p;
    }
  }

  /** A second pass with no movement in between changes nothing: each rectangle is scored at most once. */
  lemma ScorePassIdempotent(p: seq<Rect>, t: Tally, t': Tally)
    requires 0.0 < t.multiplier && 0.0 < t'.multiplier
    ensures var q := ScorePass(p, t).0; ScorePass(q, t') == (q, t')
  {
    NothingToScore(ScorePass(p, t).0, t');
  }

  /** Both rectangles of a pair pass in the same frame: the score goes up by 1 and the multiplier by 0.06. */
  lemma PairScoresTwice(top: Rect, bottom: Rect, t: Tally)
    requires 0.0 < t.multiplier
    requires top.x == bottom.x && top.w == bottom.w && Eligible(top)
    ensures ScorePass([top, bottom], t).1.score == t.score + 1.0
    ensures ScorePass([top, bottom], t).1.multiplier == t.multiplier + 0.06
  {
    assert [top, bottom][..1] == [top];
    assert [top][..0] == [];
    assert Passed([top]) == 1;
    assert Passed([top, bottom]) == 2;
    ScorePassTally([top, bottom], t);
  }

  /**
   * Ten pairs passed means twenty scored rectangles: score 10 and, the increment
   * being per rectangle, a multiplier of 1.6 rather than 1.3.
   */
  lemma TenPairs(t: Tally)
    requires Sane(t) && t.score == 10.0
    ensures t.multiplier == 1.6
  {
  }
}
