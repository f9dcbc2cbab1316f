/** `crack_generation/operations/point_decollider.py`: move a position off
    the bricks by gradient ascent on the mortar's distance transform. The
    source loops until it succeeds; here a `fuel` bound caps the number of
    steps and the method reports whether it got off the bricks in time. */
module PointDecollider {
  import opened Numeric
  import opened Geometry
  import opened CrackModel
  import CollisionChecker

  /** One step: `rint(2 * (cos a, sin a))` with `a` the gradient angle at `p`. */
  function Step(p: Pos, s: SurfaceMap, trig: Trig): Pos
    requires s.Wf() && s.mask.Contains(p)
  {
    var a := s.gradientAngles.At(p);
    Pos(p.x + Rint(2.0 * trig.cos(a)), p.y + Rint(2.0 * trig.sin(a)))
  }

  /** Where the loop ends after at most `fuel` steps, or None if it has not
      got off the bricks by then. A result is never on a brick, and a start
      off the bricks is returned as it is. */
  function Decollided(p: Pos, s: SurfaceMap, trig: Trig, fuel: nat): (r: Option<Pos>)
    requires s.Wf()
    ensures r.Some? ==> !CollisionChecker.Create(s.mask).InObject(r.value)
    ensures !CollisionChecker.Create(s.mask).InObject(p) ==> r == Some(p)
    decreases fuel
  {
    var checker := CollisionChecker.Create(s.mask);
    if !(checker.WithinBounds(p) && checker.InObject(p)) then Some(p)
    else if fuel == 0 then None
    else Decollided(Step(p, s, trig), s, trig, fuel - 1)
  }

  /** With bounded cos and sin a step moves each coordinate by at most 2. */
  lemma StepIsShort(p: Pos, s: SurfaceMap, trig: Trig)
    requires s.Wf() && s.mask.Contains(p) && trig.Bounded()
    ensures -2 <= Step(p, s, trig).x - p.x <= 2 && -2 <= Step(p, s, trig).y - p.y <= 2
  {
    var a := s.gradientAngles.At(p);
    RintBetween(2.0 * trig.cos(a));
    RintBetween(2.0 * trig.sin(a));
  }

  lemma RintBetween(x: real)
    requires -2.0 <= x <= 2.0
    ensures -2 <= Rint(x) <= 2
  {
    RintMonotone(-2.0, x);
    RintMonotone(x, 2.0);
    RintOfInt(-2);
    RintOfInt(2);
  }

  /** `PointDecollider.__call__`: moves the caller's `position` array
      (`[x, y]`) in place, as the source's `+=` does, and ends where
      `Decollided` says. */
  method Decollide(position: array<int>, s: SurfaceMap, trig: Trig, fuel: nat) returns (done: bool)
    requires position.Length == 2 && s.Wf()
    modifies position
    ensures Decollided(Pos(old(position[0]), old(position[1])), s, trig, fuel)
         == (if done then Some(Pos(position[0], position[1])) else None)
  {
    var checker := CollisionChecker.Create(s.mask);
    var steps := 0;
    while checker.WithinBounds(Pos(position[0], position[1])) && checker.InObject(Pos(position[0], position[1]))
      invariant 0 <= steps <= fuel
      invariant Decollided(Pos(old(position[0]), old(position[1])), s, trig, fuel)
             == Decollided(Pos(position[0], position[1]), s, trig, fuel - steps)
      decreases fuel - steps
    {
      if steps == fuel {
        return false;
      }
      var next := Step(Pos(position[0], position[1]), s, trig);
      position[0], position[1] := next.x, next.y;
      steps := steps + 1;
    }
    done := true;
  }
}
