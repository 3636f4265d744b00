/** Angle arithmetic in degrees, shared by the wheel layout and the spin targeting.
    Angles are exact reals; a "whole number of turns" is an integer multiple of 360. */
module Degrees {

  const FullTurn: real := 360.0

  /** x is an integer multiple of a full turn. */
  predicate WholeTurns(x: real)
  {
    (x / FullTurn).Floor as real == x / FullTurn
  }

  /** The largest whole number of turns not above x (App.tsx computes this
      as `Math.floor(rotation / 360) * 360`). */
  function TurnBase(x: real): (b: real)
    ensures WholeTurns(b)
    ensures b <= x < b + FullTurn
  {
    (x / FullTurn).Floor as real * FullTurn
  }

  /** x reduced into [0, 360). */
  function Mod360(x: real): (m: real)
    ensures 0.0 <= m < FullTurn
    ensures WholeTurns(x - m)
  {
    x - TurnBase(x)
  }

  /** k full turns are a whole number of turns. */
  lemma WholeTurnsOf(k: int)
    ensures WholeTurns(k as real * FullTurn)
  {
  }

  /** Whole numbers of turns are closed under sums and negation. */
  lemma WholeTurnsClosed(a: real, b: real)
    requires WholeTurns(a) && WholeTurns(b)
    ensures WholeTurns(a + b)
    ensures WholeTurns(-a)
  {
    var p, q := (a / FullTurn).Floor, (b / FullTurn).Floor;
    assert a / FullTurn == p as real;
    assert b / FullTurn == q as real;
    assert (a + b) / FullTurn == (p + q) as real by {
      assert (a + b) / FullTurn == a / FullTurn + b / FullTurn;
    }
    assert ((p + q) as real).Floor == p + q;
    assert -a / FullTurn == (-p) as real;
    assert ((-p) as real).Floor == -p;
  }

  /** The reduction into [0, 360) is the only value in that range that differs
      from x by whole turns. */
  lemma Mod360Unique(x: real, m: real)
    requires 0.0 <= m < FullTurn
    requires WholeTurns(x - m)
    ensures Mod360(x) == m
  {
    var q := ((x - m) / FullTurn).Floor;
    assert x / FullTurn == q as real + m / FullTurn;
    assert (x / FullTurn).Floor == q;
  }

  /** Reduction ignores whole turns added to the angle. */
  lemma Mod360Shift(x: real, w: real)
    requires WholeTurns(w)
    ensures Mod360(x + w) == Mod360(x)
  {
    var m := Mod360(x);
    WholeTurnsClosed(x - m, w);
    assert x + w - m == (x - m) + w;
    Mod360Unique(x + w, m);
  }
}
