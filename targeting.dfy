/** The arithmetic of App.tsx's handleSpinStart: which prize is drawn and to what
    absolute rotation the wheel is sent so that it stops on it. */
module Targeting {
  import opened Degrees
  import Wheel

  /** Full turns added to every spin purely for show. */
  const ExtraSpins: int := 10

  /** The prize index drawn from a uniform sample r in [0, 1): `floor(r * n)`. */
  function DrawIndex(r: real, n: nat): (i: int)
    requires 0.0 <= r < 1.0
    requires n >= 1
    ensures 0 <= i < n
  {
    var i := (r * n as real).Floor;
    assert r * n as real < n as real;
    assert 0.0 <= r * n as real;
    i
  }

  /** Index i is drawn exactly for the samples in [i/n, (i+1)/n): every index
      owns an interval of width 1/n, so a uniform sample draws each index with
      the same probability. */
  lemma DrawIndexInterval(r: real, n: nat, i: int)
    requires 0.0 <= r < 1.0
    requires n >= 1
    ensures DrawIndex(r, n) == i <==> i as real / n as real <= r < (i + 1) as real / n as real
  {
    var x := r * n as real;
    BelowQuotient(i as real, r, n as real);
    AboveQuotient((i + 1) as real, r, n as real);
    assert DrawIndex(r, n) == x.Floor;
    assert x.Floor == i <==> i as real <= x < (i + 1) as real;
  }

  /** a/m <= r exactly when a <= r*m, for positive m. */
  lemma BelowQuotient(a: real, r: real, m: real)
    requires m > 0.0
    ensures a / m <= r <==> a <= r * m
  {
    ScaleByPositive(a / m, r, m);
    assert a / m * m == a;
  }

  /** r < a/m exactly when r*m < a, for positive m. */
  lemma AboveQuotient(a: real, r: real, m: real)
    requires m > 0.0
    ensures r < a / m <==> r * m < a
  {
    ScaleByPositive(r, a / m, m);
    assert a / m * m == a;
  }

  /** Multiplying by a positive factor preserves both orderings. */
  lemma ScaleByPositive(a: real, b: real, m: real)
    requires m > 0.0
    ensures a <= b <==> a * m <= b * m
    ensures a < b <==> a * m < b * m
  {
    assert b * m - a * m == (b - a) * m;
    if a < b {
      assert (b - a) * m > 0.0;
    } else {
      assert (a - b) * m >= 0.0;
    }
  }

  /** The absolute rotation the wheel is sent to when index i of n is drawn and
      the wheel currently stands at `rotation`: the current whole-turn base, plus
      the extra turns, plus the turn that brings segment i's centre to the top. */
  function Target(rotation: real, i: int, n: nat): real
    requires n >= 1
  {
    var slice := Wheel.Step(n);
    TurnBase(rotation) + ExtraSpins as real * FullTurn + (FullTurn - (i as real * slice + slice / 2.0))
  }

  /** The centre App aims at is the centre SpinWheel labels. */
  lemma TargetAimsAtLabel(rotation: real, i: int, n: nat)
    requires n >= 1
    ensures Target(rotation, i, n) == TurnBase(rotation) + (ExtraSpins + 1) as real * FullTurn - Wheel.LabelAngle(i, n)
  {
  }

  /** The wheel only spins forward: the target lies strictly beyond the current rotation. */
  lemma TargetMovesForward(rotation: real, i: int, n: nat)
    requires 0 <= i < n
    ensures Target(rotation, i, n) > rotation
  {
    Wheel.LabelWithinTurn(i, n);
  }

  /** Measured from the current whole-turn base, the spin is exactly ExtraSpins
      full turns plus a partial turn; so the target's own base is ExtraSpins turns
      further on. */
  lemma TargetExtraTurns(rotation: real, i: int, n: nat)
    requires 0 <= i < n
    ensures ExtraSpins as real * FullTurn < Target(rotation, i, n) - TurnBase(rotation) < (ExtraSpins + 1) as real * FullTurn
    ensures TurnBase(Target(rotation, i, n)) == TurnBase(rotation) + ExtraSpins as real * FullTurn
  {
    Wheel.LabelWithinTurn(i, n);
    var t := Target(rotation, i, n);
    var b := TurnBase(rotation) + ExtraSpins as real * FullTurn;
    WholeTurnsOf(ExtraSpins);
    WholeTurnsClosed(TurnBase(rotation), ExtraSpins as real * FullTurn);
    assert WholeTurns(t - Mod360(t));
    Mod360Unique(t, t - b);
  }

  /** Target plus the chosen segment's centre is a whole number of turns: the
      centre of segment i comes to rest under the top pointer. */
  lemma TargetCentresSegment(rotation: real, i: int, n: nat)
    requires n >= 1
    ensures WholeTurns(Target(rotation, i, n) + Wheel.LabelAngle(i, n))
  {
    WholeTurnsOf(ExtraSpins + 1);
    WholeTurnsClosed(TurnBase(rotation), (ExtraSpins + 1) as real * FullTurn);
    TargetAimsAtLabel(rotation, i, n);
    assert Target(rotation, i, n) + Wheel.LabelAngle(i, n) == TurnBase(rotation) + (ExtraSpins + 1) as real * FullTurn;
  }

  /** The resting angle modulo a turn depends only on the segment, not on the
      turns already accumulated. */
  lemma TargetResidue(rotation: real, i: int, n: nat)
    requires 0 <= i < n
    ensures Mod360(Target(rotation, i, n)) == FullTurn - Wheel.LabelAngle(i, n)
  {
    Wheel.LabelWithinTurn(i, n);
    var rest := FullTurn - Wheel.LabelAngle(i, n);
    var w := TurnBase(rotation) + ExtraSpins as real * FullTurn;
    WholeTurnsOf(ExtraSpins);
    WholeTurnsClosed(TurnBase(rotation), ExtraSpins as real * FullTurn);
    assert Target(rotation, i, n) == rest + w;
    Mod360Shift(rest, w);
    WholeTurnsOf(0);
    Mod360Unique(rest, rest);
  }

  /** After the spin the wheel shows the drawn segment under the pointer, with
      the pointer exactly on its label. */
  lemma TargetLandsOnDrawn(rotation: real, i: int, n: nat)
    requires 0 <= i < n
    ensures Wheel.PointerAngle(Target(rotation, i, n)) == Wheel.LabelAngle(i, n)
    ensures Wheel.SegmentUnderPointer(Target(rotation, i, n), n) == i
  {
    TargetCentresSegment(rotation, i, n);
    Wheel.PointerOnLabel(Target(rotation, i, n), i, n);
  }

  /** Six prizes, index 3 drawn from a wheel at rest at 0: the wheel is sent to
      3750 degrees, which leaves it at 150 degrees modulo a turn. */
  lemma SixPrizeExample()
    ensures Target(0.0, 3, 6) == 3750.0
    ensures Mod360(Target(0.0, 3, 6)) == 150.0
  {
    TargetResidue(0.0, 3, 6);
  }
}
