/** The prize wheel as drawn by components/SpinWheel.tsx: `size` equal segments laid
    out clockwise from the top, where a fixed pointer sits, and the whole wheel turned
    clockwise by the `rotation` it is given. */
module Wheel {
  import opened Degrees
  import opened GameTypes

  /** The six prizes the wheel draws, in drawing order (SpinWheel.tsx:10-17). */
  const WheelPrizes: seq<Prize> := [
    Prize("ลด 20 บาท", "#0a0a0a"),
    Prize("ส่วนลด 50%", "#0077b3"),
    Prize("ส่วนลด 100.-", "#1a1a1a"),
    Prize("ส่งฟรีทุกออเดอร์", "#00d9e6"),
    Prize("LIMITED BADGE", "#262626"),
    Prize("ลด 50 บาท", "#0088cc")
  ]

  /** Angular width of one segment; `size` segments fill exactly one turn. */
  function Step(size: nat): (step: real)
    requires size >= 1
    ensures step > 0.0
    ensures step * size as real == FullTurn
  {
    FullTurn / size as real
  }

  /** Where segment i begins, clockwise from the top. */
  function StartAngle(i: int, size: nat): real
    requires size >= 1
  {
    i as real * Step(size)
  }

  /** Where segment i ends. */
  function EndAngle(i: int, size: nat): real
    requires size >= 1
  {
    (i + 1) as real * Step(size)
  }

  /** The angle at which segment i's label is drawn. */
  function LabelAngle(i: int, size: nat): real
    requires size >= 1
  {
    StartAngle(i, size) + Step(size) / 2.0
  }

  /** With the six hard-coded prizes every segment is 60 degrees wide. */
  lemma SixSegmentsOfSixty()
    ensures |WheelPrizes| == 6
    ensures Step(|WheelPrizes|) == 60.0
  {
  }

  /** The segments tile the circle: they start at the top, each ends where the
      next begins, they have positive width, and the last one closes the turn. */
  lemma {:induction false} SegmentsTile(i: int, size: nat)
    requires size >= 1
    ensures StartAngle(0, size) == 0.0
    ensures EndAngle(i, size) == StartAngle(i + 1, size)
    ensures StartAngle(i, size) < EndAngle(i, size)
    ensures EndAngle(size - 1, size) == FullTurn
  {
    var step := Step(size);
    assert (i + 1) as real * step == i as real * step + step;
    assert size as real * step == FullTurn;
  }

  /** Each label sits strictly inside its segment, half a step from either edge. */
  lemma LabelIsMidpoint(i: int, size: nat)
    requires size >= 1
    ensures LabelAngle(i, size) - StartAngle(i, size) == EndAngle(i, size) - LabelAngle(i, size)
    ensures StartAngle(i, size) < LabelAngle(i, size) < EndAngle(i, size)
  {
    SegmentsTile(i, size);
  }

  /** A segment that exists lies within one turn, so its label angle does too. */
  lemma LabelWithinTurn(i: int, size: nat)
    requires 0 <= i < size
    ensures 0.0 < LabelAngle(i, size) < FullTurn
  {
    var step := Step(size);
    assert 0.0 <= i as real * step by {
      assert 0.0 <= i as real;
    }
    assert i as real * step <= (size - 1) as real * step by {
      assert i as real <= (size - 1) as real;
    }
    assert (size - 1) as real * step == FullTurn - step;
  }

  /** The segment that covers wheel angle a (the one whose span contains it). */
  function SegmentAt(a: real, size: nat): (k: int)
    requires size >= 1
    requires 0.0 <= a < FullTurn
    ensures 0 <= k < size
    ensures StartAngle(k, size) <= a < EndAngle(k, size)
  {
    var step := Step(size);
    var k := (a / step).Floor;
    assert k as real * step <= a by {
      assert k as real <= a / step;
    }
    assert a < (k + 1) as real * step by {
      assert a / step < (k + 1) as real;
    }
    assert a / step < size as real by {
      assert a < size as real * step;
    }
    k
  }

  /** The label angle of a segment is covered by that segment and no other. */
  lemma SegmentAtLabel(i: int, size: nat)
    requires 0 <= i < size
    ensures 0.0 < LabelAngle(i, size) < FullTurn
    ensures SegmentAt(LabelAngle(i, size), size) == i
  {
    LabelWithinTurn(i, size);
    var step := Step(size);
    var a := LabelAngle(i, size);
    assert a == (i as real + 0.5) * step;
    assert a / step == i as real + 0.5;
  }

  /** The wheel angle that sits under the top pointer once the wheel has been
      turned clockwise by `rotation` degrees (the `rotate(${rotation}deg)`
      transform): the point at wheel angle t is shown at t + rotation, so the
      pointer at 0 sees t with t + rotation a whole number of turns. */
  function PointerAngle(rotation: real): (t: real)
    ensures 0.0 <= t < FullTurn
    ensures WholeTurns(t + rotation)
  {
    var t := Mod360(-rotation);
    WholeTurnsClosed(-rotation - t, 0.0);
    assert t + rotation == -(-rotation - t);
    t
  }

  /** The segment shown under the pointer at the given rotation. */
  function SegmentUnderPointer(rotation: real, size: nat): (k: int)
    requires size >= 1
    ensures 0 <= k < size
  {
    SegmentAt(PointerAngle(rotation), size)
  }

  /** The pointer rests on segment i's label exactly when the rotation plus that
      label angle is a whole number of turns; then segment i is the one shown. */
  lemma PointerOnLabel(rotation: real, i: int, size: nat)
    requires 0 <= i < size
    ensures PointerAngle(rotation) == LabelAngle(i, size)
        <==> WholeTurns(rotation + LabelAngle(i, size))
    ensures WholeTurns(rotation + LabelAngle(i, size)) ==> SegmentUnderPointer(rotation, size) == i
  {
    var c := LabelAngle(i, size);
    LabelWithinTurn(i, size);
    if WholeTurns(rotation + c) {
      WholeTurnsClosed(rotation + c, 0.0);
      assert -rotation - c == -(rotation + c);
      Mod360Unique(-rotation, c);
      SegmentAtLabel(i, size);
    }
  }
}
