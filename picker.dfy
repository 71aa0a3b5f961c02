/**
 * One player's colour picker as a value: the selected palette index and the
 * horizontal position (`left`) of the triangular cursor under the swatch row.
 * The functions here are the specification that the menu scene's per-frame
 * key handler is proved against.
 */
module Picker {
  import opened Palette

  /** Horizontal distance the cursor moves for one index step. */
  const CursorStep: int := 30

  datatype Selection = Selection(index: int, left: real)

  /**
   * The cursor agrees with the index: the index is in the palette and the
   * cursor sits `CursorStep * index` to the right of `home`, the cursor's
   * position when the first colour is selected.
   */
  predicate Consistent(s: Selection, home: real) {
    ValidIndex(s.index) && s.left - home == (CursorStep * s.index) as real
  }

  /**
   * A fresh press of the player's "right" key: step to the next colour, from the
   * last one back to the first. The cursor always moves by one step per index
   * unit, so on the wrap it moves back by three steps.
   */
  function PressRight(s: Selection): (r: Selection)
    ensures ValidIndex(s.index) ==> ValidIndex(r.index) && r.index == (s.index + 1) % |Colors|
    ensures r.left - s.left == (CursorStep * (r.index - s.index)) as real
  {
    if s.index == |Colors| - 1 then
      Selection(0, s.left - (CursorStep * (|Colors| - 1)) as real)
    else
      Selection(s.index + 1, s.left + CursorStep as real)
  }

  /**
   * A fresh press of the player's "left" key: step to the previous colour, from
   * the first one round to the last.
   */
  function PressLeft(s: Selection): (r: Selection)
    ensures ValidIndex(s.index) ==> ValidIndex(r.index) && r.index == (s.index - 1) % |Colors|
    ensures r.left - s.left == (CursorStep * (r.index - s.index)) as real
  {
    if s.index == 0 then
      Selection(|Colors| - 1, s.left + (CursorStep * (|Colors| - 1)) as real)
    else
      Selection(s.index - 1, s.left - CursorStep as real)
  }

  /**
   * One frame for one player: the right key is handled before the left key,
   * each only when it was freshly pressed this frame.
   */
  function Handle(s: Selection, right: bool, left: bool): (r: Selection)
    ensures ValidIndex(s.index) ==>
      r.index == (s.index + (if right then 1 else 0) - (if left then 1 else 0)) % |Colors|
    ensures forall home :: Consistent(s, home) ==> Consistent(r, home)
  {
    var afterRight := if right then PressRight(s) else s;
    if left then PressLeft(afterRight) else afterRight
  }

  /**
   * The wrap frames: a right press on the last colour selects the first and moves
   * the cursor back three steps (90 px); a left press on the first colour selects
   * the last and moves the cursor forward three steps.
   */
  lemma WrapFrames(l: real)
    ensures PressRight(Selection(|Colors| - 1, l)) == Selection(0, l - 90.0)
    ensures PressLeft(Selection(0, l)) == Selection(|Colors| - 1, l + 90.0)
  {
  }

  /** Right then left in the same frame gives back the selection, cursor included. */
  lemma RightThenLeftCancel(s: Selection)
    requires ValidIndex(s.index)
    ensures PressLeft(PressRight(s)) == s
    ensures Handle(s, true, true) == s
  {
  }

  /** Left then right gives back the selection: the two presses are inverse steps. */
  lemma LeftThenRightCancel(s: Selection)
    requires ValidIndex(s.index)
    ensures PressRight(PressLeft(s)) == s
  {
  }

  /** `n` consecutive frames in which only the right key is freshly pressed. */
  function PressRightTimes(s: Selection, n: nat): Selection
  {
    if n == 0 then s else PressRight(PressRightTimes(s, n - 1))
  }

  /** `n` consecutive frames in which only the left key is freshly pressed. */
  function PressLeftTimes(s: Selection, n: nat): Selection
  {
    if n == 0 then s else PressLeft(PressLeftTimes(s, n - 1))
  }

  /**
   * After `n` right presses the index is the starting index plus `n`, modulo the
   * palette size, and the cursor is where that index puts it.
   */
  lemma {:induction false} RightPressesAdvanceModulo(s: Selection, home: real, n: nat)
    requires Consistent(s, home)
    ensures PressRightTimes(s, n).index == (s.index + n) % |Colors|
    ensures Consistent(PressRightTimes(s, n), home)
  {
    if n > 0 {
      RightPressesAdvanceModulo(s, home, n - 1);
      var j := PressRightTimes(s, n - 1).index;
      assert PressRightTimes(s, n).index == (j + 1) % |Colors|;
      ModSucc(s.index + n - 1);
    }
  }

  /**
   * After `n` left presses the index is the starting index minus `n`, modulo the
   * palette size, and the cursor is where that index puts it.
   */
  lemma {:induction false} LeftPressesRetreatModulo(s: Selection, home: real, n: nat)
    requires Consistent(s, home)
    ensures PressLeftTimes(s, n).index == (s.index - n) % |Colors|
    ensures Consistent(PressLeftTimes(s, n), home)
  {
    if n > 0 {
      LeftPressesRetreatModulo(s, home, n - 1);
      var j := PressLeftTimes(s, n - 1).index;
      assert PressLeftTimes(s, n).index == (j - 1) % |Colors|;
      ModPred(s.index - n + 1);
    }
  }

  lemma ModSucc(k: int)
    ensures ((k % |Colors|) + 1) % |Colors| == (k + 1) % |Colors|
  {
  }

  lemma ModPred(k: int)
    ensures ((k % |Colors|) - 1) % |Colors| == (k - 1) % |Colors|
  {
  }

  /** Four right presses bring the index and the cursor back to where they were. */
  lemma FourRightPressesRestore(s: Selection)
    requires ValidIndex(s.index)
    ensures PressRightTimes(s, |Colors|) == s
  {
    var home := s.left - (CursorStep * s.index) as real;
    RightPressesAdvanceModulo(s, home, |Colors|);
    var r := PressRightTimes(s, |Colors|);
    assert (s.index + |Colors|) % |Colors| == s.index;
    assert r.index == s.index;
    assert r.left == home + (CursorStep * s.index) as real;
  }

  /** Four left presses bring the index and the cursor back to where they were. */
  lemma FourLeftPressesRestore(s: Selection)
    requires ValidIndex(s.index)
    ensures PressLeftTimes(s, |Colors|) == s
  {
    var home := s.left - (CursorStep * s.index) as real;
    LeftPressesRetreatModulo(s, home, |Colors|);
    var r := PressLeftTimes(s, |Colors|);
    assert (s.index - |Colors|) % |Colors| == s.index;
    assert r.index == s.index;
    assert r.left == home + (CursorStep * s.index) as real;
  }
}
