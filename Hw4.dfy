/**
 * Homework 4's input handlers. Three display modes; in modes 0 and 1 the
 * arrow keys orbit the view and '-'/'+' change the field of view, in mode 2
 * (first person) the arrow keys turn and tilt the walker and ',', 'o', 'e',
 * 'a' walk it across the ground plane. The degree-based Cos and Sin are
 * given as functions.
 */
module Hw4 {
  import opened CInt
  import opened Glut

  /** The globals the handlers read and write. */
  datatype View = View(th: int, ph: int, mode: int, fov: int,
                       fpX: real, fpZ: real, fpTh: int, fpPh: int)

  const ModeCount: int := 3
  const FirstPerson: int := 2
  /** Distance walked per key press. */
  const Stride: real := 0.1

  /**
   * The states the handlers keep: a mode index, orbit angles and first-person
   * azimuth inside one turn, first-person elevation within [-90, 90].
   */
  predicate Valid(v: View) {
    0 <= v.mode < ModeCount
    && -360 < v.th < 360 && -360 < v.ph < 360
    && -360 < v.fpTh < 360 && -90 <= v.fpPh <= 90
  }

  function Min(a: int, b: int): int { if a < b then a else b }
  function Max(a: int, b: int): int { if a < b then b else a }

  /** The state after `special(key)`: the orbit angles move outside first person, the walker's inside it. */
  function SpecialStep(v: View, key: int): (r: View)
    ensures r.mode == v.mode && r.fov == v.fov && r.fpX == v.fpX && r.fpZ == v.fpZ
    ensures v.mode != FirstPerson ==>
      r.fpTh == v.fpTh && r.fpPh == v.fpPh && -360 < r.th < 360 && -360 < r.ph < 360
    ensures v.mode == FirstPerson ==>
      r.th == v.th && r.ph == v.ph && -360 < r.fpTh < 360 && -90 <= r.fpPh <= 90
  {
    if v.mode != FirstPerson then
      var turned :=
        if key == KeyRight then v.(th := v.th + 5)
        else if key == KeyLeft then v.(th := v.th - 5)
        else if key == KeyUp then v.(ph := v.ph + 5)
        else if key == KeyDown then v.(ph := v.ph - 5)
        else v;
      turned.(th := Rem(turned.th, 360), ph := Rem(turned.ph, 360))
    else
      var turned :=
        if key == KeyRight then v.(fpTh := v.fpTh + 5)
        else if key == KeyLeft then v.(fpTh := v.fpTh - 5)
        else if key == KeyUp then v.(fpPh := v.fpPh + 5)
        else if key == KeyDown then v.(fpPh := v.fpPh - 5)
        else v;
      var fpPh := if turned.fpPh > 90 then 90 else turned.fpPh;
      var fpPh' := if fpPh < -90 then -90 else fpPh;
      turned.(fpTh := Rem(turned.fpTh, 360), fpPh := fpPh')
  }

  /**
   * The state after `key(ch)` for every key but Escape, which ends the
   * program instead: 'm'/'M' first advance the mode, then the key acts in
   * the (new) mode. The field-of-view guards compare the key code itself
   * with 1 and 179, so they always hold.
   */
  function KeyStep(v: View, ch: char, cos: int -> real, sin: int -> real): (r: View)
    requires ch != Escape
    ensures Valid(v) ==> Valid(r)
  {
    var m := if ch == 'm' || ch == 'M' then v.(mode := Rem(v.mode + 1, ModeCount)) else v;
    if m.mode != FirstPerson then
      if ch == '0' then m.(th := 0, ph := 0)
      else if ch == '-' && ch as int > 1 then m.(fov := m.fov - 1)
      else if ch == '+' && ch as int < 179 then m.(fov := m.fov + 1)
      else m
    else
      if ch == '0' then m.(fpX := 0.0, fpZ := 0.0, fpTh := 0, fpPh := 0)
      else if ch == ',' then m.(fpX := m.fpX + Stride * cos(m.fpTh), fpZ := m.fpZ + Stride * sin(m.fpTh))
      else if ch == 'o' then m.(fpX := m.fpX - Stride * cos(m.fpTh), fpZ := m.fpZ - Stride * sin(m.fpTh))
      else if ch == 'e' then m.(fpZ := m.fpZ + Stride * cos(m.fpTh), fpX := m.fpX + Stride * sin(m.fpTh))
      else if ch == 'a' then m.(fpZ := m.fpZ - Stride * cos(m.fpTh), fpX := m.fpX - Stride * sin(m.fpTh))
      else m
  }

  /**
   * In first person the right and left arrows turn the walker by five
   * degrees (wrapping by a full turn), and up and down tilt it by five
   * degrees, saturating at +-90; the orbit angles do not move.
   */
  lemma SpecialFirstPerson(v: View, key: int)
    requires Valid(v) && v.mode == FirstPerson
    ensures var r := SpecialStep(v, key);
      && (key == KeyRight ==> r.fpPh == v.fpPh && r.fpTh == (if v.fpTh + 5 >= 360 then v.fpTh + 5 - 360 else v.fpTh + 5))
      && (key == KeyLeft ==> r.fpPh == v.fpPh && r.fpTh == (if v.fpTh - 5 <= -360 then v.fpTh - 5 + 360 else v.fpTh - 5))
      && (key == KeyUp ==> r.fpTh == v.fpTh && r.fpPh == Min(v.fpPh + 5, 90))
      && (key == KeyDown ==> r.fpTh == v.fpTh && r.fpPh == Max(v.fpPh - 5, -90))
      && (!IsArrow(key) ==> r == v)
  {
    RemTurn(v.fpTh + 5);
    RemTurn(v.fpTh - 5);
    RemTurn(v.fpTh);
  }

  /** Outside first person the arrows orbit the view by five degrees, wrapping by a full turn. */
  lemma SpecialOrbit(v: View, key: int)
    requires Valid(v) && v.mode != FirstPerson
    ensures var r := SpecialStep(v, key);
      && (key == KeyRight ==> r.ph == v.ph && r.th == (if v.th + 5 >= 360 then v.th + 5 - 360 else v.th + 5))
      && (key == KeyLeft ==> r.ph == v.ph && r.th == (if v.th - 5 <= -360 then v.th - 5 + 360 else v.th - 5))
      && (key == KeyUp ==> r.th == v.th && r.ph == (if v.ph + 5 >= 360 then v.ph + 5 - 360 else v.ph + 5))
      && (key == KeyDown ==> r.th == v.th && r.ph == (if v.ph - 5 <= -360 then v.ph - 5 + 360 else v.ph - 5))
      && (!IsArrow(key) ==> r == v)
  {
    RemTurn(v.th + 5);
    RemTurn(v.th - 5);
    RemTurn(v.ph + 5);
    RemTurn(v.ph - 5);
    RemTurn(v.th);
    RemTurn(v.ph);
  }

  /** The state after `n` presses of the same key. */
  function Presses(v: View, ch: char, n: nat, cos: int -> real, sin: int -> real): View
    requires ch != Escape
  {
    if n == 0 then v else KeyStep(Presses(v, ch, n - 1, cos, sin), ch, cos, sin)
  }

  /** One press of 'm' or 'M' advances the mode and changes nothing else. */
  lemma ModePress(v: View, cos: int -> real, sin: int -> real)
    requires 0 <= v.mode < ModeCount
    ensures KeyStep(v, 'm', cos, sin) == v.(mode := (v.mode + 1) % ModeCount)
    ensures KeyStep(v, 'M', cos, sin) == KeyStep(v, 'm', cos, sin)
  {
  }

  /** n presses of 'm' advance the mode by n, modulo three, and change nothing else. */
  lemma {:induction false} PressesMode(v: View, n: nat, cos: int -> real, sin: int -> real)
    requires 0 <= v.mode < ModeCount
    ensures Presses(v, 'm', n, cos, sin) == v.(mode := (v.mode + n) % ModeCount)
  {
    if n > 0 {
      PressesMode(v, n - 1, cos, sin);
      var w := v.(mode := (v.mode + (n - 1)) % ModeCount);
      ModePress(w, cos, sin);
      ModSucc(v.mode + (n - 1));
    }
  }

  lemma ModSucc(a: nat)
    ensures (a % ModeCount + 1) % ModeCount == (a + 1) % ModeCount
  {
  }

  /** The mode key is periodic: three more presses of 'm' lead to the same state. */
  lemma ModeCycle(v: View, n: nat, cos: int -> real, sin: int -> real)
    requires 0 <= v.mode < ModeCount
    ensures Presses(v, 'm', n + ModeCount, cos, sin) == Presses(v, 'm', n, cos, sin)
  {
    PressesMode(v, n + ModeCount, cos, sin);
    PressesMode(v, n, cos, sin);
    ModShift(v.mode + n);
    assert v.mode + (n + ModeCount) == (v.mode + n) + ModeCount;
  }

  lemma ModShift(a: nat)
    ensures (a + ModeCount) % ModeCount == a % ModeCount
  {
  }

  /**
   * The field of view has no bound: outside first person, n presses of '-'
   * lower it by n and change nothing else.
   */
  lemma {:induction false} FovDrift(v: View, n: nat, cos: int -> real, sin: int -> real)
    requires v.mode != FirstPerson
    ensures Presses(v, '-', n, cos, sin) == v.(fov := v.fov - n)
  {
    if n > 0 {
      FovDrift(v, n - 1, cos, sin);
    }
  }

  /** In first person, each walking key is undone by its opposite, in either order. */
  lemma WalkBack(v: View, cos: int -> real, sin: int -> real)
    requires v.mode == FirstPerson
    ensures KeyStep(KeyStep(v, ',', cos, sin), 'o', cos, sin) == v
    ensures KeyStep(KeyStep(v, 'o', cos, sin), ',', cos, sin) == v
    ensures KeyStep(KeyStep(v, 'e', cos, sin), 'a', cos, sin) == v
    ensures KeyStep(KeyStep(v, 'a', cos, sin), 'e', cos, sin) == v
  {
  }

  /**
   * Where cos^2 + sin^2 = 1 at the walker's azimuth, each walking key moves it
   * exactly one stride across the ground and leaves its angles alone.
   */
  lemma WalkStride(v: View, ch: char, cos: int -> real, sin: int -> real)
    requires v.mode == FirstPerson && ch in {',', 'o', 'e', 'a'}
    requires cos(v.fpTh) * cos(v.fpTh) + sin(v.fpTh) * sin(v.fpTh) == 1.0
    ensures var r := KeyStep(v, ch, cos, sin);
      && r.fpTh == v.fpTh && r.fpPh == v.fpPh
      && (r.fpX - v.fpX) * (r.fpX - v.fpX) + (r.fpZ - v.fpZ) * (r.fpZ - v.fpZ) == Stride * Stride
  {
    var c, s := cos(v.fpTh), sin(v.fpTh);
    assert (Stride * c) * (Stride * c) + (Stride * s) * (Stride * s) == Stride * Stride * (c * c + s * s);
  }

  /**
   * Keys act on the orbit view and field of view only outside first person,
   * and on the walker only inside it; '0' resets the angles (and the walker's
   * position) of the mode in force.
   */
  lemma KeyModeSeparation(v: View, ch: char, cos: int -> real, sin: int -> real)
    requires ch != Escape
    ensures var r := KeyStep(v, ch, cos, sin);
      && (r.mode != FirstPerson ==> r.fpX == v.fpX && r.fpZ == v.fpZ && r.fpTh == v.fpTh && r.fpPh == v.fpPh)
      && (r.mode == FirstPerson ==> r.th == v.th && r.ph == v.ph && r.fov == v.fov)
      && (r.mode != v.mode ==> ch == 'm' || ch == 'M')
      && (ch == '0' && r.mode != FirstPerson ==> r.th == 0 && r.ph == 0)
      && (ch == '0' && r.mode == FirstPerson ==> r.fpX == 0.0 && r.fpZ == 0.0 && r.fpTh == 0 && r.fpPh == 0)
  {
  }

  /** The program's globals; zh_, dim and asp are not touched by these handlers. */
  class Globals {
    var th: int
    var ph: int
    var mode: int
    var fov: int
    var fpX: real
    var fpZ: real
    var fpTh: int
    var fpPh: int
    /** Cos and Sin of an angle in degrees. */
    const cos: int -> real
    const sin: int -> real

    function Snapshot(): View
      reads this
    {
      View(th, ph, mode, fov, fpX, fpZ, fpTh, fpPh)
    }

    /** The initial values of the globals. */
    constructor(cosDeg: int -> real, sinDeg: int -> real)
      ensures Snapshot() == View(0, 0, 0, 55, 0.0, 0.0, 0, 0)
      ensures cos == cosDeg && sin == sinDeg
      ensures Valid(Snapshot())
    {
      th, ph, mode, fov := 0, 0, 0, 55;
      fpX, fpZ, fpTh, fpPh := 0.0, 0.0, 0, 0;
      cos, sin := cosDeg, sinDeg;
    }

    /** special: orbit the view, or turn and tilt the walker in first person. */
    method Special(key: int)
      modifies this
      ensures Snapshot() == SpecialStep(old(Snapshot()), key)
    {
      if mode != FirstPerson {
        if key == KeyRight {
          th := th + 5;
        } else if key == KeyLeft {
          th := th - 5;
        } else if key == KeyUp {
          ph := ph + 5;
        } else if key == KeyDown {
          ph := ph - 5;
        }
        th := Rem(th, 360);
        ph := Rem(ph, 360);
      } else {
        if key == KeyRight {
          fpTh := fpTh + 5;
        } else if key == KeyLeft {
          fpTh := fpTh - 5;
        } else if key == KeyUp {
          fpPh := fpPh + 5;
        } else if key == KeyDown {
          fpPh := fpPh - 5;
        }
        fpTh := Rem(fpTh, 360);
        if fpPh > 90 {
          fpPh := 90;
        }
        if fpPh < -90 {
          fpPh := -90;
        }
      }
    }

    /** key: `exit` is whether the key ends the program (Escape), leaving the globals as they were. */
    method Key(ch: char) returns (exit: bool)
      modifies this
      ensures exit <==> ch == Escape
      ensures exit ==> Snapshot() == old(Snapshot())
      ensures !exit ==> Snapshot() == KeyStep(old(Snapshot()), ch, cos, sin)
    {
      exit := ch == Escape;
      if exit {
        return;
      } else if ch == 'm' || ch == 'M' {
        mode := Rem(mode + 1, ModeCount);
      }
      if mode != FirstPerson {
        if ch == '0' {
          th, ph := 0, 0;
        } else if ch == '-' && ch as int > 1 {
          fov := fov - 1;
        } else if ch == '+' && ch as int < 179 {
          fov := fov + 1;
        }
      } else {
        if ch == '0' {
          fpX, fpZ := 0.0, 0.0;
          fpTh, fpPh := 0, 0;
        } else if ch == ',' {
          fpX := fpX + Stride * cos(fpTh);
          fpZ := fpZ + Stride * sin(fpTh);
        } else if ch == 'o' {
          fpX := fpX - Stride * cos(fpTh);
          fpZ := fpZ - Stride * sin(fpTh);
        } else if ch == 'e' {
          fpZ := fpZ + Stride * cos(fpTh);
          fpX := fpX + Stride * sin(fpTh);
        } else if ch == 'a' {
          fpZ := fpZ - Stride * cos(fpTh);
          fpX := fpX - Stride * sin(fpTh);
        }
      }
    }
  }
}
