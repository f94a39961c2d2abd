/**
 * Homework 3's input handlers: the arrow keys turn the view, '0' resets it,
 * 'a' toggles the axes and 'm'/'M' step through the seven display modes.
 * The program's globals are the fields of `Globals`; each GLUT callback is a
 * method that updates them, specified by a step function on a snapshot.
 */
module Hw3 {
  import opened CInt
  import opened Glut

  /** The globals the handlers read and write. */
  datatype View = View(th: int, ph: int, axes: int, mode: int)

  const ModeCount: int := 7

  /** The states the handlers keep: angles inside one turn, a 0/1 axes flag, a mode index. */
  predicate Valid(v: View) {
    -360 < v.th < 360 && -360 < v.ph < 360 && 0 <= v.axes <= 1 && 0 <= v.mode < ModeCount
  }

  /** The state after `special(key)`. */
  function SpecialStep(v: View, key: int): (r: View)
    ensures -360 < r.th < 360 && -360 < r.ph < 360
    ensures r.axes == v.axes && r.mode == v.mode
  {
    var turned :=
      if key == KeyRight then v.(th := v.th + 5)
      else if key == KeyLeft then v.(th := v.th - 5)
      else if key == KeyUp then v.(ph := v.ph + 5)
      else if key == KeyDown then v.(ph := v.ph - 5)
      else v;
    turned.(th := Rem(turned.th, 360), ph := Rem(turned.ph, 360))
  }

  /** The state after `key(ch)` for every key but Escape, which ends the program instead. */
  function KeyStep(v: View, ch: char): (r: View)
    requires ch != Escape
    ensures Valid(v) ==> Valid(r)
  {
    if ch == '0' then v.(th := 0, ph := 0)
    else if ch == 'a' || ch == 'A' then v.(axes := 1 - v.axes)
    else if ch == 'm' then v.(mode := Rem(v.mode + 1, ModeCount))
    else if ch == 'M' then v.(mode := Rem(v.mode + 6, ModeCount))
    else v
  }

  /**
   * Each arrow key turns one angle by five degrees, wrapping by a full turn
   * when it leaves (-360, 360); the other angle stays; other keys change nothing.
   */
  lemma SpecialTurns(v: View, key: int)
    requires Valid(v)
    ensures var r := SpecialStep(v, key);
      && (key == KeyRight ==> r.ph == v.ph && r.th == (if v.th + 5 >= 360 then v.th + 5 - 360 else v.th + 5))
      && (key == KeyLeft ==> r.ph == v.ph && r.th == (if v.th - 5 <= -360 then v.th - 5 + 360 else v.th - 5))
      && (key == KeyUp ==> r.th == v.th && r.ph == (if v.ph + 5 >= 360 then v.ph + 5 - 360 else v.ph + 5))
      && (key == KeyDown ==> r.th == v.th && r.ph == (if v.ph - 5 <= -360 then v.ph - 5 + 360 else v.ph - 5))
      && (!IsArrow(key) ==> r == v)
  {
    RemTurn(v.th + 5);
    RemTurn(v.th - 5);
    RemTurn(v.ph + 5);
    RemTurn(v.ph - 5);
    RemTurn(v.th);
    RemTurn(v.ph);
  }

  /** 'M' undoes 'm' and 'm' undoes 'M': the modes form a cycle of seven. */
  lemma ModeStepsInverse(v: View)
    requires Valid(v)
    ensures KeyStep(KeyStep(v, 'm'), 'M') == v
    ensures KeyStep(KeyStep(v, 'M'), 'm') == v
  {
  }

  /** The mode key is periodic: seven more presses of 'm' lead to the same state. */
  lemma ModeCycle(v: View, n: nat)
    requires 0 <= v.mode < ModeCount
    ensures Presses(v, 'm', n + ModeCount) == Presses(v, 'm', n)
  {
    PressesMode(v, n + ModeCount);
    PressesMode(v, n);
    ModShift(v.mode + n);
    assert v.mode + (n + ModeCount) == (v.mode + n) + ModeCount;
  }

  lemma ModShift(a: nat)
    ensures (a + ModeCount) % ModeCount == a % ModeCount
  {
  }

  /** The state after `n` presses of the same key. */
  function Presses(v: View, ch: char, n: nat): View
    requires ch != Escape
  {
    if n == 0 then v else KeyStep(Presses(v, ch, n - 1), ch)
  }

  /** One press of 'm' advances the mode and changes nothing else. */
  lemma ModePress(v: View)
    requires 0 <= v.mode < ModeCount
    ensures KeyStep(v, 'm') == v.(mode := (v.mode + 1) % ModeCount)
  {
  }

  /** n presses of 'm' advance the mode by n, modulo seven, and change nothing else. */
  lemma {:induction false} PressesMode(v: View, n: nat)
    requires 0 <= v.mode < ModeCount
    ensures Presses(v, 'm', n) == v.(mode := (v.mode + n) % ModeCount)
  {
    if n > 0 {
      PressesMode(v, n - 1);
      var w := v.(mode := (v.mode + (n - 1)) % ModeCount);
      ModePress(w);
      ModSucc(v.mode + (n - 1));
    }
  }

  lemma ModSucc(a: nat)
    ensures (a % ModeCount + 1) % ModeCount == (a + 1) % ModeCount
  {
  }

  /** 'a' and 'A' toggle the axes: any two presses cancel. */
  lemma AxesToggle(v: View, c1: char, c2: char)
    requires c1 in {'a', 'A'} && c2 in {'a', 'A'}
    ensures KeyStep(v, c1).axes == 1 - v.axes
    ensures KeyStep(KeyStep(v, c1), c2) == v
  {
  }

  /** Each key changes only its own globals. */
  lemma KeyTouchesOwn(v: View, ch: char)
    requires ch != Escape
    ensures var r := KeyStep(v, ch);
      && (r.th != v.th || r.ph != v.ph ==> ch == '0' && r.th == 0 && r.ph == 0)
      && (r.axes != v.axes ==> ch == 'a' || ch == 'A')
      && (r.mode != v.mode ==> ch == 'm' || ch == 'M')
  {
  }

  /** interp: t times the sum of its end values. */
  function Interp(x1: real, x2: real, t: real): (r: real)
    ensures t == 0.0 ==> r == 0.0
    ensures t == 1.0 ==> r == x1 + x2
  {
    t * (x1 + x2)
  }

  /**
   * interp agrees with linear interpolation x1 + t(x2 - x1) only where x1 is
   * zero or t is one half.
   */
  lemma InterpVersusLerp(x1: real, x2: real, t: real)
    ensures Interp(x1, x2, t) == x1 + t * (x2 - x1) <==> x1 == 0.0 || t == 0.5
  {
    assert Interp(x1, x2, t) - (x1 + t * (x2 - x1)) == x1 * (2.0 * t - 1.0);
    ZeroProduct(x1, 2.0 * t - 1.0);
  }

  lemma ZeroProduct(a: real, b: real)
    ensures a * b == 0.0 <==> a == 0.0 || b == 0.0
  {
    if a != 0.0 {
      var q := b * a;
      assert q / a == b;
    }
  }

  /** The program's globals. zh belongs to the idle callback, which is not part of this model. */
  class Globals {
    var th: int
    var ph: int
    var axes: int
    var mode: int

    function Snapshot(): View
      reads this
    {
      View(th, ph, axes, mode)
    }

    /** The initial values of the globals. */
    constructor()
      ensures Snapshot() == View(0, 0, 1, 0)
      ensures Valid(Snapshot())
    {
      th, ph, axes, mode := 0, 0, 1, 0;
    }

    /** special: turn the view, then bring both angles back inside one turn. */
    method Special(key: int)
      modifies this
      ensures Snapshot() == SpecialStep(old(Snapshot()), key)
    {
      if key == KeyRight {
        th := th + 5;
      } else if key == KeyLeft {
        th := th - 5;
      } else if key == KeyUp {
        ph := ph + 5;
      } else if key == KeyDown {
        ph := ph - 5;
      }
      th := Rem(th, 360);
      ph := Rem(ph, 360);
    }

    /** key: `exit` is whether the key ends the program (Escape), leaving the globals as they were. */
    method Key(ch: char) returns (exit: bool)
      modifies this
      ensures exit <==> ch == Escape
      ensures exit ==> Snapshot() == old(Snapshot())
      ensures !exit ==> Snapshot() == KeyStep(old(Snapshot()), ch)
    {
      exit := ch == Escape;
      if exit {
        return;
      } else if ch == '0' {
        th, ph := 0, 0;
      } else if ch == 'a' || ch == 'A' {
        axes := 1 - axes;
      } else if ch == 'm' {
        mode := Rem(mode + 1, ModeCount);
      } else if ch == 'M' {
        mode := Rem(mode + 6, ModeCount);
      }
    }
  }
}
