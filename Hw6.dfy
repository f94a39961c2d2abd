/**
 * Homework 6's input handlers: view angles, zoom and light model toggles on
 * the special keys; display toggles, light position, field of view, the four
 * light intensities, shininess and the texture on the ordinary keys. After
 * every ordinary key the shininess exponent is turned into its value and the
 * idle callback is installed exactly when the light is moving.
 */
module Hw6 {
  import opened CInt
  import opened Glut

  /** The view globals: angles, field of view, zoom, projection mode and axes. */
  datatype View = View(th: int, ph: int, fov: int, dim: real, mode: int, axes: int)

  /** The lighting globals: on/off, movement, position, ball and light model settings. */
  datatype Lamp = Lamp(light: int, move: int, zh: int, ylight: real,
                       one: int, distance: int, inc: int, smooth: int, local: int)

  /** The four intensities in percent and the shininess exponent with its value. */
  datatype Material = Material(emission: int, ambient: int, diffuse: int, specular: int,
                               shininess: int, shiny: real)

  /**
   * The globals the handlers read and write. `animate` stands for the GLUT
   * idle callback being installed.
   */
  datatype Settings = Settings(view: View, lamp: Lamp, material: Material, ntex: int, animate: bool)

  /** A percentage the handlers step by five between 0 and 100. */
  predicate Level(x: int) {
    0 <= x <= 100 && x % 5 == 0
  }

  /** A step of five down from a level above 0, or up from one below 100, stays a level. */
  lemma LevelSteps(x: int)
    ensures Level(x) && x > 0 ==> Level(x - 5)
    ensures Level(x) && x < 100 ==> Level(x + 5)
  {
  }

  /** A 0/1 switch. */
  predicate Flag(x: int) {
    0 <= x <= 1
  }

  function Pow2(n: nat): (p: int)
    ensures p >= 1
  {
    if n == 0 then 1 else 2 * Pow2(n - 1)
  }

  /** The shininess value: 0 for exponent -1, otherwise two to the exponent. */
  function ShinyOf(shininess: int): (v: real)
    ensures shininess < 0 <==> v == 0.0
    ensures 0 <= shininess ==> v >= 1.0
  {
    if shininess < 0 then 0.0 else Pow2(shininess) as real
  }

  predicate ViewValid(v: View) {
    -360 < v.th < 360 && -360 < v.ph < 360 && v.dim > 0.9 && Flag(v.mode) && Flag(v.axes)
  }

  predicate LampValid(l: Lamp) {
    Flag(l.light) && Flag(l.move) && Flag(l.smooth) && Flag(l.local)
    && -1 <= l.one <= 1 && l.one != 0 && (l.distance == 1 || l.distance == 5) && (l.inc == 10 || l.inc == 3)
  }

  predicate MaterialValid(m: Material) {
    Level(m.emission) && Level(m.ambient) && Level(m.diffuse) && Level(m.specular)
    && -1 <= m.shininess <= 7 && m.shiny == ShinyOf(m.shininess)
  }

  /** The states the handlers keep from the initial globals on. */
  predicate Valid(s: Settings) {
    ViewValid(s.view) && LampValid(s.lamp) && MaterialValid(s.material)
    && Flag(s.ntex) && s.animate == (s.lamp.move != 0)
  }

  /** The initial values of the globals. */
  const Initial: Settings := Settings(
    View(0, 0, 55, 3.0, 1, 1),
    Lamp(1, 1, 90, 0.0, 1, 5, 10, 1, 0),
    Material(0, 30, 100, 0, 0, 1.0),
    0, true)

  lemma InitialValid()
    ensures Valid(Initial)
  {
  }

  // ----- special -----

  /** What `special(key)` does to the view, before the angles are wrapped. */
  function SpecialView(v: View, key: int): View {
    if key == KeyRight then v.(th := v.th + 5)
    else if key == KeyLeft then v.(th := v.th - 5)
    else if key == KeyUp then v.(ph := v.ph + 5)
    else if key == KeyDown then v.(ph := v.ph - 5)
    else if key == KeyPageDown then v.(dim := v.dim + 0.1)
    else if key == KeyPageUp && v.dim > 1.0 then v.(dim := v.dim - 0.1)
    else v
  }

  /** What `special(key)` does to the light model: the function keys' toggles. */
  function SpecialLamp(l: Lamp, key: int): Lamp {
    if key == KeyF1 then l.(smooth := 1 - l.smooth)
    else if key == KeyF2 then l.(local := 1 - l.local)
    else if key == KeyF3 then l.(distance := if l.distance == 1 then 5 else 1)
    else if key == KeyF8 then l.(inc := if l.inc == 10 then 3 else 10)
    else if key == KeyF9 then l.(one := -l.one)
    else l
  }

  /**
   * The state after `special(key)`. The source tests the keys in one
   * else-if chain; no key is tested twice, so the view keys and the light
   * keys act independently.
   */
  function SpecialStep(s: Settings, key: int): (r: Settings)
    ensures -360 < r.view.th < 360 && -360 < r.view.ph < 360
  {
    var v := SpecialView(s.view, key);
    s.(view := v.(th := Rem(v.th, 360), ph := Rem(v.ph, 360)), lamp := SpecialLamp(s.lamp, key))
  }

  // ----- key -----

  function KeyView(v: View, ch: char): View {
    if ch == '0' then v.(th := 0, ph := 0)
    else if ch == 'x' || ch == 'X' then v.(axes := 1 - v.axes)
    else if ch == 'p' || ch == 'P' then v.(mode := 1 - v.mode)
    else if ch == '-' && ch as int > 1 then v.(fov := v.fov - 1)
    else if ch == '+' && ch as int < 179 then v.(fov := v.fov + 1)
    else v
  }

  function KeyLamp(l: Lamp, ch: char): Lamp {
    if ch == 'l' || ch == 'L' then l.(light := 1 - l.light)
    else if ch == 'm' || ch == 'M' then l.(move := 1 - l.move)
    else if ch == '<' then l.(zh := l.zh + 1)
    else if ch == '>' then l.(zh := l.zh - 1)
    else if ch == '[' then l.(ylight := l.ylight - 0.1)
    else if ch == ']' then l.(ylight := l.ylight + 0.1)
    else l
  }

  /** The intensity and shininess keys; the shininess value is recomputed after every key. */
  function KeyMaterial(m: Material, ch: char): Material {
    var t :=
      if ch == 'a' && m.ambient > 0 then m.(ambient := m.ambient - 5)
      else if ch == 'A' && m.ambient < 100 then m.(ambient := m.ambient + 5)
      else if ch == 'd' && m.diffuse > 0 then m.(diffuse := m.diffuse - 5)
      else if ch == 'D' && m.diffuse < 100 then m.(diffuse := m.diffuse + 5)
      else if ch == 's' && m.specular > 0 then m.(specular := m.specular - 5)
      else if ch == 'S' && m.specular < 100 then m.(specular := m.specular + 5)
      else if ch == 'e' && m.emission > 0 then m.(emission := m.emission - 5)
      else if ch == 'E' && m.emission < 100 then m.(emission := m.emission + 5)
      else if ch == 'n' && m.shininess > -1 then m.(shininess := m.shininess - 1)
      else if ch == 'N' && m.shininess < 7 then m.(shininess := m.shininess + 1)
      else m;
    t.(shiny := ShinyOf(t.shininess))
  }

  /**
   * The state after `key(ch)` for every key but Escape, which ends the
   * program instead. As in `special`, no key is tested twice in the source's
   * else-if chain, so each group of globals follows its own keys; afterwards
   * the idle callback is installed exactly when the light moves.
   */
  function KeyStep(s: Settings, ch: char): Settings
    requires ch != Escape
  {
    var lamp := KeyLamp(s.lamp, ch);
    Settings(KeyView(s.view, ch), lamp, KeyMaterial(s.material, ch),
             if ch == 't' || ch == 'T' then 1 - s.ntex else s.ntex,
             lamp.move != 0)
  }

  /** The view keys of both handlers keep the view valid. */
  lemma ViewKeysKeepValid(v: View, key: int, ch: char)
    requires ViewValid(v)
    ensures var w := SpecialView(v, key); ViewValid(w.(th := Rem(w.th, 360), ph := Rem(w.ph, 360)))
    ensures ViewValid(KeyView(v, ch))
  {
  }

  /** The light keys of both handlers keep the lighting valid. */
  lemma LampKeysKeepValid(l: Lamp, key: int, ch: char)
    requires LampValid(l)
    ensures LampValid(SpecialLamp(l, key))
    ensures LampValid(KeyLamp(l, ch))
  {
  }

  /**
   * The intensity keys keep each level a multiple of five within [0, 100],
   * the shininess exponent stays within [-1, 7], and its value is always
   * recomputed from it.
   */
  lemma MaterialKeysKeepValid(m: Material, ch: char)
    ensures KeyMaterial(m, ch).shiny == ShinyOf(KeyMaterial(m, ch).shininess)
    ensures MaterialValid(m) ==> MaterialValid(KeyMaterial(m, ch))
  {
    LevelSteps(m.emission);
    LevelSteps(m.ambient);
    LevelSteps(m.diffuse);
    LevelSteps(m.specular);
  }

  /** Both handlers keep the globals valid. */
  lemma StepsKeepValid(s: Settings, key: int, ch: char)
    requires Valid(s) && ch != Escape
    ensures Valid(SpecialStep(s, key))
    ensures Valid(KeyStep(s, ch))
  {
    ViewKeysKeepValid(s.view, key, ch);
    LampKeysKeepValid(s.lamp, key, ch);
    MaterialKeysKeepValid(s.material, ch);
  }

  /** The function keys F1, F2, F3, F8 and F9 each flip a setting: a second press restores the state. */
  lemma SpecialToggles(s: Settings, key: int)
    requires Valid(s) && key in {KeyF1, KeyF2, KeyF3, KeyF8, KeyF9}
    ensures SpecialStep(s, key) != s
    ensures SpecialStep(SpecialStep(s, key), key) == s
  {
    RemTurn(s.view.th);
    RemTurn(s.view.ph);
  }

  /**
   * The arrows turn one view angle by five degrees, wrapping by a full turn;
   * Page Down widens the view by 0.1 and Page Up narrows it while it exceeds 1.
   */
  lemma SpecialMovesView(s: Settings, key: int)
    requires Valid(s)
    ensures var v, r := s.view, SpecialStep(s, key);
      && (IsArrow(key) || key in {KeyPageUp, KeyPageDown} ==> r.lamp == s.lamp)
      && (key == KeyRight ==> r.view == v.(th := if v.th + 5 >= 360 then v.th + 5 - 360 else v.th + 5))
      && (key == KeyLeft ==> r.view == v.(th := if v.th - 5 <= -360 then v.th - 5 + 360 else v.th - 5))
      && (key == KeyUp ==> r.view == v.(ph := if v.ph + 5 >= 360 then v.ph + 5 - 360 else v.ph + 5))
      && (key == KeyDown ==> r.view == v.(ph := if v.ph - 5 <= -360 then v.ph - 5 + 360 else v.ph - 5))
      && (key == KeyPageDown ==> r.view == v.(dim := v.dim + 0.1))
      && (key == KeyPageUp ==> r.view == v.(dim := if v.dim > 1.0 then v.dim - 0.1 else v.dim))
  {
    var v := s.view;
    RemTurn(v.th + 5);
    RemTurn(v.th - 5);
    RemTurn(v.ph + 5);
    RemTurn(v.ph - 5);
    RemTurn(v.th);
    RemTurn(v.ph);
  }

  /** The display toggles: a second press of the same key restores the state. */
  lemma KeyToggles(s: Settings, ch: char)
    requires Valid(s)
    requires ch == 'x' || ch == 'X' || ch == 'l' || ch == 'L' || ch == 'p' || ch == 'P'
          || ch == 'm' || ch == 'M' || ch == 't' || ch == 'T'
    ensures KeyStep(s, ch) != s
    ensures KeyStep(KeyStep(s, ch), ch) == s
  {
  }

  /**
   * The per-group summary of KeyViewFrames, KeyLampFrames, KeyMaterialFrames
   * and KeyOtherFrames: each key changes only the globals it is tested for,
   * since the else-if chain makes the view keys, the light keys, the material
   * keys and 't'/'T' disjoint, and the idle callback changes only with the
   * light's movement.
   */
  lemma KeyTouchesOwn(s: Settings, ch: char)
    requires Valid(s) && ch != Escape
    ensures var r := KeyStep(s, ch);
      && (r.view != s.view ==> ch == '0' || ch == 'x' || ch == 'X' || ch == 'p' || ch == 'P' || ch == '-' || ch == '+')
      && (r.lamp != s.lamp ==> ch == 'l' || ch == 'L' || ch == 'm' || ch == 'M' || ch == '<' || ch == '>' || ch == '[' || ch == ']')
      && (r.material != s.material ==> MaterialKey(ch))
      && (r.ntex != s.ntex ==> ch == 't' || ch == 'T')
      && (r.animate != s.animate ==> ch == 'm' || ch == 'M')
      && (ch == '0' ==> r.view.th == 0 && r.view.ph == 0)
  {
  }

  /** Each view key changes its own view global and nothing else. */
  lemma KeyViewFrames(s: Settings, ch: char)
    requires Valid(s)
    ensures var v, r := s.view, KeyStep(s, '0');
      r == s.(view := v.(th := 0, ph := 0))
    ensures ch == 'x' || ch == 'X' ==> KeyStep(s, ch) == s.(view := s.view.(axes := 1 - s.view.axes))
    ensures ch == 'p' || ch == 'P' ==> KeyStep(s, ch) == s.(view := s.view.(mode := 1 - s.view.mode))
    ensures KeyStep(s, '-') == s.(view := s.view.(fov := s.view.fov - 1))
    ensures KeyStep(s, '+') == s.(view := s.view.(fov := s.view.fov + 1))
  {
  }

  /** Each light key changes its own lighting global; 'm'/'M' also installs or removes the idle callback. */
  lemma KeyLampFrames(s: Settings, ch: char)
    requires Valid(s)
    ensures ch == 'l' || ch == 'L' ==> KeyStep(s, ch) == s.(lamp := s.lamp.(light := 1 - s.lamp.light))
    ensures ch == 'm' || ch == 'M' ==>
      KeyStep(s, ch) == s.(lamp := s.lamp.(move := 1 - s.lamp.move), animate := !s.animate)
    ensures KeyStep(s, '<') == s.(lamp := s.lamp.(zh := s.lamp.zh + 1))
    ensures KeyStep(s, '>') == s.(lamp := s.lamp.(zh := s.lamp.zh - 1))
    ensures KeyStep(s, '[') == s.(lamp := s.lamp.(ylight := s.lamp.ylight - 0.1))
    ensures KeyStep(s, ']') == s.(lamp := s.lamp.(ylight := s.lamp.ylight + 0.1))
  {
  }

  /**
   * Each intensity key moves its own level by five while it stays within
   * [0, 100]; 'n'/'N' move the shininess exponent within [-1, 7] together
   * with its value. Nothing else in the material changes.
   */
  lemma MaterialFrames(m: Material)
    requires MaterialValid(m)
    ensures KeyMaterial(m, 'a') == m.(ambient := if m.ambient > 0 then m.ambient - 5 else m.ambient)
    ensures KeyMaterial(m, 'A') == m.(ambient := if m.ambient < 100 then m.ambient + 5 else m.ambient)
    ensures KeyMaterial(m, 'd') == m.(diffuse := if m.diffuse > 0 then m.diffuse - 5 else m.diffuse)
    ensures KeyMaterial(m, 'D') == m.(diffuse := if m.diffuse < 100 then m.diffuse + 5 else m.diffuse)
    ensures KeyMaterial(m, 's') == m.(specular := if m.specular > 0 then m.specular - 5 else m.specular)
    ensures KeyMaterial(m, 'S') == m.(specular := if m.specular < 100 then m.specular + 5 else m.specular)
    ensures KeyMaterial(m, 'e') == m.(emission := if m.emission > 0 then m.emission - 5 else m.emission)
    ensures KeyMaterial(m, 'E') == m.(emission := if m.emission < 100 then m.emission + 5 else m.emission)
    ensures var k := if m.shininess > -1 then m.shininess - 1 else m.shininess;
      KeyMaterial(m, 'n') == m.(shininess := k, shiny := ShinyOf(k))
    ensures var k := if m.shininess < 7 then m.shininess + 1 else m.shininess;
      KeyMaterial(m, 'N') == m.(shininess := k, shiny := ShinyOf(k))
  {
  }

  /** A material key changes the material, as MaterialFrames says, and nothing else. */
  lemma KeyMaterialFrames(s: Settings, ch: char)
    requires Valid(s) && MaterialKey(ch)
    ensures KeyStep(s, ch) == s.(material := KeyMaterial(s.material, ch))
  {
  }

  /** 't'/'T' switch the texture and nothing else; every key outside the chain leaves the globals as they were. */
  lemma KeyOtherFrames(s: Settings, ch: char)
    requires Valid(s) && ch != Escape
    ensures ch == 't' || ch == 'T' ==> KeyStep(s, ch) == s.(ntex := 1 - s.ntex)
    ensures ch !in "0xXpP-+lLmM<>[]aAdDsSeEnNtT" ==> KeyStep(s, ch) == s
  {
  }

  /** The keys that step a setting up or down. */
  predicate Stepping(ch: char) {
    MaterialKey(ch) || ch == '<' || ch == '>' || ch == '[' || ch == ']' || ch == '-' || ch == '+'
  }

  /** The keys that step an intensity or the shininess exponent. */
  predicate MaterialKey(ch: char) {
    ch == 'a' || ch == 'A' || ch == 'd' || ch == 'D' || ch == 's' || ch == 'S'
    || ch == 'e' || ch == 'E' || ch == 'n' || ch == 'N'
  }

  /** The key that moves a setting back the other way. */
  function Opposite(ch: char): char {
    match ch
    case 'a' => 'A' case 'A' => 'a'
    case 'd' => 'D' case 'D' => 'd'
    case 's' => 'S' case 'S' => 's'
    case 'e' => 'E' case 'E' => 'e'
    case 'n' => 'N' case 'N' => 'n'
    case '<' => '>' case '>' => '<'
    case '-' => '+' case '+' => '-'
    case '[' => ']' case ']' => '['
    case _ => ch
  }

  /** The stepping keys are exactly the keys with an opposite, and they come in pairs. */
  lemma OppositePairs(ch: char)
    ensures Stepping(ch) <==> Opposite(ch) != ch
    ensures Stepping(Opposite(ch)) == Stepping(ch)
    ensures Opposite(Opposite(ch)) == ch
  {
  }

  /** Every step a stepping key takes is undone by the opposite key. */
  lemma KeyUndo(s: Settings, ch: char)
    requires Valid(s) && Stepping(ch)
    requires KeyStep(s, ch) != s
    ensures KeyStep(KeyStep(s, ch), Opposite(ch)) == s
  {
    if ch == '-' || ch == '+' {
      FovUndo(s, ch);
    } else if ch == '<' || ch == '>' || ch == '[' || ch == ']' {
      LightPositionUndo(s, ch);
    } else {
      MaterialKeyUndo(s, ch);
    }
  }

  lemma FovUndo(s: Settings, ch: char)
    requires Valid(s) && (ch == '-' || ch == '+')
    ensures KeyStep(KeyStep(s, ch), Opposite(ch)) == s
  {
    assert KeyView(KeyView(s.view, ch), Opposite(ch)) == s.view;
  }

  lemma LightPositionUndo(s: Settings, ch: char)
    requires Valid(s) && (ch == '<' || ch == '>' || ch == '[' || ch == ']')
    ensures KeyStep(KeyStep(s, ch), Opposite(ch)) == s
  {
    assert KeyLamp(KeyLamp(s.lamp, ch), Opposite(ch)) == s.lamp;
  }

  lemma MaterialKeyUndo(s: Settings, ch: char)
    requires Valid(s) && MaterialKey(ch)
    requires KeyStep(s, ch) != s
    ensures KeyStep(KeyStep(s, ch), Opposite(ch)) == s
  {
    MaterialUndo(s.material, ch);
  }

  lemma MaterialUndo(m: Material, ch: char)
    requires MaterialValid(m) && MaterialKey(ch)
    requires KeyMaterial(m, ch) != m
    ensures KeyMaterial(KeyMaterial(m, ch), Opposite(ch)) == m
  {
  }

  /** The state after `n` presses of the same key. */
  function Presses(s: Settings, ch: char, n: nat): Settings
    requires ch != Escape
  {
    if n == 0 then s else KeyStep(Presses(s, ch, n - 1), ch)
  }

  function Min(a: int, b: int): int { if a < b then a else b }

  /** n presses of 'A' raise the ambient level by 5n, saturating at 100, and change nothing else. */
  lemma {:induction false} AmbientSaturates(s: Settings, n: nat)
    requires Valid(s)
    ensures Presses(s, 'A', n) == s.(material := s.material.(ambient := Min(s.material.ambient + 5 * n, 100)))
  {
    if n > 0 {
      AmbientSaturates(s, n - 1);
    }
  }

  /** The field of view has no bound: n presses of '-' lower it by n and change nothing else. */
  lemma {:induction false} FovDrift(s: Settings, n: nat)
    requires Valid(s)
    ensures Presses(s, '-', n) == s.(view := s.view.(fov := s.view.fov - n))
  {
    if n > 0 {
      FovDrift(s, n - 1);
    }
  }

  /**
   * The program's globals, held in the three groups above; `view.th` is the
   * global th, `material.ambient` the global ambient, and so on. The texture
   * handles and the idle callback's body are not part of this model.
   */
  class Globals {
    var view: View
    var lamp: Lamp
    var material: Material
    var ntex: int
    var animate: bool

    function Snapshot(): Settings
      reads this
    {
      Settings(view, lamp, material, ntex, animate)
    }

    /** The initial values of the globals, with the idle callback installed. */
    constructor()
      ensures Snapshot() == Initial
      ensures Valid(Snapshot())
    {
      view := View(0, 0, 55, 3.0, 1, 1);
      lamp := Lamp(1, 1, 90, 0.0, 1, 5, 10, 1, 0);
      material := Material(0, 30, 100, 0, 0, 1.0);
      ntex, animate := 0, true;
      InitialValid();
    }

    /**
     * special: view angles, zoom and light model toggles, then both angles
     * back inside one turn. The source's one else-if chain is taken as a
     * chain for the view keys followed by a chain for the light keys; no key
     * is in both, so each key still takes exactly one branch.
     */
    method Special(key: int)
      modifies this`view, this`lamp
      ensures Snapshot() == SpecialStep(old(Snapshot()), key)
    {
      SpecialViewKeys(key);
      SpecialLampKeys(key);
      view := view.(th := Rem(view.th, 360), ph := Rem(view.ph, 360));
    }

    method SpecialViewKeys(key: int)
      modifies this`view
      ensures view == SpecialView(old(view), key)
    {
      if key == KeyRight {
        view := view.(th := view.th + 5);
      } else if key == KeyLeft {
        view := view.(th := view.th - 5);
      } else if key == KeyUp {
        view := view.(ph := view.ph + 5);
      } else if key == KeyDown {
        view := view.(ph := view.ph - 5);
      } else if key == KeyPageDown {
        view := view.(dim := view.dim + 0.1);
      } else if key == KeyPageUp && view.dim > 1.0 {
        view := view.(dim := view.dim - 0.1);
      }
    }

    method SpecialLampKeys(key: int)
      modifies this`lamp
      ensures lamp == SpecialLamp(old(lamp), key)
    {
      if key == KeyF1 {
        lamp := lamp.(smooth := 1 - lamp.smooth);
      } else if key == KeyF2 {
        lamp := lamp.(local := 1 - lamp.local);
      } else if key == KeyF3 {
        lamp := lamp.(distance := if lamp.distance == 1 then 5 else 1);
      } else if key == KeyF8 {
        lamp := lamp.(inc := if lamp.inc == 10 then 3 else 10);
      } else if key == KeyF9 {
        lamp := lamp.(one := -lamp.one);
      }
    }

    /**
     * key: `exit` is whether the key ends the program (Escape), leaving the
     * globals as they were; otherwise at most one setting changes, then the
     * shininess value is recomputed and the idle callback follows `move`.
     * As in Special, the source's chain is taken group by group.
     */
    method Key(ch: char) returns (exit: bool)
      modifies this
      ensures exit <==> ch == Escape
      ensures exit ==> Snapshot() == old(Snapshot())
      ensures !exit ==> Snapshot() == KeyStep(old(Snapshot()), ch)
    {
      exit := ch == Escape;
      if exit {
        return;
      }
      ViewKeys(ch);
      LampKeys(ch);
      MaterialKeys(ch);
      if ch == 't' || ch == 'T' {
        ntex := 1 - ntex;
      }
      animate := lamp.move != 0;
    }

    method ViewKeys(ch: char)
      modifies this`view
      ensures view == KeyView(old(view), ch)
    {
      if ch == '0' {
        view := view.(th := 0, ph := 0);
      } else if ch == 'x' || ch == 'X' {
        view := view.(axes := 1 - view.axes);
      } else if ch == 'p' || ch == 'P' {
        view := view.(mode := 1 - view.mode);
      } else if ch == '-' && ch as int > 1 {
        view := view.(fov := view.fov - 1);
      } else if ch == '+' && ch as int < 179 {
        view := view.(fov := view.fov + 1);
      }
    }

    method LampKeys(ch: char)
      modifies this`lamp
      ensures lamp == KeyLamp(old(lamp), ch)
    {
      if ch == 'l' || ch == 'L' {
        lamp := lamp.(light := 1 - lamp.light);
      } else if ch == 'm' || ch == 'M' {
        lamp := lamp.(move := 1 - lamp.move);
      } else if ch == '<' {
        lamp := lamp.(zh := lamp.zh + 1);
      } else if ch == '>' {
        lamp := lamp.(zh := lamp.zh - 1);
      } else if ch == '[' {
        lamp := lamp.(ylight := lamp.ylight - 0.1);
      } else if ch == ']' {
        lamp := lamp.(ylight := lamp.ylight + 0.1);
      }
    }

    /** The intensity and shininess keys, then the shininess value from its exponent. */
    method MaterialKeys(ch: char)
      modifies this`material
      ensures material == KeyMaterial(old(material), ch)
    {
      var m := material;
      if ch == 'a' && m.ambient > 0 {
        m := m.(ambient := m.ambient - 5);
      } else if ch == 'A' && m.ambient < 100 {
        m := m.(ambient := m.ambient + 5);
      } else if ch == 'd' && m.diffuse > 0 {
        m := m.(diffuse := m.diffuse - 5);
      } else if ch == 'D' && m.diffuse < 100 {
        m := m.(diffuse := m.diffuse + 5);
      } else if ch == 's' && m.specular > 0 {
        m := m.(specular := m.specular - 5);
      } else if ch == 'S' && m.specular < 100 {
        m := m.(specular := m.specular + 5);
      } else if ch == 'e' && m.emission > 0 {
        m := m.(emission := m.emission - 5);
      } else if ch == 'E' && m.emission < 100 {
        m := m.(emission := m.emission + 5);
      } else if ch == 'n' && m.shininess > -1 {
        m := m.(shininess := m.shininess - 1);
      } else if ch == 'N' && m.shininess < 7 {
        m := m.(shininess := m.shininess + 1);
      }
      material := m.(shiny := ShinyOf(m.shininess));
    }
  }
}
