/**
 * The airplane helper: its texture cycling state, the tessellation of a
 * window panel into quad strips, the un-normalised face normal, and a point
 * on a circle in a plane of constant x.
 *
 * Coordinates are reals: float and double rounding are not modelled. The
 * degree-based Cos and Sin are given as functions.
 */
module Airplane {
  import opened Geometry
  import opened CInt

  // ----- Texture cycling -----

  /** The texture index after one changeTexture: (ntex + 1) % num_textures with C's %. */
  function NextTex(ntex: int, numTextures: int): (r: int)
    requires numTextures != 0
    ensures Abs(r) < Abs(numTextures)
    ensures ntex >= -1 ==> 0 <= r
  {
    Rem(ntex + 1, numTextures)
  }

  /** The texture index after `t` calls of changeTexture. */
  function NextTexN(ntex: int, numTextures: int, t: nat): int
    requires numTextures != 0
  {
    if t == 0 then ntex else NextTex(NextTexN(ntex, numTextures, t - 1), numTextures)
  }

  /** An index in range stays in range: 0 <= ntex < |num_textures|. */
  lemma NextTexInRange(ntex: int, numTextures: int)
    requires numTextures != 0 && 0 <= ntex < Abs(numTextures)
    ensures 0 <= NextTex(ntex, numTextures) < Abs(numTextures)
  {
  }

  /**
   * From an index in range, t <= |num_textures| calls advance it by t,
   * wrapping once past the end.
   */
  lemma {:induction false} NextTexWalk(ntex: int, numTextures: int, t: nat)
    requires numTextures != 0 && 0 <= ntex < Abs(numTextures) && t <= Abs(numTextures)
    ensures NextTexN(ntex, numTextures, t)
         == if ntex + t < Abs(numTextures) then ntex + t else ntex + t - Abs(numTextures)
  {
    if t > 0 {
      NextTexWalk(ntex, numTextures, t - 1);
      var m := NextTexN(ntex, numTextures, t - 1);
      assert NextTexN(ntex, numTextures, t) == Rem(m + 1, numTextures);
      if m + 1 < Abs(numTextures) {
        RemInRange(m + 1, numTextures);
      } else {
        assert ntex + t == Abs(numTextures);
        RemSelf(numTextures);
      }
    }
  }

  /** |num_textures| consecutive calls bring the index back to where it started. */
  lemma NextTexCycle(ntex: int, numTextures: int)
    requires numTextures != 0 && 0 <= ntex < Abs(numTextures)
    ensures NextTexN(ntex, numTextures, Abs(numTextures)) == ntex
  {
    NextTexWalk(ntex, numTextures, Abs(numTextures));
  }

  /** The airplane object; `texture` stands for the array of texture handles it draws with. */
  class Airplane {
    const texture: array<int>
    const numTextures: int
    var ntex: int

    /** ntex indexes an existing texture. */
    ghost predicate Valid()
      reads this`ntex
    {
      numTextures != 0 ==> 0 <= ntex < Abs(numTextures)
    }

    /** Keeps the caller's array itself (not a copy) and its count; ntex starts at 0. */
    constructor(textures: array<int>, numTex: int)
      ensures texture == textures && numTextures == numTex && ntex == 0
      ensures Valid()
    {
      texture := textures;
      numTextures := numTex;
      ntex := 0;
    }

    /** changeTexture: advance to the next texture, wrapping at num_textures. */
    method ChangeTexture()
      requires numTextures != 0
      requires Valid()
      modifies this`ntex
      ensures ntex == NextTex(old(ntex), numTextures)
      ensures Valid()
    {
      ntex := Rem(ntex + 1, numTextures);
      NextTexInRange(old(ntex), numTextures);
    }
  }

  // ----- Window tessellation -----

  /**
   * The grid point `row` increments along the window's height and `col`
   * increments along its width from the start corner.
   */
  function GridPoint(row: int, col: int, start: Vec3, end: Vec3, horizSeg: int, vertSeg: int): Vec3
    requires horizSeg != 0 && vertSeg != 0
  {
    var xIncrement := (end.x - start.x) / vertSeg as real;
    var yIncrement := (end.y - start.y) / vertSeg as real;
    var zIncrement := (end.z - start.z) / horizSeg as real;
    Vec3(start.x + row as real * xIncrement, start.y + row as real * yIncrement,
         start.z + col as real * zIncrement)
  }

  /** The number of iterations of `for (k = 0; k <= n; k++)`. */
  function Iterations(n: int): nat
  {
    if n >= 0 then n + 1 else 0
  }

  /**
   * drawWindow: the quad strips it emits, one per row. Row i pairs the grid
   * point one row up with the grid point on row i, column by column.
   */
  method DrawWindow(horizSeg: int, vertSeg: int, start: Vec3, end: Vec3) returns (strips: seq<seq<Vec3>>)
    requires horizSeg != 0 && vertSeg != 0
    ensures |strips| == Iterations(vertSeg)
    ensures forall i :: 0 <= i < |strips| ==> |strips[i]| == 2 * Iterations(horizSeg)
    ensures forall i, j :: 0 <= i < |strips| && 0 <= j < Iterations(horizSeg) ==>
      strips[i][2 * j] == GridPoint(i + 1, j, start, end, horizSeg, vertSeg)
      && strips[i][2 * j + 1] == GridPoint(i, j, start, end, horizSeg, vertSeg)
  {
    var yIncrement := (end.y - start.y) / vertSeg as real;
    var xIncrement := (end.x - start.x) / vertSeg as real;
    var zIncrement := (end.z - start.z) / horizSeg as real;
    var curX, curY, curZ := start.x, start.y, start.z;
    strips := [];
    var i := 0;
    while i <= vertSeg
      invariant 0 <= i <= Iterations(vertSeg)
      invariant |strips| == i
      invariant curX == start.x + i as real * xIncrement && curY == start.y + i as real * yIncrement
      invariant curZ == start.z
      invariant forall r :: 0 <= r < i ==> |strips[r]| == 2 * Iterations(horizSeg)
      invariant forall r, j :: 0 <= r < i && 0 <= j < Iterations(horizSeg) ==>
        strips[r][2 * j] == GridPoint(r + 1, j, start, end, horizSeg, vertSeg)
        && strips[r][2 * j + 1] == GridPoint(r, j, start, end, horizSeg, vertSeg)
    {
      var strip := [];
      var j := 0;
      while j <= horizSeg
        invariant 0 <= j <= Iterations(horizSeg)
        invariant |strip| == 2 * j
        invariant curZ == start.z + j as real * zIncrement
        invariant forall c :: 0 <= c < j ==>
          strip[2 * c] == GridPoint(i + 1, c, start, end, horizSeg, vertSeg)
          && strip[2 * c + 1] == GridPoint(i, c, start, end, horizSeg, vertSeg)
      {
        strip := strip + [Vec3(curX + xIncrement, curY + yIncrement, curZ), Vec3(curX, curY, curZ)];
        curZ := curZ + zIncrement;
        j := j + 1;
      }
      strips := strips + [strip];
      curX := curX + xIncrement;
      curY := curY + yIncrement;
      curZ := start.z;
      i := i + 1;
    }
  }

  /**
   * The grid's extent: it starts at the start corner, the last column reaches
   * end_z exactly and the last row's lower edge reaches end_x and end_y, so
   * that row's upper edge lies one increment beyond the end corner.
   */
  lemma GridReach(start: Vec3, end: Vec3, horizSeg: int, vertSeg: int)
    requires horizSeg != 0 && vertSeg != 0
    ensures GridPoint(0, 0, start, end, horizSeg, vertSeg) == start
    ensures GridPoint(vertSeg, horizSeg, start, end, horizSeg, vertSeg) == end
    ensures GridPoint(vertSeg + 1, horizSeg, start, end, horizSeg, vertSeg)
         == Vec3(end.x + (end.x - start.x) / vertSeg as real,
                 end.y + (end.y - start.y) / vertSeg as real, end.z)
  {
    var v, h := vertSeg as real, horizSeg as real;
    assert v * ((end.x - start.x) / v) == end.x - start.x;
    assert v * ((end.y - start.y) / v) == end.y - start.y;
    assert h * ((end.z - start.z) / h) == end.z - start.z;
    assert (v + 1.0) * ((end.x - start.x) / v) == (end.x - start.x) + (end.x - start.x) / v;
    assert (v + 1.0) * ((end.y - start.y) / v) == (end.y - start.y) + (end.y - start.y) / v;
  }

  // ----- Normals and circles -----

  /** The cross product u x v. */
  function Cross(u: Vec3, v: Vec3): Vec3 {
    Vec3(u.y * v.z - u.z * v.y, u.z * v.x - u.x * v.z, u.x * v.y - u.y * v.x)
  }

  /** crossProduct before normalisation: (a - c) x (b - c), perpendicular to both edges. */
  function CrossProduct(a: Vec3, b: Vec3, c: Vec3): (n: Vec3)
    ensures Dot(n, Sub(a, c)) == 0.0 && Dot(n, Sub(b, c)) == 0.0
  {
    var u, v := Sub(a, c), Sub(b, c);
    CrossOrthogonal(u, v);
    Cross(u, v)
  }

  lemma CrossOrthogonal(u: Vec3, v: Vec3)
    ensures Dot(Cross(u, v), u) == 0.0 && Dot(Cross(u, v), v) == 0.0
  {
    assert Dot(Cross(u, v), u)
        == (u.y * v.z - u.z * v.y) * u.x + (u.z * v.x - u.x * v.z) * u.y + (u.x * v.y - u.y * v.x) * u.z;
    assert Dot(Cross(u, v), v)
        == (u.y * v.z - u.z * v.y) * v.x + (u.z * v.x - u.x * v.z) * v.y + (u.x * v.y - u.y * v.x) * v.z;
  }

  /** Swapping the two outer points reverses the normal. */
  lemma CrossProductSwap(a: Vec3, b: Vec3, c: Vec3)
    ensures CrossProduct(b, a, c) == Scale(-1.0, CrossProduct(a, b, c))
  {
  }

  /**
   * pointOnCircle2: the point at angle th on the circle of radius r around c
   * in the plane x = c_x.
   */
  function PointOnCircle2(th: real, r: real, c: Vec3, cos: real -> real, sin: real -> real): (p: Vec3)
    ensures p.x == c.x
  {
    Vec3(c.x, c.y + r * cos(th), c.z + r * sin(th))
  }

  /** Where cos^2 + sin^2 = 1 at th, the point lies at distance r from the centre. */
  lemma PointOnCircle2Radius(th: real, r: real, c: Vec3, cos: real -> real, sin: real -> real)
    requires cos(th) * cos(th) + sin(th) * sin(th) == 1.0
    ensures Dist2(PointOnCircle2(th, r, c, cos, sin), c) == r * r
  {
    var p := PointOnCircle2(th, r, c, cos, sin);
    assert (p.y - c.y) * (p.y - c.y) == r * r * (cos(th) * cos(th));
    assert (p.z - c.z) * (p.z - c.z) == r * r * (sin(th) * sin(th));
    assert r * r * (cos(th) * cos(th)) + r * r * (sin(th) * sin(th))
        == r * r * (cos(th) * cos(th) + sin(th) * sin(th));
  }
}
