/**
 * Star::loadOBJ: a reader for the triangle-only subset of Wavefront OBJ.
 *
 * The file is a sequence of lines. A line whose first space-separated token is
 * `v`, `vt` or `vn` adds a position, a texture coordinate or a normal to the
 * temporary tables; a line whose first token is `f` adds three corners, each
 * written `vertex/uv/normal` with 1-based indices into those tables. Every
 * other line is ignored. After reading, every corner is resolved through its
 * indices and appended to the three output sequences.
 *
 * The number conversions std::stof and std::stoul are parameters.
 */
module ObjLoader {
  import opened Tokens
  import opened Geometry

  /** The three 1-based indices of one face corner. */
  datatype Corner = Corner(vertex: nat, uv: nat, normal: nat)

  const VertexTag := "v"
  const UvTag := "vt"
  const NormalTag := "vn"
  const FaceTag := "f"

  /** The first space-separated token of a line. */
  function Tag(line: string): string {
    Field(line, ' ', 0)
  }

  /** A `v` or `vn` line: the three numbers after the tag. */
  function ParseVec3(line: string, stof: string -> real): Vec3 {
    Vec3(stof(Field(line, ' ', 1)), stof(Field(line, ' ', 2)), stof(Field(line, ' ', 3)))
  }

  /** A `vt` line: the two numbers after the tag. */
  function ParseVec2(line: string, stof: string -> real): Vec2 {
    Vec2(stof(Field(line, ' ', 1)), stof(Field(line, ' ', 2)))
  }

  /** One `a/b/c` corner token, split on '/' into vertex, uv and normal index in that order. */
  function ParseCorner(token: string, stoul: string -> nat): Corner {
    Corner(stoul(Field(token, '/', 0)), stoul(Field(token, '/', 1)), stoul(Field(token, '/', 2)))
  }

  /** The three corners of an `f` line, in the order they are written. */
  function FaceCorners(line: string, stoul: string -> nat): (cs: seq<Corner>)
    ensures |cs| == 3
  {
    [ParseCorner(Field(line, ' ', 1), stoul),
     ParseCorner(Field(line, ' ', 2), stoul),
     ParseCorner(Field(line, ' ', 3), stoul)]
  }

  // What a single line contributes to each table.

  function LineVertices(line: string, stof: string -> real): (vs: seq<Vec3>)
  {
    if Tag(line) == VertexTag then [ParseVec3(line, stof)] else []
  }

  function LineUvs(line: string, stof: string -> real): (ts: seq<Vec2>)
  {
    if Tag(line) == UvTag then [ParseVec2(line, stof)] else []
  }

  function LineNormals(line: string, stof: string -> real): (ns: seq<Vec3>)
  {
    if Tag(line) == NormalTag then [ParseVec3(line, stof)] else []
  }

  function LineCorners(line: string, stoul: string -> nat): (cs: seq<Corner>)
  {
    if Tag(line) == FaceTag then FaceCorners(line, stoul) else []
  }

  // Reference definitions: what the first n lines of the file contribute to
  // each table, line by line, in file order.

  /** The number of lines among the first n whose first token is `tag`. */
  function Count(lines: seq<string>, n: nat, tag: string): nat
    requires n <= |lines|
  {
    if n == 0 then 0
    else Count(lines, n - 1, tag) + (if Tag(lines[n - 1]) == tag then 1 else 0)
  }

  /** The positions of the `v` lines, one per line. */
  function Vertices(lines: seq<string>, n: nat, stof: string -> real): (vs: seq<Vec3>)
    requires n <= |lines|
    ensures |vs| <= n
  {
    if n == 0 then []
    else
      Vertices(lines, n - 1, stof) + LineVertices(lines[n - 1], stof)
  }

  /** The texture coordinates of the `vt` lines, one per line. */
  function Uvs(lines: seq<string>, n: nat, stof: string -> real): (ts: seq<Vec2>)
    requires n <= |lines|
    ensures |ts| <= n
  {
    if n == 0 then []
    else
      Uvs(lines, n - 1, stof) + LineUvs(lines[n - 1], stof)
  }

  /** The normals of the `vn` lines, one per line. */
  function Normals(lines: seq<string>, n: nat, stof: string -> real): (ns: seq<Vec3>)
    requires n <= |lines|
    ensures |ns| <= n
  {
    if n == 0 then []
    else
      Normals(lines, n - 1, stof) + LineNormals(lines[n - 1], stof)
  }

  /** The corners of the `f` lines, three per line. */
  function Corners(lines: seq<string>, n: nat, stoul: string -> nat): (cs: seq<Corner>)
    requires n <= |lines|
    ensures |cs| <= 3 * n
  {
    if n == 0 then []
    else
      Corners(lines, n - 1, stoul) + LineCorners(lines[n - 1], stoul)
  }

  /** Each table has one entry per line of its kind, and three corners per face line. */
  lemma {:induction false} TableSizes(lines: seq<string>, n: nat, stof: string -> real, stoul: string -> nat)
    requires n <= |lines|
    ensures |Vertices(lines, n, stof)| == Count(lines, n, VertexTag)
    ensures |Uvs(lines, n, stof)| == Count(lines, n, UvTag)
    ensures |Normals(lines, n, stof)| == Count(lines, n, NormalTag)
    ensures |Corners(lines, n, stoul)| == 3 * Count(lines, n, FaceTag)
  {
    if n > 0 {
      TableSizes(lines, n - 1, stof, stoul);
    }
  }

  function VertexIndices(cs: seq<Corner>): seq<nat>
  {
    seq(|cs|, j requires 0 <= j < |cs| => cs[j].vertex)
  }

  function UvIndices(cs: seq<Corner>): seq<nat>
  {
    seq(|cs|, j requires 0 <= j < |cs| => cs[j].uv)
  }

  function NormalIndices(cs: seq<Corner>): seq<nat>
  {
    seq(|cs|, j requires 0 <= j < |cs| => cs[j].normal)
  }

  lemma IndicesOfConcat(a: seq<Corner>, b: seq<Corner>)
    ensures VertexIndices(a + b) == VertexIndices(a) + VertexIndices(b)
    ensures UvIndices(a + b) == UvIndices(a) + UvIndices(b)
    ensures NormalIndices(a + b) == NormalIndices(a) + NormalIndices(b)
  {
  }

  /** Every index is a valid 1-based position in a table of n entries. */
  predicate InTable(idx: seq<nat>, n: nat) {
    forall j :: 0 <= j < |idx| ==> 1 <= idx[j] <= n
  }

  /** Every corner of every face names an existing vertex, uv and normal. */
  predicate Resolvable(lines: seq<string>, stof: string -> real, stoul: string -> nat) {
    var cs := Corners(lines, |lines|, stoul);
    && InTable(VertexIndices(cs), |Vertices(lines, |lines|, stof)|)
    && InTable(UvIndices(cs), |Uvs(lines, |lines|, stof)|)
    && InTable(NormalIndices(cs), |Normals(lines, |lines|, stof)|)
  }

  /** The table entries the indices name, looked up 1-based, in index order. */
  function Resolve<T>(idx: seq<nat>, table: seq<T>): seq<T>
    requires InTable(idx, |table|)
  {
    seq(|idx|, j requires 0 <= j < |idx| => table[idx[j] - 1])
  }

  /** Reading line n extends each reference table by exactly that line's contribution. */
  lemma ReadStep(lines: seq<string>, n: nat, stof: string -> real, stoul: string -> nat)
    requires n < |lines|
    ensures Vertices(lines, n + 1, stof) == Vertices(lines, n, stof) + LineVertices(lines[n], stof)
    ensures Uvs(lines, n + 1, stof) == Uvs(lines, n, stof) + LineUvs(lines[n], stof)
    ensures Normals(lines, n + 1, stof) == Normals(lines, n, stof) + LineNormals(lines[n], stof)
    ensures
      var cs := Corners(lines, n, stoul);
      var added := LineCorners(lines[n], stoul);
      && VertexIndices(Corners(lines, n + 1, stoul)) == VertexIndices(cs) + VertexIndices(added)
      && UvIndices(Corners(lines, n + 1, stoul)) == UvIndices(cs) + UvIndices(added)
      && NormalIndices(Corners(lines, n + 1, stoul)) == NormalIndices(cs) + NormalIndices(added)
  {
    IndicesOfConcat(Corners(lines, n, stoul), LineCorners(lines[n], stoul));
  }

  /** Resolving one more index appends exactly that index's entry. */
  lemma ResolveSnoc<T>(idx: seq<nat>, table: seq<T>, i: nat)
    requires i < |idx| && InTable(idx, |table|)
    ensures InTable(idx[..i], |table|) && InTable(idx[..i + 1], |table|)
    ensures Resolve(idx[..i + 1], table) == Resolve(idx[..i], table) + [table[idx[i] - 1]]
  {
  }

  /** A line whose first token is none of v, vt, vn, f contributes nothing anywhere. */
  lemma IgnoredLine(lines: seq<string>, n: nat, stof: string -> real, stoul: string -> nat)
    requires n < |lines| && Tag(lines[n]) !in {VertexTag, UvTag, NormalTag, FaceTag}
    ensures Vertices(lines, n + 1, stof) == Vertices(lines, n, stof)
    ensures Uvs(lines, n + 1, stof) == Uvs(lines, n, stof)
    ensures Normals(lines, n + 1, stof) == Normals(lines, n, stof)
    ensures Corners(lines, n + 1, stoul) == Corners(lines, n, stoul)
  {
  }

  /** A face written as three `a/b/c` tokens after `f` reads back as exactly those corners. */
  lemma FaceLineRoundTrip(c0: seq<string>, c1: seq<string>, c2: seq<string>, stoul: string -> nat)
    requires |c0| == |c1| == |c2| == 3
    requires forall j :: 0 <= j < 3 ==> ' ' !in c0[j] && ' ' !in c1[j] && ' ' !in c2[j]
    requires forall j :: 0 <= j < 3 ==> '/' !in c0[j] && '/' !in c1[j] && '/' !in c2[j]
    ensures
      var line := Join([FaceTag, Join(c0, '/'), Join(c1, '/'), Join(c2, '/')], ' ');
      && Tag(line) == FaceTag
      && FaceCorners(line, stoul)
         == [Corner(stoul(c0[0]), stoul(c0[1]), stoul(c0[2])),
             Corner(stoul(c1[0]), stoul(c1[1]), stoul(c1[2])),
             Corner(stoul(c2[0]), stoul(c2[1]), stoul(c2[2]))]
  {
    var tokens := [Join(c0, '/'), Join(c1, '/'), Join(c2, '/')];
    forall t | t in [c0, c1, c2]
      ensures ' ' !in Join(t, '/')
    {
      JoinFree(t, '/', ' ');
    }
    FieldOfJoin([FaceTag] + tokens, ' ', 0);
    FieldOfJoin([FaceTag] + tokens, ' ', 1);
    FieldOfJoin([FaceTag] + tokens, ' ', 2);
    FieldOfJoin([FaceTag] + tokens, ' ', 3);
    FieldOfJoin(c0, '/', 0); FieldOfJoin(c0, '/', 1); FieldOfJoin(c0, '/', 2);
    FieldOfJoin(c1, '/', 0); FieldOfJoin(c1, '/', 1); FieldOfJoin(c1, '/', 2);
    FieldOfJoin(c2, '/', 0); FieldOfJoin(c2, '/', 1); FieldOfJoin(c2, '/', 2);
  }

  /** Joining with `d` introduces no character other than `d`. */
  lemma {:induction false} JoinFree(parts: seq<string>, d: char, c: char)
    requires |parts| >= 1 && c != d
    requires forall j :: 0 <= j < |parts| ==> c !in parts[j]
    ensures c !in Join(parts, d)
  {
    if |parts| > 1 {
      JoinFree(parts[1..], d, c);
    }
  }

  /**
   * The body of the reading loop for one line: the first token decides which
   * temporary table or which index vectors grow; any other line changes nothing.
   */
  method ReadLine(line: string, stof: string -> real, stoul: string -> nat,
                  tempVertices: seq<Vec3>, tempUvs: seq<Vec2>, tempNormals: seq<Vec3>,
                  vertexIndices: seq<nat>, uvIndices: seq<nat>, normalIndices: seq<nat>)
    returns (tempVertices': seq<Vec3>, tempUvs': seq<Vec2>, tempNormals': seq<Vec3>,
             vertexIndices': seq<nat>, uvIndices': seq<nat>, normalIndices': seq<nat>)
    ensures tempVertices' == tempVertices + LineVertices(line, stof)
    ensures tempUvs' == tempUvs + LineUvs(line, stof)
    ensures tempNormals' == tempNormals + LineNormals(line, stof)
    ensures vertexIndices' == vertexIndices + VertexIndices(LineCorners(line, stoul))
    ensures uvIndices' == uvIndices + UvIndices(LineCorners(line, stoul))
    ensures normalIndices' == normalIndices + NormalIndices(LineCorners(line, stoul))
  {
    tempVertices', tempUvs', tempNormals' := tempVertices, tempUvs, tempNormals;
    vertexIndices', uvIndices', normalIndices' := vertexIndices, uvIndices, normalIndices;
    var token := Field(line, ' ', 0);
    if token == VertexTag {
      tempVertices' := tempVertices + [ParseVec3(line, stof)];
    } else if token == UvTag {
      tempUvs' := tempUvs + [ParseVec2(line, stof)];
    } else if token == NormalTag {
      tempNormals' := tempNormals + [ParseVec3(line, stof)];
    } else if token == FaceTag {
      var corners := FaceCorners(line, stoul);
      vertexIndices' := vertexIndices + [corners[0].vertex, corners[1].vertex, corners[2].vertex];
      uvIndices' := uvIndices + [corners[0].uv, corners[1].uv, corners[2].uv];
      normalIndices' := normalIndices + [corners[0].normal, corners[1].normal, corners[2].normal];
    }
  }

  /** The reading pass of the loader: one getline and one ReadLine per line of the file. */
  method ReadRecords(lines: seq<string>, stof: string -> real, stoul: string -> nat)
    returns (tempVertices: seq<Vec3>, tempUvs: seq<Vec2>, tempNormals: seq<Vec3>,
             vertexIndices: seq<nat>, uvIndices: seq<nat>, normalIndices: seq<nat>)
    ensures tempVertices == Vertices(lines, |lines|, stof)
    ensures tempUvs == Uvs(lines, |lines|, stof)
    ensures tempNormals == Normals(lines, |lines|, stof)
    ensures vertexIndices == VertexIndices(Corners(lines, |lines|, stoul))
    ensures uvIndices == UvIndices(Corners(lines, |lines|, stoul))
    ensures normalIndices == NormalIndices(Corners(lines, |lines|, stoul))
  {
    vertexIndices, uvIndices, normalIndices := [], [], [];
    tempVertices, tempUvs, tempNormals := [], [], [];

    var n := 0;
    while n < |lines|
      invariant 0 <= n <= |lines|
      invariant tempVertices == Vertices(lines, n, stof)
      invariant tempUvs == Uvs(lines, n, stof)
      invariant tempNormals == Normals(lines, n, stof)
      invariant vertexIndices == VertexIndices(Corners(lines, n, stoul))
      invariant uvIndices == UvIndices(Corners(lines, n, stoul))
      invariant normalIndices == NormalIndices(Corners(lines, n, stoul))
    {
      ReadStep(lines, n, stof, stoul);
      tempVertices, tempUvs, tempNormals, vertexIndices, uvIndices, normalIndices :=
        ReadLine(lines[n], stof, stoul, tempVertices, tempUvs, tempNormals, vertexIndices, uvIndices, normalIndices);
      n := n + 1;
    }
  }

  /**
   * The resolution pass of the loader: for every corner in order, the entries
   * its three indices name are appended to the output vectors.
   */
  method ResolveCorners(vertexIndices: seq<nat>, uvIndices: seq<nat>, normalIndices: seq<nat>,
                        tempVertices: seq<Vec3>, tempUvs: seq<Vec2>, tempNormals: seq<Vec3>,
                        outVertices: seq<Vec3>, outUvs: seq<Vec2>, outNormals: seq<Vec3>)
    returns (vertices: seq<Vec3>, uvs: seq<Vec2>, normals: seq<Vec3>)
    requires |uvIndices| == |normalIndices| == |vertexIndices|
    requires InTable(vertexIndices, |tempVertices|)
    requires InTable(uvIndices, |tempUvs|)
    requires InTable(normalIndices, |tempNormals|)
    ensures vertices == outVertices + Resolve(vertexIndices, tempVertices)
    ensures uvs == outUvs + Resolve(uvIndices, tempUvs)
    ensures normals == outNormals + Resolve(normalIndices, tempNormals)
  {
    vertices, uvs, normals := outVertices, outUvs, outNormals;
    var i := 0;
    while i < |vertexIndices|
      invariant 0 <= i <= |vertexIndices|
      invariant vertices == outVertices + Resolve(vertexIndices[..i], tempVertices)
      invariant uvs == outUvs + Resolve(uvIndices[..i], tempUvs)
      invariant normals == outNormals + Resolve(normalIndices[..i], tempNormals)
    {
      ResolveSnoc(vertexIndices, tempVertices, i);
      ResolveSnoc(uvIndices, tempUvs, i);
      ResolveSnoc(normalIndices, tempNormals, i);
      vertices := vertices + [tempVertices[vertexIndices[i] - 1]];
      uvs := uvs + [tempUvs[uvIndices[i] - 1]];
      normals := normals + [tempNormals[normalIndices[i] - 1]];
      i := i + 1;
    }
    assert vertexIndices[..i] == vertexIndices;
    assert uvIndices[..i] == uvIndices;
    assert normalIndices[..i] == normalIndices;
  }

  /**
   * The loader. `outVertices`, `outUvs` and `outNormals` are the vectors the
   * caller passes by reference; the results are their contents afterwards:
   * the old contents followed by one resolved entry per face corner.
   */
  method LoadObj(lines: seq<string>, stof: string -> real, stoul: string -> nat,
                 outVertices: seq<Vec3>, outUvs: seq<Vec2>, outNormals: seq<Vec3>)
    returns (vertices: seq<Vec3>, uvs: seq<Vec2>, normals: seq<Vec3>)
    requires Resolvable(lines, stof, stoul)
    ensures |vertices| == |outVertices| + 3 * Count(lines, |lines|, FaceTag)
    ensures |uvs| == |outUvs| + 3 * Count(lines, |lines|, FaceTag)
    ensures |normals| == |outNormals| + 3 * Count(lines, |lines|, FaceTag)
    ensures
      var cs := Corners(lines, |lines|, stoul);
      && vertices == outVertices + Resolve(VertexIndices(cs), Vertices(lines, |lines|, stof))
      && uvs == outUvs + Resolve(UvIndices(cs), Uvs(lines, |lines|, stof))
      && normals == outNormals + Resolve(NormalIndices(cs), Normals(lines, |lines|, stof))
  {
    var tempVertices, tempUvs, tempNormals, vertexIndices, uvIndices, normalIndices
      := ReadRecords(lines, stof, stoul);
    TableSizes(lines, |lines|, stof, stoul);
    vertices, uvs, normals := ResolveCorners(vertexIndices, uvIndices, normalIndices,
      tempVertices, tempUvs, tempNormals, outVertices, outUvs, outNormals);
  }
}
