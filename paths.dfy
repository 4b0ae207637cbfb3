/** The closed boundary path the enemies spawn on and the directed edge
    segments sampled from it (src/common/path.rs). The random draws are
    parameters; the square root behind `length()` is supplied as the edge
    length, constrained to square to the edge's squared length. */
module Paths {
  import opened Geometry

  /** `Path<N>` (src/common/path.rs:4): edge i runs from vertex i to vertex
      (i + 1) mod N. */
  datatype Path = Path(vertices: seq<Vec2>)

  /** `DirectedLineSegment` (src/common/path.rs:7-14): a start point, a
      direction that is meant to be a unit vector, and a length. Its
      `rotation()` getter is the field `rotation`. */
  datatype DirectedLineSegment = DirectedLineSegment(begin: Vec2, rotation: Vec2, len: real)

  /** The edge a draw `r` picks: `r % N` (src/common/path.rs:18). */
  function StartIndex(p: Path, draw: nat): (i: nat)
    requires |p.vertices| > 0
    ensures i < |p.vertices|
    ensures draw == (draw / |p.vertices|) * |p.vertices| + i
  {
    draw % |p.vertices|
  }

  /** The vertex after vertex `i`, cyclically (src/common/path.rs:20). */
  function EndIndex(p: Path, i: nat): (j: nat)
    requires i < |p.vertices|
    ensures j < |p.vertices|
    ensures i + 1 < |p.vertices| ==> j == i + 1
    ensures i + 1 == |p.vertices| ==> j == 0
  {
    (i + 1) % |p.vertices|
  }

  /** `end - begin` of edge `i`. */
  function EdgeVector(p: Path, i: nat): Vec2
    requires i < |p.vertices|
  {
    Sub2(p.vertices[EndIndex(p, i)], p.vertices[i])
  }

  /** `len` is the Euclidean length of `v`. */
  predicate IsLengthOf(v: Vec2, len: real)
  {
    len >= 0.0 && len * len == Dot2(v, v)
  }

  /** No edge joins a vertex to itself, so every edge has a direction. */
  predicate NonDegenerate(p: Path)
  {
    |p.vertices| > 0 && forall i :: 0 <= i < |p.vertices| ==> p.vertices[i] != p.vertices[EndIndex(p, i)]
  }

  lemma NormalizeFacts(v: Vec2, len: real)
    requires len > 0.0 && IsLengthOf(v, len)
    ensures Scale2(Scale2(v, 1.0 / len), len) == v
    ensures Dot2(Scale2(v, 1.0 / len), Scale2(v, 1.0 / len)) == 1.0
  {
  }

  /** `Path::random_segment` with the index draw `draw` and the length of the
      edge it picks (src/common/path.rs:17-27). The direction is
      `diff.normalize()`, `diff` scaled by the reciprocal of its length;
      `edgeLength > 0` rules out a repeated vertex, whose direction would be
      NaN. */
  function RandomSegment(p: Path, draw: nat, edgeLength: real): (s: DirectedLineSegment)
    requires |p.vertices| > 0
    requires edgeLength > 0.0 && IsLengthOf(EdgeVector(p, StartIndex(p, draw)), edgeLength)
    ensures s.begin == p.vertices[StartIndex(p, draw)]
    ensures s.len >= 0.0 && s.len * s.len == Dot2(EdgeVector(p, StartIndex(p, draw)), EdgeVector(p, StartIndex(p, draw)))
    ensures Add2(s.begin, Scale2(s.rotation, s.len)) == p.vertices[EndIndex(p, StartIndex(p, draw))]
    ensures Dot2(s.rotation, s.rotation) == 1.0
  {
    var i := StartIndex(p, draw);
    var diff := EdgeVector(p, i);
    NormalizeFacts(diff, edgeLength);
    DirectedLineSegment(p.vertices[i], Scale2(diff, 1.0 / edgeLength), edgeLength)
  }

  /** `DirectedLineSegment::random_point` with the draw `along`
      (src/common/path.rs:31-33). */
  function RandomPoint(s: DirectedLineSegment, along: real): (r: Vec2)
    ensures along == 0.0 ==> r == s.begin
    // along a unit direction the point lies `along * len` away from the start
    ensures Dot2(s.rotation, s.rotation) == 1.0 ==>
      Dot2(Sub2(r, s.begin), Sub2(r, s.begin)) == (along * s.len) * (along * s.len)
  {
    Add2(s.begin, Scale2(s.rotation, along * s.len))
  }

  /** A draw in [0, 1) gives the point that fraction of the way along the
      sampled edge: on the edge, possibly its start, never its end. */
  lemma RandomPointOnEdge(p: Path, draw: nat, edgeLength: real, along: real)
    requires |p.vertices| > 0
    requires edgeLength > 0.0 && IsLengthOf(EdgeVector(p, StartIndex(p, draw)), edgeLength)
    requires 0.0 <= along < 1.0
    ensures var i := StartIndex(p, draw);
      RandomPoint(RandomSegment(p, draw, edgeLength), along) == Add2(p.vertices[i], Scale2(EdgeVector(p, i), along))
    ensures RandomPoint(RandomSegment(p, draw, edgeLength), along) != p.vertices[EndIndex(p, StartIndex(p, draw))]
  {
    var i := StartIndex(p, draw);
    var s := RandomSegment(p, draw, edgeLength);
    var v := EdgeVector(p, i);
    var k := 1.0 / edgeLength;
    assert k * edgeLength == 1.0;
    assert s.rotation == Scale2(v, k);
    assert (k * v.x) * (along * edgeLength) == along * v.x * (k * edgeLength);
    assert (k * v.y) * (along * edgeLength) == along * v.y * (k * edgeLength);
    var point := RandomPoint(s, along);
    assert point == Add2(p.vertices[i], Scale2(v, along));
  }
}
