/**
 * The hand-built ten-sided die: one apex below, a ring of ten vertices
 * alternating slightly below and above the equator, one apex above, and two
 * fans of ten triangles joining the ring to each apex. Only the topology is
 * modelled: a ring vertex records its position around the ring, not the
 * cosine and sine of its angle.
 */
module D10 {

  /** A vertex: an apex at height `z`, or the `step`-th ring vertex at height `z`. */
  datatype Vertex = Apex(z: real) | Ring(step: nat, z: real)

  const RingSize: nat := 10
  const VertexCount: nat := RingSize + 2
  /** The index of the apex below the ring, and of the apex above it. */
  const BottomApex: nat := 0
  const TopApex: nat := RingSize + 1
  /** How far a ring vertex sits above or below the equator. */
  const RingHeight: real := 0.105

  /** The triangles round the top apex, then those round the bottom apex: the source's face list. */
  const TopFan: seq<nat> := [1, 2, 11, 2, 3, 11, 3, 4, 11, 4, 5, 11, 5, 6, 11, 6, 7, 11, 7, 8, 11, 8, 9, 11, 9, 10, 11, 10, 1, 11]
  const BottomFan: seq<nat> := [1, 2, 0, 2, 3, 0, 3, 4, 0, 4, 5, 0, 5, 6, 0, 6, 7, 0, 7, 8, 0, 8, 9, 0, 9, 10, 0, 10, 1, 0]
  const Faces: seq<nat> := TopFan + BottomFan

  /** The height of the `step`-th ring vertex: odd steps above, even steps below. */
  function RingZ(step: nat): (r: real)
    ensures r == RingHeight || r == -RingHeight
  {
    if step % 2 == 1 then RingHeight else -RingHeight
  }

  /** The index in the vertex list of the ring vertex after ring vertex `v`. */
  function NextOnRing(v: nat): (r: nat)
    ensures 1 <= r <= RingSize
  {
    v % RingSize + 1
  }

  /** Three indices naming three different vertices. */
  predicate NonDegenerate(u: nat, v: nat, w: nat) {
    u != v && v != w && u != w
  }

  /**
   * A flat face list is well formed for `vertexCount` vertices when it
   * holds whole triangles, every index names a vertex and no triangle
   * repeats a vertex.
   */
  predicate WellFormed(faces: seq<nat>, vertexCount: nat) {
    && |faces| % 3 == 0
    && (forall k :: 0 <= k < |faces| ==> faces[k] < vertexCount)
    && (forall t :: 0 <= t < |faces| / 3 ==> NonDegenerate(faces[3 * t], faces[3 * t + 1], faces[3 * t + 2]))
  }

  /**
   * `fan` joins each ring edge, in ring order, to `apex`: its t-th triangle
   * is ring vertex t + 1, the ring vertex after it, and the apex.
   */
  predicate IsFan(fan: seq<nat>, apex: nat) {
    && |fan| == 3 * RingSize
    && forall t :: 0 <= t < RingSize ==>
         fan[3 * t] == t + 1 && fan[3 * t + 1] == NextOnRing(t + 1) && fan[3 * t + 2] == apex
  }

  /** The source's first line of faces is the fan round the top apex. */
  lemma TopFanShape()
    ensures IsFan(TopFan, TopApex)
  {
    forall t | 0 <= t < RingSize
      ensures TopFan[3 * t] == t + 1 && TopFan[3 * t + 1] == NextOnRing(t + 1) && TopFan[3 * t + 2] == TopApex
    {
      assert t == 0 || t == 1 || t == 2 || t == 3 || t == 4 || t == 5 || t == 6 || t == 7 || t == 8 || t == 9;
    }
  }

  /** The source's second line of faces is the fan round the bottom apex. */
  lemma BottomFanShape()
    ensures IsFan(BottomFan, BottomApex)
  {
    forall t | 0 <= t < RingSize
      ensures BottomFan[3 * t] == t + 1 && BottomFan[3 * t + 1] == NextOnRing(t + 1) && BottomFan[3 * t + 2] == BottomApex
    {
      assert t == 0 || t == 1 || t == 2 || t == 3 || t == 4 || t == 5 || t == 6 || t == 7 || t == 8 || t == 9;
    }
  }

  /** A fan round an apex off the ring is a well-formed face list. */
  lemma FanWellFormed(fan: seq<nat>, apex: nat)
    requires IsFan(fan, apex)
    requires apex == BottomApex || apex == TopApex
    ensures WellFormed(fan, VertexCount)
  {
    forall k | 0 <= k < |fan|
      ensures fan[k] < VertexCount
    {
      var t := k / 3;
      assert 0 <= t < RingSize;
      assert k == 3 * t || k == 3 * t + 1 || k == 3 * t + 2;
    }
  }

  /** Two well-formed face lists over the same vertices join into one. */
  lemma AppendWellFormed(a: seq<nat>, b: seq<nat>, vertexCount: nat)
    requires WellFormed(a, vertexCount) && WellFormed(b, vertexCount)
    ensures WellFormed(a + b, vertexCount)
  {
    var ab := a + b;
    var n := |a| / 3;
    assert |a| == 3 * n;
    forall t | 0 <= t < |ab| / 3
      ensures NonDegenerate(ab[3 * t], ab[3 * t + 1], ab[3 * t + 2])
    {
      if t >= n {
        var u := t - n;
        assert 3 * t == |a| + 3 * u;
        assert ab[3 * t] == b[3 * u] && ab[3 * t + 1] == b[3 * u + 1] && ab[3 * t + 2] == b[3 * u + 2];
      }
    }
  }

  /**
   * The ten-sided die has twenty triangles over its twelve vertices, every
   * index names a vertex and no triangle repeats one.
   */
  lemma FacesWellFormed()
    ensures |Faces| == 3 * 20
    ensures WellFormed(Faces, VertexCount)
  {
    TopFanShape();
    BottomFanShape();
    FanWellFormed(TopFan, TopApex);
    FanWellFormed(BottomFan, BottomApex);
    AppendWellFormed(TopFan, BottomFan, VertexCount);
  }

  /** The vertex list: bottom apex, the ring in order, top apex. */
  method CreateVertices() returns (vertices: seq<Vertex>)
    ensures |vertices| == VertexCount
    ensures vertices[BottomApex] == Apex(-1.0) && vertices[TopApex] == Apex(1.0)
    ensures forall v :: 1 <= v <= RingSize ==> vertices[v] == Ring(v - 1, RingZ(v - 1))
  {
    vertices := [Apex(-1.0)];
    for i := 0 to RingSize
      invariant |vertices| == i + 1
      invariant vertices[BottomApex] == Apex(-1.0)
      invariant forall v :: 1 <= v <= i ==> vertices[v] == Ring(v - 1, RingZ(v - 1))
    {
      vertices := vertices + [Ring(i, if i % 2 == 1 then RingHeight else -RingHeight)];
    }
    vertices := vertices + [Apex(1.0)];
  }

  /** The geometry handed to the polyhedron constructor, with its radius and detail. */
  datatype Polyhedron = Polyhedron(vertices: seq<Vertex>, faces: seq<nat>, radius: nat, detail: nat)

  /**
   * The ten-sided die: the bottom apex, the ring, the top apex, and the fans
   * round the top apex and then the bottom apex, twenty well-formed triangles.
   */
  method CreateD10() returns (p: Polyhedron)
    ensures |p.vertices| == VertexCount
    ensures p.vertices[BottomApex] == Apex(-1.0) && p.vertices[TopApex] == Apex(1.0)
    ensures forall v :: 1 <= v <= RingSize ==> p.vertices[v] == Ring(v - 1, RingZ(v - 1))
    ensures |p.faces| == 3 * 20
    ensures IsFan(p.faces[..3 * RingSize], TopApex) && IsFan(p.faces[3 * RingSize..], BottomApex)
    ensures WellFormed(p.faces, |p.vertices|)
    ensures p.radius == 500 && p.detail == 0
  {
    var vertices := CreateVertices();
    FacesWellFormed();
    TopFanShape();
    BottomFanShape();
    assert Faces[..3 * RingSize] == TopFan && Faces[3 * RingSize..] == BottomFan;
    p := Polyhedron(vertices, Faces, 500, 0);
  }
}
