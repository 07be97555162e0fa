/**
 * MeshHandler: the buffer builder of one mesh section. It welds vertices by
 * exact position: a position seen before reuses its vertex (whose normal is
 * averaged with the new face normal), a new position appends a vertex and is
 * mapped to its index. Positions and normals are opaque here; the face normal
 * and the averaging of normals are parameters.
 */
module Welding {

  /** One extracted vertex: its position and its material weight. */
  datatype TmpPoint<P> = TmpPoint(v: P, matWeight: real)

  /** One vertex of the section's vertex buffer; color is the red channel. */
  datatype Vertex<P, N> = Vertex(position: P, normal: N, color: int)

  /** C++ conversion of a float to int: truncation toward zero. */
  function TruncToInt(r: real): (t: int)
    ensures r >= 0.0 ==> t as real <= r < t as real + 1.0
    ensures r < 0.0 ==> t as real - 1.0 < r <= t as real
  {
    if r >= 0.0 then r.Floor else -((-r).Floor)
  }

  /** The red channel of a vertex: int(weight * 255) stored into a uint8. */
  function ColorByte(weight: real): (c: int)
    ensures 0 <= c < 256
    ensures 0.0 <= weight <= 1.0 ==> c as real <= weight * 255.0 < c as real + 1.0
  {
    TruncToInt(weight * 255.0) % 256
  }

  /** The positions an index buffer names, one per index. */
  function Resolve<P, N>(vertices: seq<Vertex<P, N>>, indices: seq<nat>): (r: seq<P>)
    requires forall k :: 0 <= k < |indices| ==> indices[k] < |vertices|
    ensures |r| == |indices|
  {
    if indices == [] then []
    else Resolve(vertices, indices[..|indices| - 1]) + [vertices[indices[|indices| - 1]].position]
  }

  /** Index k of the soup is the position of the vertex that index k names. */
  lemma {:induction false} ResolveIndex<P, N>(vertices: seq<Vertex<P, N>>, indices: seq<nat>, k: nat)
    requires forall k :: 0 <= k < |indices| ==> indices[k] < |vertices|
    requires k < |indices|
    ensures Resolve(vertices, indices)[k] == vertices[indices[k]].position
    decreases |indices|
  {
    if k < |indices| - 1 {
      ResolveIndex(vertices, indices[..|indices| - 1], k);
    }
  }

  /**
   * The welding invariant on a handler's buffers: the vertex count is the
   * buffer length, every index names a vertex, and the map is a bijection
   * between the positions of the vertices and their indices.
   */
  ghost predicate Welded<P, N>(count: nat, vertices: seq<Vertex<P, N>>, indices: seq<nat>, index: map<P, nat>)
  {
    && count == |vertices|
    && (forall k :: 0 <= k < |indices| ==> indices[k] < |vertices|)
    && (forall p :: p in index ==> index[p] < |vertices| && vertices[index[p]].position == p)
    && (forall i :: 0 <= i < |vertices| ==> vertices[i].position in index && index[vertices[i].position] == i)
  }

  /** FProcMeshSection: the vertex and index buffers of one mesh section, as a value. */
  datatype ProcMeshSection<P, N> = ProcMeshSection(vertices: seq<Vertex<P, N>>, indices: seq<nat>)
  {
    ghost predicate Indexed() { forall k :: 0 <= k < |indices| ==> indices[k] < |vertices| }

    /** The triangle soup the section draws. */
    ghost function Positions(): seq<P>
      requires Indexed()
    {
      Resolve(vertices, indices)
    }
  }

  /** A later vertex buffer keeps every earlier vertex's position. */
  ghost predicate KeepsPositions<P, N>(before: seq<Vertex<P, N>>, after: seq<Vertex<P, N>>)
  {
    |before| <= |after| && forall i :: 0 <= i < |before| ==> after[i].position == before[i].position
  }

  lemma KeepsPositionsTrans<P, N>(a: seq<Vertex<P, N>>, b: seq<Vertex<P, N>>, c: seq<Vertex<P, N>>)
    requires KeepsPositions(a, b) && KeepsPositions(b, c)
    ensures KeepsPositions(a, c)
  {
  }

  /** Resolving one more index appends that vertex's position. */
  lemma {:induction false} ResolveAppend<P, N>(vertices: seq<Vertex<P, N>>, indices: seq<nat>, i: nat)
    requires i < |vertices| && forall k :: 0 <= k < |indices| ==> indices[k] < |vertices|
    ensures Resolve(vertices, indices + [i]) == Resolve(vertices, indices) + [vertices[i].position]
  {
    assert (indices + [i])[..|indices|] == indices;
  }

  /** Resolving sees positions only: a buffer that keeps them resolves the same. */
  lemma ResolveKeeps<P, N>(before: seq<Vertex<P, N>>, after: seq<Vertex<P, N>>, indices: seq<nat>)
    requires KeepsPositions(before, after) && forall k :: 0 <= k < |indices| ==> indices[k] < |before|
    ensures Resolve(after, indices) == Resolve(before, indices)
  {
    forall k | 0 <= k < |indices| ensures Resolve(after, indices)[k] == Resolve(before, indices)[k] {
      ResolveIndex(after, indices, k);
      ResolveIndex(before, indices, k);
    }
  }

  /**
   * The buffers after addVertex welds a vertex: a known position reuses its
   * vertex, averaging the normal with n, and appends that vertex's index; a
   * new position appends the vertex, its index (the old vertex count) and its
   * map entry.
   */
  function AddedVertex<P, N>(vertices: seq<Vertex<P, N>>, indices: seq<nat>, index: map<P, nat>,
                             v: Vertex<P, N>, average: (N, N) -> N): (r: (seq<Vertex<P, N>>, seq<nat>, map<P, nat>))
    requires forall p :: p in index ==> index[p] < |vertices|
  {
    var p := v.position;
    if p in index then
      var i := index[p];
      (vertices[i := vertices[i].(normal := average(vertices[i].normal, v.normal))], indices + [i], index)
    else
      (vertices + [v], indices + [|vertices|], index[p := |vertices|])
  }

  /**
   * The buffers after addTriangle: three addVertex steps in order, each
   * carrying the triangle's face normal n and its point's colour byte.
   */
  function AddedTriangle<P, N>(vertices: seq<Vertex<P, N>>, indices: seq<nat>, index: map<P, nat>,
                               t1: TmpPoint<P>, t2: TmpPoint<P>, t3: TmpPoint<P>, n: N,
                               average: (N, N) -> N): (r: (seq<Vertex<P, N>>, seq<nat>, map<P, nat>))
    requires forall p :: p in index ==> index[p] < |vertices|
    ensures |r.1| == |indices| + 3
  {
    var v1, v2, v3 := Vertex(t1.v, n, ColorByte(t1.matWeight)), Vertex(t2.v, n, ColorByte(t2.matWeight)), Vertex(t3.v, n, ColorByte(t3.matWeight));
    AddedVertexBounds(vertices, indices, index, v1, average);
    var s1 := AddedVertex(vertices, indices, index, v1, average);
    AddedVertexBounds(s1.0, s1.1, s1.2, v2, average);
    var s2 := AddedVertex(s1.0, s1.1, s1.2, v2, average);
    AddedVertexBounds(s2.0, s2.1, s2.2, v3, average);
    AddedVertex(s2.0, s2.1, s2.2, v3, average)
  }

  /** addVertex appends one index and keeps every map entry inside the vertex buffer. */
  lemma AddedVertexBounds<P, N>(vertices: seq<Vertex<P, N>>, indices: seq<nat>, index: map<P, nat>,
                                v: Vertex<P, N>, average: (N, N) -> N)
    requires forall p :: p in index ==> index[p] < |vertices|
    ensures var r := AddedVertex(vertices, indices, index, v, average);
      |r.1| == |indices| + 1 && forall p :: p in r.2 ==> r.2[p] < |r.0|
  {
  }

  /** The reuse branch of addVertex keeps the welding invariant and every position. */
  lemma WeldReuse<P, N>(vertices: seq<Vertex<P, N>>, indices: seq<nat>, index: map<P, nat>, p: P, normal: N)
    requires Welded(|vertices|, vertices, indices, index) && p in index
    ensures var vs := vertices[index[p] := vertices[index[p]].(normal := normal)];
      && Welded(|vs|, vs, indices + [index[p]], index)
      && KeepsPositions(vertices, vs)
      && Resolve(vs, indices + [index[p]]) == Resolve(vertices, indices) + [p]
  {
    var vs := vertices[index[p] := vertices[index[p]].(normal := normal)];
    assert KeepsPositions(vertices, vs);
    ResolveAppend(vs, indices, index[p]);
    ResolveKeeps(vertices, vs, indices);
  }

  /** The new-vertex branch of addVertex keeps the welding invariant and every position. */
  lemma WeldAppend<P, N>(count: nat, vertices: seq<Vertex<P, N>>, indices: seq<nat>, index: map<P, nat>, v: Vertex<P, N>)
    requires Welded(count, vertices, indices, index) && v.position !in index
    ensures var vs := vertices + [v];
      && Welded(count + 1, vs, indices + [count], index[v.position := count])
      && KeepsPositions(vertices, vs)
      && Resolve(vs, indices + [count]) == Resolve(vertices, indices) + [v.position]
  {
    var vs := vertices + [v];
    assert KeepsPositions(vertices, vs);
    ResolveAppend(vs, indices, count);
    ResolveKeeps(vertices, vs, indices);
  }

  /**
   * Welding a vertex keeps the welding invariant and every earlier position,
   * adds at most one vertex, and resolves to one more copy of the position.
   */
  lemma WeldKeeps<P, N>(vertices: seq<Vertex<P, N>>, indices: seq<nat>, index: map<P, nat>,
                        v: Vertex<P, N>, average: (N, N) -> N)
    requires Welded(|vertices|, vertices, indices, index)
    ensures var (vs, ix, m) := AddedVertex(vertices, indices, index, v, average);
      && Welded(|vs|, vs, ix, m)
      && KeepsPositions(vertices, vs) && |vs| <= |vertices| + 1
      && Resolve(vs, ix) == Resolve(vertices, indices) + [v.position]
  {
    if v.position in index {
      WeldReuse(vertices, indices, index, v.position, average(vertices[index[v.position]].normal, v.normal));
    } else {
      WeldAppend(|vertices|, vertices, indices, index, v);
    }
  }

  /** The positions of a sequence of extracted vertices. */
  function Positions<P>(ps: seq<TmpPoint<P>>): (r: seq<P>)
    ensures |r| == |ps| && forall k :: 0 <= k < |ps| ==> r[k] == ps[k].v
  {
    seq(|ps|, k requires 0 <= k < |ps| => ps[k].v)
  }

  lemma PositionsSnoc<P>(ps: seq<TmpPoint<P>>, p: TmpPoint<P>)
    ensures Positions(ps + [p]) == Positions(ps) + [p.v]
  {
  }

  lemma AppendThree<T>(s: seq<T>, a: T, b: T, c: T)
    ensures s + [a] + [b] + [c] == s + [a, b, c]
  {
  }

  class MeshHandler<P(==), N> {
    /** -clcNormal(p1, p2, p3), the normal given to a triangle's vertices. */
    const faceNormal: (P, P, P) -> N
    /** (n_old + n) / 2, the normal of a reused vertex. */
    const average: (N, N) -> N

    var vertexBuffer: seq<Vertex<P, N>>
    var indexBuffer: seq<nat>
    var vertexMap: map<P, nat>
    var vertexIndex: nat
    var ntriang: nat
    /** The extracted vertices handed to addVertex, in order, with their material weights. */
    ghost var points: seq<TmpPoint<P>>

    ghost predicate Valid()
      reads this
    {
      && Welded(vertexIndex, vertexBuffer, indexBuffer, vertexMap)
      && Positions(points) == Resolve(vertexBuffer, indexBuffer)
    }

    /** The buffers of the section this handler fills. */
    function Section(): (s: ProcMeshSection<P, N>)
      requires Valid()
      reads this
      ensures s.Indexed() && s.Positions() == Positions(points)
    {
      ProcMeshSection(vertexBuffer, indexBuffer)
    }

    constructor (faceNormal: (P, P, P) -> N, average: (N, N) -> N)
      ensures Valid()
      ensures this.faceNormal == faceNormal && this.average == average
      ensures vertexBuffer == [] && indexBuffer == [] && vertexMap == map[] && ntriang == 0 && points == []
    {
      this.faceNormal := faceNormal;
      this.average := average;
      vertexBuffer := [];
      indexBuffer := [];
      vertexMap := map[];
      vertexIndex := 0;
      ntriang := 0;
      points := [];
    }

    /**
     * addVertex: appends exactly one index. A known position reuses its
     * vertex and averages its normal; a new position appends a vertex at the
     * old vertex count and maps the position to it.
     */
    method AddVertex(point: TmpPoint<P>, n: N)
      requires Valid()
      modifies this
      ensures Valid()
      ensures (vertexBuffer, indexBuffer, vertexMap) ==
        AddedVertex(old(vertexBuffer), old(indexBuffer), old(vertexMap), Vertex(point.v, n, ColorByte(point.matWeight)), average)
      ensures vertexIndex == |vertexBuffer|
      ensures points == old(points) + [point]
      ensures KeepsPositions(old(vertexBuffer), vertexBuffer) && |vertexBuffer| <= old(|vertexBuffer|) + 1
      ensures ntriang == old(ntriang)
    {
      var v := point.v;
      ghost var welded := AddedVertex(vertexBuffer, indexBuffer, vertexMap, Vertex(v, n, ColorByte(point.matWeight)), average);
      if v in vertexMap {
        var vindex := vertexMap[v];
        var vertex := vertexBuffer[vindex];
        var vertices := vertexBuffer[vindex := vertex.(normal := average(vertex.normal, n))];
        WeldReuse(vertexBuffer, indexBuffer, vertexMap, v, average(vertex.normal, n));
        PositionsSnoc(points, point);
        vertexBuffer, indexBuffer, points := vertices, indexBuffer + [vindex], points + [point];
        assert (vertexBuffer, indexBuffer, vertexMap) == welded;
      } else {
        var t := TruncToInt(point.matWeight * 255.0);
        var vertex := Vertex(v, n, t % 256);
        WeldAppend(vertexIndex, vertexBuffer, indexBuffer, vertexMap, vertex);
        PositionsSnoc(points, point);
        vertexBuffer, indexBuffer, vertexMap, vertexIndex, points :=
          vertexBuffer + [vertex], indexBuffer + [vertexIndex], vertexMap[v := vertexIndex], vertexIndex + 1, points + [point];
        assert (vertexBuffer, indexBuffer, vertexMap) == welded;
      }
    }

    /**
     * addTriangle: welds the three corners in order with the triangle's face
     * normal and counts the triangle.
     */
    method AddTriangle(t1: TmpPoint<P>, t2: TmpPoint<P>, t3: TmpPoint<P>)
      requires Valid()
      modifies this
      ensures Valid()
      ensures points == old(points) + [t1, t2, t3]
      ensures (vertexBuffer, indexBuffer, vertexMap) ==
        AddedTriangle(old(vertexBuffer), old(indexBuffer), old(vertexMap), t1, t2, t3, faceNormal(t1.v, t2.v, t3.v), average)
      ensures |indexBuffer| == old(|indexBuffer|) + 3
      ensures KeepsPositions(old(vertexBuffer), vertexBuffer) && |vertexBuffer| <= old(|vertexBuffer|) + 3
      ensures ntriang == old(ntriang) + 1
    {
      var n := faceNormal(t1.v, t2.v, t3.v);
      ghost var vb0, p0 := vertexBuffer, points;
      ghost var ib0, vm0 := indexBuffer, vertexMap;
      AddVertex(t1, n);
      ghost var vb1 := vertexBuffer;
      AddVertex(t2, n);
      ghost var vb2 := vertexBuffer;
      AddVertex(t3, n);
      AppendThree(p0, t1, t2, t3);
      KeepsPositionsTrans(vb0, vb1, vb2);
      KeepsPositionsTrans(vb0, vb2, vertexBuffer);
      ntriang := ntriang + 1;
    }
  }

  /** No two vertices of a valid handler share a position. */
  lemma DistinctPositions<P, N>(h: MeshHandler<P, N>, i: nat, j: nat)
    requires h.Valid() && i < |h.vertexBuffer| && j < |h.vertexBuffer|
    requires h.vertexBuffer[i].position == h.vertexBuffer[j].position
    ensures i == j
  {
  }

  /** The position map of a valid handler is injective. */
  lemma MapInjective<P, N>(h: MeshHandler<P, N>, p: P, q: P)
    requires h.Valid() && p in h.vertexMap && q in h.vertexMap && h.vertexMap[p] == h.vertexMap[q]
    ensures p == q
  {
  }
}
