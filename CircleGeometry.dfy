/**
 * A model of the quad-field buffer builder `CircleGeometry`: for every quad
 * (a "circle" billboard) it appends four corners to five flat attribute
 * buffers and two triangles to the index buffer.
 *
 * The specification functions below describe the buffers built for the first
 * `n` quads, one block per quad appended in loop order; the lemmas after them
 * say what each block holds and how the buffers relate to one another; the
 * class at the end is the builder itself, proved to produce exactly those
 * buffers.
 */
module QuadField {

  /** The three values `Math.random()` yields for one quad. */
  datatype RandomTriple = RandomTriple(r0: real, r1: real, r2: real)

  /** A corner position (x, y, z). */
  datatype Position = Position(x: real, y: real, z: real)

  /** A texture coordinate (u, v). */
  datatype Uv = Uv(u: real, v: real)

  // ---------------------------------------------------------------------
  // Per-quad blocks, in the order the loop pushes them.
  // Corners come as top-left, top-right, bottom-left, bottom-right.
  // ---------------------------------------------------------------------

  function QuadVertices(hw: real, hh: real): seq<real>
  {
    [-hw, hh, 0.0] + [hw, hh, 0.0] + [-hw, -hh, 0.0] + [hw, -hh, 0.0]
  }

  function QuadUvs(): seq<real>
  {
    [0.0, 0.0] + [1.0, 0.0] + [0.0, 1.0] + [1.0, 1.0]
  }

  function QuadCircleIndices(i: nat): seq<int>
  {
    [i] + [i] + [i] + [i]
  }

  function TripleValues(t: RandomTriple): seq<real>
  {
    [t.r0, t.r1, t.r2]
  }

  function QuadRandomValues(t: RandomTriple): seq<real>
  {
    TripleValues(t) + TripleValues(t) + TripleValues(t) + TripleValues(t)
  }

  function QuadIndices(i: nat): seq<int>
  {
    var offset := i * 4;
    [offset + 0, offset + 2, offset + 1] + [offset + 2, offset + 3, offset + 1]
  }

  // ---------------------------------------------------------------------
  // Buffers after the first n quads.
  // ---------------------------------------------------------------------

  /** `vertices` after n quads: three coordinates per corner. */
  function Vertices(n: nat, hw: real, hh: real): (r: seq<real>)
    ensures |r| == 12 * n
  {
    if n == 0 then [] else Vertices(n - 1, hw, hh) + QuadVertices(hw, hh)
  }

  /** `uvs` after n quads: two texture coordinates per corner. */
  function Uvs(n: nat): (r: seq<real>)
    ensures |r| == 8 * n
  {
    if n == 0 then [] else Uvs(n - 1) + QuadUvs()
  }

  /** `circleIndices` after n quads: the quad's ordinal once per corner. */
  function CircleIndices(n: nat): (r: seq<int>)
    ensures |r| == 4 * n
  {
    if n == 0 then [] else CircleIndices(n - 1) + QuadCircleIndices(n - 1)
  }

  /** `randomValues` after n quads, quad i drawing the triple `rs[i]`. */
  function RandomValues(rs: seq<RandomTriple>, n: nat): (r: seq<real>)
    requires n <= |rs|
    ensures |r| == 12 * n
  {
    if n == 0 then [] else RandomValues(rs, n - 1) + QuadRandomValues(rs[n - 1])
  }

  /** `indices` after n quads: two triangles per quad. */
  function Indices(n: nat): (r: seq<int>)
    ensures |r| == 6 * n
  {
    if n == 0 then [] else Indices(n - 1) + QuadIndices(n - 1)
  }

  /**
   * How many times `for (let i = 0; i < numCircle; i++)` runs its body: the
   * first counter value at which the guard fails. The last value that entered
   * the body, r - 1, passed it, and so did every smaller one.
   */
  function Iterations(numCircle: int): (r: nat)
    ensures !(r < numCircle)
    ensures r > 0 ==> r - 1 < numCircle
  {
    if numCircle <= 0 then 0 else numCircle
  }

  // ---------------------------------------------------------------------
  // Independent reference descriptions of one corner.
  // ---------------------------------------------------------------------

  /** Corner k of a quad centred on the origin: bit 0 of k picks right, bit 1 picks bottom. */
  function CornerPosition(k: nat, hw: real, hh: real): Position
    requires k < 4
  {
    Position(if k % 2 == 0 then -hw else hw, if k < 2 then hh else -hh, 0.0)
  }

  /** Texture coordinate of corner k: the same two bits as u and v. */
  function CornerUv(k: nat): Uv
    requires k < 4
  {
    Uv((k % 2) as real, (k / 2) as real)
  }

  /** The position of vertex v in a flat xyz buffer. */
  function PositionAt(buf: seq<real>, v: nat): Position
    requires 3 * v + 3 <= |buf|
  {
    Position(buf[3 * v], buf[3 * v + 1], buf[3 * v + 2])
  }

  /** The texture coordinate of vertex v in a flat uv buffer. */
  function UvAt(buf: seq<real>, v: nat): Uv
    requires 2 * v + 2 <= |buf|
  {
    Uv(buf[2 * v], buf[2 * v + 1])
  }

  /** Twice the signed area of triangle (a, b, c) in the xy plane; positive when counter-clockwise. */
  function Cross(a: Position, b: Position, c: Position): real
  {
    (b.x - a.x) * (c.y - a.y) - (b.y - a.y) * (c.x - a.x)
  }

  /** The value a JavaScript `Uint16Array` stores for an integer. */
  function ToUint16(x: int): (r: int)
    ensures 0 <= r < 0x1_0000
    ensures 0 <= x < 0x1_0000 ==> r == x
  {
    x % 0x1_0000
  }

  // ---------------------------------------------------------------------
  // Layout of each quad's block.
  // ---------------------------------------------------------------------

  lemma {:induction false} VerticesOfQuad(n: nat, hw: real, hh: real, i: nat)
    requires i < n
    ensures Vertices(n, hw, hh)[12 * i .. 12 * i + 12]
         == [-hw, hh, 0.0, hw, hh, 0.0, -hw, -hh, 0.0, hw, -hh, 0.0]
  {
    if i < n - 1 {
      VerticesOfQuad(n - 1, hw, hh, i);
      assert Vertices(n, hw, hh)[12 * i .. 12 * i + 12] == Vertices(n - 1, hw, hh)[12 * i .. 12 * i + 12];
    } else {
      assert Vertices(n, hw, hh)[12 * i ..] == QuadVertices(hw, hh);
    }
  }

  lemma {:induction false} UvsOfQuad(n: nat, i: nat)
    requires i < n
    ensures Uvs(n)[8 * i .. 8 * i + 8] == [0.0, 0.0, 1.0, 0.0, 0.0, 1.0, 1.0, 1.0]
  {
    if i < n - 1 {
      UvsOfQuad(n - 1, i);
      assert Uvs(n)[8 * i .. 8 * i + 8] == Uvs(n - 1)[8 * i .. 8 * i + 8];
    } else {
      assert Uvs(n)[8 * i ..] == QuadUvs();
    }
  }

  lemma {:induction false} CircleIndicesOfQuad(n: nat, i: nat)
    requires i < n
    ensures CircleIndices(n)[4 * i .. 4 * i + 4] == [i, i, i, i]
  {
    if i < n - 1 {
      CircleIndicesOfQuad(n - 1, i);
      assert CircleIndices(n)[4 * i .. 4 * i + 4] == CircleIndices(n - 1)[4 * i .. 4 * i + 4];
    } else {
      assert CircleIndices(n)[4 * i ..] == QuadCircleIndices(i);
    }
  }

  lemma {:induction false} RandomValuesOfQuad(rs: seq<RandomTriple>, n: nat, i: nat)
    requires i < n <= |rs|
    ensures RandomValues(rs, n)[12 * i .. 12 * i + 12]
         == [rs[i].r0, rs[i].r1, rs[i].r2, rs[i].r0, rs[i].r1, rs[i].r2,
             rs[i].r0, rs[i].r1, rs[i].r2, rs[i].r0, rs[i].r1, rs[i].r2]
  {
    if i < n - 1 {
      RandomValuesOfQuad(rs, n - 1, i);
      assert RandomValues(rs, n)[12 * i .. 12 * i + 12] == RandomValues(rs, n - 1)[12 * i .. 12 * i + 12];
    } else {
      assert RandomValues(rs, n)[12 * i ..] == QuadRandomValues(rs[i]);
    }
  }

  /** The exact winding of quad i: (0, 2, 1) then (2, 3, 1), offset by 4i. */
  lemma {:induction false} IndicesOfQuad(n: nat, i: nat)
    requires i < n
    ensures Indices(n)[6 * i .. 6 * i + 6]
         == [4 * i + 0, 4 * i + 2, 4 * i + 1, 4 * i + 2, 4 * i + 3, 4 * i + 1]
  {
    if i < n - 1 {
      IndicesOfQuad(n - 1, i);
      assert Indices(n)[6 * i .. 6 * i + 6] == Indices(n - 1)[6 * i .. 6 * i + 6];
    } else {
      assert Indices(n)[6 * i ..] == QuadIndices(i);
    }
  }

  // ---------------------------------------------------------------------
  // Per-vertex meaning of the attribute buffers.
  // ---------------------------------------------------------------------

  /** Vertex 4i + k is corner k of quad i. */
  lemma VertexPosition(n: nat, hw: real, hh: real, i: nat, k: nat)
    requires i < n && k < 4
    ensures PositionAt(Vertices(n, hw, hh), 4 * i + k) == CornerPosition(k, hw, hh)
  {
    VerticesOfQuad(n, hw, hh, i);
    var vs := Vertices(n, hw, hh);
    var block := vs[12 * i .. 12 * i + 12];
    var j := 12 * i + 3 * k;
    assert vs[j] == block[3 * k] && vs[j + 1] == block[3 * k + 1] && vs[j + 2] == block[3 * k + 2];
    // a case split on the corner, so that each block entry is read at a constant offset
    if k == 0 {
    } else if k == 1 {
    } else if k == 2 {
    } else {
    }
  }

  /** The texture coordinate of vertex 4i + k is that of corner k. */
  lemma VertexUv(n: nat, i: nat, k: nat)
    requires i < n && k < 4
    ensures UvAt(Uvs(n), 4 * i + k) == CornerUv(k)
  {
    UvsOfQuad(n, i);
    var block := Uvs(n)[8 * i .. 8 * i + 8];
    assert Uvs(n)[8 * i + 2 * k] == block[2 * k];
    assert Uvs(n)[8 * i + 2 * k + 1] == block[2 * k + 1];
  }

  /** Vertex v belongs to quad v / 4. */
  lemma VertexCircleIndex(n: nat, v: nat)
    requires v < 4 * n
    ensures CircleIndices(n)[v] == v / 4
  {
    var i := v / 4;
    CircleIndicesOfQuad(n, i);
    assert CircleIndices(n)[v] == CircleIndices(n)[4 * i .. 4 * i + 4][v % 4];
  }

  /** Every corner k of quad i carries the triple drawn for quad i. */
  lemma VertexRandomValues(rs: seq<RandomTriple>, n: nat, i: nat, k: nat)
    requires i < n <= |rs| && k < 4
    ensures var j := 12 * i + 3 * k;
      RandomValues(rs, n)[j] == rs[i].r0 && RandomValues(rs, n)[j + 1] == rs[i].r1
      && RandomValues(rs, n)[j + 2] == rs[i].r2
  {
    RandomValuesOfQuad(rs, n, i);
    var block := RandomValues(rs, n)[12 * i .. 12 * i + 12];
    var j := 12 * i + 3 * k;
    assert RandomValues(rs, n)[j] == block[3 * k];
    assert RandomValues(rs, n)[j + 1] == block[3 * k + 1];
    assert RandomValues(rs, n)[j + 2] == block[3 * k + 2];
  }

  /** Each quad is an axis-aligned square of side w centred on the origin in the plane z = 0. */
  lemma QuadIsSquare(n: nat, w: real, i: nat)
    requires i < n
    ensures var vs := Vertices(n, w / 2.0, w / 2.0);
      var tl, tr, bl, br := PositionAt(vs, 4 * i), PositionAt(vs, 4 * i + 1),
                            PositionAt(vs, 4 * i + 2), PositionAt(vs, 4 * i + 3);
      && tl.z == 0.0 && tr.z == 0.0 && bl.z == 0.0 && br.z == 0.0
      && tl.x + tr.x + bl.x + br.x == 0.0 && tl.y + tr.y + bl.y + br.y == 0.0
      && tr.x - tl.x == w && br.x - bl.x == w && tl.y - bl.y == w && tr.y - br.y == w
      && tl.y == tr.y && bl.y == br.y && tl.x == bl.x && tr.x == br.x
  {
    VertexPosition(n, w / 2.0, w / 2.0, i, 0);
    VertexPosition(n, w / 2.0, w / 2.0, i, 1);
    VertexPosition(n, w / 2.0, w / 2.0, i, 2);
    VertexPosition(n, w / 2.0, w / 2.0, i, 3);
  }

  // ---------------------------------------------------------------------
  // The index buffer against the vertex buffers.
  // ---------------------------------------------------------------------

  /** Every index names a corner of the quad that owns the triangle, hence lies in [0, 4n). */
  lemma IndicesInOwnQuad(n: nat, j: nat)
    requires j < 6 * n
    ensures 4 * (j / 6) <= Indices(n)[j] < 4 * (j / 6) + 4
    ensures 0 <= Indices(n)[j] < 4 * n
    ensures CircleIndices(n)[Indices(n)[j]] == j / 6
  {
    var i := j / 6;
    IndicesOfQuad(n, i);
    assert Indices(n)[j] == Indices(n)[6 * i .. 6 * i + 6][j % 6];
    VertexCircleIndex(n, Indices(n)[j]);
  }

  /** Every corner of every quad is used by some triangle. */
  lemma EveryCornerIndexed(n: nat, v: nat)
    requires v < 4 * n
    ensures exists j :: 0 <= j < 6 * n && Indices(n)[j] == v
  {
    var i, k := v / 4, v % 4;
    IndicesOfQuad(n, i);
    var pos := [0, 2, 1, 4][k];
    assert Indices(n)[6 * i + pos] == Indices(n)[6 * i .. 6 * i + 6][pos];
  }

  /**
   * The two triangles of a quad cover its four corners, sharing the diagonal
   * from corner 1 to corner 2: corners 0 and 3 are used once, 1 and 2 twice.
   */
  lemma QuadTrianglesShareDiagonal(n: nat, i: nat)
    requires i < n
    ensures multiset(Indices(n)[6 * i .. 6 * i + 6])
         == multiset{4 * i, 4 * i + 1, 4 * i + 1, 4 * i + 2, 4 * i + 2, 4 * i + 3}
  {
    IndicesOfQuad(n, i);
  }

  /** Triangles (0, 2, 1) and (2, 3, 1) of the corner layout both have signed area 4 * hw * hh. */
  lemma CornerTrianglesWinding(hw: real, hh: real)
    ensures Cross(CornerPosition(0, hw, hh), CornerPosition(2, hw, hh), CornerPosition(1, hw, hh)) == 4.0 * hw * hh
    ensures Cross(CornerPosition(2, hw, hh), CornerPosition(3, hw, hh), CornerPosition(1, hw, hh)) == 4.0 * hw * hh
  {
  }

  /**
   * Both triangles of quad i wind the same way: looked up through the index
   * buffer, each has signed area 4 * hw * hh, counter-clockwise when the quad
   * has positive size.
   */
  lemma TrianglesWindCounterClockwise(n: nat, hw: real, hh: real, i: nat)
    requires i < n
    ensures var vs, ix := Vertices(n, hw, hh), Indices(n);
      && (forall j :: 6 * i <= j < 6 * i + 6 ==> 0 <= ix[j] < 4 * n)
      && Cross(PositionAt(vs, ix[6 * i]), PositionAt(vs, ix[6 * i + 1]), PositionAt(vs, ix[6 * i + 2]))
         == 4.0 * hw * hh
      && Cross(PositionAt(vs, ix[6 * i + 3]), PositionAt(vs, ix[6 * i + 4]), PositionAt(vs, ix[6 * i + 5]))
         == 4.0 * hw * hh
      && (hw * hh > 0.0 ==>
           Cross(PositionAt(vs, ix[6 * i]), PositionAt(vs, ix[6 * i + 1]), PositionAt(vs, ix[6 * i + 2])) > 0.0
           && Cross(PositionAt(vs, ix[6 * i + 3]), PositionAt(vs, ix[6 * i + 4]), PositionAt(vs, ix[6 * i + 5])) > 0.0)
  {
    IndicesOfQuad(n, i);
    var vs, ix := Vertices(n, hw, hh), Indices(n);
    var block := ix[6 * i .. 6 * i + 6];
    assert ix[6 * i] == block[0] == 4 * i;
    assert ix[6 * i + 1] == block[1] == 4 * i + 2;
    assert ix[6 * i + 2] == block[2] == 4 * i + 1;
    assert ix[6 * i + 3] == block[3] == 4 * i + 2;
    assert ix[6 * i + 4] == block[4] == 4 * i + 3;
    assert ix[6 * i + 5] == block[5] == 4 * i + 1;
    VertexPosition(n, hw, hh, i, 0);
    VertexPosition(n, hw, hh, i, 1);
    VertexPosition(n, hw, hh, i, 2);
    VertexPosition(n, hw, hh, i, 3);
    CornerTrianglesWinding(hw, hh);
    if hw * hh > 0.0 {
      assert 4.0 * hw * hh > 0.0;
    }
  }

  /** The `Uint16Array` copy of `indices` keeps every value exactly when 4n <= 65536. */
  lemma IndicesFitUint16(n: nat)
    ensures (forall j :: 0 <= j < 6 * n ==> ToUint16(Indices(n)[j]) == Indices(n)[j])
        <==> 4 * n <= 0x1_0000
  {
    if 4 * n <= 0x1_0000 {
      forall j | 0 <= j < 6 * n
        ensures ToUint16(Indices(n)[j]) == Indices(n)[j]
      {
        IndicesInOwnQuad(n, j);
      }
    } else {
      var j := 6 * (n - 1) + 4;
      IndicesOfQuad(n, n - 1);
      assert Indices(n)[j] == Indices(n)[6 * (n - 1) .. 6 * n][4];
      assert Indices(n)[j] == 4 * n - 1;
      assert ToUint16(Indices(n)[j]) != Indices(n)[j];
    }
  }

  /** The `Uint16Array` copy of `circleIndices` keeps every value exactly when n <= 65536. */
  lemma CircleIndicesFitUint16(n: nat)
    ensures (forall v :: 0 <= v < 4 * n ==> ToUint16(CircleIndices(n)[v]) == CircleIndices(n)[v])
        <==> n <= 0x1_0000
  {
    if n <= 0x1_0000 {
      forall v | 0 <= v < 4 * n
        ensures ToUint16(CircleIndices(n)[v]) == CircleIndices(n)[v]
      {
        VertexCircleIndex(n, v);
      }
    } else {
      var v := 4 * (n - 1);
      VertexCircleIndex(n, v);
      assert ToUint16(CircleIndices(n)[v]) != CircleIndices(n)[v];
    }
  }

  /** Building quads 0..n-1 only appends to what quads 0..m-1 built. */
  lemma {:induction false} AppendOnly(rs: seq<RandomTriple>, hw: real, hh: real, m: nat, n: nat)
    requires m <= n <= |rs|
    ensures Vertices(m, hw, hh) <= Vertices(n, hw, hh)
    ensures Uvs(m) <= Uvs(n)
    ensures CircleIndices(m) <= CircleIndices(n)
    ensures RandomValues(rs, m) <= RandomValues(rs, n)
    ensures Indices(m) <= Indices(n)
  {
    if m < n {
      AppendOnly(rs, hw, hh, m, n - 1);
    }
  }

  /** Appending b after a is appending a + b; a proof aid for the appends in Init and PushQuad, with no source counterpart. */
  lemma AppendAssoc<T>(s: seq<T>, a: seq<T>, b: seq<T>)
    ensures s + a + b == s + (a + b)
  {
  }

  // ---------------------------------------------------------------------
  // The builder.
  // ---------------------------------------------------------------------

  class CircleGeometry {
    var vertices: seq<real>
    var circleIndices: seq<int>
    var randomValues: seq<real>
    var uvs: seq<real>
    var indices: seq<int>

    var circleHeight: real
    var circleHalfWidth: real
    var circleHarfHeight: real

    var numCircle: int

    /** Stores the quad size and count, then builds the buffers from empty ones. */
    constructor (circleWidth: real, numCircle: int, randoms: seq<RandomTriple>)
      requires Iterations(numCircle) <= |randoms|
      ensures circleHeight == circleWidth
      ensures circleHalfWidth == circleWidth / 2.0 && circleHarfHeight == circleWidth / 2.0
      ensures this.numCircle == numCircle
      ensures vertices == Vertices(Iterations(numCircle), circleWidth / 2.0, circleWidth / 2.0)
      ensures uvs == Uvs(Iterations(numCircle))
      ensures circleIndices == CircleIndices(Iterations(numCircle))
      ensures randomValues == RandomValues(randoms, Iterations(numCircle))
      ensures indices == Indices(Iterations(numCircle))
    {
      vertices, circleIndices, randomValues, uvs, indices := [], [], [], [], [];
      circleHeight := circleWidth;
      circleHalfWidth := circleWidth / 2.0;
      circleHarfHeight := circleWidth / 2.0;
      this.numCircle := numCircle;
      new;
      Init(randoms);
    }

    /**
     * Appends one quad per iteration, quad i using the triple randoms[i].
     * Nothing already in the buffers is changed.
     */
    method Init(randoms: seq<RandomTriple>)
      requires Iterations(numCircle) <= |randoms|
      modifies this`vertices, this`uvs, this`circleIndices, this`randomValues, this`indices
      ensures vertices == old(vertices) + Vertices(Iterations(numCircle), circleHalfWidth, circleHarfHeight)
      ensures uvs == old(uvs) + Uvs(Iterations(numCircle))
      ensures circleIndices == old(circleIndices) + CircleIndices(Iterations(numCircle))
      ensures randomValues == old(randomValues) + RandomValues(randoms, Iterations(numCircle))
      ensures indices == old(indices) + Indices(Iterations(numCircle))
      ensures numCircle <= 0 ==>
        vertices == old(vertices) && uvs == old(uvs) && circleIndices == old(circleIndices)
        && randomValues == old(randomValues) && indices == old(indices)
    {
      var i := 0;
      while i < numCircle
        invariant 0 <= i <= Iterations(numCircle)
        invariant vertices == old(vertices) + Vertices(i, circleHalfWidth, circleHarfHeight)
        invariant uvs == old(uvs) + Uvs(i)
        invariant circleIndices == old(circleIndices) + CircleIndices(i)
        invariant randomValues == old(randomValues) + RandomValues(randoms, i)
        invariant indices == old(indices) + Indices(i)
      {
        var randomValue := randoms[i];
        PushQuad(i, randomValue);
        AppendAssoc(old(vertices), Vertices(i, circleHalfWidth, circleHarfHeight), QuadVertices(circleHalfWidth, circleHarfHeight));
        AppendAssoc(old(uvs), Uvs(i), QuadUvs());
        AppendAssoc(old(circleIndices), CircleIndices(i), QuadCircleIndices(i));
        AppendAssoc(old(randomValues), RandomValues(randoms, i), QuadRandomValues(randoms[i]));
        AppendAssoc(old(indices), Indices(i), QuadIndices(i));
        i := i + 1;
      }
    }

    /** One iteration of the loop in Init: the four corners of quad i, then its two triangles. */
    method PushQuad(i: nat, randomValue: RandomTriple)
      modifies this`vertices, this`uvs, this`circleIndices, this`randomValues, this`indices
      ensures vertices == old(vertices) + QuadVertices(circleHalfWidth, circleHarfHeight)
      ensures uvs == old(uvs) + QuadUvs()
      ensures circleIndices == old(circleIndices) + QuadCircleIndices(i)
      ensures randomValues == old(randomValues) + QuadRandomValues(randomValue)
      ensures indices == old(indices) + QuadIndices(i)
    {
      var r := [randomValue.r0, randomValue.r1, randomValue.r2];
      var hw, hh := circleHalfWidth, circleHarfHeight;
      ghost var vertices0 := vertices;

      // top left
      vertices := vertices + [-hw, hh, 0.0];
      uvs := uvs + [0.0, 0.0];
      circleIndices := circleIndices + [i];
      randomValues := randomValues + r;

      // top right
      vertices := vertices + [hw, hh, 0.0];
      uvs := uvs + [1.0, 0.0];
      circleIndices := circleIndices + [i];
      randomValues := randomValues + r;

      // bottom left
      vertices := vertices + [-hw, -hh, 0.0];
      uvs := uvs + [0.0, 1.0];
      circleIndices := circleIndices + [i];
      randomValues := randomValues + r;

      // bottom right
      vertices := vertices + [hw, -hh, 0.0];
      uvs := uvs + [1.0, 1.0];
      circleIndices := circleIndices + [i];
      randomValues := randomValues + r;

      // two triangles
      var indexOffset := i * 4;
      indices := indices + [indexOffset + 0, indexOffset + 2, indexOffset + 1];
      indices := indices + [indexOffset + 2, indexOffset + 3, indexOffset + 1];

      AppendAssoc(vertices0, [-hw, hh, 0.0], [hw, hh, 0.0]);
      AppendAssoc(vertices0, [-hw, hh, 0.0] + [hw, hh, 0.0], [-hw, -hh, 0.0]);
      AppendAssoc(vertices0, [-hw, hh, 0.0] + [hw, hh, 0.0] + [-hw, -hh, 0.0], [hw, -hh, 0.0]);
    }
  }
}
