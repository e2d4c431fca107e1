/**
 * Properties of the mesher's specification (module Meshing): vertex and face
 * counts, where every vertex comes from, the order of the stream, the shape
 * of the index list, and the two extreme chunks (all empty, all solid).
 */
module MeshingLemmas {
  import opened ChunkGrid
  import opened Voxel
  import opened Meshing

  // ---------------------------------------------------------------------------
  // Sweeps in general.

  /** When every cell's `a` stream is eight times as long as its `b` stream, so are the sweeps. */
  lemma {:induction false} SweepZScale<A, B>(a: (int, int, int) -> seq<A>, b: (int, int, int) -> seq<B>,
                                             x: int, y: int, nz: nat)
    requires forall x', y', z' :: |a(x', y', z')| == 8 * |b(x', y', z')|
    ensures |SweepZ(a, x, y, nz)| == 8 * |SweepZ(b, x, y, nz)|
  {
    if nz > 0 {
      SweepZScale(a, b, x, y, nz - 1);
    }
  }

  lemma {:induction false} SweepYScale<A, B>(a: (int, int, int) -> seq<A>, b: (int, int, int) -> seq<B>,
                                             x: int, ny: nat, nz: nat)
    requires forall x', y', z' :: |a(x', y', z')| == 8 * |b(x', y', z')|
    ensures |SweepY(a, x, ny, nz)| == 8 * |SweepY(b, x, ny, nz)|
  {
    if ny > 0 {
      SweepYScale(a, b, x, ny - 1, nz);
      SweepZScale(a, b, x, ny - 1, nz);
    }
  }

  lemma {:induction false} SweepXScale<A, B>(a: (int, int, int) -> seq<A>, b: (int, int, int) -> seq<B>,
                                             nx: nat, ny: nat, nz: nat)
    requires forall x', y', z' :: |a(x', y', z')| == 8 * |b(x', y', z')|
    ensures |SweepX(a, nx, ny, nz)| == 8 * |SweepX(b, nx, ny, nz)|
  {
    if nx > 0 {
      SweepXScale(a, b, nx - 1, ny, nz);
      SweepYScale(a, b, nx - 1, ny, nz);
    }
  }

  /** Every element of `s` satisfies `p`, stated element by element from the front. */
  predicate AllOf<T>(s: seq<T>, p: T -> bool)
    decreases |s|
  {
    |s| == 0 || (p(s[0]) && AllOf(s[1..], p))
  }

  lemma {:induction false} AllOfMember<T>(s: seq<T>, p: T -> bool)
    requires AllOf(s, p)
    ensures forall t :: t in s ==> p(t)
    decreases |s|
  {
    if |s| > 0 {
      AllOfMember(s[1..], p);
      assert forall t :: t in s ==> t == s[0] || t in s[1..];
    }
  }

  lemma {:induction false} AllOfIntro<T>(s: seq<T>, p: T -> bool)
    requires forall t :: t in s ==> p(t)
    ensures AllOf(s, p)
    decreases |s|
  {
    if |s| > 0 {
      assert forall t :: t in s[1..] ==> t in s;
      AllOfIntro(s[1..], p);
    }
  }

  lemma {:induction false} AllOfAppend<T>(a: seq<T>, b: seq<T>, p: T -> bool)
    requires AllOf(a, p) && AllOf(b, p)
    ensures AllOf(a + b, p)
    decreases |a|
  {
    if |a| == 0 {
      assert a + b == b;
    } else {
      AllOfAppend(a[1..], b, p);
      assert (a + b)[0] == a[0];
      assert (a + b)[1..] == a[1..] + b;
    }
  }

  /** A property every element of every swept cell's stream has, every element of the sweep has. */
  lemma {:induction false} SweepZAll<T>(cell: (int, int, int) -> seq<T>, p: T -> bool, x: int, y: int, nz: nat)
    requires forall z' :: 0 <= z' < nz ==> AllOf(cell(x, y, z'), p)
    ensures AllOf(SweepZ(cell, x, y, nz), p)
  {
    if nz > 0 {
      SweepZAll(cell, p, x, y, nz - 1);
      AllOfAppend(SweepZ(cell, x, y, nz - 1), cell(x, y, nz - 1), p);
    }
  }

  lemma {:induction false} SweepYAll<T>(cell: (int, int, int) -> seq<T>, p: T -> bool, x: int, ny: nat, nz: nat)
    requires forall y', z' :: 0 <= y' < ny && 0 <= z' < nz ==> AllOf(cell(x, y', z'), p)
    ensures AllOf(SweepY(cell, x, ny, nz), p)
  {
    if ny > 0 {
      SweepYAll(cell, p, x, ny - 1, nz);
      SweepZAll(cell, p, x, ny - 1, nz);
      AllOfAppend(SweepY(cell, x, ny - 1, nz), SweepZ(cell, x, ny - 1, nz), p);
    }
  }

  lemma {:induction false} SweepXAll<T>(cell: (int, int, int) -> seq<T>, p: T -> bool, nx: nat, ny: nat, nz: nat)
    requires forall x', y', z' :: 0 <= x' < nx && 0 <= y' < ny && 0 <= z' < nz ==> AllOf(cell(x', y', z'), p)
    ensures AllOf(SweepX(cell, nx, ny, nz), p)
  {
    if nx > 0 {
      SweepXAll(cell, p, nx - 1, ny, nz);
      SweepYAll(cell, p, nx - 1, ny, nz);
      AllOfAppend(SweepX(cell, nx - 1, ny, nz), SweepY(cell, nx - 1, ny, nz), p);
    }
  }

  // ---------------------------------------------------------------------------
  // Counts: eight vertices per visible face.

  lemma FaceVerticesCount(g: seq<seq<seq<int>>>, x: int, y: int, z: int, f: Face)
    requires IsGrid(g) && InGrid(x, y, z)
    ensures |FaceVertices(g, x, y, z, f)| == 8 * |FaceIf(g, x, y, z, f)|
  {
  }

  /** A cell pushes eight vertices for each face it emits. */
  lemma CellVerticesCount(g: seq<seq<seq<int>>>, x: int, y: int, z: int)
    requires IsGrid(g) && InGrid(x, y, z)
    ensures |CellVertices(g, x, y, z)| == 8 * |VisibleFaces(g, x, y, z)|
  {
    FaceVerticesCount(g, x, y, z, NegX);
    FaceVerticesCount(g, x, y, z, PosX);
    FaceVerticesCount(g, x, y, z, NegY);
    FaceVerticesCount(g, x, y, z, PosY);
    FaceVerticesCount(g, x, y, z, NegZ);
    FaceVerticesCount(g, x, y, z, PosZ);
  }

  /** Over any part of the sweep, the vertex stream is eight times as long as the face stream. */
  lemma SweepCounts(g: seq<seq<seq<int>>>, nx: nat, ny: nat, nz: nat)
    ensures |SweepX(CellStream(g), nx, ny, nz)| == 8 * |SweepX(FaceStream(g), nx, ny, nz)|
  {
    forall x, y, z
      ensures |CellStream(g)(x, y, z)| == 8 * |FaceStream(g)(x, y, z)|
    {
      if IsGrid(g) && InGrid(x, y, z) {
        CellVerticesCount(g, x, y, z);
      }
    }
    SweepXScale(CellStream(g), FaceStream(g), nx, ny, nz);
  }

  /** The chunk's stream holds eight vertices per visible face (so do its position and colour halves). */
  lemma MeshVertexCount(g: seq<seq<seq<int>>>)
    ensures |MeshVertices(g)| == 8 * FaceCount(g)
  {
    SweepCounts(g, X_SIZE, Y_SIZE, Z_SIZE);
  }

  // ---------------------------------------------------------------------------
  // The index list.

  lemma {:induction false} IndexGroupsLength(n: nat, stride: nat)
    ensures |IndexGroups(n, stride)| == 36 * n
  {
    if n > 0 {
      IndexGroupsLength(n - 1, stride);
    }
  }

  /** Appending group n - 1 leaves the earlier entries in place. */
  lemma IndexGroupsFront(n: nat, stride: nat, k: int)
    requires n > 0 && 0 <= k < 36 * (n - 1)
    ensures |IndexGroups(n - 1, stride)| == 36 * (n - 1) && |IndexGroups(n, stride)| == 36 * n
    ensures IndexGroups(n, stride)[k] == IndexGroups(n - 1, stride)[k]
  {
    IndexGroupsLength(n - 1, stride);
    IndexGroupsLength(n, stride);
  }

  /** Entry j of the last group is corner `CubeIndex(j)` shifted by `stride * (n - 1)`. */
  lemma IndexGroupsLast(n: nat, stride: nat, j: int)
    requires n > 0 && 0 <= j < 36
    ensures |IndexGroups(n, stride)| == 36 * n
    ensures IndexGroups(n, stride)[36 * (n - 1) + j] == CubeIndex(j) + stride * (n - 1)
  {
    IndexGroupsLength(n - 1, stride);
    IndexGroupsLength(n, stride);
    var front, last := IndexGroups(n - 1, stride), IndexGroup(stride * (n - 1));
    assert IndexGroups(n, stride) == front + last;
    assert (front + last)[36 * (n - 1) + j] == last[j];
  }

  /** Entry j of group q of the index list is corner `CubeIndex(j)` shifted by `stride * q`. */
  lemma {:induction false} IndexGroupsAt(n: nat, stride: nat, q: nat, j: nat)
    requires q < n && j < 36
    ensures 36 * q + j < |IndexGroups(n, stride)|
    ensures IndexGroups(n, stride)[36 * q + j] == CubeIndex(j) + stride * q
  {
    var k := 36 * q + j;
    if q < n - 1 {
      assert k < 36 * (n - 1);
      IndexGroupsFront(n, stride, k);
      IndexGroupsAt(n - 1, stride, q, j);
    } else {
      assert k == 36 * (n - 1) + j;
      IndexGroupsLast(n, stride, j);
    }
  }

  /** One group of 36 indices per whole 24 vertices. */
  lemma MeshIndexCount(vertexCount: nat)
    ensures |MeshIndices(vertexCount)| == 36 * (vertexCount / 24)
  {
    IndexGroupsLength(vertexCount / 24, 24);
  }

  /** Entry k of the index list lies in the first eight vertices of run k / 36 of 24 vertices. */
  lemma MeshIndexAt(vertexCount: nat, k: int)
    requires 0 <= k < 36 * (vertexCount / 24)
    ensures |MeshIndices(vertexCount)| == 36 * (vertexCount / 24)
    ensures 24 * (k / 36) <= MeshIndices(vertexCount)[k] < 24 * (k / 36) + 8
  {
    var n := vertexCount / 24;
    IndexGroupsLength(n, 24);
    var q, j := k / 36, k % 36;
    assert k == 36 * q + j && q < n;
    IndexGroupsAt(n, 24, q, j);
  }

  /**
   * Every index refers to a vertex that exists, and only the first eight of each
   * run of 24 vertices are ever referenced.
   */
  lemma MeshIndicesBounds(vertexCount: nat)
    ensures |MeshIndices(vertexCount)| == 36 * (vertexCount / 24)
    ensures forall k :: 0 <= k < |MeshIndices(vertexCount)| ==>
      0 <= MeshIndices(vertexCount)[k] < vertexCount && MeshIndices(vertexCount)[k] % 24 < 8
  {
    IndexGroupsLength(vertexCount / 24, 24);
    forall k | 0 <= k < |MeshIndices(vertexCount)|
      ensures 0 <= MeshIndices(vertexCount)[k] < vertexCount && MeshIndices(vertexCount)[k] % 24 < 8
    {
      MeshIndexAt(vertexCount, k);
      var q, e := k / 36, MeshIndices(vertexCount)[k];
      assert q < vertexCount / 24;
      assert e % 24 == e - 24 * q;
    }
  }

  // ---------------------------------------------------------------------------
  // Where the vertices come from.

  /** Vertex `v` is corner k of the cube of cell (x, y, z), for some k. */
  predicate CornerOf(v: MeshVertex, x: int, y: int, z: int) {
    exists k :: 0 <= k < 8 && v.position == (Corner(k).0 + 2 * x, Corner(k).1 + 2 * y, Corner(k).2 + 2 * z)
  }

  /** Vertex `v` carries the colour of a solid cell of `g` and is a corner of that cell's cube. */
  predicate FromSolidCell(g: seq<seq<seq<int>>>, v: MeshVertex) {
    IsGrid(g) && InGrid(v.color.x, v.color.y, v.color.z) && g[v.color.x][v.color.y][v.color.z] > 0 &&
    CornerOf(v, v.color.x, v.color.y, v.color.z)
  }

  /** Every vertex of a cell's stream is a corner of that cell, in that cell's colour, and the cell is solid. */
  lemma CellVerticesFrom(g: seq<seq<seq<int>>>, x: int, y: int, z: int)
    requires IsGrid(g) && InGrid(x, y, z)
    ensures forall v :: v in CellVertices(g, x, y, z) ==>
      v.color == CellColor(x, y, z) && g[x][y][z] > 0 && CornerOf(v, x, y, z)
  {
    var cube := CubeAt(x, y, z);
    forall v | v in cube
      ensures v.color == CellColor(x, y, z) && CornerOf(v, x, y, z)
    {
      var i :| 0 <= i < 8 && cube[i] == v;
      assert v.position == (Corner(i).0 + 2 * x, Corner(i).1 + 2 * y, Corner(i).2 + 2 * z);
    }
  }

  /** Over any part of the sweep, only solid cells emit vertices, each a corner of its own cell's cube. */
  lemma SweepFromSolidCells(g: seq<seq<seq<int>>>, nx: nat, ny: nat, nz: nat)
    ensures forall v :: v in SweepX(CellStream(g), nx, ny, nz) ==> FromSolidCell(g, v)
  {
    var p := (v: MeshVertex) => FromSolidCell(g, v);
    forall x, y, z
      ensures AllOf(CellStream(g)(x, y, z), p)
    {
      if IsGrid(g) && InGrid(x, y, z) {
        CellVerticesFrom(g, x, y, z);
      }
      AllOfIntro(CellStream(g)(x, y, z), p);
    }
    SweepXAll(CellStream(g), p, nx, ny, nz);
    AllOfMember(SweepX(CellStream(g), nx, ny, nz), p);
  }

  /** Only solid cells emit vertices, each a corner of its own cell's cube. */
  lemma MeshVerticesFromSolidCells(g: seq<seq<seq<int>>>)
    ensures forall v :: v in MeshVertices(g) ==> FromSolidCell(g, v)
  {
    SweepFromSolidCells(g, X_SIZE, Y_SIZE, Z_SIZE);
  }

  /** Over any part of the sweep, a chunk with no solid cell emits no vertex and no face. */
  lemma EmptySweep(g: seq<seq<seq<int>>>, nx: nat, ny: nat, nz: nat)
    requires IsGrid(g)
    requires forall x, y, z :: InGrid(x, y, z) ==> g[x][y][z] <= 0
    ensures SweepX(CellStream(g), nx, ny, nz) == []
    ensures SweepX(FaceStream(g), nx, ny, nz) == []
  {
    var noVertex := (v: MeshVertex) => false;
    var noFace := (f: Face) => false;
    forall x, y, z
      ensures AllOf(CellStream(g)(x, y, z), noVertex) && AllOf(FaceStream(g)(x, y, z), noFace)
    {
      assert CellStream(g)(x, y, z) == [] && FaceStream(g)(x, y, z) == [];
    }
    SweepXAll(CellStream(g), noVertex, nx, ny, nz);
    SweepXAll(FaceStream(g), noFace, nx, ny, nz);
  }

  lemma EmptyStream(s: seq<MeshVertex>)
    requires s == []
    ensures Positions(s) == [] && Colors(s) == [] && MeshIndices(|s|) == []
  {
  }

  /** A chunk with no solid cell yields no vertices, no colours, no faces and no indices. */
  lemma EmptyChunkMesh(g: seq<seq<seq<int>>>)
    requires IsGrid(g)
    requires forall x, y, z :: InGrid(x, y, z) ==> g[x][y][z] <= 0
    ensures MeshVertices(g) == [] && FaceCount(g) == 0
    ensures Positions(MeshVertices(g)) == [] && Colors(MeshVertices(g)) == []
    ensures MeshIndices(|MeshVertices(g)|) == []
  {
    EmptySweep(g, X_SIZE, Y_SIZE, Z_SIZE);
    EmptyStream(MeshVertices(g));
  }

  // ---------------------------------------------------------------------------
  // Order: x outermost, then y, then z.

  /** Lexicographic order on cell coordinates, x first, then y, then z. */
  predicate LexLe(a: (int, int, int), b: (int, int, int)) {
    a.0 < b.0 || (a.0 == b.0 && (a.1 < b.1 || (a.1 == b.1 && a.2 <= b.2)))
  }

  /** The keys of `s` never decrease. */
  predicate SortedBy<T>(s: seq<T>, key: T -> (int, int, int)) {
    forall i, j :: 0 <= i < j < |s| ==> LexLe(key(s[i]), key(s[j]))
  }

  lemma SortedAppend<T>(a: seq<T>, b: seq<T>, key: T -> (int, int, int))
    requires SortedBy(a, key) && SortedBy(b, key)
    requires forall s, t :: s in a && t in b ==> LexLe(key(s), key(t))
    ensures SortedBy(a + b, key)
  {
    forall i, j | 0 <= i < j < |a + b|
      ensures LexLe(key((a + b)[i]), key((a + b)[j]))
    {
      if j < |a| {
        assert (a + b)[i] == a[i] && (a + b)[j] == a[j];
      } else if i < |a| {
        assert (a + b)[i] == a[i] && (a + b)[j] == b[j - |a|];
        assert a[i] in a && b[j - |a|] in b;
      } else {
        assert (a + b)[i] == b[i - |a|] && (a + b)[j] == b[j - |a|];
      }
    }
  }

  /** A stream whose elements all carry the same key is sorted. */
  lemma SortedConstant<T>(s: seq<T>, key: T -> (int, int, int), c: (int, int, int))
    requires forall t :: t in s ==> key(t) == c
    ensures SortedBy(s, key)
  {
    forall i, j | 0 <= i < j < |s|
      ensures LexLe(key(s[i]), key(s[j]))
    {
      assert s[i] in s && s[j] in s;
    }
  }

  /** Every element of cell (x, y, z)'s stream is keyed (x, y, z). */
  ghost predicate Keyed<T>(cell: (int, int, int) -> seq<T>, key: T -> (int, int, int)) {
    forall x, y, z, t :: t in cell(x, y, z) ==> key(t) == (x, y, z)
  }

  lemma {:induction false} SweepZSorted<T>(cell: (int, int, int) -> seq<T>, key: T -> (int, int, int),
                                           x: int, y: int, nz: nat)
    requires Keyed(cell, key)
    ensures SortedBy(SweepZ(cell, x, y, nz), key)
    ensures forall t :: t in SweepZ(cell, x, y, nz) ==> key(t).0 == x && key(t).1 == y && 0 <= key(t).2 < nz
  {
    if nz > 0 {
      var a, b := SweepZ(cell, x, y, nz - 1), cell(x, y, nz - 1);
      SweepZSorted(cell, key, x, y, nz - 1);
      SortedConstant(b, key, (x, y, nz - 1));
      SortedAppend(a, b, key);
    }
  }

  lemma {:induction false} SweepYSorted<T>(cell: (int, int, int) -> seq<T>, key: T -> (int, int, int),
                                           x: int, ny: nat, nz: nat)
    requires Keyed(cell, key)
    ensures SortedBy(SweepY(cell, x, ny, nz), key)
    ensures forall t :: t in SweepY(cell, x, ny, nz) ==> key(t).0 == x && 0 <= key(t).1 < ny && 0 <= key(t).2 < nz
  {
    if ny > 0 {
      var a, b := SweepY(cell, x, ny - 1, nz), SweepZ(cell, x, ny - 1, nz);
      SweepYSorted(cell, key, x, ny - 1, nz);
      SweepZSorted(cell, key, x, ny - 1, nz);
      SortedAppend(a, b, key);
    }
  }

  lemma {:induction false} SweepXSorted<T>(cell: (int, int, int) -> seq<T>, key: T -> (int, int, int),
                                           nx: nat, ny: nat, nz: nat)
    requires Keyed(cell, key)
    ensures SortedBy(SweepX(cell, nx, ny, nz), key)
    ensures forall t :: t in SweepX(cell, nx, ny, nz) ==> 0 <= key(t).0 < nx && 0 <= key(t).1 < ny && 0 <= key(t).2 < nz
  {
    if nx > 0 {
      var a, b := SweepX(cell, nx - 1, ny, nz), SweepY(cell, nx - 1, ny, nz);
      SweepXSorted(cell, key, nx - 1, ny, nz);
      SweepYSorted(cell, key, nx - 1, ny, nz);
      SortedAppend(a, b, key);
    }
  }

  /** The cell a vertex was emitted for, read from its colour. */
  function CellOf(v: MeshVertex): (int, int, int) {
    (v.color.x, v.color.y, v.color.z)
  }

  /** Every vertex of the chunk's stream is keyed by its own cell. */
  lemma CellStreamKeyed(g: seq<seq<seq<int>>>)
    ensures Keyed(CellStream(g), CellOf)
  {
    forall x, y, z, v | v in CellStream(g)(x, y, z)
      ensures CellOf(v) == (x, y, z)
    {
      CellVerticesFrom(g, x, y, z);
    }
  }

  /**
   * The vertices come out cell by cell, x outermost, then y, then z: the
   * cells of any two vertices are in lexicographic order, so the vertices of
   * one cell are contiguous.
   */
  lemma MeshVerticesOrdered(g: seq<seq<seq<int>>>)
    ensures forall i, j :: 0 <= i < j < |MeshVertices(g)| ==> LexLe(CellOf(MeshVertices(g)[i]), CellOf(MeshVertices(g)[j]))
  {
    CellStreamKeyed(g);
    SweepXSorted(CellStream(g), CellOf, X_SIZE, Y_SIZE, Z_SIZE);
  }

  // ---------------------------------------------------------------------------
  // The solid chunk `Chunk::new` creates: only the boundary faces.

  /** Faces a cell at coordinate i of an axis of length n has on that axis's two edges. */
  function EdgeFaces(i: int, n: int): nat {
    (if i == 0 then 1 else 0) + (if i == n - 1 then 1 else 0)
  }

  /** The sum of `EdgeFaces(i, size)` over i < n. */
  function EdgesBelow(n: int, size: int): nat {
    (if n >= 1 then 1 else 0) + (if n >= size then 1 else 0)
  }

  lemma EdgesStep(n: int, size: int)
    requires 1 <= n <= size && size >= 2
    ensures EdgesBelow(n, size) == EdgesBelow(n - 1, size) + EdgeFaces(n - 1, size)
  {
  }

  /** `n` copies of `e` added up; the sums below are built from it, which keeps them linear. */
  function Times(n: nat, e: int): int {
    if n == 0 then 0 else Times(n - 1, e) + e
  }

  lemma {:induction false} TimesIsProduct(n: nat, e: int)
    ensures Times(n, e) == n * e
  {
    if n > 0 {
      TimesIsProduct(n - 1, e);
    }
  }

  lemma {:induction false} TimesAdd(n: nat, a: int, b: int)
    ensures Times(n, a + b) == Times(n, a) + Times(n, b)
  {
    if n > 0 {
      TimesAdd(n - 1, a, b);
    }
  }

  /** Every cell of `g` is solid (id > 0). */
  ghost predicate Solid(g: seq<seq<seq<int>>>) {
    IsGrid(g) && forall x, y, z :: InGrid(x, y, z) ==> g[x][y][z] > 0
  }

  /** Face tests along one axis of a solid grid: a face is emitted exactly on the grid's edge. */
  lemma SolidAxisFaces(g: seq<seq<seq<int>>>, x: int, y: int, z: int)
    requires Solid(g) && InGrid(x, y, z)
    ensures |FaceIf(g, x, y, z, NegX) + FaceIf(g, x, y, z, PosX)| == EdgeFaces(x, X_SIZE)
    ensures |FaceIf(g, x, y, z, NegY) + FaceIf(g, x, y, z, PosY)| == EdgeFaces(y, Y_SIZE)
    ensures |FaceIf(g, x, y, z, NegZ) + FaceIf(g, x, y, z, PosZ)| == EdgeFaces(z, Z_SIZE)
  {
    assert x > 0 ==> At(g, x - 1, y, z) > 0;
    assert x < X_SIZE - 1 ==> At(g, x + 1, y, z) > 0;
    assert y > 0 ==> At(g, x, y - 1, z) > 0;
    assert y < Y_SIZE - 1 ==> At(g, x, y + 1, z) > 0;
    assert z > 0 ==> At(g, x, y, z - 1) > 0;
    assert z < Z_SIZE - 1 ==> At(g, x, y, z + 1) > 0;
  }

  /** In a solid grid a cell emits exactly the faces that lie on the grid's boundary. */
  lemma SolidCellFaces(g: seq<seq<seq<int>>>, x: int, y: int, z: int)
    requires Solid(g) && InGrid(x, y, z)
    ensures |FaceStream(g)(x, y, z)| == EdgeFaces(x, X_SIZE) + EdgeFaces(y, Y_SIZE) + EdgeFaces(z, Z_SIZE)
  {
    assert At(g, x, y, z) > 0;
    SolidAxisFaces(g, x, y, z);
  }

  /** Every cell of the grid has one element per grid edge it lies on. */
  ghost predicate BoundaryCounts<T>(cell: (int, int, int) -> seq<T>) {
    forall x, y, z :: InGrid(x, y, z) ==> |cell(x, y, z)| == EdgeFaces(x, X_SIZE) + EdgeFaces(y, Y_SIZE) + EdgeFaces(z, Z_SIZE)
  }

  /** Elements of row (x, y) up to nz: the x and y edges of each cell, then the z edges. */
  function RowCount(x: int, y: int, nz: nat): int {
    Times(nz, EdgeFaces(x, X_SIZE) + EdgeFaces(y, Y_SIZE)) + EdgesBelow(nz, Z_SIZE)
  }

  /** Elements of slab x up to ny rows of nz cells. */
  function SlabCount(x: int, ny: nat, nz: nat): int {
    Times(ny, Times(nz, EdgeFaces(x, X_SIZE)) + EdgesBelow(nz, Z_SIZE)) + Times(nz, EdgesBelow(ny, Y_SIZE))
  }

  /** Elements of the first nx slabs. */
  function GridCount(nx: nat, ny: nat, nz: nat): int {
    Times(nx, Times(ny, EdgesBelow(nz, Z_SIZE)) + Times(nz, EdgesBelow(ny, Y_SIZE))) +
    Times(ny, Times(nz, EdgesBelow(nx, X_SIZE)))
  }

  lemma {:induction false} BoundaryRow<T>(cell: (int, int, int) -> seq<T>, x: int, y: int, nz: nat)
    requires BoundaryCounts(cell) && 0 <= x < X_SIZE && 0 <= y < Y_SIZE && nz <= Z_SIZE
    ensures |SweepZ(cell, x, y, nz)| == RowCount(x, y, nz)
  {
    if nz > 0 {
      BoundaryRow(cell, x, y, nz - 1);
      assert InGrid(x, y, nz - 1);
      EdgesStep(nz, Z_SIZE);
    }
  }

  /** The arithmetic of one step of `BoundarySlab`: adding row ny - 1. */
  lemma SlabStep(x: int, ny: nat, nz: nat)
    requires 0 < ny <= Y_SIZE
    ensures SlabCount(x, ny - 1, nz) + RowCount(x, ny - 1, nz) == SlabCount(x, ny, nz)
  {
    var ex, ey := EdgeFaces(x, X_SIZE), EdgeFaces(ny - 1, Y_SIZE);
    EdgesStep(ny, Y_SIZE);
    TimesAdd(nz, ex, ey);
    TimesAdd(nz, EdgesBelow(ny - 1, Y_SIZE), ey);
  }

  lemma {:induction false} BoundarySlab<T>(cell: (int, int, int) -> seq<T>, x: int, ny: nat, nz: nat)
    requires BoundaryCounts(cell) && 0 <= x < X_SIZE && ny <= Y_SIZE && nz <= Z_SIZE
    ensures |SweepY(cell, x, ny, nz)| == SlabCount(x, ny, nz)
  {
    if ny > 0 {
      var before, row := SweepY(cell, x, ny - 1, nz), SweepZ(cell, x, ny - 1, nz);
      BoundarySlab(cell, x, ny - 1, nz);
      BoundaryRow(cell, x, ny - 1, nz);
      SlabStep(x, ny, nz);
      assert |SweepY(cell, x, ny, nz)| == |before| + |row|;
    } else {
      TimesIsProduct(nz, 0);
    }
  }

  /** The arithmetic of one step of `BoundaryGrid`: adding slab nx - 1. */
  lemma GridStep(nx: nat, ny: nat, nz: nat)
    requires 0 < nx <= X_SIZE
    ensures GridCount(nx - 1, ny, nz) + SlabCount(nx - 1, ny, nz) == GridCount(nx, ny, nz)
  {
    var ex := EdgeFaces(nx - 1, X_SIZE);
    EdgesStep(nx, X_SIZE);
    TimesAdd(ny, Times(nz, ex), EdgesBelow(nz, Z_SIZE));
    TimesAdd(nz, EdgesBelow(nx - 1, X_SIZE), ex);
    TimesAdd(ny, Times(nz, EdgesBelow(nx - 1, X_SIZE)), Times(nz, ex));
  }

  lemma {:induction false} BoundaryGrid<T>(cell: (int, int, int) -> seq<T>, nx: nat, ny: nat, nz: nat)
    requires BoundaryCounts(cell) && nx <= X_SIZE && ny <= Y_SIZE && nz <= Z_SIZE
    ensures |SweepX(cell, nx, ny, nz)| == GridCount(nx, ny, nz)
  {
    if nx > 0 {
      var before, slab := SweepX(cell, nx - 1, ny, nz), SweepY(cell, nx - 1, ny, nz);
      BoundaryGrid(cell, nx - 1, ny, nz);
      BoundarySlab(cell, nx - 1, ny, nz);
      GridStep(nx, ny, nz);
      assert |SweepX(cell, nx, ny, nz)| == |before| + |slab|;
    } else {
      TimesIsProduct(nz, 0);
      TimesIsProduct(ny, 0);
    }
  }

  /** Over a grid with boundary counts, the whole sweep has 6 * 16 * 16 = 1536 elements, 256 per side. */
  lemma BoundaryTotal<T>(cell: (int, int, int) -> seq<T>)
    requires BoundaryCounts(cell)
    ensures |SweepX(cell, X_SIZE, Y_SIZE, Z_SIZE)| == 1536
  {
    BoundaryGrid(cell, X_SIZE, Y_SIZE, Z_SIZE);
    TimesIsProduct(16, 2);
    TimesIsProduct(16, 32);
    TimesIsProduct(16, 64);
  }

  lemma SolidBoundaryCounts(g: seq<seq<seq<int>>>)
    requires Solid(g)
    ensures BoundaryCounts(FaceStream(g))
  {
    forall x, y, z | InGrid(x, y, z)
      ensures |FaceStream(g)(x, y, z)| == EdgeFaces(x, X_SIZE) + EdgeFaces(y, Y_SIZE) + EdgeFaces(z, Z_SIZE)
    {
      SolidCellFaces(g, x, y, z);
    }
  }

  /** A solid chunk emits its 6 * 16 * 16 = 1536 boundary faces and no other. */
  lemma SolidFaceCount(g: seq<seq<seq<int>>>)
    requires Solid(g)
    ensures FaceCount(g) == 1536
  {
    SolidBoundaryCounts(g);
    BoundaryTotal(FaceStream(g));
  }

  /**
   * A chunk whose every cell is solid, such as one fresh from `Chunk::new`
   * (`Filled(1)`), pushes 8 vertices for each of its 1536 boundary faces.
   */
  lemma SolidVertexCount(g: seq<seq<seq<int>>>)
    requires Solid(g)
    ensures |MeshVertices(g)| == 12288
  {
    SolidFaceCount(g);
    MeshVertexCount(g);
  }

  /** The grid `Chunk::new` creates is solid. */
  lemma NewChunkSolid()
    ensures Solid(Filled(1))
  {
  }
}
