/** The voxel grid of the phantom: the 3-D to linear index mapping shared by
    the dose matrix and the LET scorer, its inverse, the row-major walk that
    every table writer performs, and the row type those writers emit. */
module VoxelGrid {

  datatype Voxel = Voxel(i: int, j: int, k: int)

  datatype Vec3 = Vec3(x: real, y: real, z: real)

  /** One output line: the voxel indices followed by its values. */
  datatype Row = Row(i: int, j: int, k: int, values: seq<real>)

  /** A whole output file: the header tokens and the data lines. */
  datatype Table = Table(header: seq<string>, rows: seq<Row>)

  /** A per-voxel array as allocated and zeroed: n zeros. */
  function Zeros(n: nat): (r: seq<real>)
    ensures |r| == n && forall v :: 0 <= v < n ==> r[v] == 0.0
  {
    seq(n, _ => 0.0)
  }

  /** The zeroing loop run over a freshly allocated per-voxel array. */
  method ZeroFill(cells: array<real>)
    modifies cells
    ensures cells[..] == Zeros(cells.Length)
  {
    var v := 0;
    while v < cells.Length
      invariant 0 <= v <= cells.Length
      invariant forall w :: 0 <= w < v ==> cells[w] == 0.0
    {
      cells[v] := 0.0;
      v := v + 1;
    }
  }

  /** a * b by repeated addition. Index and NVoxel are written with it so
      that a proof meets their products only where it asks for them, through
      IndexProduct and NVoxelProduct. */
  function Mul(a: int, b: int): (r: int)
    ensures a >= 0 && b >= 0 ==> r >= 0
    decreases if b < 0 then -b else b
  {
    if b == 0 then 0 else if b > 0 then Mul(a, b - 1) + a else Mul(a, b + 1) - a
  }

  lemma {:induction false} MulIsProduct(a: int, b: int)
    ensures Mul(a, b) == a * b
    decreases if b < 0 then -b else b
  {
    if b > 0 {
      MulIsProduct(a, b - 1);
    } else if b < 0 {
      MulIsProduct(a, b + 1);
    }
  }

  /** Linear offset of voxel (i, j, k): x is the slowest axis, z the fastest. */
  function Index(ny: int, nz: int, i: int, j: int, k: int): int
  {
    Mul(Mul(i, ny) + j, nz) + k
  }

  function NVoxel(nx: nat, ny: nat, nz: nat): nat
  {
    Mul(Mul(nx, ny), nz)
  }

  lemma IndexProduct(ny: int, nz: int, i: int, j: int, k: int)
    ensures Index(ny, nz, i, j, k) == (i * ny + j) * nz + k
  {
    MulIsProduct(i, ny);
    MulIsProduct(i * ny + j, nz);
  }

  lemma NVoxelProduct(nx: nat, ny: nat, nz: nat)
    ensures NVoxel(nx, ny, nz) == nx * ny * nz
  {
    MulIsProduct(nx, ny);
    MulIsProduct(nx * ny, nz);
  }

  predicate InGrid(nx: int, ny: int, nz: int, i: int, j: int, k: int)
  {
    0 <= i < nx && 0 <= j < ny && 0 <= k < nz
  }

  /** Every voxel of vs lies on the nx*ny*nz grid. */
  predicate AllInGrid(nx: nat, ny: nat, nz: nat, vs: seq<Voxel>)
  {
    forall m :: 0 <= m < |vs| ==> InGrid(nx, ny, nz, vs[m].i, vs[m].j, vs[m].k)
  }

  /** The voxel whose linear offset is v (the inverse of Index). */
  function Coords(ny: int, nz: int, v: int): Voxel
    requires ny > 0 && nz > 0
  {
    Voxel((v / nz) / ny, (v / nz) % ny, v % nz)
  }

  // Small facts of integer arithmetic, stated once so that the solver never
  // has to search for them.

  lemma MulMonotone(a: int, b: int, c: int)
    requires c >= 0
    ensures a <= b ==> a * c <= b * c
  {
    if a <= b {
      assert b * c - a * c == (b - a) * c;
    }
  }

  lemma LessFromMul(a: int, b: int, c: int)
    requires c > 0 && a * c < b * c
    ensures a < b
  {
    MulMonotone(b, a, c);
  }

  lemma Distrib(a: int, b: int, c: int)
    ensures (a + b) * c == a * c + b * c
  {
  }

  lemma DivModOf(q: int, r: int, n: int)
    requires n > 0 && 0 <= r < n
    ensures (q * n + r) / n == q && (q * n + r) % n == r
  {
    var v := q * n + r;
    var d, m := v / n, v % n;
    assert v == d * n + m;
    Distrib(q, -d, n);
    var x := q - d;
    assert x * n == m - r;
    MulMonotone(1, x, n);
    MulMonotone(x, -1, n);
  }

  /** For an in-grid voxel the offset lies in [0, nx*ny*nz). */
  lemma IndexInRange(nx: int, ny: int, nz: int, i: int, j: int, k: int)
    requires InGrid(nx, ny, nz, i, j, k)
    ensures 0 <= Index(ny, nz, i, j, k) < NVoxel(nx, ny, nz)
  {
    IndexProduct(ny, nz, i, j, k);
    NVoxelProduct(nx, ny, nz);
    var row := i * ny + j;
    MulMonotone(0, i, ny);
    MulMonotone(i + 1, nx, ny);
    Distrib(i, 1, ny);
    assert 0 <= row < nx * ny;
    MulMonotone(0, row, nz);
    MulMonotone(row + 1, nx * ny, nz);
    Distrib(row, 1, nz);
  }

  /** Coords undoes Index on the grid, so Index is injective there. */
  lemma {:induction false} CoordsOfIndex(nx: int, ny: int, nz: int, i: int, j: int, k: int)
    requires InGrid(nx, ny, nz, i, j, k)
    ensures Coords(ny, nz, Index(ny, nz, i, j, k)) == Voxel(i, j, k)
  {
    IndexProduct(ny, nz, i, j, k);
    DivModOf(i * ny + j, k, nz);
    DivModOf(i, j, ny);
  }

  lemma DivModSplit(v: int, n: int)
    requires n > 0 && v >= 0
    ensures v == (v / n) * n + v % n && 0 <= v % n < n && v / n >= 0
  {
  }

  /** The quotient of an offset below m*n by n is below m. */
  lemma QuotientBound(m: int, n: int, v: int)
    requires n > 0 && 0 <= v < m * n
    ensures v / n < m
  {
    DivModSplit(v, n);
    assert (v / n) * n <= v;
    LessFromMul(v / n, m, n);
  }

  /** Index undoes Coords on [0, nx*ny*nz), so Index is onto that range. */
  lemma IndexOfCoords(nx: int, ny: int, nz: int, v: int)
    requires nx > 0 && ny > 0 && nz > 0 && 0 <= v < NVoxel(nx, ny, nz)
    ensures var c := Coords(ny, nz, v);
      InGrid(nx, ny, nz, c.i, c.j, c.k) && Index(ny, nz, c.i, c.j, c.k) == v
  {
    var c := Coords(ny, nz, v);
    IndexProduct(ny, nz, c.i, c.j, c.k);
    NVoxelProduct(nx, ny, nz);
    var row := v / nz;
    DivModSplit(v, nz);
    DivModSplit(row, ny);
    // row < nx * ny, for otherwise v >= nx * ny * nz
    QuotientBound(nx * ny, nz, v);
    // row / ny < nx, for otherwise row >= nx * ny
    QuotientBound(nx, ny, row);
  }



  /** On the grid, Index lands in [0, nx*ny*nz) and Coords recovers the voxel. */
  lemma IndexOnGrid(nx: int, ny: int, nz: int, i: int, j: int, k: int)
    ensures InGrid(nx, ny, nz, i, j, k) ==>
      0 <= Index(ny, nz, i, j, k) < NVoxel(nx, ny, nz) && Coords(ny, nz, Index(ny, nz, i, j, k)) == Voxel(i, j, k)
  {
    if InGrid(nx, ny, nz, i, j, k) {
      IndexInRange(nx, ny, nz, i, j, k);
      CoordsOfIndex(nx, ny, nz, i, j, k);
    }
  }

  /** Index is a bijection from the grid onto [0, nx*ny*nz). */
  lemma IndexBijective(nx: int, ny: int, nz: int)
    requires nx > 0 && ny > 0 && nz > 0
    ensures forall i, j, k :: InGrid(nx, ny, nz, i, j, k) ==>
      0 <= Index(ny, nz, i, j, k) < NVoxel(nx, ny, nz)
    ensures forall i, j, k, i', j', k' ::
      (InGrid(nx, ny, nz, i, j, k) && InGrid(nx, ny, nz, i', j', k') &&
       Index(ny, nz, i, j, k) == Index(ny, nz, i', j', k')) ==> i == i' && j == j' && k == k'
    ensures forall v :: 0 <= v < NVoxel(nx, ny, nz) ==>
      var c := Coords(ny, nz, v); InGrid(nx, ny, nz, c.i, c.j, c.k) && Index(ny, nz, c.i, c.j, c.k) == v
  {
    forall i, j, k | InGrid(nx, ny, nz, i, j, k)
      ensures 0 <= Index(ny, nz, i, j, k) < NVoxel(nx, ny, nz)
    {
      IndexInRange(nx, ny, nz, i, j, k);
    }
    forall i, j, k, i', j', k' |
      InGrid(nx, ny, nz, i, j, k) && InGrid(nx, ny, nz, i', j', k') &&
      Index(ny, nz, i, j, k) == Index(ny, nz, i', j', k')
      ensures i == i' && j == j' && k == k'
    {
      CoordsOfIndex(nx, ny, nz, i, j, k);
      CoordsOfIndex(nx, ny, nz, i', j', k');
    }
    forall v | 0 <= v < NVoxel(nx, ny, nz)
      ensures var c := Coords(ny, nz, v); InGrid(nx, ny, nz, c.i, c.j, c.k) && Index(ny, nz, c.i, c.j, c.k) == v
    {
      IndexOfCoords(nx, ny, nz, v);
    }
  }

  // The row-major walk of the nested loops
  //   for i in [0, nx) for j in [0, ny) for k in [0, nz)
  // written the way the loops build it: each level appends the next slice.

  /** Voxels (i, j, 0) .. (i, j, k-1). */
  function WalkK(i: int, j: int, k: nat): seq<Voxel>
  {
    if k == 0 then [] else WalkK(i, j, k - 1) + [Voxel(i, j, k - 1)]
  }

  /** Rows j' < j of plane i, each walked along k. */
  function WalkJ(i: int, j: nat, nz: nat): seq<Voxel>
  {
    if j == 0 then [] else WalkJ(i, j - 1, nz) + WalkK(i, j - 1, nz)
  }

  /** Planes i' < i, each walked along j then k. */
  function WalkI(i: nat, ny: nat, nz: nat): seq<Voxel>
  {
    if i == 0 then [] else WalkI(i - 1, ny, nz) + WalkJ(i - 1, ny, nz)
  }

  /** One more row walked: what a writer's middle loop appends per pass. */
  lemma WalkJStep(done0: seq<Voxel>, i: int, j: nat, nz: nat)
    ensures (done0 + WalkJ(i, j, nz)) + WalkK(i, j, nz) == done0 + WalkJ(i, j + 1, nz)
  {
    assert WalkJ(i, j + 1, nz) == WalkJ(i, j, nz) + WalkK(i, j, nz);
  }

  /** One more plane walked: what a writer's outer loop appends per pass. */
  lemma WalkIStep(i: nat, ny: nat, nz: nat)
    ensures WalkI(i, ny, nz) + WalkJ(i, ny, nz) == WalkI(i + 1, ny, nz)
  {
  }

  /** All voxels of an nx*ny*nz grid, in the order the table writers visit them. */
  function Voxels(nx: nat, ny: nat, nz: nat): seq<Voxel>
  {
    WalkI(nx, ny, nz)
  }

  lemma {:induction false} WalkKShape(i: int, j: int, k: nat)
    ensures |WalkK(i, j, k)| == k
    ensures forall m :: 0 <= m < k ==> WalkK(i, j, k)[m] == Voxel(i, j, m)
  {
    if k > 0 {
      WalkKShape(i, j, k - 1);
    }
  }

  lemma {:induction false} WalkJShape(i: int, j: nat, nz: nat)
    ensures |WalkJ(i, j, nz)| == j * nz
    ensures forall m :: 0 <= m < j * nz ==>
      var x := WalkJ(i, j, nz)[m];
      x.i == i && 0 <= x.j < j && 0 <= x.k < nz && x.j * nz + x.k == m
  {
    if j > 0 {
      WalkJShape(i, j - 1, nz);
      WalkKShape(i, j - 1, nz);
      var prev := WalkJ(i, j - 1, nz);
      var last := WalkK(i, j - 1, nz);
      assert |prev| == (j - 1) * nz;
      assert j * nz == (j - 1) * nz + nz;
      forall m | 0 <= m < j * nz
        ensures var x := WalkJ(i, j, nz)[m];
          x.i == i && 0 <= x.j < j && 0 <= x.k < nz && x.j * nz + x.k == m
      {
        if m >= (j - 1) * nz {
          assert WalkJ(i, j, nz)[m] == last[m - (j - 1) * nz];
        } else {
          assert WalkJ(i, j, nz)[m] == prev[m];
        }
      }
    }
  }

  lemma IndexExpand(ny: int, nz: int, i: int, j: int, k: int)
    ensures Index(ny, nz, i, j, k) == i * (ny * nz) + (j * nz + k)
  {
    IndexProduct(ny, nz, i, j, k);
    Distrib(i * ny, j, nz);
    assert (i * ny) * nz == i * (ny * nz);
  }

  lemma {:induction false} WalkIShape(i: nat, ny: nat, nz: nat)
    ensures |WalkI(i, ny, nz)| == i * (ny * nz)
    ensures forall m :: 0 <= m < i * (ny * nz) ==>
      var x := WalkI(i, ny, nz)[m];
      InGrid(i, ny, nz, x.i, x.j, x.k) && Index(ny, nz, x.i, x.j, x.k) == m
  {
    if i > 0 {
      WalkIShape(i - 1, ny, nz);
      WalkJShape(i - 1, ny, nz);
      var prev := WalkI(i - 1, ny, nz);
      var last := WalkJ(i - 1, ny, nz);
      var plane := ny * nz;
      var base := (i - 1) * plane;
      Distrib(i - 1, 1, plane);
      assert i * plane == base + plane;
      var all := WalkI(i, ny, nz);
      assert all == prev + last;
      forall m | 0 <= m < i * plane
        ensures InGrid(i, ny, nz, all[m].i, all[m].j, all[m].k)
        ensures Index(ny, nz, all[m].i, all[m].j, all[m].k) == m
      {
        if m < base {
          assert all[m] == prev[m];
        } else {
          var x := last[m - base];
          assert all[m] == x;
          IndexExpand(ny, nz, x.i, x.j, x.k);
        }
      }
    }
  }

  /** The walk visits every voxel of the grid exactly once, in increasing
      linear-index order: its m-th voxel is the one whose Index is m. */
  lemma VoxelsInIndexOrder(nx: nat, ny: nat, nz: nat)
    ensures |Voxels(nx, ny, nz)| == NVoxel(nx, ny, nz)
    ensures forall m :: 0 <= m < |Voxels(nx, ny, nz)| ==>
      var x := Voxels(nx, ny, nz)[m];
      InGrid(nx, ny, nz, x.i, x.j, x.k) && Index(ny, nz, x.i, x.j, x.k) == m
  {
    WalkIShape(nx, ny, nz);
    NVoxelPlanes(nx, ny, nz);
  }

  /** The grid holds nx planes of ny * nz voxels. */
  lemma NVoxelPlanes(nx: nat, ny: nat, nz: nat)
    ensures NVoxel(nx, ny, nz) == nx * (ny * nz)
  {
    NVoxelProduct(nx, ny, nz);
    assert nx * (ny * nz) == nx * ny * nz;
  }

  /** Every in-grid voxel occurs in the walk, at position Index(i, j, k). */
  lemma VoxelsCoverGrid(nx: nat, ny: nat, nz: nat, i: int, j: int, k: int)
    requires InGrid(nx, ny, nz, i, j, k)
    ensures 0 <= Index(ny, nz, i, j, k) < |Voxels(nx, ny, nz)|
    ensures Voxels(nx, ny, nz)[Index(ny, nz, i, j, k)] == Voxel(i, j, k)
  {
    VoxelsInIndexOrder(nx, ny, nz);
    IndexInRange(nx, ny, nz, i, j, k);
    var m := Index(ny, nz, i, j, k);
    var x := Voxels(nx, ny, nz)[m];
    CoordsOfIndex(nx, ny, nz, i, j, k);
    CoordsOfIndex(nx, ny, nz, x.i, x.j, x.k);
  }
}
