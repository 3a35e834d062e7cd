/** The parts of the phantom's detector construction that the scorers read:
    the phantom size, its segmentation into voxels and the voxel index. */
module DetectorConstruction {
  import opened Units
  import opened VoxelGrid

  class PDD1DetectorConstruction {
    var phantomSize: Vec3
    var nx: int
    var ny: int
    var nz: int

    /** The default phantom: a 50 cm water cube cut into 1 x 1 x 500 slabs. */
    constructor ()
      ensures phantomSize == Vec3(50.0 * cm, 50.0 * cm, 50.0 * cm)
      ensures nx == 1 && ny == 1 && nz == 500
    {
      phantomSize := Vec3(50.0 * cm, 50.0 * cm, 50.0 * cm);
      nx, ny, nz := 1, 1, 500;
    }

    method SetPhantomSize(size: Vec3)
      modifies this
      ensures phantomSize == size && nx == old(nx) && ny == old(ny) && nz == old(nz)
    {
      phantomSize := size;
    }

    function GetPhantomSize(): (r: Vec3)
      reads this
      ensures r == phantomSize
    {
      phantomSize
    }

    method SetNumberOfSegmentsInPhantom(x: int, y: int, z: int)
      modifies this
      ensures nx == x && ny == y && nz == z && phantomSize == old(phantomSize)
    {
      nx, ny, nz := x, y, z;
    }

    /** The three segment counts through out-parameters. */
    method GetNumberOfSegmentsInPhantom() returns (x: int, y: int, z: int)
      ensures x == GetNumberOfVoxelAlongX() && y == GetNumberOfVoxelAlongY() && z == GetNumberOfVoxelAlongZ()
    {
      x, y, z := nx, ny, nz;
    }

    function GetNumberOfVoxelAlongX(): int
      reads this
    {
      nx
    }

    function GetNumberOfVoxelAlongY(): int
      reads this
    {
      ny
    }

    function GetNumberOfVoxelAlongZ(): int
      reads this
    {
      nz
    }

    /** The construction's voxel index is the one the dose matrix uses; on
        the grid it lies in [0, nx*ny*nz) and determines the voxel. */
    function Index(i: int, j: int, k: int): (r: int)
      reads this
      ensures r == VoxelGrid.Index(ny, nz, i, j, k)
      ensures InGrid(nx, ny, nz, i, j, k) ==> 0 <= r < NVoxel(nx, ny, nz) && Coords(ny, nz, r) == Voxel(i, j, k)
    {
      IndexOnGrid(nx, ny, nz, i, j, k);
      IndexProduct(ny, nz, i, j, k);
      (i * ny + j) * nz + k
    }
  }

  /** Setting the segmentation and reading it back, by either accessor,
      yields the values set; the phantom size is untouched. */
  method SegmentsRoundTrip(d: PDD1DetectorConstruction, x: int, y: int, z: int)
    returns (gx: int, gy: int, gz: int)
    modifies d
    ensures gx == x && gy == y && gz == z
    ensures d.GetNumberOfVoxelAlongX() == x && d.GetNumberOfVoxelAlongY() == y && d.GetNumberOfVoxelAlongZ() == z
    ensures d.GetPhantomSize() == old(d.GetPhantomSize())
  {
    d.SetNumberOfSegmentsInPhantom(x, y, z);
    gx, gy, gz := d.GetNumberOfSegmentsInPhantom();
  }

  /** Setting the phantom size and reading it back yields the value set; the
      segmentation is untouched. */
  method PhantomSizeRoundTrip(d: PDD1DetectorConstruction, s: Vec3) returns (g: Vec3)
    modifies d
    ensures g == s
    ensures d.GetNumberOfVoxelAlongX() == old(d.GetNumberOfVoxelAlongX())
    ensures d.GetNumberOfVoxelAlongY() == old(d.GetNumberOfVoxelAlongY())
    ensures d.GetNumberOfVoxelAlongZ() == old(d.GetNumberOfVoxelAlongZ())
  {
    d.SetPhantomSize(s);
    g := d.GetPhantomSize();
  }
}
