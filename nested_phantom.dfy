/** The nested parameterisation of the phantom: the z positions of the
    voxel slabs, their half-lengths, and the two-material checkerboard. */
module NestedPhantom {
  import opened VoxelGrid
  import opened Particles

  /** `(-nz + 1 + 2*iz) * dz` for iz in [0, nz): the slab centres. */
  function Centres(nz: int, dz: real): (zs: seq<real>)
    ensures |zs| == if nz > 0 then nz else 0
  {
    seq(if nz > 0 then nz else 0, iz => ((-nz + 1 + 2 * iz) as real) * dz)
  }

  /** The centres are symmetric about 0 and two half-lengths apart. */
  lemma CentresSymmetric(nz: int, dz: real)
    ensures forall iz :: 0 <= iz < |Centres(nz, dz)| ==> Centres(nz, dz)[iz] == -Centres(nz, dz)[nz - 1 - iz]
    ensures forall iz :: 0 <= iz < |Centres(nz, dz)| - 1 ==> Centres(nz, dz)[iz + 1] - Centres(nz, dz)[iz] == 2.0 * dz
  {
    var zs := Centres(nz, dz);
    forall iz | 0 <= iz < |zs|
      ensures zs[iz] == -zs[nz - 1 - iz]
    {
      var c := -nz + 1 + 2 * iz;
      assert -nz + 1 + 2 * (nz - 1 - iz) == -c;
      assert ((-c) as real) * dz == -((c as real) * dz);
    }
    forall iz | 0 <= iz < |zs| - 1
      ensures zs[iz + 1] - zs[iz] == 2.0 * dz
    {
      var c := -nz + 1 + 2 * iz;
      assert ((c + 2) as real) * dz == (c as real) * dz + 2.0 * dz;
    }
  }

  /** With half-length dz the slabs tile [-nz*dz, nz*dz]: the first starts
      at its lower end and the last ends at its upper end. */
  lemma CentresTile(nz: int, dz: real)
    requires nz > 0
    ensures Centres(nz, dz)[0] - dz == -(nz as real) * dz
    ensures Centres(nz, dz)[nz - 1] + dz == (nz as real) * dz
  {
    assert ((-nz + 1) as real) * dz == -(nz as real) * dz + dz;
    assert ((nz - 1) as real) * dz == (nz as real) * dz - dz;
  }

  /** The material of the voxel whose parent touchable has replica numbers
      ix (depth 0) and iy (depth 1) and whose copy number is iz: the first
      material when all three are even, the second otherwise; the first
      when there is no parent touchable. */
  function MaterialIndex(parentTouch: Option<(int, int)>, copyNo: int): (m: nat)
    ensures m <= 1
    ensures parentTouch.None? ==> m == 0
    ensures parentTouch.Some? ==>
      (m == 0 <==> parentTouch.value.0 % 2 == 0 && parentTouch.value.1 % 2 == 0 && copyNo % 2 == 0)
  {
    match parentTouch
    case None => 0
    case Some(replicas) =>
      if CppRem(replicas.0, 2) == 0 && CppRem(replicas.1, 2) == 0 && CppRem(copyNo, 2) == 0 then 0 else 1
  }

  /** Stepping one voxel along any axis changes the material: the
      checkerboard's even cells use the first material and their
      neighbours the second. */
  lemma CheckerboardNeighbours(ix: int, iy: int, iz: int)
    requires MaterialIndex(Some((ix, iy)), iz) == 0
    ensures MaterialIndex(Some((ix + 1, iy)), iz) == 1
    ensures MaterialIndex(Some((ix, iy + 1)), iz) == 1
    ensures MaterialIndex(Some((ix, iy)), iz + 1) == 1
  {
  }

  /** A placed voxel's translation. */
  class PhysicalVolume {
    var translation: Vec3

    constructor ()
      ensures translation == Vec3(0.0, 0.0, 0.0)
    {
      translation := Vec3(0.0, 0.0, 0.0);
    }

    method SetTranslation(position: Vec3)
      modifies this
      ensures translation == position
    {
      translation := position;
    }
  }

  /** A box solid's three half-lengths. */
  class Box {
    var xHalfLength: real
    var yHalfLength: real
    var zHalfLength: real

    constructor (x: real, y: real, z: real)
      ensures xHalfLength == x && yHalfLength == y && zHalfLength == z
    {
      xHalfLength, yHalfLength, zHalfLength := x, y, z;
    }

    method SetXHalfLength(x: real)
      modifies this`xHalfLength
      ensures xHalfLength == x
    {
      xHalfLength := x;
    }

    method SetYHalfLength(y: real)
      modifies this`yHalfLength
      ensures yHalfLength == y
    {
      yHalfLength := y;
    }

    method SetZHalfLength(z: real)
      modifies this`zHalfLength
      ensures zHalfLength == z
    {
      zHalfLength := z;
    }
  }

  class PDD1NestedPhantomParameterisation {
    /** Half-lengths of a voxel. */
    const dX: real
    const dY: real
    const dZ: real
    const nZ: int
    const materials: seq<MaterialId>
    /** The z centre of each slab. */
    var zPositions: seq<real>

    constructor (voxelSize: Vec3, nz: int, mats: seq<MaterialId>)
      ensures dX == voxelSize.x && dY == voxelSize.y && dZ == voxelSize.z && nZ == nz && materials == mats
      ensures zPositions == Centres(nz, voxelSize.z)
    {
      dX, dY, dZ := voxelSize.x, voxelSize.y, voxelSize.z;
      nZ := nz;
      materials := mats;
      ghost var all := Centres(nz, voxelSize.z);
      var zs: seq<real> := [];
      var iz := 0;
      while iz < nz
        invariant 0 <= iz <= |all|
        invariant zs == all[..iz]
      {
        assert all[iz] == ((-nz + 1 + 2 * iz) as real) * voxelSize.z;
        zs := zs + [((-nz + 1 + 2 * iz) as real) * voxelSize.z];
        assert all[..iz + 1] == all[..iz] + [all[iz]];
        iz := iz + 1;
      }
      assert all[..iz] == all;
      zPositions := zs;
    }

    /** The material of copy copyNo under parentTouch; the source indexes
        the material list without a check, so the index must exist. */
    function ComputeMaterial(copyNo: int, parentTouch: Option<(int, int)>): (m: MaterialId)
      requires MaterialIndex(parentTouch, copyNo) < |materials|
      ensures m == materials[MaterialIndex(parentTouch, copyNo)]
      ensures parentTouch.None? ==> m == materials[0]
    {
      materials[MaterialIndex(parentTouch, copyNo)]
    }

    function GetNumberOfMaterials(): (n: nat)
      ensures n == |materials|
    {
      |materials|
    }

    function GetMaterial(i: int): (m: MaterialId)
      requires 0 <= i < |materials|
      ensures m == materials[i]
    {
      materials[i]
    }

    /** Copy copyNo sits on the axis at its slab's centre. */
    method ComputeTransformation(copyNo: int, physVol: PhysicalVolume)
      requires 0 <= copyNo < |zPositions|
      modifies physVol
      ensures physVol.translation == Vec3(0.0, 0.0, zPositions[copyNo])
    {
      physVol.SetTranslation(Vec3(0.0, 0.0, zPositions[copyNo]));
    }

    /** Every copy has the voxel's half-lengths. */
    method ComputeDimensions(box: Box, copyNo: int)
      modifies box
      ensures box.xHalfLength == dX && box.yHalfLength == dY && box.zHalfLength == dZ
    {
      box.SetXHalfLength(dX);
      box.SetYHalfLength(dY);
      box.SetZHalfLength(dZ);
    }
  }
}
