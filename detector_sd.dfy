/** The phantom's sensitive detector: it turns each scoring step into a hit
    record, which the event action later routes into the dose matrix. */
module DetectorSD {
  import opened VoxelGrid
  import opened Particles

  /** What a hit carries from the step to the end of the event. */
  datatype DetectorHit = DetectorHit(
    trackID: int,
    ix: int,
    iy: int,
    iz: int,
    eDep: real,
    secondariesEDep: real,
    dx: real,
    kinEMean: real,
    pos: Vec3,
    def: ParticleDef,
    mat: MaterialId,
    vol: real)

  /** A step is kept unless it is an electron's or it deposited nothing,
      counting its secondary electrons' kinetic energy. */
  predicate Kept(step: Step)
  {
    step.def.pdg != ElectronPDG &&
    !(step.energyDeposit == 0.0 && ElectronEnergySum(step.secondaries) == 0.0)
  }

  /** The hit recorded for a kept step. The touchable's replica numbers at
      depths 2, 1 and 0 become the x, y and z voxel indices. */
  function HitOf(step: Step): (h: DetectorHit)
    ensures h.trackID == step.trackID && h.def == step.def && h.mat == step.material
    ensures h.ix == step.replica2 && h.iy == step.replica1 && h.iz == step.replica0
    ensures h.eDep == step.energyDeposit && h.secondariesEDep == ElectronEnergySum(step.secondaries)
    ensures h.dx == step.stepLength && h.vol == step.voxelVolume && h.pos == step.prePosition
    ensures h.kinEMean - step.kinEPre == step.kinEPost - h.kinEMean
  {
    DetectorHit(step.trackID, step.replica2, step.replica1, step.replica0,
                step.energyDeposit, ElectronEnergySum(step.secondaries), step.stepLength,
                MeanKineticEnergy(step.kinEPre, step.kinEPost), step.prePosition,
                step.def, step.material, step.voxelVolume)
  }

  /** A kept step deposited energy itself or through secondary electrons:
      with non-negative energies, one of the two is positive. */
  lemma KeptDeposited(step: Step)
    requires Kept(step) && step.energyDeposit >= 0.0
    requires forall m :: 0 <= m < |step.secondaries| ==> step.secondaries[m].kineticEnergy >= 0.0
    ensures HitOf(step).eDep > 0.0 || HitOf(step).secondariesEDep > 0.0
  {
    ElectronEnergySumBounds(step.secondaries);
  }

  class DetectorSD {
    /** This event's hits, in the order they were recorded. */
    var hitsCollection: seq<DetectorHit>

    /** The source holds no collection until Initialize creates one; since
        Initialize always runs before ProcessHits, that is modelled as empty. */
    constructor ()
      ensures hitsCollection == []
    {
      hitsCollection := [];
    }

    /** Start of event: a fresh, empty collection. */
    method Initialize()
      modifies this
      ensures hitsCollection == []
    {
      hitsCollection := [];
    }

    /** Returns whether the step was kept; a kept step's hit is appended
        only when a dose matrix exists. */
    method ProcessHits(step: Step, matrixExists: bool) returns (kept: bool)
      modifies this
      ensures kept == Kept(step)
      ensures hitsCollection == old(hitsCollection) + (if kept && matrixExists then [HitOf(step)] else [])
    {
      if step.def.pdg == ElectronPDG {
        return false;
      }
      var secondariesEDep := SumSecondaryElectronEnergy(step.secondaries);
      if step.energyDeposit == 0.0 && secondariesEDep == 0.0 {
        return false;
      }
      var kinEMean := (step.kinEPre + step.kinEPost) * 0.5;
      if matrixExists {
        var hit := DetectorHit(step.trackID, step.replica2, step.replica1, step.replica0,
                               step.energyDeposit, secondariesEDep, step.stepLength, kinEMean,
                               step.prePosition, step.def, step.material, step.voxelVolume);
        hitsCollection := hitsCollection + [hit];
      }
      return true;
    }
  }
}
