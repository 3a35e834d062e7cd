/** The two stepping actions: for steps inside a scoring volume they latch
    the primary's kinetic energy at three depths, fill the depth histograms
    and feed the LET scorer. */
module SteppingActions {
  import opened Units
  import opened VoxelGrid
  import opened Particles
  import opened LetScoring
  import opened EventAction

  /** The three latch depths, in mm. */
  const K50Depth: real := 242.0 * mm
  const K70Depth: real := 253.0 * mm
  const K90Depth: real := 256.0 * mm

  /** `if (reached && k == 0) k = kineticEnergy`: a K value is written only
      while it is still 0. */
  function Latch(k: real, reached: bool, kineticEnergy: real): (r: real)
    ensures r != k ==> k == 0.0 && reached && r == kineticEnergy
    ensures k != 0.0 ==> r == k
  {
    if reached && k == 0.0 then kineticEnergy else k
  }

  /** The K value after a sequence of (reached, kinetic energy) steps, in
      step order. */
  function LatchAll(k: real, steps: seq<(bool, real)>): real
  {
    if steps == [] then k
    else
      var last := steps[|steps| - 1];
      Latch(LatchAll(k, steps[..|steps| - 1]), last.0, last.1)
  }

  /** The first step that reached the depth with a nonzero energy, if any. */
  function FirstLatch(steps: seq<(bool, real)>): real
  {
    if steps == [] then 0.0
    else if steps[0].0 && steps[0].1 != 0.0 then steps[0].1
    else FirstLatch(steps[1..])
  }

  lemma {:induction false} FirstLatchSnoc(steps: seq<(bool, real)>, s: (bool, real))
    ensures FirstLatch(steps + [s]) == if FirstLatch(steps) != 0.0 then FirstLatch(steps) else FirstLatch([s])
  {
    if steps != [] {
      assert (steps + [s])[1..] == steps[1..] + [s];
      FirstLatchSnoc(steps[1..], s);
    }
  }

  /** Set at most once between resets: starting from the reset value 0, a K
      value ends as the energy of the first step that reached its depth
      with a nonzero energy, and later steps never overwrite it. */
  lemma {:induction false} LatchAllIsFirst(steps: seq<(bool, real)>)
    ensures LatchAll(0.0, steps) == FirstLatch(steps)
  {
    if steps != [] {
      var init := steps[..|steps| - 1];
      var last := steps[|steps| - 1];
      LatchAllIsFirst(init);
      assert steps == init + [last];
      FirstLatchSnoc(init, last);
      assert [last][1..] == [];
    }
  }

  /** The voxel the stepping actions hand to the LET scorer: replica
      numbers at depths 1, 2 and 0 as x, y and z. */
  function StepVoxel(step: Step): Voxel
  {
    Voxel(step.replica1, step.replica2, step.replica0)
  }

  /** The sensitive detector reads x and y from the opposite depths: the
      two voxels are each other's x/y mirror and coincide only when the
      replica numbers at depths 1 and 2 agree. */
  lemma AxisSwap(step: Step)
    ensures var h := DetectorSD.HitOf(step);
      h.ix == StepVoxel(step).j && h.iy == StepVoxel(step).i && h.iz == StepVoxel(step).k
    ensures var h := DetectorSD.HitOf(step);
      Voxel(h.ix, h.iy, h.iz) == StepVoxel(step) <==> step.replica1 == step.replica2
  {
  }

  /** The LET filter of both stepping actions: not a neutron, positive
      energy deposit and step length, neither a gamma nor an electron. */
  predicate StepLetGate(step: Step)
  {
    LetSpecies(step.def) && step.energyDeposit > 0.0 && step.stepLength > 0.0
  }

  /** Unlike the event action's gate, the stepping actions' gate ignores
      secondary-electron energy: a step passes it exactly when the hit it
      makes passes the event action's gate with no secondary energy. */
  lemma StepGateVersusHitGate(step: Step)
    ensures var h := DetectorSD.HitOf(step).(secondariesEDep := 0.0);
      StepLetGate(step) <==> LetGate(h)
  {
  }

  /** `value / unit / nEvents`: a histogram weight. */
  function PerEvent(value: real, unit: real, nEvents: int): real
    requires unit != 0.0 && nEvents != 0
  {
    value / unit / (nEvents as real)
  }

  /** The depth-histogram fills of the PDD stepping action for a step that
      passed the LET gate: only primary steps fill, energy in keV and step
      length in um, per event, in bin iz. */
  function PddHistogramFills(step: Step, nEvents: int): seq<(nat, int, real)>
    requires nEvents != 0
  {
    if step.trackID == 1 then
      [(0, step.replica0, PerEvent(step.energyDeposit + ElectronEnergySum(step.secondaries), keV, nEvents)),
       (1, step.replica0, PerEvent(step.stepLength, um, nEvents))]
    else []
  }

  /** The D1 stepping action's fills: energy for any step that deposits,
      step length for primary steps that move. */
  function D1HistogramFills(step: Step, nEvents: int): seq<(nat, int, real)>
    requires nEvents != 0
  {
    (if step.energyDeposit > 0.0 then [(0, step.replica0, PerEvent(step.energyDeposit, keV, nEvents))] else []) +
    (if step.stepLength > 0.0 && step.trackID == 1 then [(1, step.replica0, PerEvent(step.stepLength, um, nEvents))] else [])
  }

  /** The scoring-volume test: a linear search of the list. */
  method IsScoringVolume(volumes: seq<VolumeId>, current: VolumeId) returns (found: bool)
    ensures found <==> current in volumes
  {
    found := false;
    var v := 0;
    while v < |volumes|
      invariant 0 <= v <= |volumes|
      invariant found <==> current in volumes[..v]
    {
      assert volumes[..v + 1] == volumes[..v] + [volumes[v]];
      if current == volumes[v] {
        found := true;
      }
      v := v + 1;
    }
    assert volumes[..v] == volumes;
  }

  /** The LET part of both stepping actions: the gate, the secondary
      electrons' energy and the call to the LET scorer. Returns whether
      the step passed the gate. */
  method ScoreLet(let: Let, step: Step, dedx: (real, ParticleDef, MaterialId) -> real) returns (passed: bool)
    requires let.Valid()
    requires StepLetGate(step) && Accepted(let.doCalculation, step.def, step.energyDeposit, step.stepLength) ==>
      InGrid(let.numberOfVoxelAlongX, let.numberOfVoxelAlongY, let.numberOfVoxelAlongZ,
             step.replica1, step.replica2, step.replica0)
    modifies let`ionLetStore, let.totalLetD, let.dTotalLetD, let.totalLetT, let.dTotalLetT
    ensures let.Valid() && passed == StepLetGate(step)
    ensures passed ==>
      let.Filled(step.trackID, step.def, MeanKineticEnergy(step.kinEPre, step.kinEPost), step.material,
                 step.energyDeposit, ElectronEnergySum(step.secondaries), step.stepLength,
                 step.replica1, step.replica2, step.replica0, dedx)
    ensures !passed ==> unchanged(let, let.totalLetD, let.dTotalLetD, let.totalLetT, let.dTotalLetT)
  {
    passed := false;
    var def := step.def;
    if !(def.z == 0 && def.a == 1) {
      if step.energyDeposit > 0.0 && step.stepLength > 0.0 {
        if def.pdg != 22 && def.pdg != 11 {
          var eKinMean := (step.kinEPre + step.kinEPost) * 0.5;
          var deElectrons := SumSecondaryElectronEnergy(step.secondaries);
          let.FillEnergySpectrum(step.trackID, def, eKinMean, step.material, step.energyDeposit, deElectrons,
                                 step.stepLength, step.replica1, step.replica2, step.replica0, dedx);
          passed := true;
        }
      }
    }
  }

  /** The PDD latch: primary steps at or past each depth set that K value
      while it is 0. */
  method LatchPdd(eventAction: PDD1EventAction, trackID: int, z: real, kineticEnergy: real)
    modifies eventAction`k50, eventAction`k70, eventAction`k90
    ensures eventAction.k50 == Latch(old(eventAction.k50), trackID == 1 && z >= K50Depth, kineticEnergy)
    ensures eventAction.k70 == Latch(old(eventAction.k70), trackID == 1 && z >= K70Depth, kineticEnergy)
    ensures eventAction.k90 == Latch(old(eventAction.k90), trackID == 1 && z >= K90Depth, kineticEnergy)
  {
    if trackID == 1 && z >= 242.0 * mm {
      if eventAction.GetK50() == 0.0 {
        eventAction.SetK50(kineticEnergy);
      }
    }
    if trackID == 1 && z >= 253.0 * mm {
      if eventAction.GetK70() == 0.0 {
        eventAction.SetK70(kineticEnergy);
      }
    }
    if trackID == 1 && z >= 256.0 * mm {
      if eventAction.GetK90() == 0.0 {
        eventAction.SetK90(kineticEnergy);
      }
    }
  }

  /** The D1 event action's K values, with their getters and setters. */
  class D1EventAction {
    var range: real
    var k50: real
    var k70: real
    var k90: real

    constructor ()
      ensures range == 0.0 && k50 == 0.0 && k70 == 0.0 && k90 == 0.0
    {
      range, k50, k70, k90 := 0.0, 0.0, 0.0, 0.0;
    }

    method SetK50(kineticEnergy: real)
      modifies this`k50
      ensures k50 == kineticEnergy
    {
      k50 := kineticEnergy;
    }

    method SetK70(kineticEnergy: real)
      modifies this`k70
      ensures k70 == kineticEnergy
    {
      k70 := kineticEnergy;
    }

    method SetK90(kineticEnergy: real)
      modifies this`k90
      ensures k90 == kineticEnergy
    {
      k90 := kineticEnergy;
    }
  }

  /** The D1 tracking action's running energy total. */
  class D1TrackingAction {
    var totalEdep: real

    constructor ()
      ensures totalEdep == 0.0
    {
      totalEdep := 0.0;
    }

    method AddTotalEdep(edep: real)
      modifies this`totalEdep
      ensures totalEdep == old(totalEdep) + edep
    {
      totalEdep := totalEdep + edep;
    }
  }

  /** The D1 histogram block: a deposit fills histogram 0 and is added to
      the tracking action's total; a primary's step length fills
      histogram 1. */
  method DepositAndFill(trackingAction: D1TrackingAction, step: Step, nEvents: int)
    returns (fills: seq<(nat, int, real)>)
    requires nEvents != 0
    modifies trackingAction`totalEdep
    ensures fills == D1HistogramFills(step, nEvents)
    ensures trackingAction.totalEdep ==
      old(trackingAction.totalEdep) + (if step.energyDeposit > 0.0 then step.energyDeposit else 0.0)
  {
    fills := [];
    if step.energyDeposit > 0.0 {
      fills := fills + [(0, step.replica0, PerEvent(step.energyDeposit, keV, nEvents))];
      trackingAction.AddTotalEdep(step.energyDeposit);
    }
    if step.stepLength > 0.0 && step.trackID == 1 {
      fills := fills + [(1, step.replica0, PerEvent(step.stepLength, um, nEvents))];
    }
  }

  /** The D1 latch: the same rule, with the atomic number Z in place of
      the depth. */
  method LatchD1(eventAction: D1EventAction, trackID: int, z: int, kineticEnergy: real)
    modifies eventAction`k50, eventAction`k70, eventAction`k90
    ensures eventAction.k50 == Latch(old(eventAction.k50), trackID == 1 && z as real >= K50Depth, kineticEnergy)
    ensures eventAction.k70 == Latch(old(eventAction.k70), trackID == 1 && z as real >= K70Depth, kineticEnergy)
    ensures eventAction.k90 == Latch(old(eventAction.k90), trackID == 1 && z as real >= K90Depth, kineticEnergy)
  {
    if trackID == 1 && z as real >= 242.0 * mm {
      if eventAction.k50 == 0.0 {
        eventAction.SetK50(kineticEnergy);
      }
    }
    if trackID == 1 && z as real >= 253.0 * mm {
      if eventAction.k70 == 0.0 {
        eventAction.SetK70(kineticEnergy);
      }
    }
    if trackID == 1 && z as real >= 256.0 * mm {
      if eventAction.k90 == 0.0 {
        eventAction.SetK90(kineticEnergy);
      }
    }
  }

  class PDD1SteppingAction {
    const eventAction: PDD1EventAction
    const let: Let
    /** Loaded from the detector construction on the first step. */
    var scoringVolumes: seq<VolumeId>

    constructor (pEventAction: PDD1EventAction, pLet: Let)
      ensures eventAction == pEventAction && let == pLet && scoringVolumes == []
    {
      eventAction := pEventAction;
      let := pLet;
      scoringVolumes := [];
    }

    /** One step. Outside the scoring volumes nothing but the volume list
        changes. Inside, primary steps at or past 242, 253 and 256 mm latch
        K50, K70 and K90; steps through the LET gate are passed to the LET
        scorer with the secondary electrons' energy and fill the depth
        histograms. */
    method UserSteppingAction(step: Step, nEvents: int, constructionVolumes: seq<VolumeId>,
                              dedx: (real, ParticleDef, MaterialId) -> real)
      returns (fills: seq<(nat, int, real)>)
      requires nEvents != 0 && let.Valid()
      requires StepLetGate(step) && Accepted(let.doCalculation, step.def, step.energyDeposit, step.stepLength) ==>
        InGrid(let.numberOfVoxelAlongX, let.numberOfVoxelAlongY, let.numberOfVoxelAlongZ,
               step.replica1, step.replica2, step.replica0)
      modifies this`scoringVolumes, eventAction`k50, eventAction`k70, eventAction`k90
      modifies let`ionLetStore, let.totalLetD, let.dTotalLetD, let.totalLetT, let.dTotalLetT
      ensures scoringVolumes == if old(scoringVolumes) == [] then constructionVolumes else old(scoringVolumes)
      ensures let.Valid()
      ensures step.preVolume !in scoringVolumes ==>
        fills == [] && unchanged(eventAction) &&
        unchanged(let, let.totalLetD, let.dTotalLetD, let.totalLetT, let.dTotalLetT)
      ensures step.preVolume in scoringVolumes ==>
        var primary := step.trackID == 1;
        && eventAction.k50 == Latch(old(eventAction.k50), primary && step.prePosition.z >= K50Depth, step.kineticEnergy)
        && eventAction.k70 == Latch(old(eventAction.k70), primary && step.prePosition.z >= K70Depth, step.kineticEnergy)
        && eventAction.k90 == Latch(old(eventAction.k90), primary && step.prePosition.z >= K90Depth, step.kineticEnergy)
        && fills == (if StepLetGate(step) then PddHistogramFills(step, nEvents) else [])
      ensures step.preVolume in scoringVolumes && StepLetGate(step) ==>
        let.Filled(step.trackID, step.def, MeanKineticEnergy(step.kinEPre, step.kinEPost), step.material,
                   step.energyDeposit, ElectronEnergySum(step.secondaries), step.stepLength,
                   step.replica1, step.replica2, step.replica0, dedx)
      ensures step.preVolume in scoringVolumes && !StepLetGate(step) ==>
        unchanged(let, let.totalLetD, let.dTotalLetD, let.totalLetT, let.dTotalLetT)
    {
      if |scoringVolumes| == 0 {
        scoringVolumes := constructionVolumes;
      }
      var inScoring := IsScoringVolume(scoringVolumes, step.preVolume);
      fills := [];
      if !inScoring {
        return;
      }
      var z := step.prePosition.z;
      LatchPdd(eventAction, step.trackID, z, step.kineticEnergy);
      var passed := ScoreLet(let, step, dedx);
      if passed && step.trackID == 1 {
        var deElectrons := SumSecondaryElectronEnergy(step.secondaries);
        fills := [(0, step.replica0, PerEvent(step.energyDeposit + deElectrons, keV, nEvents)),
                  (1, step.replica0, PerEvent(step.stepLength, um, nEvents))];
      }
    }
  }

  class D1SteppingAction {
    const eventAction: D1EventAction
    const trackingAction: D1TrackingAction
    const let: Let
    var scoringVolumes: seq<VolumeId>

    constructor (pTrackingAction: D1TrackingAction, pEventAction: D1EventAction, pLet: Let)
      ensures trackingAction == pTrackingAction && eventAction == pEventAction && let == pLet
      ensures scoringVolumes == []
    {
      trackingAction := pTrackingAction;
      eventAction := pEventAction;
      let := pLet;
      scoringVolumes := [];
    }

    /** One step, as in the PDD action but with the histograms filled
        before the latch and outside the LET gate, the deposit added to the
        tracking action's total, and the latch depths compared with the
        particle's atomic number Z rather than with its depth. */
    method UserSteppingAction(step: Step, nEvents: int, constructionVolumes: seq<VolumeId>,
                              dedx: (real, ParticleDef, MaterialId) -> real)
      returns (fills: seq<(nat, int, real)>)
      requires nEvents != 0 && let.Valid()
      requires StepLetGate(step) && Accepted(let.doCalculation, step.def, step.energyDeposit, step.stepLength) ==>
        InGrid(let.numberOfVoxelAlongX, let.numberOfVoxelAlongY, let.numberOfVoxelAlongZ,
               step.replica1, step.replica2, step.replica0)
      modifies this`scoringVolumes, eventAction`k50, eventAction`k70, eventAction`k90, trackingAction`totalEdep
      modifies let`ionLetStore, let.totalLetD, let.dTotalLetD, let.totalLetT, let.dTotalLetT
      ensures scoringVolumes == if old(scoringVolumes) == [] then constructionVolumes else old(scoringVolumes)
      ensures let.Valid()
      ensures step.preVolume !in scoringVolumes ==>
        fills == [] && unchanged(eventAction, trackingAction) &&
        unchanged(let, let.totalLetD, let.dTotalLetD, let.totalLetT, let.dTotalLetT)
      ensures step.preVolume in scoringVolumes ==>
        var primary := step.trackID == 1;
        var z := step.def.z as real;
        && fills == D1HistogramFills(step, nEvents)
        && trackingAction.totalEdep ==
             old(trackingAction.totalEdep) + (if step.energyDeposit > 0.0 then step.energyDeposit else 0.0)
        && eventAction.k50 == Latch(old(eventAction.k50), primary && z >= K50Depth, step.kineticEnergy)
        && eventAction.k70 == Latch(old(eventAction.k70), primary && z >= K70Depth, step.kineticEnergy)
        && eventAction.k90 == Latch(old(eventAction.k90), primary && z >= K90Depth, step.kineticEnergy)
      ensures step.preVolume in scoringVolumes && StepLetGate(step) ==>
        let.Filled(step.trackID, step.def, MeanKineticEnergy(step.kinEPre, step.kinEPost), step.material,
                   step.energyDeposit, ElectronEnergySum(step.secondaries), step.stepLength,
                   step.replica1, step.replica2, step.replica0, dedx)
      ensures step.preVolume in scoringVolumes && !StepLetGate(step) ==>
        unchanged(let, let.totalLetD, let.dTotalLetD, let.totalLetT, let.dTotalLetT)
    {
      if |scoringVolumes| == 0 {
        scoringVolumes := constructionVolumes;
      }
      var inScoring := IsScoringVolume(scoringVolumes, step.preVolume);
      fills := [];
      if !inScoring {
        return;
      }
      var trackID := step.trackID;
      var z := step.def.z;
      fills := DepositAndFill(trackingAction, step, nEvents);
      LatchD1(eventAction, trackID, z, step.kineticEnergy);
      var passed := ScoreLet(let, step, dedx);
    }
  }

  /** Because the D1 latch compares the atomic number with 242 mm, a
      primary lighter than Z = 242 never sets K50, K70 or K90. */
  lemma D1LatchNeedsHeavyPrimary(k: real, step: Step)
    requires step.def.z < 242
    ensures Latch(k, step.trackID == 1 && step.def.z as real >= K50Depth, step.kineticEnergy) == k
    ensures Latch(k, step.trackID == 1 && step.def.z as real >= K70Depth, step.kineticEnergy) == k
    ensures Latch(k, step.trackID == 1 && step.def.z as real >= K90Depth, step.kineticEnergy) == k
  {
  }
}
