/** The PDD event action: per-event resets, the progress line, the
    per-event histograms and, at the end of each event, the routing of the
    sensitive detector's hits into the dose matrix. */
module EventAction {
  import opened VoxelGrid
  import opened Particles
  import opened DetectorMatrix
  import opened DetectorSD

  /** `nEvents/100` above ten events, `nEvents` otherwise. */
  function ProgressDivisor(nEvents: nat): (r: nat)
    ensures r <= nEvents
  {
    if nEvents > 10 then nEvents / 100 else nEvents
  }

  /** The divisor the progress line takes a remainder by is zero exactly
      for runs of no events and of 11 to 99 events, where the source's
      `EventID % fraction` is undefined. */
  lemma ProgressDivisorZero(nEvents: nat)
    ensures ProgressDivisor(nEvents) == 0 <==> nEvents == 0 || 11 <= nEvents <= 99
  {
    if nEvents >= 100 {
      assert nEvents / 100 >= 1;
    }
  }

  /** The histogram fills of one event, as (histogram, value): the range,
      each of K30, K50, K70 and K90 only when positive, and the primary's
      kinetic energy at the vertex. */
  function EventFills(range: real, k30: real, k50: real, k70: real, k90: real, vertexKE: real): seq<(nat, real)>
  {
    [(0, range)] +
    (if k30 > 0.0 then [(1, k30)] else []) +
    (if k50 > 0.0 then [(2, k50)] else []) +
    (if k70 > 0.0 then [(3, k70)] else []) +
    (if k90 > 0.0 then [(4, k90)] else []) +
    [(5, vertexKE)]
  }

  /** Histograms 1 to 4 receive only positive energies, each at most once,
      and the range and vertex histograms are always filled. */
  lemma EventFillsPositive(range: real, k30: real, k50: real, k70: real, k90: real, vertexKE: real)
    ensures var f := EventFills(range, k30, k50, k70, k90, vertexKE);
      && f[0] == (0, range) && f[|f| - 1] == (5, vertexKE)
      && (forall m :: 0 <= m < |f| && 1 <= f[m].0 <= 4 ==> f[m].1 > 0.0)
      && |f| == 2 + (if k30 > 0.0 then 1 else 0) + (if k50 > 0.0 then 1 else 0) +
                    (if k70 > 0.0 then 1 else 0) + (if k90 > 0.0 then 1 else 0)
  {
  }

  /** The LET filter of the routing loop: not a neutron, some energy
      deposited directly or through secondary electrons, a positive step
      length, and neither a gamma nor an electron. */
  predicate LetGate(h: DetectorHit)
  {
    !(h.def.z == 0 && h.def.a == 1) && (h.eDep > 0.0 || h.secondariesEDep > 0.0) && h.dx > 0.0 &&
    h.def.pdg != GammaPDG && h.def.pdg != ElectronPDG
  }

  /** The gate is the particle filter shared with the stepping actions,
      plus the deposit and step-length conditions. */
  lemma LetGateIsSpeciesFilter(h: DetectorHit)
    ensures LetGate(h) <==> LetSpecies(h.def) && (h.eDep > 0.0 || h.secondariesEDep > 0.0) && h.dx > 0.0
  {
  }

  /** Every hit lies on the grid and carries a nonzero voxel volume. */
  predicate Routable(nx: nat, ny: nat, nz: nat, hits: seq<DetectorHit>)
  {
    forall m :: 0 <= m < |hits| ==> InGrid(nx, ny, nz, hits[m].ix, hits[m].iy, hits[m].iz) && hits[m].vol != 0.0
  }

  /** One allocating fill of a hit's species at linear voxel n of a grid of
      nvox voxels. */
  function FillAt(store: seq<Ion>, nvox: nat, n: nat, h: DetectorHit, ds: seq<Deposit>): (r: seq<Ion>)
    requires StoreValid(store, nvox) && n < nvox
    ensures StoreValid(r, nvox)
  {
    FillValid(store, nvox, h.def, h.trackID, n, ds, true);
    Fill(store, nvox, h.def, h.trackID, n, ds, true).0
  }


  /** The deposits of the three fills: dose and LET take the hit's own and
      its secondary electrons' energy; fluence takes dx / vol. */
  function DoseOf(h: DetectorHit): seq<Deposit>
  {
    [Deposit(EDep, h.eDep + h.secondariesEDep)]
  }

  function LetOf(h: DetectorHit, dedx: (real, ParticleDef, MaterialId) -> real): seq<Deposit>
  {
    LetDeposits(h.eDep + h.secondariesEDep, dedx(h.kinEMean, h.def, h.mat))
  }

  function FluenceOf(h: DetectorHit): seq<Deposit>
    requires h.vol != 0.0
  {
    [Deposit(Fluence, h.dx / h.vol)]
  }

  /** The store after one hit whose voxel is n: dose, then LET when the
      gate passes, then fluence, each into the hit's species. */
  function Routed(store: seq<Ion>, nvox: nat, n: nat, h: DetectorHit,
                  dedx: (real, ParticleDef, MaterialId) -> real): (r: seq<Ion>)
    requires StoreValid(store, nvox) && n < nvox && h.vol != 0.0
    ensures StoreValid(r, nvox)
  {
    var s1 := FillAt(store, nvox, n, h, DoseOf(h));
    var s2 := if LetGate(h) then FillAt(s1, nvox, n, h, LetOf(h, dedx)) else s1;
    FillAt(s2, nvox, n, h, FluenceOf(h))
  }

  /** The store after a whole hit collection, routed in collection order. */
  function RoutedAll(store: seq<Ion>, nx: nat, ny: nat, nz: nat, hits: seq<DetectorHit>,
                     dedx: (real, ParticleDef, MaterialId) -> real): (r: seq<Ion>)
    requires StoreValid(store, NVoxel(nx, ny, nz)) && Routable(nx, ny, nz, hits)
    ensures StoreValid(r, NVoxel(nx, ny, nz))
  {
    if hits == [] then store
    else
      var init := hits[..|hits| - 1];
      var h := hits[|hits| - 1];
      assert Routable(nx, ny, nz, init);
      IndexInRange(nx, ny, nz, h.ix, h.iy, h.iz);
      Routed(RoutedAll(store, nx, ny, nz, init, dedx), NVoxel(nx, ny, nz), Index(ny, nz, h.ix, h.iy, h.iz), h, dedx)
  }

  /** One more hit of the collection routed. */
  lemma RoutedAllStep(store: seq<Ion>, nx: nat, ny: nat, nz: nat, hits: seq<DetectorHit>, h: nat,
                      dedx: (real, ParticleDef, MaterialId) -> real)
    requires StoreValid(store, NVoxel(nx, ny, nz)) && Routable(nx, ny, nz, hits) && h < |hits|
    ensures Routable(nx, ny, nz, hits[..h]) && Routable(nx, ny, nz, hits[..h + 1])
    ensures 0 <= Index(ny, nz, hits[h].ix, hits[h].iy, hits[h].iz) < NVoxel(nx, ny, nz)
    ensures RoutedAll(store, nx, ny, nz, hits[..h + 1], dedx) ==
      Routed(RoutedAll(store, nx, ny, nz, hits[..h], dedx), NVoxel(nx, ny, nz),
             Index(ny, nz, hits[h].ix, hits[h].iy, hits[h].iz), hits[h], dedx)
  {
    assert hits[..h + 1][..h] == hits[..h];
    IndexInRange(nx, ny, nz, hits[h].ix, hits[h].iy, hits[h].iz);
  }

  /** What one hit adds to quantity q of its voxel, over all species. */
  function HitAmount(h: DetectorHit, q: Quantity, dedx: (real, ParticleDef, MaterialId) -> real): real
    requires h.vol != 0.0
  {
    match q
    case EDep => h.eDep + h.secondariesEDep
    case LetN => if LetGate(h) then (h.eDep + h.secondariesEDep) * dedx(h.kinEMean, h.def, h.mat) else 0.0
    case LetD => if LetGate(h) then h.eDep + h.secondariesEDep else 0.0
    case Fluence => h.dx / h.vol
  }

  /** What a hit collection adds to quantity q of linear voxel v. */
  function VoxelAmount(hits: seq<DetectorHit>, ny: nat, nz: nat, v: nat, q: Quantity,
                       dedx: (real, ParticleDef, MaterialId) -> real): real
    requires forall m :: 0 <= m < |hits| ==> hits[m].vol != 0.0
  {
    if hits == [] then 0.0
    else
      var h := hits[|hits| - 1];
      VoxelAmount(hits[..|hits| - 1], ny, nz, v, q, dedx) +
        (if Index(ny, nz, h.ix, h.iy, h.iz) == v then HitAmount(h, q, dedx) else 0.0)
  }

  lemma SingleDepositTotal(q0: Quantity, x: real, q: Quantity)
    ensures Total([Deposit(q0, x)], q) == if q == q0 then x else 0.0
  {
    assert [Deposit(q0, x)][1..] == [];
  }

  /** An allocating fill raises the species sum at the hit's voxel by the
      deposits' total and leaves the other voxels' sums alone. */
  lemma FillAtSum(store: seq<Ion>, nvox: nat, n: nat, h: DetectorHit, ds: seq<Deposit>, q: Quantity, v: nat)
    requires StoreValid(store, nvox) && n < nvox && v < nvox
    ensures StoreSum(FillAt(store, nvox, n, h, ds), nvox, q, v) ==
      StoreSum(store, nvox, q, v) + (if n == v then Total(ds, q) else 0.0)
  {
    FillOutcome(store, nvox, h.def, h.trackID, n, ds, true);
    FillSpeciesSum(store, nvox, h.def, h.trackID, n, ds, true, q, v);
  }

  /** The three fills' totals add up to the hit's amount. */
  lemma HitAmountTotals(h: DetectorHit, dedx: (real, ParticleDef, MaterialId) -> real, q: Quantity)
    requires h.vol != 0.0
    ensures Total(DoseOf(h), q) + (if LetGate(h) then Total(LetOf(h, dedx), q) else 0.0) + Total(FluenceOf(h), q) ==
      HitAmount(h, q, dedx)
  {
    SingleDepositTotal(EDep, h.eDep + h.secondariesEDep, q);
    LetDepositsTotals(h.eDep + h.secondariesEDep, dedx(h.kinEMean, h.def, h.mat));
    SingleDepositTotal(Fluence, h.dx / h.vol, q);
  }

  /** Routing one hit raises the species sum of every quantity at the hit's
      voxel by the hit's amount and changes no other voxel. */
  lemma RoutedSum(store: seq<Ion>, nvox: nat, n: nat, h: DetectorHit,
                  dedx: (real, ParticleDef, MaterialId) -> real, q: Quantity, v: nat)
    requires StoreValid(store, nvox) && n < nvox && h.vol != 0.0 && v < nvox
    ensures StoreSum(Routed(store, nvox, n, h, dedx), nvox, q, v) ==
      StoreSum(store, nvox, q, v) + (if n == v then HitAmount(h, q, dedx) else 0.0)
  {
    var s1 := FillAt(store, nvox, n, h, DoseOf(h));
    FillAtSum(store, nvox, n, h, DoseOf(h), q, v);
    FillAtSum(s1, nvox, n, h, LetOf(h, dedx), q, v);
    var s2 := if LetGate(h) then FillAt(s1, nvox, n, h, LetOf(h, dedx)) else s1;
    FillAtSum(s2, nvox, n, h, FluenceOf(h), q, v);
    HitAmountTotals(h, dedx, q);
  }

  /** Conservation over an event: after routing a hit collection, the
      species sum of every quantity at every voxel has grown by exactly what
      the hits in that voxel carried. */
  lemma {:induction false} RoutedAllSum(store: seq<Ion>, nx: nat, ny: nat, nz: nat, hits: seq<DetectorHit>,
                                        dedx: (real, ParticleDef, MaterialId) -> real, q: Quantity, v: nat)
    requires StoreValid(store, NVoxel(nx, ny, nz)) && Routable(nx, ny, nz, hits) && v < NVoxel(nx, ny, nz)
    ensures StoreSum(RoutedAll(store, nx, ny, nz, hits, dedx), NVoxel(nx, ny, nz), q, v) ==
      StoreSum(store, NVoxel(nx, ny, nz), q, v) + VoxelAmount(hits, ny, nz, v, q, dedx)
  {
    if hits != [] {
      var init := hits[..|hits| - 1];
      assert Routable(nx, ny, nz, init);
      RoutedAllSum(store, nx, ny, nz, init, dedx, q, v);
      var h := hits[|hits| - 1];
      IndexInRange(nx, ny, nz, h.ix, h.iy, h.iz);
      RoutedSum(RoutedAll(store, nx, ny, nz, init, dedx), NVoxel(nx, ny, nz), Index(ny, nz, h.ix, h.iy, h.iz),
                h, dedx, q, v);
    }
  }

  /** One pass of the routing loop, with the matrix's own fill calls. */
  method RouteHit(matrix: DetectorMatrix, h: DetectorHit, dedx: (real, ParticleDef, MaterialId) -> real)
    requires matrix.Valid() && InGrid(matrix.nX, matrix.nY, matrix.nZ, h.ix, h.iy, h.iz) && h.vol != 0.0
    modifies matrix`ionStore
    ensures matrix.Valid() && 0 <= matrix.Index(h.ix, h.iy, h.iz) < matrix.GetNvoxel()
    ensures matrix.ionStore == Routed(old(matrix.ionStore), matrix.GetNvoxel(), matrix.Index(h.ix, h.iy, h.iz), h, dedx)
  {
    RouteDose(matrix, h);
    RouteLet(matrix, h, dedx);
    RouteFluence(matrix, h);
  }

  /** The dose fill of one hit: eDep plus the secondary electrons' deposit. */
  method RouteDose(matrix: DetectorMatrix, h: DetectorHit)
    requires matrix.Valid() && InGrid(matrix.nX, matrix.nY, matrix.nZ, h.ix, h.iy, h.iz)
    modifies matrix`ionStore
    ensures matrix.Valid() && 0 <= matrix.Index(h.ix, h.iy, h.iz) < matrix.GetNvoxel()
    ensures matrix.ionStore == FillAt(old(matrix.ionStore), matrix.GetNvoxel(), matrix.Index(h.ix, h.iy, h.iz), h, DoseOf(h))
  {
    var ok := matrix.FillEdep(h.ix, h.iy, h.iz, h.eDep + h.secondariesEDep, h.trackID, h.def, true);
    assert DoseOf(h) == [Deposit(EDep, h.eDep + h.secondariesEDep)];
  }

  /** The LET fill of one hit, made only through the routing gate. */
  method RouteLet(matrix: DetectorMatrix, h: DetectorHit, dedx: (real, ParticleDef, MaterialId) -> real)
    requires matrix.Valid() && InGrid(matrix.nX, matrix.nY, matrix.nZ, h.ix, h.iy, h.iz)
    requires 0 <= matrix.Index(h.ix, h.iy, h.iz) < matrix.GetNvoxel()
    modifies matrix`ionStore
    ensures matrix.Valid()
    ensures matrix.ionStore ==
      if LetGate(h) then FillAt(old(matrix.ionStore), matrix.GetNvoxel(), matrix.Index(h.ix, h.iy, h.iz), h, LetOf(h, dedx))
      else old(matrix.ionStore)
  {
    if !(h.def.z == 0 && h.def.a == 1) {
      if (h.eDep > 0.0 || h.secondariesEDep > 0.0) && h.dx > 0.0 {
        if h.def.pdg != 22 && h.def.pdg != 11 {
          var ok := matrix.FillLet(h.ix, h.iy, h.iz, h.eDep + h.secondariesEDep, h.dx, h.kinEMean,
                                   h.trackID, h.def, h.mat, dedx, true);
          assert LetOf(h, dedx) == LetDeposits(h.eDep + h.secondariesEDep, dedx(h.kinEMean, h.def, h.mat));
        }
      }
    }
  }

  /** The fluence fill of one hit: dx / vol. */
  method RouteFluence(matrix: DetectorMatrix, h: DetectorHit)
    requires matrix.Valid() && InGrid(matrix.nX, matrix.nY, matrix.nZ, h.ix, h.iy, h.iz) && h.vol != 0.0
    requires 0 <= matrix.Index(h.ix, h.iy, h.iz) < matrix.GetNvoxel()
    modifies matrix`ionStore
    ensures matrix.Valid()
    ensures matrix.ionStore == FillAt(old(matrix.ionStore), matrix.GetNvoxel(), matrix.Index(h.ix, h.iy, h.iz), h, FluenceOf(h))
  {
    var ok := matrix.FillFluence(h.ix, h.iy, h.iz, h.dx, h.vol, h.trackID, h.def, true);
    assert FluenceOf(h) == [Deposit(Fluence, h.dx / h.vol)];
  }


  /** The routing loop over the whole collection, in collection order. */
  method RouteHits(matrix: DetectorMatrix, hits: seq<DetectorHit>, dedx: (real, ParticleDef, MaterialId) -> real)
    requires matrix.Valid() && Routable(matrix.nX, matrix.nY, matrix.nZ, hits)
    modifies matrix`ionStore
    ensures matrix.Valid()
    ensures matrix.ionStore == RoutedAll(old(matrix.ionStore), matrix.nX, matrix.nY, matrix.nZ, hits, dedx)
  {
    var h := 0;
    while h < |hits|
      invariant 0 <= h <= |hits| && matrix.Valid()
      invariant Routable(matrix.nX, matrix.nY, matrix.nZ, hits[..h])
      invariant matrix.ionStore == RoutedAll(old(matrix.ionStore), matrix.nX, matrix.nY, matrix.nZ, hits[..h], dedx)
    {
      RoutedAllStep(old(matrix.ionStore), matrix.nX, matrix.nY, matrix.nZ, hits, h, dedx);
      assert matrix.GetNvoxel() == NVoxel(matrix.nX, matrix.nY, matrix.nZ);
      assert matrix.Index(hits[h].ix, hits[h].iy, hits[h].iz) == Index(matrix.nY, matrix.nZ, hits[h].ix, hits[h].iy, hits[h].iz);
      RouteHit(matrix, hits[h], dedx);
      h := h + 1;
    }
    assert hits[..h] == hits;
  }

  /** The analysis block of the end of event. */
  method FillEventHistograms(range: real, k30: real, k50: real, k70: real, k90: real, vertexKE: real)
    returns (fills: seq<(nat, real)>)
    ensures fills == EventFills(range, k30, k50, k70, k90, vertexKE)
  {
    fills := [(0, range)];
    if k30 > 0.0 {
      fills := fills + [(1, k30)];
    }
    if k50 > 0.0 {
      fills := fills + [(2, k50)];
    }
    if k70 > 0.0 {
      fills := fills + [(3, k70)];
    }
    if k90 > 0.0 {
      fills := fills + [(4, k90)];
    }
    fills := fills + [(5, vertexKE)];
  }

  class PDD1EventAction {
    var edep: real
    var range: real
    var k30: real
    var k50: real
    var k70: real
    var k90: real
    /** -1 until the phantom's hit collection has been looked up. */
    var hitsCollectionID: int

    constructor ()
      ensures edep == 0.0 && range == 0.0 && k30 == 0.0 && k50 == 0.0 && k70 == 0.0 && k90 == 0.0
      ensures hitsCollectionID == -1
    {
      edep, range, k30, k50, k70, k90 := 0.0, 0.0, 0.0, 0.0, 0.0, 0.0;
      hitsCollectionID := -1;
    }

    /** Start of event: energy, range and the K values go back to 0; the
        collection is looked up (registeredID) only while still unknown. */
    method BeginOfEventAction(registeredID: int)
      modifies this
      ensures edep == 0.0 && range == 0.0 && k30 == 0.0 && k50 == 0.0 && k70 == 0.0 && k90 == 0.0
      ensures hitsCollectionID == if old(hitsCollectionID) == -1 then registeredID else old(hitsCollectionID)
    {
      edep := 0.0;
      k30 := 0.0;
      k50 := 0.0;
      k70 := 0.0;
      k90 := 0.0;
      range := 0.0;
      if hitsCollectionID == -1 {
        hitsCollectionID := registeredID;
      }
    }

    method SetRange(r: real)
      modifies this`range
      ensures range == r
    {
      range := r;
    }

    method SetK50(kineticEnergy: real)
      modifies this`k50
      ensures k50 == kineticEnergy
    {
      k50 := kineticEnergy;
    }

    method SetK70(kineticEnergy: real)
      modifies this`k70
      ensures k70 == kineticEnergy
    {
      k70 := kineticEnergy;
    }

    method SetK90(kineticEnergy: real)
      modifies this`k90
      ensures k90 == kineticEnergy
    {
      k90 := kineticEnergy;
    }

    function GetK50(): real
      reads this
    {
      k50
    }

    function GetK70(): real
      reads this
    {
      k70
    }

    function GetK90(): real
      reads this
    {
      k90
    }

    /** End of event. Returns whether the progress line is printed and the
        histogram fills (none when analysis is off). With a known collection
        and a matrix, the hit markers are cleared and, when the event has
        the collection, every hit is routed into the matrix. */
    method EndOfEventAction(nEvents: nat, eventID: nat, analysisActive: bool, vertexKE: real,
                            hits: Option<seq<DetectorHit>>, matrix: DetectorMatrix?,
                            dedx: (real, ParticleDef, MaterialId) -> real)
      returns (progress: bool, fills: seq<(nat, real)>)
      requires ProgressDivisor(nEvents) != 0
      requires matrix != null ==> matrix.Valid()
      requires matrix != null && hits.Some? && hitsCollectionID >= 0 ==>
        Routable(matrix.nX, matrix.nY, matrix.nZ, hits.value)
      modifies if matrix == null then {} else {matrix, matrix.hitTrack}
      ensures progress == (eventID % ProgressDivisor(nEvents) == 0)
      ensures fills == if analysisActive then EventFills(range, k30, k50, k70, k90, vertexKE) else []
      ensures matrix != null ==> matrix.Valid()
      ensures matrix != null && hitsCollectionID >= 0 ==>
        forall v :: 0 <= v < matrix.hitTrack.Length ==> matrix.hitTrack[v] == 0
      ensures matrix != null ==> matrix.secondary == old(matrix.secondary)
      ensures matrix != null && hitsCollectionID < 0 ==>
        matrix.ionStore == old(matrix.ionStore) && unchanged(matrix.hitTrack)
      ensures matrix != null && hitsCollectionID >= 0 ==>
        matrix.ionStore == if hits.Some?
          then RoutedAll(old(matrix.ionStore), matrix.nX, matrix.nY, matrix.nZ, hits.value, dedx)
          else old(matrix.ionStore)
    {
      var fraction := if nEvents > 10 then nEvents / 100 else nEvents;
      progress := eventID % fraction == 0;
      fills := [];
      if analysisActive {
        fills := FillEventHistograms(range, k30, k50, k70, k90, vertexKE);
      }
      if hitsCollectionID < 0 {
        return;
      }
      FillMatrix(hits, matrix, dedx);
    }
  }

  /** The part of the end of an event that runs once the collection is
      known: the hit markers are cleared and, when the event has the
      collection, every hit is routed into the matrix. */
  method FillMatrix(hits: Option<seq<DetectorHit>>, matrix: DetectorMatrix?,
                    dedx: (real, ParticleDef, MaterialId) -> real)
    requires matrix != null ==> matrix.Valid()
    requires matrix != null && hits.Some? ==> Routable(matrix.nX, matrix.nY, matrix.nZ, hits.value)
    modifies if matrix == null then {} else {matrix, matrix.hitTrack}
    ensures matrix != null ==> matrix.Valid() && matrix.secondary == old(matrix.secondary)
    ensures matrix != null ==> forall v :: 0 <= v < matrix.hitTrack.Length ==> matrix.hitTrack[v] == 0
    ensures matrix != null ==>
      matrix.ionStore == if hits.Some?
        then RoutedAll(old(matrix.ionStore), matrix.nX, matrix.nY, matrix.nZ, hits.value, dedx)
        else old(matrix.ionStore)
  {
    if matrix != null {
      matrix.ClearHitTrack();
    }
    if hits.Some? && matrix != null {
      RouteHits(matrix, hits.value, dedx);
    }
  }
}
