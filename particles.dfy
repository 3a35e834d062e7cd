/** What the transport engine hands to the scorers: particle definitions,
    steps and their secondaries, and the species key under which both
    scorers file a particle. */
module Particles {
  import opened VoxelGrid

  datatype Option<T> = None | Some(value: T)

  /** Handles of toolkit objects the model only compares or passes along. */
  type MaterialId = nat
  type VolumeId = nat

  /** The parts of a particle definition the scorers read. */
  datatype ParticleDef = ParticleDef(pdg: int, z: int, a: int, fullName: string)

  datatype Secondary = Secondary(pdg: int, kineticEnergy: real)

  /** One transport step, with the touchable's replica numbers at depths 0, 1
      and 2 of the pre-step point and the cubic volume of its voxel. */
  datatype Step = Step(
    def: ParticleDef,
    trackID: int,
    energyDeposit: real,
    stepLength: real,
    kineticEnergy: real,
    kinEPre: real,
    kinEPost: real,
    prePosition: Vec3,
    replica0: int,
    replica1: int,
    replica2: int,
    material: MaterialId,
    preVolume: VolumeId,
    voxelVolume: real,
    secondaries: seq<Secondary>)

  const ElectronPDG: int := 11
  const GammaPDG: int := 22

  /** C++ remainder for a positive divisor: it truncates toward zero, so the
      result has the sign of the dividend (unlike Dafny's `%`). */
  function CppRem(x: int, m: int): (r: int)
    requires m > 0
    ensures -m < r < m
    ensures x >= 0 ==> r >= 0
    ensures x < 0 ==> r <= 0
  {
    if x >= 0 then x % m else -((-x) % m)
  }

  /** `PDGencoding -= PDGencoding % 10`: the excitation digit is dropped by
      moving the code toward zero onto a multiple of ten. */
  function GroupedCode(pdg: int): (r: int)
    ensures r % 10 == 0
    ensures pdg >= 0 ==> 0 <= r <= pdg && pdg - r < 10
    ensures pdg < 0 ==> pdg <= r <= 0 && r - pdg < 10
  {
    pdg - CppRem(pdg, 10)
  }

  /** Grouping is idempotent: a grouped code is its own group. */
  lemma GroupedCodeIdempotent(pdg: int)
    ensures GroupedCode(GroupedCode(pdg)) == GroupedCode(pdg)
  {
  }

  /** Negative codes go toward zero, not toward minus infinity as Dafny's
      Euclidean remainder would take them. */
  lemma GroupedCodeTowardZero()
    ensures GroupedCode(-2213) == -2210 && -2213 - (-2213 % 10) == -2220
  {
  }

  /** `fullName.substr(0, fullName.find("["))`: the name up to the first '[',
      or all of it when there is none. */
  function CutName(fullName: string): (r: string)
    ensures r <= fullName
    ensures '[' !in r
    ensures |r| < |fullName| ==> fullName[|r|] == '['
  {
    if fullName == [] || fullName[0] == '[' then []
    else [fullName[0]] + CutName(fullName[1..])
  }

  /** A species: the grouped code and whether the track is the primary. */
  datatype Key = Key(code: int, primary: bool)

  /** The key both scorers file a step under: a track is primary iff its ID is 1. */
  function KeyOf(def: ParticleDef, trackID: int): Key
  {
    Key(GroupedCode(def.pdg), trackID == 1)
  }

  /** The source's match test `(trackID == 1 && isPrimary) || (trackID != 1 && !isPrimary)`
      is the key comparison on the primary flag. */
  lemma PrimaryTestIsKeyEquality(trackID: int, isPrimary: bool)
    ensures ((trackID == 1 && isPrimary) || (trackID != 1 && !isPrimary)) <==> isPrimary == (trackID == 1)
  {
  }

  /** The linear scan of a species store: the first position holding k. */
  function Locate(keys: seq<Key>, k: Key): (r: Option<nat>)
    ensures r.Some? ==> r.value < |keys| && keys[r.value] == k &&
                        forall m :: 0 <= m < r.value ==> keys[m] != k
    ensures r.None? <==> k !in keys
  {
    if keys == [] then None
    else if keys[0] == k then Some(0)
    else match Locate(keys[1..], k)
      case None => None
      case Some(m) => Some(m + 1)
  }

  /** No two store entries share a species key. */
  predicate Distinct(keys: seq<Key>)
  {
    forall a, b :: 0 <= a < b < |keys| ==> keys[a] != keys[b]
  }

  /** In a store without repeated keys the first match is the only match. */
  lemma LocateUnique(keys: seq<Key>, k: Key, m: nat)
    requires Distinct(keys) && m < |keys| && keys[m] == k
    ensures Locate(keys, k) == Some(m)
  {
  }

  /** Appending a key only after the scan missed it keeps keys distinct. */
  lemma AppendMissingKeepsDistinct(keys: seq<Key>, k: Key)
    requires Distinct(keys) && Locate(keys, k).None?
    ensures Distinct(keys + [k])
  {
  }

  /** `operator<` of both species records: Z ascending, then A ascending. */
  predicate ZALess(z1: int, a1: int, z2: int, a2: int)
  {
    if z1 == z2 then a1 < a2 else z1 < z2
  }

  lemma ZALessIrreflexive(z: int, a: int)
    ensures !ZALess(z, a, z, a)
  {
  }

  lemma ZALessTransitive(z1: int, a1: int, z2: int, a2: int, z3: int, a3: int)
    requires ZALess(z1, a1, z2, a2) && ZALess(z2, a2, z3, a3)
    ensures ZALess(z1, a1, z3, a3)
  {
  }

  /** Exactly one of a < b, b < a, or equal (Z, A) holds; so two records are
      incomparable exactly when their (Z, A) agree, and incomparability is an
      equivalence: the order is a strict weak order. */
  lemma ZATrichotomy(z1: int, a1: int, z2: int, a2: int)
    ensures ZALess(z1, a1, z2, a2) || ZALess(z2, a2, z1, a1) || (z1 == z2 && a1 == a2)
    ensures !(ZALess(z1, a1, z2, a2) && ZALess(z2, a2, z1, a1))
    ensures (z1 == z2 && a1 == a2) ==> !ZALess(z1, a1, z2, a2) && !ZALess(z2, a2, z1, a1)
  {
  }

  /** Kinetic energy carried off by this step's secondary electrons. */
  function ElectronEnergySum(secondaries: seq<Secondary>): real
  {
    if secondaries == [] then 0.0
    else
      var last := secondaries[|secondaries| - 1];
      ElectronEnergySum(secondaries[..|secondaries| - 1]) +
        (if last.pdg == ElectronPDG then last.kineticEnergy else 0.0)
  }

  /** The loop shared by the sensitive detector and both stepping actions:
      add up the kinetic energies of the PDG 11 secondaries. */
  method SumSecondaryElectronEnergy(secondaries: seq<Secondary>) returns (sum: real)
    ensures sum == ElectronEnergySum(secondaries)
  {
    sum := 0.0;
    var n := 0;
    while n < |secondaries|
      invariant 0 <= n <= |secondaries|
      invariant sum == ElectronEnergySum(secondaries[..n])
    {
      assert secondaries[..n + 1][..n] == secondaries[..n];
      if secondaries[n].pdg == ElectronPDG {
        sum := sum + secondaries[n].kineticEnergy;
      }
      n := n + 1;
    }
    assert secondaries[..n] == secondaries;
  }

  /** The sum is non-negative when kinetic energies are, and secondaries of
      other species add nothing to it. */
  lemma {:induction false} ElectronEnergySumBounds(secondaries: seq<Secondary>)
    requires forall m :: 0 <= m < |secondaries| ==> secondaries[m].kineticEnergy >= 0.0
    ensures ElectronEnergySum(secondaries) >= 0.0
    ensures (forall m :: 0 <= m < |secondaries| ==> secondaries[m].pdg != ElectronPDG) ==>
      ElectronEnergySum(secondaries) == 0.0
  {
    if secondaries != [] {
      ElectronEnergySumBounds(secondaries[..|secondaries| - 1]);
    }
  }

  /** `(kinEPre + kinEPost) * 0.5`: the step's mean kinetic energy, which
      lies between the two end-point energies. */
  function MeanKineticEnergy(pre: real, post: real): (r: real)
    ensures pre <= post ==> pre <= r <= post
    ensures post <= pre ==> post <= r <= pre
    ensures r - pre == post - r
  {
    (pre + post) * 0.5
  }

  /** The species filter in front of every LET fill: all particles except
      neutrons (Z = 0, A = 1), gammas and electrons. */
  predicate LetSpecies(def: ParticleDef)
  {
    !(def.z == 0 && def.a == 1) && def.pdg != GammaPDG && def.pdg != ElectronPDG
  }
}
