/** The dose/LET/fluence matrix: a store of particle species, created lazily
    and keyed by grouped PDG code and primary flag, each owning dense
    per-voxel arrays that the three Fill operations add into, and the
    writers that turn the store into sparse tables at the end of the run. */
module DetectorMatrix {
  import opened Units
  import opened VoxelGrid
  import opened Particles

  /** The four per-voxel arrays of a species. */
  datatype Quantity = EDep | LetN | LetD | Fluence

  /** One addition into one quantity of the filled voxel. */
  datatype Deposit = Deposit(q: Quantity, amount: real)

  /** `struct ion`: a species and its per-voxel arrays (the name length field
      is |name|). */
  datatype Ion = Ion(
    isPrimary: bool,
    pdg: int,
    name: string,
    z: int,
    a: int,
    eDep: seq<real>,
    letN: seq<real>,
    letD: seq<real>,
    fluence: seq<real>)
  {
    function SpeciesKey(): Key
    {
      Key(pdg, isPrimary)
    }

    /** `ion::operator<`: Z ascending, then A ascending. */
    predicate Less(other: Ion)
    {
      ZALess(z, a, other.z, other.a)
    }

    /** Column header: the name, with `_1` for the primary. */
    function Column(): string
    {
      name + (if isPrimary then "_1" else "")
    }

    predicate Shaped(nvox: nat)
    {
      |eDep| == nvox && |letN| == nvox && |letD| == nvox && |fluence| == nvox
    }

    function Cells(q: Quantity): seq<real>
    {
      match q
      case EDep => eDep
      case LetN => letN
      case LetD => letD
      case Fluence => fluence
    }

    /** `cells[n] += amount` on one quantity. */
    function Add(q: Quantity, n: nat, amount: real): (r: Ion)
      requires n < |Cells(q)|
    {
      match q
      case EDep => this.(eDep := eDep[n := eDep[n] + amount])
      case LetN => this.(letN := letN[n := letN[n] + amount])
      case LetD => this.(letD := letD[n := letD[n] + amount])
      case Fluence => this.(fluence := fluence[n := fluence[n] + amount])
    }
  }

  /** ion::operator< orders by Z, then by A, as a strict weak order in which
      the primary and the secondary of one nuclide are incomparable. */
  lemma IonLessStrictWeakOrder(x: Ion, y: Ion, w: Ion)
    ensures !x.Less(x)
    ensures x.Less(y) && y.Less(w) ==> x.Less(w)
    ensures !x.Less(y) && !y.Less(x) <==> x.z == y.z && x.a == y.a
  {
    ZALessIrreflexive(x.z, x.a);
    if x.Less(y) && y.Less(w) {
      ZALessTransitive(x.z, x.a, y.z, y.a, w.z, w.a);
    }
    ZATrichotomy(x.z, x.a, y.z, y.a);
  }

  function Keys(store: seq<Ion>): (r: seq<Key>)
    ensures |r| == |store|
    ensures forall l :: 0 <= l < |store| ==> r[l] == store[l].SpeciesKey()
  {
    if store == [] then [] else Keys(store[..|store| - 1]) + [store[|store| - 1].SpeciesKey()]
  }

  predicate Shaped(store: seq<Ion>, nvox: nat)
  {
    forall l :: 0 <= l < |store| ==> store[l].Shaped(nvox)
  }

  /** The store invariant: every array has one cell per voxel and no two
      entries share a species key. */
  predicate StoreValid(store: seq<Ion>, nvox: nat)
  {
    Shaped(store, nvox) && Distinct(Keys(store))
  }

  /** The entry appended on a miss, before its one cell is filled. */
  function NewIon(def: ParticleDef, trackID: int, nvox: nat): (r: Ion)
    ensures r.Shaped(nvox) && r.SpeciesKey() == KeyOf(def, trackID)
  {
    Ion(trackID == 1, GroupedCode(def.pdg), CutName(def.fullName), def.z, def.a,
        Zeros(nvox), Zeros(nvox), Zeros(nvox), Zeros(nvox))
  }

  /** Sum of the amounts a deposit list adds to quantity q. */
  function Total(ds: seq<Deposit>, q: Quantity): real
  {
    if ds == [] then 0.0 else (if ds[0].q == q then ds[0].amount else 0.0) + Total(ds[1..], q)
  }

  /** The deposits applied in order to cell n of one entry. */
  function ApplyDeposits(ion: Ion, nvox: nat, n: nat, ds: seq<Deposit>): (r: Ion)
    requires ion.Shaped(nvox) && n < nvox
    ensures r.Shaped(nvox)
    ensures r.isPrimary == ion.isPrimary && r.pdg == ion.pdg && r.name == ion.name
    ensures r.z == ion.z && r.a == ion.a
    decreases |ds|
  {
    if ds == [] then ion else ApplyDeposits(ion.Add(ds[0].q, n, ds[0].amount), nvox, n, ds[1..])
  }

  /** Applying a deposit list changes exactly cell n of each quantity, by the
      total the list holds for that quantity. */
  lemma {:induction false} ApplyDepositsCells(ion: Ion, nvox: nat, n: nat, ds: seq<Deposit>, q: Quantity, v: nat)
    requires ion.Shaped(nvox) && n < nvox && v < nvox
    ensures ApplyDeposits(ion, nvox, n, ds).Cells(q)[v] ==
      ion.Cells(q)[v] + (if v == n then Total(ds, q) else 0.0)
    decreases |ds|
  {
    if ds != [] {
      var next := ion.Add(ds[0].q, n, ds[0].amount);
      ApplyDepositsCells(next, nvox, n, ds[1..], q, v);
    }
  }

  /** What one LET fill adds: energyDeposit * Lsn to the numerator and
      energyDeposit to the denominator. */
  function LetDeposits(energyDeposit: real, lsn: real): seq<Deposit>
  {
    [Deposit(LetN, energyDeposit * lsn), Deposit(LetD, energyDeposit)]
  }

  /** A LET fill adds energyDeposit * Lsn to the numerator, energyDeposit to
      the denominator, and nothing to dose or fluence. */
  lemma LetDepositsTotals(energyDeposit: real, lsn: real)
    ensures Total(LetDeposits(energyDeposit, lsn), LetN) == energyDeposit * lsn
    ensures Total(LetDeposits(energyDeposit, lsn), LetD) == energyDeposit
    ensures Total(LetDeposits(energyDeposit, lsn), EDep) == 0.0
    ensures Total(LetDeposits(energyDeposit, lsn), Fluence) == 0.0
  {
    var r := LetDeposits(energyDeposit, lsn);
    assert r[1..] == [Deposit(LetD, energyDeposit)];
    assert r[1..][1..] == [];
    forall q: Quantity
      ensures Total(r[1..], q) == if q == LetD then energyDeposit else 0.0
    {
      assert Total(r[1..][1..], q) == 0.0;
    }
  }

  /** Position filled for key in store: the matching entry, or |store| for
      the entry a miss appends. */
  function Target(store: seq<Ion>, key: Key): nat
  {
    match Locate(Keys(store), key)
    case Some(l) => l
    case None => |store|
  }

  /** What one Fill call does to the store: search by species key, add the
      deposits into the match, or append a zeroed entry holding only the
      deposits; when the arrays of a new entry cannot be allocated the store
      is left as it was and the call reports false. */
  function Fill(store: seq<Ion>, nvox: nat, def: ParticleDef, trackID: int, n: nat,
                ds: seq<Deposit>, allocOk: bool): (r: (seq<Ion>, bool))
    requires Shaped(store, nvox) && n < nvox
    ensures Shaped(r.0, nvox)
  {
    match Locate(Keys(store), KeyOf(def, trackID))
    case Some(l) => (store[l := ApplyDeposits(store[l], nvox, n, ds)], true)
    case None =>
      if allocOk then (store + [ApplyDeposits(NewIon(def, trackID, nvox), nvox, n, ds)], true)
      else (store, false)
  }

  /** Fill keeps the store invariant: the search before the append is what
      keeps the keys distinct. */
  lemma FillValid(store: seq<Ion>, nvox: nat, def: ParticleDef, trackID: int, n: nat,
                  ds: seq<Deposit>, allocOk: bool)
    requires StoreValid(store, nvox) && n < nvox
    ensures StoreValid(Fill(store, nvox, def, trackID, n, ds, allocOk).0, nvox)
  {
    var key := KeyOf(def, trackID);
    var r := Fill(store, nvox, def, trackID, n, ds, allocOk).0;
    match Locate(Keys(store), key)
    case Some(l) =>
      assert Keys(r) == Keys(store);
    case None =>
      if allocOk {
        assert Keys(r) == Keys(store) + [key];
        AppendMissingKeepsDistinct(Keys(store), key);
      }
  }

  /** Fill fails only on a miss without memory, and then changes nothing;
      otherwise the filled entry (the match, or one appended after the
      others) has the step's species key, no other entry changes species, and
      a new entry carries the cut name, Z and A of the particle. */
  lemma FillOutcome(store: seq<Ion>, nvox: nat, def: ParticleDef, trackID: int, n: nat,
                    ds: seq<Deposit>, allocOk: bool)
    requires StoreValid(store, nvox) && n < nvox
    ensures var res := Fill(store, nvox, def, trackID, n, ds, allocOk);
      var key := KeyOf(def, trackID);
      var t := Target(store, key);
      && res.1 == (key in Keys(store) || allocOk)
      && (!res.1 ==> res.0 == store)
      && (res.1 ==> |res.0| == (if t < |store| then |store| else |store| + 1))
      && (res.1 ==> t < |res.0| && res.0[t].SpeciesKey() == key)
      && (forall e :: 0 <= e < |store| ==>
            (res.0[e].SpeciesKey() == store[e].SpeciesKey() && res.0[e].name == store[e].name &&
             res.0[e].z == store[e].z && res.0[e].a == store[e].a))
      && (res.1 && t == |store| ==>
            res.0[t].name == CutName(def.fullName) && res.0[t].z == def.z && res.0[t].a == def.a)
  {
  }

  /** After a successful Fill, cell v of quantity q of entry e holds what it
      held before (zero for the new entry) plus, at the filled entry and voxel
      only, the total the deposits add to q. */
  lemma FillCells(store: seq<Ion>, nvox: nat, def: ParticleDef, trackID: int, n: nat,
                  ds: seq<Deposit>, allocOk: bool, e: nat, q: Quantity, v: nat)
    requires StoreValid(store, nvox) && n < nvox && v < nvox
    requires Fill(store, nvox, def, trackID, n, ds, allocOk).1
    requires e < |Fill(store, nvox, def, trackID, n, ds, allocOk).0|
    ensures Fill(store, nvox, def, trackID, n, ds, allocOk).0[e].Cells(q)[v] ==
      (if e < |store| then store[e].Cells(q)[v] else 0.0) +
      (if e == Target(store, KeyOf(def, trackID)) && v == n then Total(ds, q) else 0.0)
  {
    var r := Fill(store, nvox, def, trackID, n, ds, allocOk).0;
    match Locate(Keys(store), KeyOf(def, trackID))
    case Some(l) =>
      if e == l {
        ApplyDepositsCells(store[l], nvox, n, ds, q, v);
      }
    case None =>
      if e == |store| {
        ApplyDepositsCells(NewIon(def, trackID, nvox), nvox, n, ds, q, v);
      }
  }

  /** Sum over species of the value at voxel n. */
  function SpeciesSum(data: seq<seq<real>>, n: nat): real
    requires forall l :: 0 <= l < |data| ==> n < |data[l]|
  {
    if data == [] then 0.0 else SpeciesSum(data[..|data| - 1], n) + data[|data| - 1][n]
  }

  /** With no negative values the species sum at a voxel is zero exactly when
      every species is zero there. */
  lemma {:induction false} SpeciesSumZero(data: seq<seq<real>>, n: nat)
    requires forall l :: 0 <= l < |data| ==> n < |data[l]| && data[l][n] >= 0.0
    ensures SpeciesSum(data, n) >= 0.0
    ensures SpeciesSum(data, n) == 0.0 <==> forall l :: 0 <= l < |data| ==> data[l][n] == 0.0
  {
    if data != [] {
      SpeciesSumZero(data[..|data| - 1], n);
    }
  }
  /** Replacing one species' values changes the sum by the difference at
      that species. */
  lemma {:induction false} SpeciesSumUpdate(data: seq<seq<real>>, l: nat, row: seq<real>, n: nat)
    requires l < |data| && n < |row| && forall m :: 0 <= m < |data| ==> n < |data[m]|
    ensures SpeciesSum(data[l := row], n) == SpeciesSum(data, n) - data[l][n] + row[n]
    decreases |data|
  {
    var last := |data| - 1;
    var upd := data[l := row];
    assert upd[..last] == if l < last then data[..last][l := row] else data[..last];
    if l < last {
      SpeciesSumUpdate(data[..last], l, row, n);
    }
  }

  lemma SpeciesSumAppend(data: seq<seq<real>>, row: seq<real>, n: nat)
    requires n < |row| && forall m :: 0 <= m < |data| ==> n < |data[m]|
    ensures SpeciesSum(data + [row], n) == SpeciesSum(data, n) + row[n]
  {
    assert (data + [row])[..|data|] == data;
  }

  /** Dose is conserved: a fill that succeeds raises the species sum of
      quantity q at voxel n by exactly the deposits' q-total and leaves every
      other voxel's sum as it was; a fill that fails changes nothing. */
  lemma FillSpeciesSum(store: seq<Ion>, nvox: nat, def: ParticleDef, trackID: int, n: nat,
                       ds: seq<Deposit>, allocOk: bool, q: Quantity, v: nat)
    requires StoreValid(store, nvox) && n < nvox && v < nvox
    ensures var res := Fill(store, nvox, def, trackID, n, ds, allocOk);
      SpeciesSum(Quantities(res.0, q), v) ==
        SpeciesSum(Quantities(store, q), v) + (if res.1 && v == n then Total(ds, q) else 0.0)
  {
    var res := Fill(store, nvox, def, trackID, n, ds, allocOk);
    var before := Quantities(store, q);
    match Locate(Keys(store), KeyOf(def, trackID))
    case Some(l) =>
      var row := ApplyDeposits(store[l], nvox, n, ds);
      assert res.0 == store[l := row];
      assert Quantities(res.0, q) == before[l := row.Cells(q)];
      SpeciesSumUpdate(before, l, row.Cells(q), v);
      ApplyDepositsCells(store[l], nvox, n, ds, q, v);
    case None =>
      if allocOk {
        var newIon := NewIon(def, trackID, nvox);
        var row := ApplyDeposits(newIon, nvox, n, ds);
        assert res.0 == store + [row];
        assert Quantities(res.0, q) == before + [row.Cells(q)];
        SpeciesSumAppend(before, row.Cells(q), v);
        ApplyDepositsCells(newIon, nvox, n, ds, q, v);
        assert newIon.Cells(q)[v] == 0.0;
      }
  }



  predicate DataShaped(data: seq<seq<real>>, nvox: nat)
  {
    forall l :: 0 <= l < |data| ==> |data[l]| == nvox
  }

  /** A value as written: `value*scale/unit`. */
  function Scaled(value: real, scale: real, unit: real): real
    requires unit != 0.0
  {
    value * scale / unit
  }

  function ScaledValues(data: seq<seq<real>>, n: nat, scale: real, unit: real): (r: seq<real>)
    requires forall l :: 0 <= l < |data| ==> n < |data[l]|
    requires unit != 0.0
    ensures |r| == |data| && forall l :: 0 <= l < |data| ==> r[l] == Scaled(data[l][n], scale, unit)
  {
    if data == [] then []
    else ScaledValues(data[..|data| - 1], n, scale, unit) + [Scaled(data[|data| - 1][n], scale, unit)]
  }

  /** The line written for voxel x: its indices, the scaled species total
      and, when species columns are on, every species' scaled value. */
  function MakeRow(data: seq<seq<real>>, nx: nat, ny: nat, nz: nat, x: Voxel,
                   scale: real, unit: real, secondary: bool): Row
    requires DataShaped(data, NVoxel(nx, ny, nz)) && InGrid(nx, ny, nz, x.i, x.j, x.k) && unit != 0.0
  {
    IndexInRange(nx, ny, nz, x.i, x.j, x.k);
    var n := Index(ny, nz, x.i, x.j, x.k);
    Row(x.i, x.j, x.k,
        [Scaled(SpeciesSum(data, n), scale, unit)] + (if secondary then ScaledValues(data, n, scale, unit) else []))
  }

  /** A voxel gets a line iff its species total is nonzero. */
  predicate Emitted(data: seq<seq<real>>, nx: nat, ny: nat, nz: nat, x: Voxel)
    requires DataShaped(data, NVoxel(nx, ny, nz)) && InGrid(nx, ny, nz, x.i, x.j, x.k)
  {
    IndexInRange(nx, ny, nz, x.i, x.j, x.k);
    SpeciesSum(data, Index(ny, nz, x.i, x.j, x.k)) != 0.0
  }


  /** The lines written while walking the voxels vs. */
  function SparseRows(data: seq<seq<real>>, nx: nat, ny: nat, nz: nat, vs: seq<Voxel>,
                      scale: real, unit: real, secondary: bool): seq<Row>
    requires DataShaped(data, NVoxel(nx, ny, nz)) && AllInGrid(nx, ny, nz, vs) && unit != 0.0
  {
    if vs == [] then []
    else
      var x := vs[|vs| - 1];
      SparseRows(data, nx, ny, nz, vs[..|vs| - 1], scale, unit, secondary) +
        (if Emitted(data, nx, ny, nz, x) then [MakeRow(data, nx, ny, nz, x, scale, unit, secondary)] else [])
  }

  /** Walking one more voxel appends its line when its total is nonzero. */
  lemma SparseRowsSnoc(data: seq<seq<real>>, nx: nat, ny: nat, nz: nat, vs: seq<Voxel>, x: Voxel,
                       scale: real, unit: real, secondary: bool)
    requires DataShaped(data, NVoxel(nx, ny, nz)) && AllInGrid(nx, ny, nz, vs) && unit != 0.0
    requires InGrid(nx, ny, nz, x.i, x.j, x.k)
    ensures AllInGrid(nx, ny, nz, vs + [x])
    ensures SparseRows(data, nx, ny, nz, vs + [x], scale, unit, secondary) ==
      SparseRows(data, nx, ny, nz, vs, scale, unit, secondary) +
        (if Emitted(data, nx, ny, nz, x) then [MakeRow(data, nx, ny, nz, x, scale, unit, secondary)] else [])
  {
    assert (vs + [x])[..|vs|] == vs;
  }

  /** Every written line belongs to a walked voxel with a nonzero total and
      is that voxel's line; every walked voxel with a nonzero total gets its
      line. */
  lemma {:induction false} SparseRowsExact(data: seq<seq<real>>, nx: nat, ny: nat, nz: nat, vs: seq<Voxel>,
                                           scale: real, unit: real, secondary: bool)
    requires DataShaped(data, NVoxel(nx, ny, nz)) && AllInGrid(nx, ny, nz, vs) && unit != 0.0
    ensures var rows := SparseRows(data, nx, ny, nz, vs, scale, unit, secondary);
      && (forall r :: r in rows ==>
            var x := Voxel(r.i, r.j, r.k);
            x in vs && InGrid(nx, ny, nz, r.i, r.j, r.k) && Emitted(data, nx, ny, nz, x) &&
            r == MakeRow(data, nx, ny, nz, x, scale, unit, secondary))
      && (forall m :: 0 <= m < |vs| && Emitted(data, nx, ny, nz, vs[m]) ==>
            MakeRow(data, nx, ny, nz, vs[m], scale, unit, secondary) in rows)
  {
    if vs != [] {
      var init := vs[..|vs| - 1];
      assert AllInGrid(nx, ny, nz, init);
      SparseRowsExact(data, nx, ny, nz, init, scale, unit, secondary);
      var rows := SparseRows(data, nx, ny, nz, vs, scale, unit, secondary);
      var prev := SparseRows(data, nx, ny, nz, init, scale, unit, secondary);
      forall m | 0 <= m < |vs| && Emitted(data, nx, ny, nz, vs[m])
        ensures MakeRow(data, nx, ny, nz, vs[m], scale, unit, secondary) in rows
      {
        if m < |vs| - 1 {
          assert vs[m] == init[m];
        }
      }
      forall r | r in rows
        ensures Voxel(r.i, r.j, r.k) in vs
      {
        if r in prev {
          assert Voxel(r.i, r.j, r.k) in init;
        }
      }
    }
  }

  /** When the walk visits voxels in increasing Index order, so do the
      written lines: no voxel is written twice. */
  lemma {:induction false} SparseRowsOrdered(data: seq<seq<real>>, nx: nat, ny: nat, nz: nat, vs: seq<Voxel>,
                                             scale: real, unit: real, secondary: bool)
    requires DataShaped(data, NVoxel(nx, ny, nz)) && AllInGrid(nx, ny, nz, vs) && unit != 0.0
    requires forall a, b :: 0 <= a < b < |vs| ==>
      Index(ny, nz, vs[a].i, vs[a].j, vs[a].k) < Index(ny, nz, vs[b].i, vs[b].j, vs[b].k)
    ensures var rows := SparseRows(data, nx, ny, nz, vs, scale, unit, secondary);
      forall a, b :: 0 <= a < b < |rows| ==>
        Index(ny, nz, rows[a].i, rows[a].j, rows[a].k) < Index(ny, nz, rows[b].i, rows[b].j, rows[b].k)
  {
    if vs != [] {
      var init := vs[..|vs| - 1];
      var x := vs[|vs| - 1];
      assert AllInGrid(nx, ny, nz, init);
      SparseRowsOrdered(data, nx, ny, nz, init, scale, unit, secondary);
      SparseRowsExact(data, nx, ny, nz, init, scale, unit, secondary);
      var prev := SparseRows(data, nx, ny, nz, init, scale, unit, secondary);
      forall a | 0 <= a < |prev|
        ensures Index(ny, nz, prev[a].i, prev[a].j, prev[a].k) < Index(ny, nz, x.i, x.j, x.k)
      {
        assert prev[a] in prev;
        var m :| 0 <= m < |init| && init[m] == Voxel(prev[a].i, prev[a].j, prev[a].k);
        assert vs[m] == init[m];
      }
    }
  }

  /** The data lines of a table over the whole grid, walked in the order of
      the i, j, k loops. */
  function Lines(data: seq<seq<real>>, nx: nat, ny: nat, nz: nat, scale: real, unit: real, secondary: bool): seq<Row>
    requires DataShaped(data, NVoxel(nx, ny, nz)) && unit != 0.0
  {
    VoxelsInIndexOrder(nx, ny, nz);
    SparseRows(data, nx, ny, nz, Voxels(nx, ny, nz), scale, unit, secondary)
  }

  /** The table over the whole grid: a line for exactly the voxels whose
      species total is nonzero, each once, in increasing (i, j, k) order. */
  lemma LinesExact(data: seq<seq<real>>, nx: nat, ny: nat, nz: nat, scale: real, unit: real, secondary: bool)
    requires DataShaped(data, NVoxel(nx, ny, nz)) && unit != 0.0
    ensures var rows := Lines(data, nx, ny, nz, scale, unit, secondary);
      && (forall r :: r in rows ==>
            InGrid(nx, ny, nz, r.i, r.j, r.k) && Emitted(data, nx, ny, nz, Voxel(r.i, r.j, r.k)) &&
            r == MakeRow(data, nx, ny, nz, Voxel(r.i, r.j, r.k), scale, unit, secondary))
      && (forall i, j, k :: InGrid(nx, ny, nz, i, j, k) && Emitted(data, nx, ny, nz, Voxel(i, j, k)) ==>
            MakeRow(data, nx, ny, nz, Voxel(i, j, k), scale, unit, secondary) in rows)
      && (forall a, b :: 0 <= a < b < |rows| ==>
            Index(ny, nz, rows[a].i, rows[a].j, rows[a].k) < Index(ny, nz, rows[b].i, rows[b].j, rows[b].k))
  {
    var vs := Voxels(nx, ny, nz);
    VoxelsInIndexOrder(nx, ny, nz);
    SparseRowsExact(data, nx, ny, nz, vs, scale, unit, secondary);
    SparseRowsOrdered(data, nx, ny, nz, vs, scale, unit, secondary);
    forall i, j, k | InGrid(nx, ny, nz, i, j, k)
      ensures Voxel(i, j, k) in vs
    {
      VoxelsCoverGrid(nx, ny, nz, i, j, k);
    }
  }

  /** The header line: indices, Total and, when species columns are on, one
      column per species in store order. */
  function Header(store: seq<Ion>, secondary: bool): seq<string>
  {
    ["i", "j", "k", "Total"] + (if secondary then Columns(store) else [])
  }

  function Columns(store: seq<Ion>): (r: seq<string>)
    ensures |r| == |store| && forall l :: 0 <= l < |store| ==> r[l] == store[l].Column()
  {
    if store == [] then [] else Columns(store[..|store| - 1]) + [store[|store| - 1].Column()]
  }

  /** One quantity of every species, in store order. */
  function Quantities(store: seq<Ion>, q: Quantity): (r: seq<seq<real>>)
    ensures |r| == |store| && forall l :: 0 <= l < |store| ==> r[l] == store[l].Cells(q)
  {
    seq(|store|, l requires 0 <= l < |store| => store[l].Cells(q))
  }

  /** The species sum of quantity q at voxel v over a store whose arrays
      all have nvox cells. */
  function StoreSum(store: seq<Ion>, nvox: nat, q: Quantity, v: nat): real
    requires Shaped(store, nvox) && v < nvox
  {
    SpeciesSum(Quantities(store, q), v)
  }

  /** letN / letD where letD > 0, and 0 elsewhere. */
  function GuardedRatio(num: seq<real>, den: seq<real>): (r: seq<real>)
    requires |num| == |den|
    ensures |r| == |num|
    ensures forall v :: 0 <= v < |num| && den[v] > 0.0 ==> r[v] * den[v] == num[v]
    ensures forall v :: 0 <= v < |num| && den[v] <= 0.0 ==> r[v] == 0.0
  {
    seq(|num|, v requires 0 <= v < |num| => if den[v] > 0.0 then num[v] / den[v] else 0.0)
  }

  /** The dose-averaged LET of every species, computed into fresh arrays. */
  function LetValues(store: seq<Ion>, nvox: nat): (r: seq<seq<real>>)
    requires Shaped(store, nvox)
    ensures |r| == |store| && DataShaped(r, nvox)
    ensures forall l :: 0 <= l < |store| ==> r[l] == GuardedRatio(store[l].letN, store[l].letD)
  {
    seq(|store|, l requires 0 <= l < |store| => GuardedRatio(store[l].letN, store[l].letD))
  }

  class DetectorMatrix {
    const nX: nat
    const nY: nat
    const nZ: nat
    const massOfVoxel: real
    /** Hit voxel (track ID) markers; cleared, never read by any fill. */
    const hitTrack: array<int>
    var ionStore: seq<Ion>
    /** The class-wide flag that turns the species columns on. */
    var secondary: bool

    ghost predicate Valid()
      reads this
    {
      hitTrack.Length == GetNvoxel() && StoreValid(ionStore, GetNvoxel())
    }

    /** nX * nY * nZ. */
    function GetNvoxel(): nat
    {
      NVoxel(nX, nY, nZ)
    }

    function Index(i: int, j: int, k: int): int
    {
      VoxelGrid.Index(nY, nZ, i, j, k)
    }

    constructor (voxelX: nat, voxelY: nat, voxelZ: nat, mass: real)
      ensures Valid() && fresh(hitTrack)
      ensures nX == voxelX && nY == voxelY && nZ == voxelZ && massOfVoxel == mass
      ensures ionStore == [] && secondary
      ensures forall v :: 0 <= v < hitTrack.Length ==> hitTrack[v] == 0
    {
      nX, nY, nZ := voxelX, voxelY, voxelZ;
      massOfVoxel := mass;
      hitTrack := new int[voxelX * voxelY * voxelZ];
      ionStore := [];
      secondary := true;
      new;
      NVoxelProduct(nX, nY, nZ);
      ClearHitTrack();
    }

    /** Release every species. */
    method Clear()
      modifies this`ionStore
      ensures ionStore == []
    {
      ionStore := [];
    }

    method Initialize()
      requires Valid()
      modifies this`ionStore
      ensures Valid() && ionStore == []
    {
      Clear();
    }

    method ClearHitTrack()
      requires hitTrack.Length == GetNvoxel()
      modifies hitTrack
      ensures forall v :: 0 <= v < hitTrack.Length ==> hitTrack[v] == 0
    {
      var v := 0;
      while v < GetNvoxel()
        invariant 0 <= v <= hitTrack.Length
        invariant forall w :: 0 <= w < v ==> hitTrack[w] == 0
      {
        hitTrack[v] := 0;
        v := v + 1;
      }
    }

    /** The linear search of the store, with the source's match test on the
        grouped code and the primary flag. */
    method Find(code: int, trackID: int) returns (found: Option<nat>)
      ensures found == Locate(Keys(ionStore), Key(code, trackID == 1))
    {
      var l := 0;
      while l < |ionStore|
        invariant 0 <= l <= |ionStore|
        invariant forall m :: 0 <= m < l ==> Keys(ionStore)[m] != Key(code, trackID == 1)
      {
        if ionStore[l].pdg == code && ((trackID == 1 && ionStore[l].isPrimary) || (trackID != 1 && !ionStore[l].isPrimary)) {
          assert Keys(ionStore)[l] == Key(code, trackID == 1);
          return Some(l);
        }
        l := l + 1;
      }
      return None;
    }

    /** The search-or-append shared by the three Fill operations. */
    method Accumulate(i: int, j: int, k: int, trackID: int, def: ParticleDef,
                      ds: seq<Deposit>, allocOk: bool) returns (ok: bool)
      requires Valid() && InGrid(nX, nY, nZ, i, j, k)
      modifies this`ionStore
      ensures Valid()
      ensures 0 <= Index(i, j, k) < GetNvoxel()
      ensures (ionStore, ok) == Fill(old(ionStore), GetNvoxel(), def, trackID, Index(i, j, k), ds, allocOk)
    {
      var nvox := GetNvoxel();
      IndexInRange(nX, nY, nZ, i, j, k);
      var n := Index(i, j, k);
      FillValid(ionStore, nvox, def, trackID, n, ds, allocOk);
      var code := GroupedCode(def.pdg);
      var found := Find(code, trackID);
      if found.Some? {
        var l := found.value;
        ionStore := ionStore[l := ApplyDeposits(ionStore[l], nvox, n, ds)];
        return true;
      }
      var newIon := NewEntry(def, trackID, allocOk);
      if newIon.None? {
        return false;
      }
      var added := ApplyDeposits(newIon.value, nvox, n, ds);
      ionStore := ionStore + [added];
      return true;
    }

    /** A zeroed entry for a species met for the first time, or None when
        its arrays cannot be allocated. */
    method NewEntry(def: ParticleDef, trackID: int, allocOk: bool) returns (r: Option<Ion>)
      ensures r.Some? <==> allocOk
      ensures r.Some? ==> r.value == NewIon(def, trackID, GetNvoxel())
    {
      var nvox := nX * nY * nZ;
      NVoxelProduct(nX, nY, nZ);
      var eDep := new real[nvox];
      var letN := new real[nvox];
      var letD := new real[nvox];
      var fluence := new real[nvox];
      if !allocOk {
        return None;
      }
      ZeroFill(eDep);
      ZeroFill(letN);
      ZeroFill(letD);
      ZeroFill(fluence);
      r := Some(Ion(trackID == 1, GroupedCode(def.pdg), CutName(def.fullName), def.z, def.a,
                    eDep[..], letN[..], letD[..], fluence[..]));
    }

    /** Add energyDeposit to the species' dose cell at (i, j, k). */
    method FillEdep(i: int, j: int, k: int, energyDeposit: real, trackID: int, def: ParticleDef,
                    allocOk: bool) returns (ok: bool)
      requires Valid() && InGrid(nX, nY, nZ, i, j, k)
      modifies this`ionStore
      ensures Valid()
      ensures 0 <= Index(i, j, k) < GetNvoxel()
      ensures (ionStore, ok) ==
        Fill(old(ionStore), GetNvoxel(), def, trackID, Index(i, j, k), [Deposit(EDep, energyDeposit)], allocOk)
    {
      ok := Accumulate(i, j, k, trackID, def, [Deposit(EDep, energyDeposit)], allocOk);
    }

    /** Add energyDeposit * Lsn to the LET numerator and energyDeposit to the
        denominator; the step length dx takes no part. */
    method FillLet(i: int, j: int, k: int, energyDeposit: real, dx: real, kinEMean: real, trackID: int,
                   def: ParticleDef, mat: MaterialId, dedx: (real, ParticleDef, MaterialId) -> real,
                   allocOk: bool) returns (ok: bool)
      requires Valid() && InGrid(nX, nY, nZ, i, j, k)
      modifies this`ionStore
      ensures Valid()
      ensures 0 <= Index(i, j, k) < GetNvoxel()
      ensures (ionStore, ok) ==
        Fill(old(ionStore), GetNvoxel(), def, trackID, Index(i, j, k),
             LetDeposits(energyDeposit, dedx(kinEMean, def, mat)), allocOk)
    {
      var lsn := dedx(kinEMean, def, mat);
      ok := Accumulate(i, j, k, trackID, def, LetDeposits(energyDeposit, lsn), allocOk);
    }

    /** Add dx / vol to the species' fluence cell at (i, j, k). */
    method FillFluence(i: int, j: int, k: int, dx: real, vol: real, trackID: int, def: ParticleDef,
                       allocOk: bool) returns (ok: bool)
      requires Valid() && InGrid(nX, nY, nZ, i, j, k) && vol != 0.0
      modifies this`ionStore
      ensures Valid()
      ensures 0 <= Index(i, j, k) < GetNvoxel()
      ensures (ionStore, ok) ==
        Fill(old(ionStore), GetNvoxel(), def, trackID, Index(i, j, k), [Deposit(Fluence, dx / vol)], allocOk)
    {
      ok := Accumulate(i, j, k, trackID, def, [Deposit(Fluence, dx / vol)], allocOk);
    }

    /** The header line, with a column per species when species columns
        are on. */
    method WriteHeader() returns (header: seq<string>)
      ensures header == Header(ionStore, secondary)
    {
      header := ["i", "j", "k", "Total"];
      if secondary {
        var l := 0;
        while l < |ionStore|
          invariant 0 <= l <= |ionStore|
          invariant header == ["i", "j", "k", "Total"] + Columns(ionStore[..l])
        {
          assert ionStore[..l + 1][..l] == ionStore[..l];
          header := header + [ionStore[l].Column()];
          l := l + 1;
        }
        assert ionStore[..l] == ionStore;
      }
    }

    /** The line of one voxel: written iff the species total there is
        nonzero (the source adds only the nonzero values). */
    method WriteVoxel(data: seq<seq<real>>, i: int, j: int, k: int, unit: real, scale: real)
      returns (emit: bool, row: Row)
      requires DataShaped(data, GetNvoxel()) && InGrid(nX, nY, nZ, i, j, k) && unit != 0.0
      ensures emit == Emitted(data, nX, nY, nZ, Voxel(i, j, k))
      ensures emit ==> row == MakeRow(data, nX, nY, nZ, Voxel(i, j, k), scale, unit, secondary)
    {
      IndexInRange(nX, nY, nZ, i, j, k);
      var n := Index(i, j, k);
      var total := 0.0;
      var l := 0;
      while l < |data|
        invariant 0 <= l <= |data|
        invariant total == SpeciesSum(data[..l], n)
      {
        assert data[..l + 1][..l] == data[..l];
        if data[l][n] != 0.0 {
          total := total + data[l][n];
        }
        l := l + 1;
      }
      assert data[..l] == data;
      emit := total != 0.0;
      var values := [Scaled(total, scale, unit)];
      if secondary {
        var m := 0;
        while m < |data|
          invariant 0 <= m <= |data|
          invariant values == [Scaled(total, scale, unit)] + ScaledValues(data[..m], n, scale, unit)
        {
          ghost var prefix := data[..m + 1];
          assert prefix[..m] == data[..m] && prefix[m] == data[m];
          assert ScaledValues(prefix, n, scale, unit) ==
            ScaledValues(data[..m], n, scale, unit) + [Scaled(data[m][n], scale, unit)];
          values := values + [Scaled(data[m][n], scale, unit)];
          m := m + 1;
        }
        assert data[..m] == data;
      }
      row := Row(i, j, k, values);
    }

    /** The innermost loop of the writer: voxels (i, j, 0) .. (i, j, nZ-1). */
    method WriteColumn(data: seq<seq<real>>, i: int, j: int, unit: real, scale: real,
                       rows0: seq<Row>, ghost done0: seq<Voxel>)
      returns (rows: seq<Row>, ghost done: seq<Voxel>)
      requires DataShaped(data, GetNvoxel()) && 0 <= i < nX && 0 <= j < nY && unit != 0.0
      requires AllInGrid(nX, nY, nZ, done0) && rows0 == SparseRows(data, nX, nY, nZ, done0, scale, unit, secondary)
      ensures done == done0 + WalkK(i, j, nZ) && AllInGrid(nX, nY, nZ, done)
      ensures rows == SparseRows(data, nX, nY, nZ, done, scale, unit, secondary)
    {
      rows, done := rows0, done0;
      var k := 0;
      while k < nZ
        invariant 0 <= k <= nZ
        invariant done == done0 + WalkK(i, j, k) && AllInGrid(nX, nY, nZ, done)
        invariant rows == SparseRows(data, nX, nY, nZ, done, scale, unit, secondary)
      {
        var emit, row := WriteVoxel(data, i, j, k, unit, scale);
        SparseRowsSnoc(data, nX, nY, nZ, done, Voxel(i, j, k), scale, unit, secondary);
        done := done + [Voxel(i, j, k)];
        if emit {
          rows := rows + [row];
        }
        k := k + 1;
      }
    }

    /** The middle loop of the writer: rows j = 0 .. nY-1 of plane i. */
    method WritePlane(data: seq<seq<real>>, i: int, unit: real, scale: real,
                      rows0: seq<Row>, ghost done0: seq<Voxel>)
      returns (rows: seq<Row>, ghost done: seq<Voxel>)
      requires DataShaped(data, GetNvoxel()) && 0 <= i < nX && unit != 0.0
      requires AllInGrid(nX, nY, nZ, done0) && rows0 == SparseRows(data, nX, nY, nZ, done0, scale, unit, secondary)
      ensures done == done0 + WalkJ(i, nY, nZ) && AllInGrid(nX, nY, nZ, done)
      ensures rows == SparseRows(data, nX, nY, nZ, done, scale, unit, secondary)
    {
      rows, done := rows0, done0;
      var j := 0;
      while j < nY
        invariant 0 <= j <= nY
        invariant done == done0 + WalkJ(i, j, nZ) && AllInGrid(nX, nY, nZ, done)
        invariant rows == SparseRows(data, nX, nY, nZ, done, scale, unit, secondary)
      {
        rows, done := WriteColumn(data, i, j, unit, scale, rows, done);
        WalkJStep(done0, i, j, nZ);
        j := j + 1;
      }
    }

    /** The sparse table writer for one quantity given per species. */
    method StoreAscii(data: seq<seq<real>>, unit: real, scale: real) returns (t: Table)
      requires Valid() && |data| == |ionStore| && DataShaped(data, GetNvoxel()) && unit != 0.0
      ensures t == Table(Header(ionStore, secondary), Lines(data, nX, nY, nZ, scale, unit, secondary))
    {
      var header := WriteHeader();
      var rows: seq<Row> := [];
      ghost var done: seq<Voxel> := [];
      var i := 0;
      while i < nX
        invariant 0 <= i <= nX
        invariant done == WalkI(i, nY, nZ) && AllInGrid(nX, nY, nZ, done)
        invariant rows == SparseRows(data, nX, nY, nZ, done, scale, unit, secondary)
      {
        rows, done := WritePlane(data, i, unit, scale, rows, done);
        WalkIStep(i, nY, nZ);
        i := i + 1;
      }
      t := Table(header, rows);
    }

    /** Edep.out: dose per species in MeV, averaged over the run's events. */
    method StoreEDepAscii(nEvents: int) returns (t: Table)
      requires Valid() && nEvents != 0
      ensures t == Table(Header(ionStore, secondary),
                         Lines(Quantities(ionStore, EDep), nX, nY, nZ, 1.0 / (nEvents as real), MeV, secondary))
    {
      t := StoreAscii(Quantities(ionStore, EDep), MeV, 1.0 / (nEvents as real));
    }

    /** Let.out: letN / letD per species in keV/um, 0 where letD is not
        positive; the store itself is not changed. */
    method StoreLetAscii() returns (t: Table)
      requires Valid()
      ensures t == Table(Header(ionStore, secondary),
                         Lines(LetValues(ionStore, GetNvoxel()), nX, nY, nZ, 1.0, keVPerUm, secondary))
    {
      t := StoreAscii(LetValues(ionStore, GetNvoxel()), keVPerUm, 1.0);
    }

    /** Fluence.out: path length per volume per species, in 1/cm2. */
    method StoreFluenceAscii() returns (t: Table)
      requires Valid()
      ensures t == Table(Header(ionStore, secondary),
                         Lines(Quantities(ionStore, Fluence), nX, nY, nZ, 1.0, 1.0 / cm2, secondary))
    {
      t := StoreAscii(Quantities(ionStore, Fluence), 1.0 / cm2, 1.0);
    }
  }
}
