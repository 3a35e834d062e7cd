/** The LET scorer: grid-wide dose- and track-averaged LET sums plus a
    species store, filled step by step, turned into averages and sorted by
    (Z, A) at the end of the run, and written as a dense table. */
module LetScoring {
  import opened Units
  import opened VoxelGrid
  import opened Particles
  import opened DetectorConstruction

  /** The four per-voxel sums of a species: dose numerator and denominator,
      track numerator and denominator. */
  datatype LetQuantity = DN | DD | TN | TD

  /** What one accepted step adds to each of the four sums. */
  datatype LetAmounts = LetAmounts(dn: real, dd: real, tn: real, td: real)
  {
    function Of(q: LetQuantity): real
    {
      match q
      case DN => dn
      case DD => dd
      case TN => tn
      case TD => td
    }
  }

  /** `(DE + DEEletrons) * Lsn`, `DE + DEEletrons`, `DX * Lsn` and `DX`. */
  function StepAmounts(de: real, deElectrons: real, dx: real, lsn: real): (r: LetAmounts)
    ensures de > 0.0 && deElectrons >= 0.0 ==> r.dd > 0.0
    ensures dx > 0.0 ==> r.td > 0.0
  {
    LetAmounts((de + deElectrons) * lsn, de + deElectrons, dx * lsn, dx)
  }

  /** `struct ionLet`: a species and its per-voxel LET sums. */
  datatype IonLet = IonLet(
    isPrimary: bool,
    pdg: int,
    fullName: string,
    name: string,
    z: int,
    a: int,
    letDN: seq<real>,
    letDD: seq<real>,
    letTN: seq<real>,
    letTD: seq<real>)
  {
    function SpeciesKey(): Key
    {
      Key(pdg, isPrimary)
    }

    /** `ionLet::operator<`: Z ascending, then A ascending. */
    predicate Less(other: IonLet)
    {
      ZALess(z, a, other.z, other.a)
    }

    predicate Shaped(nvox: nat)
    {
      |letDN| == nvox && |letDD| == nvox && |letTN| == nvox && |letTD| == nvox
    }

    function Cells(q: LetQuantity): seq<real>
    {
      match q
      case DN => letDN
      case DD => letDD
      case TN => letTN
      case TD => letTD
    }

    /** The four `+=` of one step at voxel v. */
    function Add(v: nat, m: LetAmounts): IonLet
      requires v < |letDN| && v < |letDD| && v < |letTN| && v < |letTD|
    {
      this.(letDN := letDN[v := letDN[v] + m.dn], letDD := letDD[v := letDD[v] + m.dd],
            letTN := letTN[v := letTN[v] + m.tn], letTD := letTD[v := letTD[v] + m.td])
    }

    /** The numerators divided by their denominators on cells [0, w). */
    function FinalizeUpTo(w: int): IonLet
      requires |letDN| == |letDD| && |letTN| == |letTD|
    {
      this.(letDN := DivideUpTo(letDN, letDD, w), letTN := DivideUpTo(letTN, letTD, w))
    }

    /** The averages LetOutput leaves in a species. */
    function Finalize(): IonLet
      requires Shaped(|letDN|)
    {
      FinalizeUpTo(|letDN|)
    }
  }

  /** ionLet::operator< is a strict weak order (as std::sort requires) in
      which two species are incomparable exactly when their (Z, A) agree:
      the primary flag and the PDG code play no part. */
  lemma IonLetLessStrictWeakOrder(x: IonLet, y: IonLet, w: IonLet)
    ensures !x.Less(x)
    ensures x.Less(y) && y.Less(w) ==> x.Less(w)
    ensures x.Less(y) || y.Less(x) || (x.z == y.z && x.a == y.a)
    ensures !(x.Less(y) && y.Less(x))
    ensures !x.Less(y) && !y.Less(x) <==> x.z == y.z && x.a == y.a
  {
    ZALessIrreflexive(x.z, x.a);
    if x.Less(y) && y.Less(w) {
      ZALessTransitive(x.z, x.a, y.z, y.a, w.z, w.a);
    }
    ZATrichotomy(x.z, x.a, y.z, y.a);
  }

  function LetKeys(store: seq<IonLet>): (r: seq<Key>)
    ensures |r| == |store|
    ensures forall l :: 0 <= l < |store| ==> r[l] == store[l].SpeciesKey()
  {
    if store == [] then [] else LetKeys(store[..|store| - 1]) + [store[|store| - 1].SpeciesKey()]
  }

  predicate StoreShaped(store: seq<IonLet>, nvox: nat)
  {
    forall l :: 0 <= l < |store| ==> store[l].Shaped(nvox)
  }

  /** No two species share a key. */
  predicate DistinctKeys(store: seq<IonLet>)
  {
    Distinct(LetKeys(store))
  }

  /** The species appended on a miss, before the step's sums are added. */
  function NewIonLet(def: ParticleDef, trackID: int, nvox: nat): (r: IonLet)
    ensures r.Shaped(nvox) && r.SpeciesKey() == KeyOf(def, trackID)
  {
    IonLet(trackID == 1, GroupedCode(def.pdg), def.fullName, CutName(def.fullName), def.z, def.a,
           Zeros(nvox), Zeros(nvox), Zeros(nvox), Zeros(nvox))
  }

  /** The species part of one accepted step: search by key, append a zeroed
      species on a miss, then add the step's amounts at voxel v. */
  function LetFill(store: seq<IonLet>, nvox: nat, def: ParticleDef, trackID: int, v: nat, m: LetAmounts): seq<IonLet>
    requires StoreShaped(store, nvox) && v < nvox
  {
    match Locate(LetKeys(store), KeyOf(def, trackID))
    case Some(l) => store[l := store[l].Add(v, m)]
    case None => store + [NewIonLet(def, trackID, nvox).Add(v, m)]
  }

  /** Position LetFill adds into: the match, or |store| after an append. */
  function LetTarget(store: seq<IonLet>, key: Key): nat
  {
    match Locate(LetKeys(store), key)
    case Some(l) => l
    case None => |store|
  }

  /** LetFill keeps every species shaped and the keys distinct, appends at
      most one species, and an appended species carries the full name, the
      cut name, Z, A and the key of the step's particle. */
  lemma LetFillOutcome(store: seq<IonLet>, nvox: nat, def: ParticleDef, trackID: int, v: nat, m: LetAmounts)
    requires StoreShaped(store, nvox) && DistinctKeys(store) && v < nvox
    ensures var r := LetFill(store, nvox, def, trackID, v, m);
      var t := LetTarget(store, KeyOf(def, trackID));
      && StoreShaped(r, nvox) && DistinctKeys(r)
      && |r| == (if KeyOf(def, trackID) in LetKeys(store) then |store| else |store| + 1)
      && t < |r| && r[t].SpeciesKey() == KeyOf(def, trackID)
      && (forall e :: 0 <= e < |store| ==> r[e].SpeciesKey() == store[e].SpeciesKey())
      && (t == |store| ==>
            r[t].fullName == def.fullName && r[t].name == CutName(def.fullName) && r[t].z == def.z && r[t].a == def.a)
  {
    LetFillShape(store, nvox, def, trackID, v, m);
    var key := KeyOf(def, trackID);
    match Locate(LetKeys(store), key)
    case Some(l) =>
      DistinctKeysReplace(store, l, store[l].Add(v, m));
    case None =>
      forall e | 0 <= e < |store|
        ensures store[e].SpeciesKey() != key
      {
        assert LetKeys(store)[e] == store[e].SpeciesKey();
      }
      DistinctKeysAppend(store, NewIonLet(def, trackID, nvox).Add(v, m));
  }

  /** The part of LetFillOutcome that holds without distinct keys. */
  lemma LetFillShape(store: seq<IonLet>, nvox: nat, def: ParticleDef, trackID: int, v: nat, m: LetAmounts)
    requires StoreShaped(store, nvox) && v < nvox
    ensures var r := LetFill(store, nvox, def, trackID, v, m);
      var t := LetTarget(store, KeyOf(def, trackID));
      && StoreShaped(r, nvox)
      && |r| == (if KeyOf(def, trackID) in LetKeys(store) then |store| else |store| + 1)
      && t < |r| && r[t].SpeciesKey() == KeyOf(def, trackID)
      && (forall e :: 0 <= e < |store| ==> r[e].SpeciesKey() == store[e].SpeciesKey())
      && (t == |store| ==>
            r[t].fullName == def.fullName && r[t].name == CutName(def.fullName) && r[t].z == def.z && r[t].a == def.a)
  {
    var key := KeyOf(def, trackID);
    var r := LetFill(store, nvox, def, trackID, v, m);
    match Locate(LetKeys(store), key)
    case Some(l) =>
      assert r == store[l := store[l].Add(v, m)];
    case None =>
      assert r == store + [NewIonLet(def, trackID, nvox).Add(v, m)];
  }

  /** Replacing a species by one with the same key keeps keys distinct. */
  lemma DistinctKeysReplace(store: seq<IonLet>, l: nat, u: IonLet)
    requires DistinctKeys(store) && l < |store| && u.SpeciesKey() == store[l].SpeciesKey()
    ensures DistinctKeys(store[l := u])
    ensures forall e :: 0 <= e < |store| ==> store[l := u][e].SpeciesKey() == store[e].SpeciesKey()
  {
    assert LetKeys(store[l := u]) == LetKeys(store);
  }

  /** Appending a species whose key is new keeps keys distinct. */
  lemma DistinctKeysAppend(store: seq<IonLet>, u: IonLet)
    requires DistinctKeys(store) && forall e :: 0 <= e < |store| ==> store[e].SpeciesKey() != u.SpeciesKey()
    ensures DistinctKeys(store + [u])
    ensures forall e :: 0 <= e < |store| ==> (store + [u])[e] == store[e]
  {
    assert LetKeys(store + [u]) == LetKeys(store) + [u.SpeciesKey()];
  }

  /** After LetFill, cell c of quantity q of species e holds what it held
      (zero for an appended species) plus, at the filled species and voxel
      only, the step's amount for q. */
  lemma LetFillCells(store: seq<IonLet>, nvox: nat, def: ParticleDef, trackID: int, v: nat, m: LetAmounts,
                     e: nat, q: LetQuantity, c: nat)
    requires StoreShaped(store, nvox) && v < nvox && c < nvox
    requires e < |LetFill(store, nvox, def, trackID, v, m)|
    ensures LetFill(store, nvox, def, trackID, v, m)[e].Cells(q)[c] ==
      (if e < |store| then store[e].Cells(q)[c] else 0.0) +
      (if e == LetTarget(store, KeyOf(def, trackID)) && c == v then m.Of(q) else 0.0)
  {
  }

  /** A numerator/denominator pair that LetOutput can average: the
      denominator is never negative and is zero only where nothing was
      added. */
  predicate Consistent(num: seq<real>, den: seq<real>)
  {
    |num| == |den| && forall c :: 0 <= c < |den| ==> den[c] >= 0.0 && (den[c] == 0.0 ==> num[c] == 0.0)
  }

  predicate StoreConsistent(store: seq<IonLet>)
  {
    forall l :: 0 <= l < |store| ==>
      Consistent(store[l].letDN, store[l].letDD) && Consistent(store[l].letTN, store[l].letTD)
  }

  function AddAt(s: seq<real>, v: nat, x: real): (r: seq<real>)
    requires v < |s|
    ensures |r| == |s| && r[v] == s[v] + x && forall c :: 0 <= c < |s| && c != v ==> r[c] == s[c]
  {
    s[v := s[v] + x]
  }

  /** Adding a positive amount to a denominator keeps the pair consistent,
      whatever is added to the numerator. */
  lemma AddAtConsistent(num: seq<real>, den: seq<real>, v: nat, x: real, y: real)
    requires Consistent(num, den) && v < |den| && y > 0.0
    ensures Consistent(AddAt(num, v, x), AddAt(den, v, y))
  {
  }

  /** With positive denominator amounts (a step with DE > 0, DX > 0 and
      DEEletrons >= 0) LetFill keeps every species consistent. */
  lemma LetFillConsistent(store: seq<IonLet>, nvox: nat, def: ParticleDef, trackID: int, v: nat, m: LetAmounts)
    requires StoreShaped(store, nvox) && StoreConsistent(store) && v < nvox
    requires m.dd > 0.0 && m.td > 0.0
    ensures StoreConsistent(LetFill(store, nvox, def, trackID, v, m))
  {
    var r := LetFill(store, nvox, def, trackID, v, m);
    match Locate(LetKeys(store), KeyOf(def, trackID))
    case Some(l) =>
      AddAtConsistent(store[l].letDN, store[l].letDD, v, m.dn, m.dd);
      AddAtConsistent(store[l].letTN, store[l].letTD, v, m.tn, m.td);
      assert r[l].letDN == AddAt(store[l].letDN, v, m.dn) && r[l].letDD == AddAt(store[l].letDD, v, m.dd);
      assert r[l].letTN == AddAt(store[l].letTN, v, m.tn) && r[l].letTD == AddAt(store[l].letTD, v, m.td);
    case None =>
      var fresh0 := NewIonLet(def, trackID, nvox);
      assert Consistent(fresh0.letDN, fresh0.letDD) && Consistent(fresh0.letTN, fresh0.letTD);
      AddAtConsistent(fresh0.letDN, fresh0.letDD, v, m.dn, m.dd);
      AddAtConsistent(fresh0.letTN, fresh0.letTD, v, m.tn, m.td);
      assert r[|store|].letDN == AddAt(fresh0.letDN, v, m.dn) && r[|store|].letDD == AddAt(fresh0.letDD, v, m.dd);
      assert r[|store|].letTN == AddAt(fresh0.letTN, v, m.tn) && r[|store|].letTD == AddAt(fresh0.letTD, v, m.td);
  }

  /** `if (den > 0) num = num / den` on cells [0, w); the rest unchanged. */
  function DivideUpTo(num: seq<real>, den: seq<real>, w: int): (r: seq<real>)
    requires |num| == |den|
    ensures |r| == |num|
    ensures forall c :: 0 <= c < |num| && c < w && den[c] > 0.0 ==> r[c] * den[c] == num[c]
    ensures forall c :: 0 <= c < |num| && !(c < w && den[c] > 0.0) ==> r[c] == num[c]
  {
    seq(|num|, c requires 0 <= c < |num| => if c < w && den[c] > 0.0 then num[c] / den[c] else num[c])
  }

  /** The division LetOutput applies to a whole array. */
  function DivideWhere(num: seq<real>, den: seq<real>): (r: seq<real>)
    requires |num| == |den|
    ensures |r| == |num|
    ensures forall c :: 0 <= c < |num| && den[c] > 0.0 ==> r[c] * den[c] == num[c]
    ensures forall c :: 0 <= c < |num| && den[c] <= 0.0 ==> r[c] == num[c]
  {
    DivideUpTo(num, den, |num|)
  }

  /** There is no "already divided" flag: dividing a second time divides
      again wherever the denominator is neither 0 nor 1. */
  lemma DivideWhereNotIdempotent()
    ensures DivideWhere([6.0], [2.0]) == [3.0]
    ensures DivideWhere(DivideWhere([6.0], [2.0]), [2.0]) == [1.5]
  {
    assert DivideWhere([6.0], [2.0])[0] == 3.0;
    assert DivideWhere([3.0], [2.0])[0] == 1.5;
  }

  /** Dividing cell w on top of cells [0, w) gives cells [0, w + 1). */
  lemma FinalizeStep(ion: IonLet, w: nat)
    requires |ion.letDN| == |ion.letDD| == |ion.letTN| == |ion.letTD| && w < |ion.letDN|
    ensures var f := ion.FinalizeUpTo(w);
      f.(letDN := f.letDN[w := if ion.letDD[w] > 0.0 then f.letDN[w] / ion.letDD[w] else f.letDN[w]],
         letTN := f.letTN[w := if ion.letTD[w] > 0.0 then f.letTN[w] / ion.letTD[w] else f.letTN[w]])
      == ion.FinalizeUpTo(w + 1)
  {
    var f := ion.FinalizeUpTo(w);
    var g := ion.FinalizeUpTo(w + 1);
    assert f.letDN[w := if ion.letDD[w] > 0.0 then f.letDN[w] / ion.letDD[w] else f.letDN[w]] == g.letDN;
    assert f.letTN[w := if ion.letTD[w] > 0.0 then f.letTN[w] / ion.letTD[w] else f.letTN[w]] == g.letTN;
  }

  /** Every species averaged, in store order. */
  function FinalizeAll(store: seq<IonLet>): (r: seq<IonLet>)
    requires forall l :: 0 <= l < |store| ==> store[l].Shaped(|store[l].letDN|)
    ensures |r| == |store| && forall l :: 0 <= l < |store| ==> r[l] == store[l].Finalize()
  {
    seq(|store|, l requires 0 <= l < |store| => store[l].Finalize())
  }

  /** Averaging changes only numerators: keys, names, Z, A, denominators
      and shapes stay, so the (Z, A) order and distinct keys survive it. */
  lemma FinalizeAllKeepsSpecies(store: seq<IonLet>, nvox: nat)
    requires StoreShaped(store, nvox)
    ensures StoreShaped(FinalizeAll(store), nvox)
    ensures forall l :: 0 <= l < |store| ==>
      var f := FinalizeAll(store)[l];
      f.SpeciesKey() == store[l].SpeciesKey() && f.name == store[l].name && f.z == store[l].z &&
      f.a == store[l].a && f.letDD == store[l].letDD && f.letTD == store[l].letTD
    ensures Sorted(store) ==> Sorted(FinalizeAll(store))
    ensures DistinctKeys(store) ==> DistinctKeys(FinalizeAll(store))
  {
  }

  /** Sorted by operator<: no species is Less than one before it. */
  predicate Sorted(s: seq<IonLet>)
  {
    forall a, b :: 0 <= a < b < |s| ==> !s[b].Less(s[a])
  }

  /** One insertion step: x goes after every species not greater than it. */
  function Insert(s: seq<IonLet>, x: IonLet): seq<IonLet>
  {
    if s == [] then [x]
    else if x.Less(s[0]) then [x] + s
    else [s[0]] + Insert(s[1..], x)
  }

  /** Insertion adds exactly x. */
  lemma {:induction false} InsertMultiset(s: seq<IonLet>, x: IonLet)
    ensures multiset(Insert(s, x)) == multiset(s) + multiset{x}
    ensures forall b :: 0 <= b < |Insert(s, x)| ==> Insert(s, x)[b] == x || Insert(s, x)[b] in s
  {
    if s != [] && !x.Less(s[0]) {
      InsertMultiset(s[1..], x);
      assert s == [s[0]] + s[1..];
      var r := Insert(s, x);
      forall b | 0 <= b < |r|
        ensures r[b] == x || r[b] in s
      {
        if b > 0 {
          assert r[b] == Insert(s[1..], x)[b - 1];
        }
      }
    }
  }

  /** Putting x in front of a sorted sequence none of whose elements is
      below x keeps it sorted. */
  lemma PrependSorted(x: IonLet, s: seq<IonLet>)
    requires Sorted(s)
    requires forall b :: 0 <= b < |s| ==> !s[b].Less(x)
    ensures Sorted([x] + s)
  {
    var r := [x] + s;
    forall a, b | 0 <= a < b < |r|
      ensures !r[b].Less(r[a])
    {
      assert r[b] == s[b - 1];
      if a > 0 {
        assert r[a] == s[a - 1];
      }
    }
  }

  /** Insertion keeps the order. */
  lemma {:induction false} InsertSorted(s: seq<IonLet>, x: IonLet)
    requires Sorted(s)
    ensures Sorted(Insert(s, x))
  {
    if s == [] {
    } else if x.Less(s[0]) {
      forall b | 0 <= b < |s|
        ensures !s[b].Less(x)
      {
        IonLetLessStrictWeakOrder(s[b], x, s[0]);
      }
      PrependSorted(x, s);
    } else {
      var tail := s[1..];
      assert Sorted(tail) by {
        forall a, b | 0 <= a < b < |tail|
          ensures !tail[b].Less(tail[a])
        {
          assert tail[a] == s[a + 1] && tail[b] == s[b + 1];
        }
      }
      InsertSorted(tail, x);
      InsertMultiset(tail, x);
      var it := Insert(tail, x);
      forall b | 0 <= b < |it|
        ensures !it[b].Less(s[0])
      {
        if it[b] != x {
          var m :| 0 <= m < |tail| && tail[m] == it[b];
          assert s[m + 1] == tail[m];
        }
      }
      PrependSorted(s[0], it);
    }
  }


  /** Putting x in front of a store without repeated keys, none of them
      x's key, keeps the keys distinct. */
  lemma PrependDistinct(x: IonLet, s: seq<IonLet>)
    requires DistinctKeys(s) && forall b :: 0 <= b < |s| ==> s[b].SpeciesKey() != x.SpeciesKey()
    ensures DistinctKeys([x] + s)
  {
    var r := [x] + s;
    forall a, b | 0 <= a < b < |r|
      ensures r[a].SpeciesKey() != r[b].SpeciesKey()
    {
      assert r[b] == s[b - 1];
      if a > 0 {
        assert r[a] == s[a - 1];
      }
    }
  }

  /** Inserting a species whose key is new keeps the keys distinct. */
  lemma {:induction false} InsertDistinct(s: seq<IonLet>, x: IonLet)
    requires DistinctKeys(s) && forall e :: 0 <= e < |s| ==> s[e].SpeciesKey() != x.SpeciesKey()
    ensures DistinctKeys(Insert(s, x))
  {
    if s == [] {
    } else if x.Less(s[0]) {
      PrependDistinct(x, s);
    } else {
      var tail := s[1..];
      assert DistinctKeys(tail) by {
        forall a, b | 0 <= a < b < |tail|
          ensures tail[a].SpeciesKey() != tail[b].SpeciesKey()
        {
          assert tail[a] == s[a + 1] && tail[b] == s[b + 1];
        }
      }
      forall e | 0 <= e < |tail|
        ensures tail[e].SpeciesKey() != x.SpeciesKey()
      {
        assert tail[e] == s[e + 1];
      }
      InsertDistinct(tail, x);
      InsertMultiset(tail, x);
      var it := Insert(tail, x);
      forall b | 0 <= b < |it|
        ensures it[b].SpeciesKey() != s[0].SpeciesKey()
      {
        if it[b] != x {
          var m :| 0 <= m < |tail| && tail[m] == it[b];
          assert s[m + 1] == tail[m];
        }
      }
      PrependDistinct(s[0], it);
    }
  }


  /** A permutation of the first n species holds none with the key of
      species n, when keys are distinct. */
  lemma PrefixKeysDiffer(s: seq<IonLet>, n: nat, r: seq<IonLet>)
    requires DistinctKeys(s) && n < |s| && multiset(r) == multiset(s[..n])
    ensures forall e :: 0 <= e < |r| ==> r[e].SpeciesKey() != s[n].SpeciesKey()
  {
    forall e | 0 <= e < |r|
      ensures r[e].SpeciesKey() != s[n].SpeciesKey()
    {
      assert r[e] in multiset(s[..n]);
      var m :| 0 <= m < n && s[..n][m] == r[e];
      assert s[m] == r[e];
    }
  }

  /** One pass of the insertion loop keeps its invariant. */
  lemma InsertStep(s: seq<IonLet>, n: nat, r: seq<IonLet>)
    requires n < |s| && Sorted(r) && multiset(r) == multiset(s[..n])
    requires DistinctKeys(s) ==> DistinctKeys(r)
    ensures Sorted(Insert(r, s[n])) && multiset(Insert(r, s[n])) == multiset(s[..n + 1])
    ensures DistinctKeys(s) ==> DistinctKeys(Insert(r, s[n]))
  {
    InsertSorted(r, s[n]);
    InsertMultiset(r, s[n]);
    if DistinctKeys(s) {
      PrefixKeysDiffer(s, n, r);
      InsertDistinct(r, s[n]);
    }
    assert s[..n + 1] == s[..n] + [s[n]];
  }

  /** `std::sort(ionLetStore)`: the result is ordered by (Z, A) and is a
      permutation of the input; with distinct keys in, distinct keys out. */
  method SortByZA(s: seq<IonLet>) returns (r: seq<IonLet>)
    ensures Sorted(r) && multiset(r) == multiset(s)
    ensures DistinctKeys(s) ==> DistinctKeys(r)
  {
    r := [];
    var n := 0;
    while n < |s|
      invariant 0 <= n <= |s|
      invariant Sorted(r) && multiset(r) == multiset(s[..n])
      invariant DistinctKeys(s) ==> DistinctKeys(r)
    {
      InsertStep(s, n, r);
      r := Insert(r, s[n]);
      n := n + 1;
    }
    assert s[..n] == s;
  }

  /** The sort is not stable and the order leaves species of equal (Z, A)
      (a primary and a secondary of one nuclide) in either order: both
      orders are sorted permutations of each other. */
  lemma EqualZAOrderUnspecified(x: IonLet)
    ensures var y := x.(isPrimary := !x.isPrimary);
      x != y && Sorted([x, y]) && Sorted([y, x]) && multiset([x, y]) == multiset([y, x])
  {
    ZALessIrreflexive(x.z, x.a);
  }

  /** `value / (keV/um)`: a LET as written. */
  function InKeVPerUm(x: real): real
  {
    x / keVPerUm
  }

  /** Header columns of one species: dose LET then track LET, with "_1" for
      the primary. */
  function SpeciesColumns(ion: IonLet): seq<string>
  {
    [ion.name + (if ion.isPrimary then "_1_D" else "_D"), ion.name + (if ion.isPrimary then "_1_T" else "_T")]
  }

  /** Header columns of the whole store, two per species in store order. */
  function LetColumns(store: seq<IonLet>): (r: seq<string>)
    ensures |r| == 2 * |store|
    ensures forall l :: 0 <= l < |store| ==> r[2 * l .. 2 * l + 2] == SpeciesColumns(store[l])
  {
    if store == [] then []
    else
      var init := store[..|store| - 1];
      var r := LetColumns(init) + SpeciesColumns(store[|store| - 1]);
      assert forall l :: 0 <= l < |init| ==> r[2 * l .. 2 * l + 2] == LetColumns(init)[2 * l .. 2 * l + 2];
      r
  }

  function LetHeader(store: seq<IonLet>): seq<string>
  {
    ["i", "j", "k", "LDT", "LTT"] + LetColumns(store)
  }

  /** Each species' dose LET and track LET at voxel v, in store order. */
  function SpeciesLets(store: seq<IonLet>, v: nat): (r: seq<real>)
    requires forall l :: 0 <= l < |store| ==> v < |store[l].letDN| && v < |store[l].letTN|
    ensures |r| == 2 * |store|
    ensures forall l :: 0 <= l < |store| ==>
      r[2 * l] == InKeVPerUm(store[l].letDN[v]) && r[2 * l + 1] == InKeVPerUm(store[l].letTN[v])
  {
    if store == [] then []
    else
      var s := store[|store| - 1];
      SpeciesLets(store[..|store| - 1], v) + [InKeVPerUm(s.letDN[v]), InKeVPerUm(s.letTN[v])]
  }

  /** The line of voxel x: indices, total dose and track LET, and both LETs
      of every species. */
  function LetRow(totalD: seq<real>, totalT: seq<real>, store: seq<IonLet>, nx: nat, ny: nat, nz: nat, x: Voxel): Row
    requires |totalD| == |totalT| == NVoxel(nx, ny, nz) && StoreShaped(store, NVoxel(nx, ny, nz))
    requires InGrid(nx, ny, nz, x.i, x.j, x.k)
  {
    IndexInRange(nx, ny, nz, x.i, x.j, x.k);
    var v := Index(ny, nz, x.i, x.j, x.k);
    Row(x.i, x.j, x.k, [InKeVPerUm(totalD[v]), InKeVPerUm(totalT[v])] + SpeciesLets(store, v))
  }


  /** The lines written while walking vs: one per voxel, none suppressed. */
  function DenseRows(totalD: seq<real>, totalT: seq<real>, store: seq<IonLet>, nx: nat, ny: nat, nz: nat,
                     vs: seq<Voxel>): (r: seq<Row>)
    requires |totalD| == |totalT| == NVoxel(nx, ny, nz) && StoreShaped(store, NVoxel(nx, ny, nz))
    requires AllInGrid(nx, ny, nz, vs)
    ensures |r| == |vs|
    ensures forall m :: 0 <= m < |vs| ==> r[m] == LetRow(totalD, totalT, store, nx, ny, nz, vs[m])
  {
    if vs == [] then []
    else
      var init := vs[..|vs| - 1];
      assert AllInGrid(nx, ny, nz, init);
      DenseRows(totalD, totalT, store, nx, ny, nz, init) +
        [LetRow(totalD, totalT, store, nx, ny, nz, vs[|vs| - 1])]
  }

  /** The data lines of Let.out. */
  lemma DenseRowsSnoc(totalD: seq<real>, totalT: seq<real>, store: seq<IonLet>, nx: nat, ny: nat, nz: nat,
                      vs: seq<Voxel>, x: Voxel)
    requires |totalD| == |totalT| == NVoxel(nx, ny, nz) && StoreShaped(store, NVoxel(nx, ny, nz))
    requires AllInGrid(nx, ny, nz, vs) && InGrid(nx, ny, nz, x.i, x.j, x.k)
    ensures AllInGrid(nx, ny, nz, vs + [x])
    ensures DenseRows(totalD, totalT, store, nx, ny, nz, vs + [x]) ==
      DenseRows(totalD, totalT, store, nx, ny, nz, vs) + [LetRow(totalD, totalT, store, nx, ny, nz, x)]
  {
    assert (vs + [x])[..|vs|] == vs;
  }

  function LetLines(totalD: seq<real>, totalT: seq<real>, store: seq<IonLet>, nx: nat, ny: nat, nz: nat): seq<Row>
    requires |totalD| == |totalT| == NVoxel(nx, ny, nz) && StoreShaped(store, NVoxel(nx, ny, nz))
  {
    VoxelsInIndexOrder(nx, ny, nz);
    DenseRows(totalD, totalT, store, nx, ny, nz, Voxels(nx, ny, nz))
  }

  /** Let.out has one line per voxel, the line of voxel (i, j, k) at position
      Index(i, j, k): every voxel in (i, j, k) order, zero lines included. */
  lemma LetLinesExact(totalD: seq<real>, totalT: seq<real>, store: seq<IonLet>, nx: nat, ny: nat, nz: nat)
    requires |totalD| == |totalT| == NVoxel(nx, ny, nz) && StoreShaped(store, NVoxel(nx, ny, nz))
    ensures |LetLines(totalD, totalT, store, nx, ny, nz)| == NVoxel(nx, ny, nz)
    ensures forall i, j, k :: InGrid(nx, ny, nz, i, j, k) ==>
      0 <= Index(ny, nz, i, j, k) < NVoxel(nx, ny, nz) &&
      LetLines(totalD, totalT, store, nx, ny, nz)[Index(ny, nz, i, j, k)] ==
        LetRow(totalD, totalT, store, nx, ny, nz, Voxel(i, j, k))
  {
    VoxelsInIndexOrder(nx, ny, nz);
    forall i, j, k | InGrid(nx, ny, nz, i, j, k)
      ensures 0 <= Index(ny, nz, i, j, k) < NVoxel(nx, ny, nz)
      ensures LetLines(totalD, totalT, store, nx, ny, nz)[Index(ny, nz, i, j, k)] ==
        LetRow(totalD, totalT, store, nx, ny, nz, Voxel(i, j, k))
    {
      VoxelsCoverGrid(nx, ny, nz, i, j, k);
    }
  }

  /** A permutation of a shaped store is shaped. */
  lemma PermutationShaped(s: seq<IonLet>, t: seq<IonLet>, nvox: nat)
    requires StoreShaped(s, nvox) && multiset(t) == multiset(s)
    ensures StoreShaped(t, nvox)
  {
    forall l | 0 <= l < |t|
      ensures t[l].Shaped(nvox)
    {
      assert t[l] in multiset(s);
      var m :| 0 <= m < |s| && s[m] == t[l];
    }
  }

  predicate Accepted(doCalculation: bool, def: ParticleDef, de: real, dx: real)
  {
    de > 0.0 && dx > 0.0 && doCalculation && def.z >= 1
  }

  class Let {
    const det: PDD1DetectorConstruction
    const numberOfVoxelAlongX: nat
    const numberOfVoxelAlongY: nat
    const numberOfVoxelAlongZ: nat
    const nVoxels: nat
    /** Grid-wide dose LET numerator and denominator, track LET numerator
        and denominator. */
    const totalLetD: array<real>
    const dTotalLetD: array<real>
    const totalLetT: array<real>
    const dTotalLetT: array<real>
    var ionLetStore: seq<IonLet>
    /** The class-wide switch that turns the scorer on. */
    var doCalculation: bool

    ghost predicate Valid()
      reads this, det
    {
      && det.nx == numberOfVoxelAlongX && det.ny == numberOfVoxelAlongY && det.nz == numberOfVoxelAlongZ
      && nVoxels == NVoxel(numberOfVoxelAlongX, numberOfVoxelAlongY, numberOfVoxelAlongZ)
      && totalLetD.Length == nVoxels && dTotalLetD.Length == nVoxels
      && totalLetT.Length == nVoxels && dTotalLetT.Length == nVoxels
      && totalLetD != dTotalLetD && totalLetD != totalLetT && totalLetD != dTotalLetT
      && dTotalLetD != totalLetT && dTotalLetD != dTotalLetT && totalLetT != dTotalLetT
      && StoreShaped(ionLetStore, nVoxels) && DistinctKeys(ionLetStore)
    }

    /** Copies the segmentation and allocates the four total arrays, which
        are not zeroed here (Initialize does that). */
    constructor (pDet: PDD1DetectorConstruction)
      requires pDet.nx >= 0 && pDet.ny >= 0 && pDet.nz >= 0
      ensures Valid() && det == pDet && ionLetStore == [] && doCalculation
      ensures fresh(totalLetD) && fresh(dTotalLetD) && fresh(totalLetT) && fresh(dTotalLetT)
    {
      det := pDet;
      numberOfVoxelAlongX := pDet.GetNumberOfVoxelAlongX();
      numberOfVoxelAlongY := pDet.GetNumberOfVoxelAlongY();
      numberOfVoxelAlongZ := pDet.GetNumberOfVoxelAlongZ();
      var n := pDet.nx * pDet.ny * pDet.nz;
      NVoxelProduct(pDet.nx, pDet.ny, pDet.nz);
      nVoxels := n;
      totalLetD := new real[n];
      dTotalLetD := new real[n];
      totalLetT := new real[n];
      dTotalLetT := new real[n];
      ionLetStore := [];
      doCalculation := true;
    }

    /** Zero the four totals and empty the store. */
    method Initialize()
      requires Valid()
      modifies this`ionLetStore, totalLetD, dTotalLetD, totalLetT, dTotalLetT
      ensures Valid() && ionLetStore == []
      ensures totalLetD[..] == Zeros(nVoxels) && dTotalLetD[..] == Zeros(nVoxels)
      ensures totalLetT[..] == Zeros(nVoxels) && dTotalLetT[..] == Zeros(nVoxels)
    {
      ZeroFill(totalLetD);
      ZeroFill(dTotalLetD);
      ZeroFill(totalLetT);
      ZeroFill(dTotalLetT);
      Clear();
    }

    method Clear()
      modifies this`ionLetStore
      ensures ionLetStore == []
    {
      ionLetStore := [];
    }

    /** The species search, with the source's match test. */
    method Find(code: int, trackID: int) returns (found: Option<nat>)
      ensures found == Locate(LetKeys(ionLetStore), Key(code, trackID == 1))
    {
      var l := 0;
      while l < |ionLetStore|
        invariant 0 <= l <= |ionLetStore|
        invariant forall m :: 0 <= m < l ==> LetKeys(ionLetStore)[m] != Key(code, trackID == 1)
      {
        if ionLetStore[l].pdg == code && ((trackID == 1 && ionLetStore[l].isPrimary) || (trackID != 1 && !ionLetStore[l].isPrimary)) {
          assert LetKeys(ionLetStore)[l] == Key(code, trackID == 1);
          return Some(l);
        }
        l := l + 1;
      }
      return None;
    }

    /** The species appended on a miss, its four arrays zeroed. */
    method NewSpecies(def: ParticleDef, trackID: int) returns (ion: IonLet)
      ensures ion == NewIonLet(def, trackID, nVoxels)
    {
      var letDN := new real[nVoxels];
      var letDD := new real[nVoxels];
      var letTN := new real[nVoxels];
      var letTD := new real[nVoxels];
      ZeroFill(letDN);
      ZeroFill(letDD);
      ZeroFill(letTN);
      ZeroFill(letTD);
      ion := IonLet(trackID == 1, GroupedCode(def.pdg), def.fullName, CutName(def.fullName), def.z, def.a,
                    letDN[..], letDD[..], letTN[..], letTD[..]);
    }

    /** The effect of one FillEnergySpectrum call. An accepted step adds
        its amounts to the voxel's four totals and to its species' four sums
        at that voxel; any other step changes nothing. */
    twostate predicate Filled(trackID: int, def: ParticleDef, ekinMean: real, mat: MaterialId,
                              de: real, deElectrons: real, dx: real, i: int, j: int, k: int,
                              dedx: (real, ParticleDef, MaterialId) -> real)
      reads this, det, totalLetD, dTotalLetD, totalLetT, dTotalLetT
    {
      if Accepted(doCalculation, def, de, dx) then
        var v := det.Index(i, j, k);
        var m := StepAmounts(de, deElectrons, dx, dedx(ekinMean, def, mat));
        && 0 <= v < nVoxels == totalLetD.Length == dTotalLetD.Length == totalLetT.Length == dTotalLetT.Length
        && totalLetD[..] == AddAt(old(totalLetD[..]), v, m.dn)
        && dTotalLetD[..] == AddAt(old(dTotalLetD[..]), v, m.dd)
        && totalLetT[..] == AddAt(old(totalLetT[..]), v, m.tn)
        && dTotalLetT[..] == AddAt(old(dTotalLetT[..]), v, m.td)
        && StoreShaped(old(ionLetStore), nVoxels)
        && ionLetStore == LetFill(old(ionLetStore), nVoxels, def, trackID, v, m)
      else
        && ionLetStore == old(ionLetStore) && totalLetD[..] == old(totalLetD[..])
        && dTotalLetD[..] == old(dTotalLetD[..]) && totalLetT[..] == old(totalLetT[..])
        && dTotalLetT[..] == old(dTotalLetT[..])
    }

    /** One step: nothing unless DE > 0, DX > 0, the scorer is on and Z >= 1;
        otherwise the step's amounts go to the voxel's four totals and to
        the species' four sums at that voxel. */
    method FillEnergySpectrum(trackID: int, def: ParticleDef, ekinMean: real, mat: MaterialId,
                              de: real, deElectrons: real, dx: real, i: int, j: int, k: int,
                              dedx: (real, ParticleDef, MaterialId) -> real)
      requires Valid()
      requires Accepted(doCalculation, def, de, dx) ==>
        InGrid(numberOfVoxelAlongX, numberOfVoxelAlongY, numberOfVoxelAlongZ, i, j, k)
      modifies this`ionLetStore, totalLetD, dTotalLetD, totalLetT, dTotalLetT
      ensures Valid()
      ensures Filled(trackID, def, ekinMean, mat, de, deElectrons, dx, i, j, k, dedx)
    {
      if de <= 0.0 || dx <= 0.0 {
        return;
      }
      if !doCalculation {
        return;
      }
      if def.z < 1 {
        return;
      }
      var v := det.Index(i, j, k);
      var m := StepAmounts(de, deElectrons, dx, dedx(ekinMean, def, mat));
      AddTotals(v, m);
      UpdateSpecies(def, trackID, v, m);
    }

    /** The step's amounts added to the voxel's four grid-wide totals. */
    method AddTotals(v: nat, m: LetAmounts)
      requires Valid() && v < nVoxels
      modifies totalLetD, dTotalLetD, totalLetT, dTotalLetT
      ensures totalLetD[..] == AddAt(old(totalLetD[..]), v, m.dn)
      ensures dTotalLetD[..] == AddAt(old(dTotalLetD[..]), v, m.dd)
      ensures totalLetT[..] == AddAt(old(totalLetT[..]), v, m.tn)
      ensures dTotalLetT[..] == AddAt(old(dTotalLetT[..]), v, m.td)
    {
      totalLetD[v] := totalLetD[v] + m.dn;
      dTotalLetD[v] := dTotalLetD[v] + m.dd;
      totalLetT[v] := totalLetT[v] + m.tn;
      dTotalLetT[v] := dTotalLetT[v] + m.td;
    }

    /** The step's amounts added to its species at the voxel, the species
        appended first when it is new. */
    method UpdateSpecies(def: ParticleDef, trackID: int, v: nat, m: LetAmounts)
      requires StoreShaped(ionLetStore, nVoxels) && DistinctKeys(ionLetStore) && v < nVoxels
      modifies this`ionLetStore
      ensures ionLetStore == LetFill(old(ionLetStore), nVoxels, def, trackID, v, m)
      ensures StoreShaped(ionLetStore, nVoxels) && DistinctKeys(ionLetStore)
    {
      LetFillOutcome(ionLetStore, nVoxels, def, trackID, v, m);
      var found := Find(GroupedCode(def.pdg), trackID);
      if found.None? {
        var ion := NewSpecies(def, trackID);
        ionLetStore := ionLetStore + [ion.Add(v, m)];
      } else {
        var l := found.value;
        ionLetStore := ionLetStore[l := ionLetStore[l].Add(v, m)];
      }
    }

    /** `if (den > 0) num = num / den` over a whole total array. */
    static method DivideTotals(num: array<real>, den: array<real>)
      requires num != den && num.Length == den.Length
      modifies num
      ensures num[..] == DivideWhere(old(num[..]), den[..])
    {
      var v := 0;
      while v < num.Length
        invariant 0 <= v <= num.Length
        invariant num[..] == DivideUpTo(old(num[..]), den[..], v)
      {
        if den[v] > 0.0 {
          num[v] := num[v] / den[v];
        }
        v := v + 1;
      }
    }

    /** The voxel-outer, species-inner division loop of LetOutput. */
    method DivideSpecies()
      requires StoreShaped(ionLetStore, nVoxels)
      modifies this`ionLetStore
      ensures ionLetStore == FinalizeAll(old(ionLetStore))
    {
      ghost var start := ionLetStore;
      var v := 0;
      while v < nVoxels
        invariant 0 <= v <= nVoxels && |ionLetStore| == |start|
        invariant forall m :: 0 <= m < |start| ==> ionLetStore[m] == start[m].FinalizeUpTo(v)
      {
        var l := 0;
        while l < |ionLetStore|
          invariant 0 <= l <= |ionLetStore| == |start|
          invariant forall m :: 0 <= m < |start| ==> ionLetStore[m] == start[m].FinalizeUpTo(if m < l then v + 1 else v)
        {
          var ion := ionLetStore[l];
          FinalizeStep(start[l], v);
          var dn := if ion.letDD[v] > 0.0 then ion.letDN[v] / ion.letDD[v] else ion.letDN[v];
          var tn := if ion.letTD[v] > 0.0 then ion.letTN[v] / ion.letTD[v] else ion.letTN[v];
          ionLetStore := ionLetStore[l := ion.(letDN := ion.letDN[v := dn], letTN := ion.letTN[v := tn])];
          l := l + 1;
        }
        v := v + 1;
      }
    }

    /** End of run: the totals and every species' numerators become averages
        where their denominators are positive, and the species are sorted by
        (Z, A). Nothing marks the store as averaged, so a second call
        divides again. */
    method LetOutput() returns (ghost sorted: seq<IonLet>)
      requires Valid()
      modifies this`ionLetStore, totalLetD, totalLetT
      ensures Valid()
      ensures totalLetD[..] == DivideWhere(old(totalLetD[..]), dTotalLetD[..])
      ensures totalLetT[..] == DivideWhere(old(totalLetT[..]), dTotalLetT[..])
      ensures Sorted(sorted) && multiset(sorted) == multiset(old(ionLetStore))
      ensures StoreShaped(sorted, nVoxels)
      ensures ionLetStore == FinalizeAll(sorted) && Sorted(ionLetStore)
    {
      DivideTotals(totalLetD, dTotalLetD);
      DivideTotals(totalLetT, dTotalLetT);
      var s := SortByZA(ionLetStore);
      PermutationShaped(ionLetStore, s, nVoxels);
      sorted := s;
      ionLetStore := s;
      DivideSpecies();
      FinalizeAllKeepsSpecies(sorted, nVoxels);
    }
  
    /** The header line: indices, LDT, LTT and two columns per species. */
    method WriteHeader() returns (header: seq<string>)
      ensures header == LetHeader(ionLetStore)
    {
      header := ["i", "j", "k", "LDT", "LTT"];
      var l := 0;
      while l < |ionLetStore|
        invariant 0 <= l <= |ionLetStore|
        invariant header == ["i", "j", "k", "LDT", "LTT"] + LetColumns(ionLetStore[..l])
      {
        assert ionLetStore[..l + 1][..l] == ionLetStore[..l];
        var ion := ionLetStore[l];
        assert LetColumns(ionLetStore[..l + 1]) == LetColumns(ionLetStore[..l]) + SpeciesColumns(ion);
        header := header + [ion.name + (if ion.isPrimary then "_1_D" else "_D"),
                            ion.name + (if ion.isPrimary then "_1_T" else "_T")];
        l := l + 1;
      }
      assert ionLetStore[..l] == ionLetStore;
    }

    /** The line of one voxel; every voxel gets one. */
    method WriteVoxel(i: int, j: int, k: int) returns (row: Row)
      requires Valid() && InGrid(numberOfVoxelAlongX, numberOfVoxelAlongY, numberOfVoxelAlongZ, i, j, k)
      ensures row == LetRow(totalLetD[..], totalLetT[..], ionLetStore,
                            numberOfVoxelAlongX, numberOfVoxelAlongY, numberOfVoxelAlongZ, Voxel(i, j, k))
    {
      var v := det.Index(i, j, k);
      var values := [InKeVPerUm(totalLetD[v]), InKeVPerUm(totalLetT[v])];
      var l := 0;
      while l < |ionLetStore|
        invariant 0 <= l <= |ionLetStore|
        invariant values == [InKeVPerUm(totalLetD[v]), InKeVPerUm(totalLetT[v])] + SpeciesLets(ionLetStore[..l], v)
      {
        assert ionLetStore[..l + 1][..l] == ionLetStore[..l];
        values := values + [InKeVPerUm(ionLetStore[l].letDN[v]), InKeVPerUm(ionLetStore[l].letTN[v])];
        l := l + 1;
      }
      assert ionLetStore[..l] == ionLetStore;
      row := Row(i, j, k, values);
    }

    /** The lines written for the voxels walked so far. */
    ghost function Written(vs: seq<Voxel>): seq<Row>
      reads this, det, totalLetD, dTotalLetD, totalLetT, dTotalLetT
      requires Valid() && AllInGrid(numberOfVoxelAlongX, numberOfVoxelAlongY, numberOfVoxelAlongZ, vs)
    {
      DenseRows(totalLetD[..], totalLetT[..], ionLetStore,
                numberOfVoxelAlongX, numberOfVoxelAlongY, numberOfVoxelAlongZ, vs)
    }

    /** The innermost loop of the writer: voxels (i, j, 0) .. (i, j, nz-1). */
    method WriteColumn(i: int, j: int, rows0: seq<Row>, ghost done0: seq<Voxel>)
      returns (rows: seq<Row>, ghost done: seq<Voxel>)
      requires Valid() && 0 <= i < numberOfVoxelAlongX && 0 <= j < numberOfVoxelAlongY
      requires AllInGrid(numberOfVoxelAlongX, numberOfVoxelAlongY, numberOfVoxelAlongZ, done0)
      requires rows0 == Written(done0)
      ensures done == done0 + WalkK(i, j, numberOfVoxelAlongZ)
      ensures AllInGrid(numberOfVoxelAlongX, numberOfVoxelAlongY, numberOfVoxelAlongZ, done)
      ensures rows == Written(done)
    {
      rows, done := rows0, done0;
      var k := 0;
      while k < numberOfVoxelAlongZ
        invariant 0 <= k <= numberOfVoxelAlongZ
        invariant done == done0 + WalkK(i, j, k)
        invariant AllInGrid(numberOfVoxelAlongX, numberOfVoxelAlongY, numberOfVoxelAlongZ, done)
        invariant rows == Written(done)
      {
        var row := WriteVoxel(i, j, k);
        WrittenSnoc(done, Voxel(i, j, k));
        done := done + [Voxel(i, j, k)];
        rows := rows + [row];
        k := k + 1;
      }
    }

    /** One more voxel walked: its line is appended. */
    lemma WrittenSnoc(vs: seq<Voxel>, x: Voxel)
      requires Valid() && AllInGrid(numberOfVoxelAlongX, numberOfVoxelAlongY, numberOfVoxelAlongZ, vs)
      requires InGrid(numberOfVoxelAlongX, numberOfVoxelAlongY, numberOfVoxelAlongZ, x.i, x.j, x.k)
      ensures AllInGrid(numberOfVoxelAlongX, numberOfVoxelAlongY, numberOfVoxelAlongZ, vs + [x])
      ensures Written(vs + [x]) == Written(vs) + [LetRow(totalLetD[..], totalLetT[..], ionLetStore,
        numberOfVoxelAlongX, numberOfVoxelAlongY, numberOfVoxelAlongZ, x)]
    {
      DenseRowsSnoc(totalLetD[..], totalLetT[..], ionLetStore,
                    numberOfVoxelAlongX, numberOfVoxelAlongY, numberOfVoxelAlongZ, vs, x);
    }

    /** The middle loop of the writer: rows j = 0 .. ny-1 of plane i. */
    method WritePlane(i: int, rows0: seq<Row>, ghost done0: seq<Voxel>)
      returns (rows: seq<Row>, ghost done: seq<Voxel>)
      requires Valid() && 0 <= i < numberOfVoxelAlongX
      requires AllInGrid(numberOfVoxelAlongX, numberOfVoxelAlongY, numberOfVoxelAlongZ, done0)
      requires rows0 == Written(done0)
      ensures done == done0 + WalkJ(i, numberOfVoxelAlongY, numberOfVoxelAlongZ)
      ensures AllInGrid(numberOfVoxelAlongX, numberOfVoxelAlongY, numberOfVoxelAlongZ, done)
      ensures rows == Written(done)
    {
      rows, done := rows0, done0;
      var j := 0;
      while j < numberOfVoxelAlongY
        invariant 0 <= j <= numberOfVoxelAlongY
        invariant done == done0 + WalkJ(i, j, numberOfVoxelAlongZ)
        invariant AllInGrid(numberOfVoxelAlongX, numberOfVoxelAlongY, numberOfVoxelAlongZ, done)
        invariant rows == Written(done)
      {
        rows, done := WriteColumn(i, j, rows, done);
        WalkJStep(done0, i, j, numberOfVoxelAlongZ);
        j := j + 1;
      }
    }

    /** Let.out: nothing when no species was scored; otherwise the header
        and one line per voxel in (i, j, k) order, LETs in keV/um. */
    method StoreLetAscii() returns (t: Option<Table>)
      requires Valid()
      ensures ionLetStore == [] ==> t == None
      ensures ionLetStore != [] ==>
        t == Some(Table(LetHeader(ionLetStore),
                        LetLines(totalLetD[..], totalLetT[..], ionLetStore,
                                 numberOfVoxelAlongX, numberOfVoxelAlongY, numberOfVoxelAlongZ)))
    {
      if |ionLetStore| == 0 {
        return None;
      }
      var header := WriteHeader();
      var rows: seq<Row> := [];
      ghost var done: seq<Voxel> := [];
      var i := 0;
      while i < numberOfVoxelAlongX
        invariant 0 <= i <= numberOfVoxelAlongX
        invariant done == WalkI(i, numberOfVoxelAlongY, numberOfVoxelAlongZ)
        invariant AllInGrid(numberOfVoxelAlongX, numberOfVoxelAlongY, numberOfVoxelAlongZ, done)
        invariant rows == Written(done)
      {
        rows, done := WritePlane(i, rows, done);
        WalkIStep(i, numberOfVoxelAlongY, numberOfVoxelAlongZ);
        i := i + 1;
      }
      t := Some(Table(header, rows));
    }
  }
}
