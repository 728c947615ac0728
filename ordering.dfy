/**
 * The entity order the unit tests apply "as in Snapshot"
 * (internal/adapters/dockerlabels/source_test.go): kind rank container <
 * volume < network, then name ascending. The source.go modelled in
 * DockerLabels does not sort; this module adds the sort as its own step.
 */
module Ordering {
  import opened Results
  import opened Strings
  import opened Sequences
  import opened Labels
  import opened Ports
  import opened DockerLabels

  /** The `kindOrder` table. */
  function Rank(k: Kind): nat
  {
    match k
    case KindContainer => 0
    case KindVolume => 1
    case KindNetwork => 2
  }

  /** What the comparator looks at: the kind and the name. */
  datatype SortKey = SortKey(kind: Kind, name: string)

  function KeyOf(e: LabeledEntity): SortKey
  {
    SortKey(e.kind, e.name)
  }

  /** The comparator: different kinds compare by rank, equal kinds by name. */
  predicate KeyLess(a: SortKey, b: SortKey)
  {
    if a.kind != b.kind then Rank(a.kind) < Rank(b.kind) else Less(a.name, b.name)
  }

  /** The `sort.Slice` less function on entities. */
  predicate EntityLess(x: LabeledEntity, y: LabeledEntity)
  {
    KeyLess(KeyOf(x), KeyOf(y))
  }

  lemma KeyLessIrreflexive(a: SortKey)
    ensures !KeyLess(a, a)
  {
    LessIrreflexive(a.name);
  }

  lemma KeyLessTransitive(a: SortKey, b: SortKey, c: SortKey)
    requires KeyLess(a, b) && KeyLess(b, c)
    ensures KeyLess(a, c)
  {
    if a.kind == b.kind == c.kind {
      LessTransitive(a.name, b.name, c.name);
    }
  }

  /** The comparator orders any two different keys: entities it cannot order agree on kind and name. */
  lemma KeyLessTotal(a: SortKey, b: SortKey)
    requires a != b
    ensures KeyLess(a, b) || KeyLess(b, a)
  {
    if a.kind == b.kind {
      LessTotal(a.name, b.name);
    }
  }

  /** Sorted as `sort.Slice` leaves it: no entity is less than one before it. */
  predicate Sorted(s: seq<LabeledEntity>)
  {
    forall i, j :: 0 <= i < j < |s| ==> !EntityLess(s[j], s[i])
  }

  predicate KeysSorted(ks: seq<SortKey>)
  {
    forall i, j :: 0 <= i < j < |ks| ==> !KeyLess(ks[j], ks[i])
  }

  function SomeKey(e: LabeledEntity): Option<SortKey>
  {
    Some(KeyOf(e))
  }

  /** The (Kind, Name) sequence the stability test compares. */
  function Keys(s: seq<LabeledEntity>): seq<SortKey>
  {
    FilterMap(SomeKey, s)
  }

  lemma KeysAt(s: seq<LabeledEntity>)
    ensures |Keys(s)| == |s|
    ensures forall i :: 0 <= i < |s| ==> Keys(s)[i] == KeyOf(s[i])
  {
    FilterMapTotal(SomeKey, s);
  }

  lemma SortedKeys(s: seq<LabeledEntity>)
    requires Sorted(s)
    ensures KeysSorted(Keys(s))
  {
    KeysAt(s);
  }

  /** Two sorted key sequences with the same elements are equal. */
  lemma {:induction false} SortedKeysUnique(k1: seq<SortKey>, k2: seq<SortKey>)
    requires KeysSorted(k1) && KeysSorted(k2)
    requires multiset(k1) == multiset(k2)
    ensures k1 == k2
  {
    if k1 == [] {
      assert |k2| == |multiset(k2)| == 0;
    } else {
      assert k1[0] in multiset(k2);
      assert k2[0] in multiset(k1);
      var j :| 0 <= j < |k2| && k2[j] == k1[0];
      var i :| 0 <= i < |k1| && k1[i] == k2[0];
      assert !KeyLess(k1[0], k2[0]) by {
        if j > 0 {
          assert !KeyLess(k2[j], k2[0]);
        } else {
          KeyLessIrreflexive(k1[0]);
        }
      }
      assert !KeyLess(k2[0], k1[0]) by {
        if i > 0 {
          assert !KeyLess(k1[i], k1[0]);
        } else {
          KeyLessIrreflexive(k2[0]);
        }
      }
      if k1[0] != k2[0] {
        KeyLessTotal(k1[0], k2[0]);
      }
      MultisetTail(k1);
      MultisetTail(k2);
      SortedKeysUnique(k1[1..], k2[1..]);
    }
  }

  /**
   * The property the stability test checks: every sorted permutation of the
   * same entities has the same (Kind, Name) sequence, whichever order the
   * unstable sort leaves equal keys in.
   */
  lemma SortOutcomeDeterministic(r1: seq<LabeledEntity>, r2: seq<LabeledEntity>)
    requires Sorted(r1) && Sorted(r2)
    requires multiset(r1) == multiset(r2)
    ensures Keys(r1) == Keys(r2)
  {
    SortedKeys(r1);
    SortedKeys(r2);
    FilterMapPermutation(SomeKey, r1, r2);
    SortedKeysUnique(Keys(r1), Keys(r2));
  }

  /** After sorting: kind blocks in rank order, names ascending within a block. */
  lemma SortedGroupsByKind(s: seq<LabeledEntity>)
    requires Sorted(s)
    ensures forall i, j :: 0 <= i < j < |s| ==> Rank(s[i].kind) <= Rank(s[j].kind)
    ensures forall i, j :: 0 <= i < j < |s| && s[i].kind == s[j].kind ==> !Less(s[j].name, s[i].name)
  {
    forall i, j | 0 <= i < j < |s| ensures Rank(s[i].kind) <= Rank(s[j].kind) {
      assert !EntityLess(s[j], s[i]);
      if s[i].kind != s[j].kind {
        assert Rank(s[i].kind) != Rank(s[j].kind);
      }
    }
  }

  /** `sort.Slice(entities, less)`, as a selection sort on the array in place. */
  method SortEntities(a: array<LabeledEntity>)
    modifies a
    ensures Sorted(a[..])
    ensures multiset(a[..]) == multiset(old(a[..]))
  {
    var n := a.Length;
    var i := 0;
    while i < n
      invariant 0 <= i <= n
      invariant multiset(a[..]) == multiset(old(a[..]))
      invariant forall k, l :: 0 <= k < l < i ==> !EntityLess(a[l], a[k])
      invariant forall k, l :: 0 <= k < i <= l < n ==> !EntityLess(a[l], a[k])
    {
      var m := MinimumFrom(a, i);
      ghost var b := a[..];
      Swap(a, i, m);
      // every entry after position i was somewhere in b[i..] before the swap
      forall k, l | 0 <= k <= i < l < n ensures !EntityLess(a[l], a[k]) {
        assert a[l] == b[l] || a[l] == b[i];
      }
      i := i + 1;
    }
    assert a[..] == a[..n];
  }

  /** Exchanges two entries of the array. */
  method Swap(a: array<LabeledEntity>, i: nat, j: nat)
    requires i < a.Length && j < a.Length
    modifies a
    ensures a[i] == old(a[j]) && a[j] == old(a[i])
    ensures forall k :: 0 <= k < a.Length && k != i && k != j ==> a[k] == old(a[k])
    ensures multiset(a[..]) == multiset(old(a[..]))
  {
    a[i], a[j] := a[j], a[i];
  }

  /** The position of an entity in `a[from..]` that no other entity there is less than. */
  method MinimumFrom(a: array<LabeledEntity>, from: nat) returns (m: nat)
    requires from < a.Length
    ensures from <= m < a.Length
    ensures forall l :: from <= l < a.Length ==> !EntityLess(a[l], a[m])
  {
    m := from;
    KeyLessIrreflexive(KeyOf(a[m]));
    var j := from + 1;
    while j < a.Length
      invariant from <= m < j <= a.Length
      invariant forall l :: from <= l < j ==> !EntityLess(a[l], a[m])
    {
      if EntityLess(a[j], a[m]) {
        forall l | from <= l < j ensures !EntityLess(a[l], a[j]) {
          if EntityLess(a[l], a[j]) {
            KeyLessTransitive(KeyOf(a[l]), KeyOf(a[j]), KeyOf(a[m]));
          }
        }
        m := j;
        KeyLessIrreflexive(KeyOf(a[m]));
      }
      j := j + 1;
    }
  }

  /**
   * Copies the entities into a fresh array and sorts it, as each run of the
   * stability test does: the result is a permutation of the input, its kinds
   * come in container, volume, network order and the names ascend within each kind.
   */
  method SortedCopy(s: seq<LabeledEntity>) returns (r: seq<LabeledEntity>)
    ensures Sorted(r)
    ensures multiset(r) == multiset(s)
    ensures |r| == |s|
    ensures forall i, j :: 0 <= i < j < |r| ==> Rank(r[i].kind) <= Rank(r[j].kind)
    ensures forall i, j :: 0 <= i < j < |r| && r[i].kind == r[j].kind ==> !Less(r[j].name, r[i].name)
  {
    var a := new LabeledEntity[|s|](i requires 0 <= i < |s| => s[i]);
    assert a[..] == s;
    SortEntities(a);
    r := a[..];
    assert |r| == |multiset(r)| == |multiset(s)| == |s|;
    SortedGroupsByKind(r);
  }

  /**
   * A snapshot in the order the sorting test checks
   * (source_test.go:225-236 and :268-315): the source.go snapshot, with its
   * entities then sorted by the comparator.
   */
  method SortedSnapshot(rt: Runtime, sel: Selector, now: Instant) returns (snap: Labels.Snapshot, err: Option<RuntimeError>)
    ensures IsLabelSourceReply(snap, err)
    ensures err.Some? <==> Failures(rt, sel) != []
    ensures err.Some? ==> err.value in Failures(rt, sel)
    ensures err.None? ==> snap.takenAt == now && Sorted(snap.entities)
    ensures err.None? ==> multiset(snap.entities) == multiset(Entities(rt, sel))
  {
    snap, err := DockerLabels.Snapshot(rt, sel, now);
    if err.None? {
      var sorted := SortedCopy(snap.entities);
      snap := snap.(entities := sorted);
    }
  }

  /**
   * Without the sort, source.go's concatenation already puts the kinds in
   * container, volume, network order; only the names within a kind are left
   * in runtime order.
   */
  lemma EntitiesGroupedByKind(rt: Runtime, sel: Selector)
    ensures forall i, j :: 0 <= i < j < |Entities(rt, sel)| ==>
      Rank(Entities(rt, sel)[i].kind) <= Rank(Entities(rt, sel)[j].kind)
  {
    EntitiesWellFormed(rt, sel);
    BlocksRanked(Containers(rt, sel).GetOr([]), Volumes(rt, sel).GetOr([]), Networks(rt, sel).GetOr([]));
  }

  lemma BlocksRanked(c: seq<LabeledEntity>, v: seq<LabeledEntity>, n: seq<LabeledEntity>)
    requires forall e :: e in c ==> e.kind == KindContainer
    requires forall e :: e in v ==> e.kind == KindVolume
    requires forall e :: e in n ==> e.kind == KindNetwork
    ensures forall i, j :: 0 <= i < j < |c + v + n| ==> Rank((c + v + n)[i].kind) <= Rank((c + v + n)[j].kind)
  {
    var all := c + v + n;
    forall i | 0 <= i < |all|
      ensures Rank(all[i].kind) == if i < |c| then 0 else if i < |c| + |v| then 1 else 2
    {
      if i < |c| {
        assert all[i] == c[i];
      } else if i < |c| + |v| {
        assert all[i] == v[i - |c|];
      } else {
        assert all[i] == n[i - |c| - |v|];
      }
    }
  }

  /** Two listings that hold the same resources, possibly in another order, or the same error. */
  predicate SameUpToOrder<T(==)>(a: Result<seq<T>, RuntimeError>, b: Result<seq<T>, RuntimeError>)
  {
    match a
    case Err(e) => b == Err(e)
    case Ok(xs) => b.Ok? && multiset(xs) == multiset(b.value)
  }

  predicate ListingsPermuted(rt1: Runtime, rt2: Runtime)
  {
    && SameUpToOrder(rt1.runningContainers, rt2.runningContainers)
    && SameUpToOrder(rt1.allContainers, rt2.allContainers)
    && SameUpToOrder(rt1.volumes, rt2.volumes)
    && SameUpToOrder(rt1.networks, rt2.networks)
  }

  /** Listing the same resources in another order yields the same failures and the same entities, reordered. */
  lemma EntitiesPermuted(rt1: Runtime, rt2: Runtime, sel: Selector)
    requires ListingsPermuted(rt1, rt2)
    ensures Failures(rt1, sel) == Failures(rt2, sel)
    ensures multiset(Entities(rt1, sel)) == multiset(Entities(rt2, sel))
  {
    var p := sel.prefixes;
    var l1, l2 := ContainerList(rt1, sel.includeStopped), ContainerList(rt2, sel.includeStopped);
    if l1.Ok? {
      FilterMapPermutation(ContainerBuilder(p), l1.value, l2.value);
    }
    if rt1.volumes.Ok? {
      FilterMapPermutation(VolumeBuilder(p), rt1.volumes.value, rt2.volumes.value);
    }
    if rt1.networks.Ok? {
      FilterMapPermutation(NetworkBuilder(p), rt1.networks.value, rt2.networks.value);
    }
  }

  /**
   * The sorting test's point (source_test.go:268-315): whatever order the
   * runtime lists the same resources in, the sorted snapshots have the same
   * (Kind, Name) sequence.
   */
  lemma SortedSnapshotIgnoresListingOrder(rt1: Runtime, rt2: Runtime, sel: Selector, r1: seq<LabeledEntity>, r2: seq<LabeledEntity>)
    requires ListingsPermuted(rt1, rt2)
    requires Sorted(r1) && multiset(r1) == multiset(Entities(rt1, sel))
    requires Sorted(r2) && multiset(r2) == multiset(Entities(rt2, sel))
    ensures Keys(r1) == Keys(r2)
  {
    EntitiesPermuted(rt1, rt2, sel);
    SortOutcomeDeterministic(r1, r2);
  }

  /** Strings compare at their first difference. */
  lemma {:induction false} LessAtFirstDifference(a: string, b: string, i: nat)
    requires i < |a| && i < |b| && a[i] < b[i]
    requires forall j :: 0 <= j < i ==> a[j] == b[j]
    ensures Less(a, b)
  {
    if i > 0 {
      LessAtFirstDifference(a[1..], b[1..], i - 1);
    }
  }

  /** A sequence whose neighbours are strictly increasing is sorted. */
  lemma {:induction false} ChainSorted(s: seq<LabeledEntity>)
    requires forall i :: 0 <= i < |s| - 1 ==> EntityLess(s[i], s[i + 1])
    ensures Sorted(s)
    ensures forall i, j :: 0 <= i < j < |s| ==> EntityLess(s[i], s[j])
  {
    if |s| > 1 {
      ChainSorted(s[1..]);
      forall j | 1 < j < |s| ensures EntityLess(s[0], s[j]) {
        assert EntityLess(s[1..][0], s[1..][j - 1]);
        KeyLessTransitive(KeyOf(s[0]), KeyOf(s[1]), KeyOf(s[j]));
      }
      forall i, j | 0 <= i < j < |s| ensures !EntityLess(s[j], s[i]) {
        if i > 0 {
          assert EntityLess(s[1..][i - 1], s[1..][j - 1]);
        }
        if EntityLess(s[j], s[i]) {
          KeyLessTransitive(KeyOf(s[i]), KeyOf(s[j]), KeyOf(s[i]));
          KeyLessIrreflexive(KeyOf(s[i]));
        }
      }
    }
  }

  /** The names of the ordering tests' fixture. */
  const ContainerAlpha: string := "container-alpha"
  const ContainerBeta: string := "container-beta"
  const ContainerZeta: string := "container-zeta"
  const VolAlpha: string := "vol-alpha"
  const VolBeta: string := "vol-beta"
  const NetAlpha: string := "net-alpha"
  const NetBeta: string := "net-beta"

  /** A test entity: kind, ID and name as `LabeledEntity` orders them, with no labels and no metadata. */
  function Entity(kind: Kind, id: string, name: string): LabeledEntity
  {
    LabeledEntity(kind, id, name, map[], map[])
  }

  /** The mixed list of the ordering tests. */
  function SortingFixture(): seq<LabeledEntity>
  {
    [ Entity(KindNetwork, "n1", NetAlpha),
      Entity(KindContainer, "c1", ContainerZeta),
      Entity(KindVolume, "v1", VolBeta),
      Entity(KindContainer, "c2", ContainerAlpha),
      Entity(KindNetwork, "n2", NetBeta),
      Entity(KindVolume, "v2", VolAlpha),
      Entity(KindContainer, "c3", ContainerBeta) ]
  }

  /** The order the ordering test expects. */
  function ExpectedOrder(): seq<SortKey>
  {
    [ SortKey(KindContainer, ContainerAlpha),
      SortKey(KindContainer, ContainerBeta),
      SortKey(KindContainer, ContainerZeta),
      SortKey(KindVolume, VolAlpha),
      SortKey(KindVolume, VolBeta),
      SortKey(KindNetwork, NetAlpha),
      SortKey(KindNetwork, NetBeta) ]
  }

  /** The fixture in the expected order. */
  function SortedFixture(): seq<LabeledEntity>
  {
    [ Entity(KindContainer, "c2", ContainerAlpha),
      Entity(KindContainer, "c3", ContainerBeta),
      Entity(KindContainer, "c1", ContainerZeta),
      Entity(KindVolume, "v2", VolAlpha),
      Entity(KindVolume, "v1", VolBeta),
      Entity(KindNetwork, "n1", NetAlpha),
      Entity(KindNetwork, "n2", NetBeta) ]
  }

  lemma ContainerAlphaBeta()
    ensures Less(ContainerAlpha, ContainerBeta)
  {
    LessAtFirstDifference(ContainerAlpha, ContainerBeta, 10);
  }

  lemma ContainerBetaZeta()
    ensures Less(ContainerBeta, ContainerZeta)
  {
    LessAtFirstDifference(ContainerBeta, ContainerZeta, 10);
  }

  lemma VolAlphaBeta()
    ensures Less(VolAlpha, VolBeta)
  {
    LessAtFirstDifference(VolAlpha, VolBeta, 4);
  }

  lemma NetAlphaBeta()
    ensures Less(NetAlpha, NetBeta)
  {
    LessAtFirstDifference(NetAlpha, NetBeta, 4);
  }

  /** Three containers, two volumes and two networks, each kind in ascending name order, are sorted. */
  lemma GroupsSorted(c0: LabeledEntity, c1: LabeledEntity, c2: LabeledEntity, v0: LabeledEntity, v1: LabeledEntity,
                     n0: LabeledEntity, n1: LabeledEntity)
    requires c0.kind == c1.kind == c2.kind == KindContainer
    requires v0.kind == v1.kind == KindVolume
    requires n0.kind == n1.kind == KindNetwork
    requires Less(c0.name, c1.name) && Less(c1.name, c2.name)
    requires Less(v0.name, v1.name) && Less(n0.name, n1.name)
    ensures Sorted([c0, c1, c2, v0, v1, n0, n1])
  {
    ChainSorted([c0, c1, c2, v0, v1, n0, n1]);
  }

  lemma SortedFixtureSorted()
    ensures Sorted(SortedFixture())
  {
    ContainerAlphaBeta();
    ContainerBetaZeta();
    VolAlphaBeta();
    NetAlphaBeta();
    GroupsSorted(Entity(KindContainer, "c2", ContainerAlpha), Entity(KindContainer, "c3", ContainerBeta),
      Entity(KindContainer, "c1", ContainerZeta), Entity(KindVolume, "v2", VolAlpha), Entity(KindVolume, "v1", VolBeta),
      Entity(KindNetwork, "n1", NetAlpha), Entity(KindNetwork, "n2", NetBeta));
  }

  /** The fixture's entities, counted. */
  function FixtureBag(): multiset<LabeledEntity>
  {
    multiset{ Entity(KindContainer, "c2", ContainerAlpha), Entity(KindContainer, "c3", ContainerBeta),
      Entity(KindContainer, "c1", ContainerZeta), Entity(KindVolume, "v2", VolAlpha), Entity(KindVolume, "v1", VolBeta),
      Entity(KindNetwork, "n1", NetAlpha), Entity(KindNetwork, "n2", NetBeta) }
  }

  lemma SortingFixtureBag()
    ensures multiset(SortingFixture()) == FixtureBag()
  {
  }

  lemma SortedFixtureBag()
    ensures multiset(SortedFixture()) == FixtureBag()
  {
  }

  lemma SortedFixturePermutes()
    ensures multiset(SortedFixture()) == multiset(SortingFixture())
  {
    SortingFixtureBag();
    SortedFixtureBag();
  }

  lemma SortedFixtureKeys()
    ensures Keys(SortedFixture()) == ExpectedOrder()
  {
    KeysAt(SortedFixture());
  }

  /** Every sorted permutation of the fixture has the expected (Kind, Name) sequence. */
  lemma EntitySortingFixture(r: seq<LabeledEntity>)
    requires Sorted(r) && multiset(r) == multiset(SortingFixture())
    ensures Keys(r) == ExpectedOrder()
  {
    SortedFixtureSorted();
    SortedFixturePermutes();
    SortOutcomeDeterministic(r, SortedFixture());
    SortedFixtureKeys();
  }
}
