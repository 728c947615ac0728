/**
 * Metadata enrichment as the collector tests check it
 * (internal/adapters/dockerlabels/source_test.go:118-126, :153-164 and
 * :194-208): volumes carry their
 * driver, networks their driver and scope, and every kind carries the
 * `bosun.instance` label's value under `instance` when that raw label is
 * present. The tests cover only a present label and an absent one; the model
 * also leaves `instance` out when the label's value is empty.
 *
 * The collectors of source.go set none of this (a volume's and a network's
 * metadata is empty there, and no `instance` key is ever set); the
 * as-written collectors are DockerLabels', and this module defines the
 * enriched ones beside them and relates the two.
 */
module Enrichment {
  import opened Results
  import opened Strings
  import opened Sequences
  import opened Labels
  import opened Filters
  import opened Ports
  import opened DockerLabels
  import opened Ordering

  /** The metadata key that carries the instance label's value. */
  const InstanceMetaKey: string := "instance"

  /** The raw labels name an instance: the instance label is present with a non-empty value. */
  predicate HasInstance(raw: map<string, string>)
  {
    LabelInstance in raw && raw[LabelInstance] != ""
  }

  /** Instance enrichment: only the `instance` key may change, and only when the raw labels name an instance. */
  function WithInstance(meta: map<string, string>, raw: map<string, string>): (r: map<string, string>)
    ensures forall k :: k != InstanceMetaKey ==> (k in r <==> k in meta)
    ensures forall k :: k != InstanceMetaKey && k in meta ==> r[k] == meta[k]
    ensures InstanceMetaKey !in meta ==> (InstanceMetaKey in r <==> HasInstance(raw))
    ensures HasInstance(raw) ==> InstanceMetaKey in r && r[InstanceMetaKey] == raw[LabelInstance]
    ensures !HasInstance(raw) ==> r == meta
  {
    if HasInstance(raw) then meta[InstanceMetaKey := raw[LabelInstance]] else meta
  }

  /**
   * The instance label lies under the default prefix: when its value is not
   * blank it also survives the default filter, into the entity's labels.
   */
  lemma InstanceLabelPassesDefaultFilter(raw: map<string, string>)
    requires LabelInstance in raw && !IsBlank(raw[LabelInstance])
    ensures LabelInstance in Filtered(raw, [DefaultLabelPrefix])
    ensures Filtered(raw, [DefaultLabelPrefix])[LabelInstance] == raw[LabelInstance]
  {
    FilteredCharacterized(raw, [DefaultLabelPrefix]);
    assert LabelInstance[..|DefaultLabelPrefix|] == DefaultLabelPrefix;
    assert HasPrefix(LabelInstance, [DefaultLabelPrefix][0]);
  }

  /** A container's metadata: compose project and service, image, and the instance when named. */
  function EnrichedContainerMeta(c: ContainerSummary): (m: map<string, string>)
    ensures m.Keys == {"compose.project", "compose.service", "image"} + (if HasInstance(c.labels) then {InstanceMetaKey} else {})
    ensures m["compose.project"] == Lookup(c.labels, ComposeProjectLabel)
    ensures m["compose.service"] == Lookup(c.labels, ComposeServiceLabel)
    ensures m["image"] == c.image
    ensures HasInstance(c.labels) ==> m[InstanceMetaKey] == c.labels[LabelInstance]
  {
    WithInstance(ContainerMeta(c), c.labels)
  }

  /** A volume's metadata: its driver, and the instance when named. */
  function EnrichedVolumeMeta(v: Volume): (m: map<string, string>)
    ensures m.Keys == {"driver"} + (if HasInstance(v.labels) then {InstanceMetaKey} else {})
    ensures m["driver"] == v.driver
    ensures HasInstance(v.labels) ==> m[InstanceMetaKey] == v.labels[LabelInstance]
  {
    WithInstance(map["driver" := v.driver], v.labels)
  }

  /** A network's metadata: its driver and scope, and the instance when named. */
  function EnrichedNetworkMeta(n: NetworkSummary): (m: map<string, string>)
    ensures m.Keys == {"driver", "scope"} + (if HasInstance(n.labels) then {InstanceMetaKey} else {})
    ensures m["driver"] == n.driver
    ensures m["scope"] == n.scope
    ensures HasInstance(n.labels) ==> m[InstanceMetaKey] == n.labels[LabelInstance]
  {
    WithInstance(map["driver" := n.driver, "scope" := n.scope], n.labels)
  }

  function EnrichedContainerEntity(c: ContainerSummary, prefixes: seq<string>): Option<LabeledEntity>
  {
    match ContainerEntity(c, prefixes)
    case None => None
    case Some(e) => Some(e.(meta := EnrichedContainerMeta(c)))
  }

  function EnrichedVolumeEntity(v: Volume, prefixes: seq<string>): Option<LabeledEntity>
  {
    match VolumeEntity(v, prefixes)
    case None => None
    case Some(e) => Some(e.(meta := EnrichedVolumeMeta(v)))
  }

  function EnrichedNetworkEntity(n: NetworkSummary, prefixes: seq<string>): Option<LabeledEntity>
  {
    match NetworkEntity(n, prefixes)
    case None => None
    case Some(e) => Some(e.(meta := EnrichedNetworkMeta(n)))
  }

  function EnrichedContainerBuilder(prefixes: seq<string>): ContainerSummary -> Option<LabeledEntity>
  {
    c => EnrichedContainerEntity(c, prefixes)
  }

  function EnrichedVolumeBuilder(prefixes: seq<string>): Volume -> Option<LabeledEntity>
  {
    v => EnrichedVolumeEntity(v, prefixes)
  }

  function EnrichedNetworkBuilder(prefixes: seq<string>): NetworkSummary -> Option<LabeledEntity>
  {
    n => EnrichedNetworkEntity(n, prefixes)
  }

  function EnrichedContainerEntities(cs: seq<ContainerSummary>, prefixes: seq<string>): seq<LabeledEntity>
  {
    FilterMap(EnrichedContainerBuilder(prefixes), cs)
  }

  function EnrichedVolumeEntities(vs: seq<Volume>, prefixes: seq<string>): seq<LabeledEntity>
  {
    FilterMap(EnrichedVolumeBuilder(prefixes), vs)
  }

  function EnrichedNetworkEntities(ns: seq<NetworkSummary>, prefixes: seq<string>): seq<LabeledEntity>
  {
    FilterMap(EnrichedNetworkBuilder(prefixes), ns)
  }

  /**
   * Enrichment keeps the as-written collector's entities and their order and
   * only replaces each one's metadata by the enriched metadata of the
   * container it came from: the k-th entity of both lists is built from the
   * idx[k]-th container, and the origins keep the listing's order.
   */
  lemma EnrichedContainersAlong(cs: seq<ContainerSummary>, prefixes: seq<string>) returns (idx: seq<nat>)
    ensures |idx| == |EnrichedContainerEntities(cs, prefixes)| == |ContainerEntities(cs, prefixes)|
    ensures forall k :: 0 <= k < |idx| ==>
      idx[k] < |cs|
      && ContainerEntity(cs[idx[k]], prefixes) == Some(ContainerEntities(cs, prefixes)[k])
      && EnrichedContainerEntities(cs, prefixes)[k] == ContainerEntities(cs, prefixes)[k].(meta := EnrichedContainerMeta(cs[idx[k]]))
    ensures forall k, l :: 0 <= k < l < |idx| ==> idx[k] < idx[l]
  {
    idx := FilterMapAlong(ContainerBuilder(prefixes), EnrichedContainerBuilder(prefixes), cs);
  }

  lemma EnrichedVolumesAlong(vs: seq<Volume>, prefixes: seq<string>) returns (idx: seq<nat>)
    ensures |idx| == |EnrichedVolumeEntities(vs, prefixes)| == |VolumeEntities(vs, prefixes)|
    ensures forall k :: 0 <= k < |idx| ==>
      idx[k] < |vs|
      && VolumeEntity(vs[idx[k]], prefixes) == Some(VolumeEntities(vs, prefixes)[k])
      && EnrichedVolumeEntities(vs, prefixes)[k] == VolumeEntities(vs, prefixes)[k].(meta := EnrichedVolumeMeta(vs[idx[k]]))
    ensures forall k, l :: 0 <= k < l < |idx| ==> idx[k] < idx[l]
  {
    idx := FilterMapAlong(VolumeBuilder(prefixes), EnrichedVolumeBuilder(prefixes), vs);
  }

  lemma EnrichedNetworksAlong(ns: seq<NetworkSummary>, prefixes: seq<string>) returns (idx: seq<nat>)
    ensures |idx| == |EnrichedNetworkEntities(ns, prefixes)| == |NetworkEntities(ns, prefixes)|
    ensures forall k :: 0 <= k < |idx| ==>
      idx[k] < |ns|
      && NetworkEntity(ns[idx[k]], prefixes) == Some(NetworkEntities(ns, prefixes)[k])
      && EnrichedNetworkEntities(ns, prefixes)[k] == NetworkEntities(ns, prefixes)[k].(meta := EnrichedNetworkMeta(ns[idx[k]]))
    ensures forall k, l :: 0 <= k < l < |idx| ==> idx[k] < idx[l]
  {
    idx := FilterMapAlong(NetworkBuilder(prefixes), EnrichedNetworkBuilder(prefixes), ns);
  }

  /**
   * The instance rule, for every resource a collector turns into an entity:
   * its metadata has `instance` exactly when the resource's raw labels name an
   * instance, and then with that value.
   */
  lemma InstanceIffLabel(c: ContainerSummary, v: Volume, n: NetworkSummary, prefixes: seq<string>)
    ensures EnrichedContainerEntity(c, prefixes).Some? ==>
      var m := EnrichedContainerEntity(c, prefixes).value.meta;
      (InstanceMetaKey in m <==> HasInstance(c.labels)) && (HasInstance(c.labels) ==> m[InstanceMetaKey] == c.labels[LabelInstance])
    ensures EnrichedVolumeEntity(v, prefixes).Some? ==>
      var m := EnrichedVolumeEntity(v, prefixes).value.meta;
      (InstanceMetaKey in m <==> HasInstance(v.labels)) && (HasInstance(v.labels) ==> m[InstanceMetaKey] == v.labels[LabelInstance])
    ensures EnrichedNetworkEntity(n, prefixes).Some? ==>
      var m := EnrichedNetworkEntity(n, prefixes).value.meta;
      (InstanceMetaKey in m <==> HasInstance(n.labels)) && (HasInstance(n.labels) ==> m[InstanceMetaKey] == n.labels[LabelInstance])
  {
  }

  function EnrichedContainers(rt: Runtime, sel: Selector): Result<seq<LabeledEntity>, RuntimeError>
  {
    match ContainerList(rt, sel.includeStopped)
    case Err(e) => Err(e)
    case Ok(cs) => Ok(EnrichedContainerEntities(cs, sel.prefixes))
  }

  function EnrichedVolumes(rt: Runtime, sel: Selector): Result<seq<LabeledEntity>, RuntimeError>
  {
    match rt.volumes
    case Err(e) => Err(e)
    case Ok(vs) => Ok(EnrichedVolumeEntities(vs, sel.prefixes))
  }

  function EnrichedNetworks(rt: Runtime, sel: Selector): Result<seq<LabeledEntity>, RuntimeError>
  {
    match rt.networks
    case Err(e) => Err(e)
    case Ok(ns) => Ok(EnrichedNetworkEntities(ns, sel.prefixes))
  }

  /** The entities of a successful enriched snapshot, before sorting: containers, then volumes, then networks. */
  function EnrichedEntities(rt: Runtime, sel: Selector): seq<LabeledEntity>
  {
    EnrichedContainers(rt, sel).GetOr([]) + EnrichedVolumes(rt, sel).GetOr([]) + EnrichedNetworks(rt, sel).GetOr([])
  }

  /** Two entities that differ at most in their metadata. */
  predicate SameButMeta(x: LabeledEntity, y: LabeledEntity)
  {
    x.kind == y.kind && x.id == y.id && x.name == y.name && x.labels == y.labels
  }

  predicate AgreeButMeta(a: seq<LabeledEntity>, b: seq<LabeledEntity>)
  {
    |a| == |b| && forall i :: 0 <= i < |a| ==> SameButMeta(a[i], b[i])
  }

  lemma AgreeConcat(a1: seq<LabeledEntity>, b1: seq<LabeledEntity>, a2: seq<LabeledEntity>, b2: seq<LabeledEntity>,
                    a3: seq<LabeledEntity>, b3: seq<LabeledEntity>)
    requires AgreeButMeta(a1, b1) && AgreeButMeta(a2, b2) && AgreeButMeta(a3, b3)
    ensures AgreeButMeta(a1 + a2 + a3, b1 + b2 + b3)
  {
    var a, b := a1 + a2 + a3, b1 + b2 + b3;
    forall i | 0 <= i < |a| ensures SameButMeta(a[i], b[i]) {
      if i < |a1| {
        assert a[i] == a1[i] && b[i] == b1[i];
      } else if i < |a1| + |a2| {
        assert a[i] == a2[i - |a1|] && b[i] == b2[i - |a1|];
      } else {
        assert a[i] == a3[i - |a1| - |a2|] && b[i] == b3[i - |a1| - |a2|];
      }
    }
  }

  /**
   * Enrichment fails exactly when the as-written collectors fail, and
   * otherwise yields the same entities in the same order, differing only in
   * their metadata.
   */
  lemma EnrichedEntitiesAgree(rt: Runtime, sel: Selector)
    ensures EnrichedContainers(rt, sel).Errors() + EnrichedVolumes(rt, sel).Errors() + EnrichedNetworks(rt, sel).Errors()
      == Failures(rt, sel)
    ensures AgreeButMeta(EnrichedEntities(rt, sel), Entities(rt, sel))
  {
    var p := sel.prefixes;
    if ContainerList(rt, sel.includeStopped).Ok? {
      var idx := EnrichedContainersAlong(ContainerList(rt, sel.includeStopped).value, p);
    }
    if rt.volumes.Ok? {
      var idx := EnrichedVolumesAlong(rt.volumes.value, p);
    }
    if rt.networks.Ok? {
      var idx := EnrichedNetworksAlong(rt.networks.value, p);
    }
    AgreeConcat(EnrichedContainers(rt, sel).GetOr([]), Containers(rt, sel).GetOr([]),
      EnrichedVolumes(rt, sel).GetOr([]), Volumes(rt, sel).GetOr([]),
      EnrichedNetworks(rt, sel).GetOr([]), Networks(rt, sel).GetOr([]));
  }

  /** Entity lists that agree but for metadata sort to the same (Kind, Name) sequence. */
  lemma AgreeingSortsMatch(a: seq<LabeledEntity>, b: seq<LabeledEntity>, r1: seq<LabeledEntity>, r2: seq<LabeledEntity>)
    requires AgreeButMeta(a, b)
    requires Sorted(r1) && multiset(r1) == multiset(a)
    requires Sorted(r2) && multiset(r2) == multiset(b)
    ensures Keys(r1) == Keys(r2)
  {
    KeysAt(a);
    KeysAt(b);
    assert Keys(a) == Keys(b);
    FilterMapPermutation(SomeKey, r1, a);
    FilterMapPermutation(SomeKey, r2, b);
    SortedKeys(r1);
    SortedKeys(r2);
    SortedKeysUnique(Keys(r1), Keys(r2));
  }

  /** Enrichment does not change where an entity lands in the sorted snapshot. */
  lemma EnrichmentKeepsOrder(rt: Runtime, sel: Selector, r1: seq<LabeledEntity>, r2: seq<LabeledEntity>)
    requires Sorted(r1) && multiset(r1) == multiset(EnrichedEntities(rt, sel))
    requires Sorted(r2) && multiset(r2) == multiset(Entities(rt, sel))
    ensures Keys(r1) == Keys(r2)
  {
    EnrichedEntitiesAgree(rt, sel);
    AgreeingSortsMatch(EnrichedEntities(rt, sel), Entities(rt, sel), r1, r2);
  }

  /** The containers of the collector tests' mock runtime. */
  function MockContainers(): seq<ContainerSummary>
  {
    [ ContainerSummary("container1", ["/test-container"], "test:latest",
        map["bosun.test" := "true", LabelInstance := "prod-01", ComposeProjectLabel := "myproject", ComposeServiceLabel := "web"]),
      ContainerSummary("container2", ["/test-container-no-instance"], "test2:latest",
        map["bosun.test" := "true", ComposeProjectLabel := "myproject", ComposeServiceLabel := "db"]) ]
  }

  function MockVolumes(): seq<Volume>
  {
    [ Volume("test-volume", "local", map["bosun.test" := "true", LabelInstance := "prod-01"]),
      Volume("test-volume-no-instance", "nfs", map["bosun.test" := "true"]) ]
  }

  function MockNetworks(): seq<NetworkSummary>
  {
    [ NetworkSummary("net1", "test-network", "bridge", "local", map["bosun.test" := "true", LabelInstance := "prod-01"]),
      NetworkSummary("net2", "test-network-no-instance", "overlay", "swarm", map["bosun.test" := "true"]) ]
  }

  /** `bosun.test=true` survives the `bosun.` filter. */
  lemma TestLabelKept(labels: map<string, string>)
    requires "bosun.test" in labels && labels["bosun.test"] == "true"
    ensures Filtered(labels, ["bosun."]) != map[]
  {
    assert HasPrefix("bosun.test", ["bosun."][0]);
    KeptLabel(labels, ["bosun."], "bosun.test", 0);
  }

  lemma ComposeLabelsDiffer()
    ensures ComposeProjectLabel != ComposeServiceLabel
  {
    assert ComposeProjectLabel[19] != ComposeServiceLabel[19];
  }

  /** What the mock containers' raw labels hold. */
  lemma MockContainerLabels()
    ensures Lookup(MockContainers()[0].labels, ComposeProjectLabel) == "myproject"
    ensures Lookup(MockContainers()[0].labels, ComposeServiceLabel) == "web"
    ensures HasInstance(MockContainers()[0].labels) && MockContainers()[0].labels[LabelInstance] == "prod-01"
    ensures !HasInstance(MockContainers()[1].labels)
  {
    ComposeLabelsDiffer();
    assert |LabelInstance| == 14;
  }

  /** Both mock containers are collected, with compose, image and instance metadata as the test expects. */
  lemma ContainerMetaFixture()
    ensures var es := EnrichedContainerEntities(MockContainers(), ["bosun."]);
      && |es| == 2
      && Lookup(es[0].meta, "compose.project") == "myproject"
      && Lookup(es[0].meta, "compose.service") == "web"
      && Lookup(es[0].meta, "image") == "test:latest"
      && Lookup(es[0].meta, InstanceMetaKey) == "prod-01"
      && InstanceMetaKey !in es[1].meta
  {
    var cs := MockContainers();
    TestLabelKept(cs[0].labels);
    TestLabelKept(cs[1].labels);
    FilterMapPair(EnrichedContainerBuilder(["bosun."]), cs[0], cs[1]);
    MockContainerLabels();
    var m0, m1 := EnrichedContainerMeta(cs[0]), EnrichedContainerMeta(cs[1]);
    assert InstanceMetaKey in m0.Keys;
    assert InstanceMetaKey !in m1.Keys;
  }

  /** Both mock volumes are collected as volumes, with driver and instance metadata as the test expects. */
  lemma VolumeMetaFixture()
    ensures var es := EnrichedVolumeEntities(MockVolumes(), ["bosun."]);
      && |es| == 2
      && es[0].kind == KindVolume && es[1].kind == KindVolume
      && Lookup(es[0].meta, "driver") == "local"
      && Lookup(es[0].meta, InstanceMetaKey) == "prod-01"
      && Lookup(es[1].meta, "driver") == "nfs"
      && InstanceMetaKey !in es[1].meta
  {
    var vs := MockVolumes();
    TestLabelKept(vs[0].labels);
    TestLabelKept(vs[1].labels);
    FilterMapPair(EnrichedVolumeBuilder(["bosun."]), vs[0], vs[1]);
    assert HasInstance(vs[0].labels) && !HasInstance(vs[1].labels);
    assert InstanceMetaKey in EnrichedVolumeMeta(vs[0]).Keys;
    assert InstanceMetaKey !in EnrichedVolumeMeta(vs[1]).Keys;
  }

  /** The enriched metadata of the two mock networks. */
  lemma MockNetworkMetas()
    ensures var m0, m1 := EnrichedNetworkMeta(MockNetworks()[0]), EnrichedNetworkMeta(MockNetworks()[1]);
      && Lookup(m0, "driver") == "bridge" && Lookup(m0, "scope") == "local" && Lookup(m0, InstanceMetaKey) == "prod-01"
      && Lookup(m1, "driver") == "overlay" && Lookup(m1, "scope") == "swarm" && InstanceMetaKey !in m1
  {
    var ns := MockNetworks();
    assert HasInstance(ns[0].labels) && !HasInstance(ns[1].labels);
    assert InstanceMetaKey in EnrichedNetworkMeta(ns[0]).Keys;
    assert InstanceMetaKey !in EnrichedNetworkMeta(ns[1]).Keys;
  }

  /** Both mock networks are collected as networks, with driver, scope and instance metadata as the test expects. */
  lemma NetworkMetaFixture()
    ensures var es := EnrichedNetworkEntities(MockNetworks(), ["bosun."]);
      && |es| == 2
      && es[0].kind == KindNetwork && es[1].kind == KindNetwork
      && Lookup(es[0].meta, "driver") == "bridge"
      && Lookup(es[0].meta, "scope") == "local"
      && Lookup(es[0].meta, InstanceMetaKey) == "prod-01"
      && Lookup(es[1].meta, "driver") == "overlay"
      && Lookup(es[1].meta, "scope") == "swarm"
      && InstanceMetaKey !in es[1].meta
  {
    var ns := MockNetworks();
    TestLabelKept(ns[0].labels);
    TestLabelKept(ns[1].labels);
    FilterMapPair(EnrichedNetworkBuilder(["bosun."]), ns[0], ns[1]);
    MockNetworkMetas();
  }

  /**
   * The as-written collectors on the same mocks: both containers are
   * collected, yet neither gets an `instance` entry, and both volumes and
   * both networks come with empty metadata, so neither the volume driver nor
   * the network driver and scope that the tests check is there.
   */
  lemma AsWrittenContainerMetaFixture()
    ensures var es := ContainerEntities(MockContainers(), ["bosun."]);
      && |es| == 2
      && InstanceMetaKey !in es[0].meta && InstanceMetaKey !in es[1].meta
  {
    var cs := MockContainers();
    TestLabelKept(cs[0].labels);
    TestLabelKept(cs[1].labels);
    FilterMapPair(ContainerBuilder(["bosun."]), cs[0], cs[1]);
    NoInstanceAsWritten(cs[0]);
    NoInstanceAsWritten(cs[1]);
  }

  /** The as-written container metadata never has an `instance` entry. */
  lemma NoInstanceAsWritten(c: ContainerSummary)
    ensures InstanceMetaKey !in ContainerMeta(c)
  {
    assert InstanceMetaKey != "image" && |InstanceMetaKey| < |"compose.project"| == |"compose.service"|;
  }

  lemma AsWrittenVolumeMetaFixture()
    ensures var es := VolumeEntities(MockVolumes(), ["bosun."]);
      && |es| == 2
      && es[0].meta == map[] && es[1].meta == map[]
  {
    var vs := MockVolumes();
    TestLabelKept(vs[0].labels);
    TestLabelKept(vs[1].labels);
    FilterMapPair(VolumeBuilder(["bosun."]), vs[0], vs[1]);
  }

  lemma AsWrittenNetworkMetaFixture()
    ensures var es := NetworkEntities(MockNetworks(), ["bosun."]);
      && |es| == 2
      && es[0].meta == map[] && es[1].meta == map[]
  {
    var ns := MockNetworks();
    TestLabelKept(ns[0].labels);
    TestLabelKept(ns[1].labels);
    FilterMapPair(NetworkBuilder(["bosun."]), ns[0], ns[1]);
  }
}
