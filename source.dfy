/**
 * The Docker label source (internal/adapters/dockerlabels/source.go): three
 * collectors that turn runtime listings into labeled entities, and the
 * aggregator that joins them into one snapshot.
 *
 * The runtime is not called: its answers to the three list calls (the
 * container list with and without `All`, the volume list and the network
 * list) are a `Runtime` value, given as a parameter.
 */
module DockerLabels {
  import opened Results
  import opened Strings
  import opened Sequences
  import opened Labels
  import opened Ports
  import opened Filters

  /** A container as the runtime lists it. */
  datatype ContainerSummary = ContainerSummary(id: string, names: seq<string>, image: string, labels: map<string, string>)

  /** A volume as the runtime lists it; a volume has no identifier besides its name. */
  datatype Volume = Volume(name: string, driver: string, labels: map<string, string>)

  /** A network as the runtime lists it. */
  datatype NetworkSummary = NetworkSummary(id: string, name: string, driver: string, scope: string, labels: map<string, string>)

  /**
   * The runtime's answers to the list queries: the container listing without
   * and with stopped containers (`All: false` and `All: true`), the volume
   * listing and the network listing, each a list or an error.
   */
  datatype Runtime = Runtime(
    runningContainers: Result<seq<ContainerSummary>, RuntimeError>,
    allContainers: Result<seq<ContainerSummary>, RuntimeError>,
    volumes: Result<seq<Volume>, RuntimeError>,
    networks: Result<seq<NetworkSummary>, RuntimeError>)

  /** `ContainerList` with `ListOptions{All: all}`. */
  function ContainerList(rt: Runtime, all: bool): Result<seq<ContainerSummary>, RuntimeError>
  {
    if all then rt.allContainers else rt.runningContainers
  }

  const ComposeProjectLabel: string := "com.docker.compose.project"
  const ComposeServiceLabel: string := "com.docker.compose.service"

  /** Go's `m[key]` on a string map: the empty string when the key is absent. */
  function Lookup(m: map<string, string>, key: string): string
  {
    if key in m then m[key] else ""
  }

  /** A container's name: its first name without one leading `/`, or empty when it has none. */
  function ContainerName(names: seq<string>): (r: string)
    ensures names == [] ==> r == ""
    ensures names != [] && HasPrefix(names[0], "/") ==> "/" + r == names[0]
    ensures names != [] && !HasPrefix(names[0], "/") ==> r == names[0]
  {
    if |names| > 0 then TrimPrefix(names[0], "/") else ""
  }

  /** Container metadata: compose project and service from the raw labels, and the image. */
  function ContainerMeta(c: ContainerSummary): (m: map<string, string>)
    ensures m.Keys == {"compose.project", "compose.service", "image"}
    ensures m["compose.project"] == Lookup(c.labels, ComposeProjectLabel)
    ensures m["compose.service"] == Lookup(c.labels, ComposeServiceLabel)
    ensures m["image"] == c.image
  {
    map["compose.project" := Lookup(c.labels, ComposeProjectLabel),
        "compose.service" := Lookup(c.labels, ComposeServiceLabel),
        "image" := c.image]
  }

  /** The entity a container yields, or None when none of its labels survives the filter. */
  function ContainerEntity(c: ContainerSummary, prefixes: seq<string>): Option<LabeledEntity>
  {
    var fl := Filtered(c.labels, prefixes);
    if fl == map[] then None
    else Some(LabeledEntity(KindContainer, c.id, ContainerName(c.names), fl, ContainerMeta(c)))
  }

  /** The entity a volume yields; its ID is its name and its metadata is empty. */
  function VolumeEntity(v: Volume, prefixes: seq<string>): Option<LabeledEntity>
  {
    var fl := Filtered(v.labels, prefixes);
    if fl == map[] then None
    else Some(LabeledEntity(KindVolume, v.name, v.name, fl, map[]))
  }

  /** The entity a network yields; its metadata is empty. */
  function NetworkEntity(n: NetworkSummary, prefixes: seq<string>): Option<LabeledEntity>
  {
    var fl := Filtered(n.labels, prefixes);
    if fl == map[] then None
    else Some(LabeledEntity(KindNetwork, n.id, n.name, fl, map[]))
  }

  function ContainerBuilder(prefixes: seq<string>): ContainerSummary -> Option<LabeledEntity>
  {
    c => ContainerEntity(c, prefixes)
  }

  function VolumeBuilder(prefixes: seq<string>): Volume -> Option<LabeledEntity>
  {
    v => VolumeEntity(v, prefixes)
  }

  function NetworkBuilder(prefixes: seq<string>): NetworkSummary -> Option<LabeledEntity>
  {
    n => NetworkEntity(n, prefixes)
  }

  /** The entities of a container listing, in listing order. */
  function ContainerEntities(cs: seq<ContainerSummary>, prefixes: seq<string>): seq<LabeledEntity>
  {
    FilterMap(ContainerBuilder(prefixes), cs)
  }

  function VolumeEntities(vs: seq<Volume>, prefixes: seq<string>): seq<LabeledEntity>
  {
    FilterMap(VolumeBuilder(prefixes), vs)
  }

  function NetworkEntities(ns: seq<NetworkSummary>, prefixes: seq<string>): seq<LabeledEntity>
  {
    FilterMap(NetworkBuilder(prefixes), ns)
  }

  /** What the container collector returns: the runtime's error unchanged, or the entities of its listing. */
  function Containers(rt: Runtime, sel: Selector): Result<seq<LabeledEntity>, RuntimeError>
  {
    match ContainerList(rt, sel.includeStopped)
    case Err(e) => Err(e)
    case Ok(cs) => Ok(ContainerEntities(cs, sel.prefixes))
  }

  function Volumes(rt: Runtime, sel: Selector): Result<seq<LabeledEntity>, RuntimeError>
  {
    match rt.volumes
    case Err(e) => Err(e)
    case Ok(vs) => Ok(VolumeEntities(vs, sel.prefixes))
  }

  function Networks(rt: Runtime, sel: Selector): Result<seq<LabeledEntity>, RuntimeError>
  {
    match rt.networks
    case Err(e) => Err(e)
    case Ok(ns) => Ok(NetworkEntities(ns, sel.prefixes))
  }

  /** `snapshotContainers`. */
  method SnapshotContainers(rt: Runtime, sel: Selector) returns (r: Result<seq<LabeledEntity>, RuntimeError>)
    ensures r == Containers(rt, sel)
  {
    var listed := ContainerList(rt, sel.includeStopped);
    if listed.Err? {
      return Err(listed.error);
    }
    var ctrs := listed.value;
    var out: seq<LabeledEntity> := [];
    var i := 0;
    while i < |ctrs|
      invariant 0 <= i <= |ctrs|
      invariant out == ContainerEntities(ctrs[..i], sel.prefixes)
    {
      var c := ctrs[i];
      FilterMapSnoc(ContainerBuilder(sel.prefixes), ctrs, i);
      var fl := FilterByPrefixes(c.labels, sel.prefixes);
      ContainerStep(c, sel.prefixes, fl);
      if |fl| != 0 {
        var name := ContainerName(c.names);
        out := out + [LabeledEntity(KindContainer, c.id, name, fl, ContainerMeta(c))];
      }
      i := i + 1;
    }
    assert ctrs[..i] == ctrs;
    return Ok(out);
  }

  /** `snapshotVolumes`. */
  method SnapshotVolumes(rt: Runtime, sel: Selector) returns (r: Result<seq<LabeledEntity>, RuntimeError>)
    ensures r == Volumes(rt, sel)
  {
    if rt.volumes.Err? {
      return Err(rt.volumes.error);
    }
    var vl := rt.volumes.value;
    var out: seq<LabeledEntity> := [];
    var i := 0;
    while i < |vl|
      invariant 0 <= i <= |vl|
      invariant out == VolumeEntities(vl[..i], sel.prefixes)
    {
      var v := vl[i];
      FilterMapSnoc(VolumeBuilder(sel.prefixes), vl, i);
      var fl := FilterByPrefixes(v.labels, sel.prefixes);
      VolumeStep(v, sel.prefixes, fl);
      if |fl| != 0 {
        out := out + [LabeledEntity(KindVolume, v.name, v.name, fl, map[])];
      }
      i := i + 1;
    }
    assert vl[..i] == vl;
    return Ok(out);
  }

  /** `snapshotNetworks`. */
  method SnapshotNetworks(rt: Runtime, sel: Selector) returns (r: Result<seq<LabeledEntity>, RuntimeError>)
    ensures r == Networks(rt, sel)
  {
    if rt.networks.Err? {
      return Err(rt.networks.error);
    }
    var nets := rt.networks.value;
    var out: seq<LabeledEntity> := [];
    var i := 0;
    while i < |nets|
      invariant 0 <= i <= |nets|
      invariant out == NetworkEntities(nets[..i], sel.prefixes)
    {
      var n := nets[i];
      FilterMapSnoc(NetworkBuilder(sel.prefixes), nets, i);
      var fl := FilterByPrefixes(n.labels, sel.prefixes);
      NetworkStep(n, sel.prefixes, fl);
      if |fl| != 0 {
        out := out + [LabeledEntity(KindNetwork, n.id, n.name, fl, map[])];
      }
      i := i + 1;
    }
    assert nets[..i] == nets;
    return Ok(out);
  }

  /** One step of the container loop: the entity, if any, that one container adds. */
  lemma ContainerStep(c: ContainerSummary, p: seq<string>, fl: map<string, string>)
    requires fl == Filtered(c.labels, p)
    ensures AsSeq(ContainerBuilder(p)(c)) ==
      if |fl| != 0 then [LabeledEntity(KindContainer, c.id, ContainerName(c.names), fl, ContainerMeta(c))] else []
  {
    assert |fl| != 0 <==> fl != map[];
  }

  lemma VolumeStep(v: Volume, p: seq<string>, fl: map<string, string>)
    requires fl == Filtered(v.labels, p)
    ensures AsSeq(VolumeBuilder(p)(v)) == if |fl| != 0 then [LabeledEntity(KindVolume, v.name, v.name, fl, map[])] else []
  {
    assert |fl| != 0 <==> fl != map[];
  }

  lemma NetworkStep(n: NetworkSummary, p: seq<string>, fl: map<string, string>)
    requires fl == Filtered(n.labels, p)
    ensures AsSeq(NetworkBuilder(p)(n)) == if |fl| != 0 then [LabeledEntity(KindNetwork, n.id, n.name, fl, map[])] else []
  {
    assert |fl| != 0 <==> fl != map[];
  }

  /** The errors of the collectors that failed, in container, volume, network order. */
  function Failures(rt: Runtime, sel: Selector): seq<RuntimeError>
  {
    Containers(rt, sel).Errors() + Volumes(rt, sel).Errors() + Networks(rt, sel).Errors()
  }

  /** The entities of a successful snapshot: containers, then volumes, then networks. */
  function Entities(rt: Runtime, sel: Selector): seq<LabeledEntity>
  {
    Containers(rt, sel).GetOr([]) + Volumes(rt, sel).GetOr([]) + Networks(rt, sel).GetOr([])
  }

  /**
   * `Snapshot`: runs the three collectors and joins them. It fails when any
   * collector fails, with the error of one of the failing collectors and the
   * zero snapshot; otherwise the entities are the three results concatenated
   * in kind order and stamped with `now`. The collectors run concurrently in
   * the source, so which failing collector's error is reported is left open.
   */
  method Snapshot(rt: Runtime, sel: Selector, now: Instant) returns (snap: Labels.Snapshot, err: Option<RuntimeError>)
    ensures IsLabelSourceReply(snap, err)
    ensures err.Some? <==> Failures(rt, sel) != []
    ensures err.Some? ==> err.value in Failures(rt, sel)
    ensures err.None? ==> snap == Labels.Snapshot(Entities(rt, sel), now)
  {
    var containers := SnapshotContainers(rt, sel);
    var volumes := SnapshotVolumes(rt, sel);
    var networks := SnapshotNetworks(rt, sel);
    if containers.Err? {
      return ZeroSnapshot, Some(containers.error);
    }
    if volumes.Err? {
      return ZeroSnapshot, Some(volumes.error);
    }
    if networks.Err? {
      return ZeroSnapshot, Some(networks.error);
    }
    var entities := containers.value + volumes.value + networks.value;
    return Labels.Snapshot(entities, now), None;
  }

  /**
   * The container collector keeps the listing order, emits at most one entity
   * per container, emits one exactly for the containers whose filtered labels
   * are not empty, and builds it from that container.
   */
  lemma ContainerEntitiesOrigins(cs: seq<ContainerSummary>, p: seq<string>) returns (idx: seq<nat>)
    ensures |idx| == |ContainerEntities(cs, p)| <= |cs|
    ensures forall k, l :: 0 <= k < l < |idx| ==> idx[k] < idx[l]
    ensures forall i :: 0 <= i < |cs| ==> (i in idx <==> Filtered(cs[i].labels, p) != map[])
    ensures forall k :: 0 <= k < |idx| ==>
      idx[k] < |cs| &&
      ContainerEntities(cs, p)[k] == LabeledEntity(KindContainer, cs[idx[k]].id, ContainerName(cs[idx[k]].names),
        Filtered(cs[idx[k]].labels, p), ContainerMeta(cs[idx[k]]))
  {
    idx := FilterMapOrigins(ContainerBuilder(p), cs);
  }

  /** The volume collector, likewise; a volume entity's ID and name are both the volume's name. */
  lemma VolumeEntitiesOrigins(vs: seq<Volume>, p: seq<string>) returns (idx: seq<nat>)
    ensures |idx| == |VolumeEntities(vs, p)| <= |vs|
    ensures forall k, l :: 0 <= k < l < |idx| ==> idx[k] < idx[l]
    ensures forall i :: 0 <= i < |vs| ==> (i in idx <==> Filtered(vs[i].labels, p) != map[])
    ensures forall k :: 0 <= k < |idx| ==>
      idx[k] < |vs| &&
      VolumeEntities(vs, p)[k] == LabeledEntity(KindVolume, vs[idx[k]].name, vs[idx[k]].name,
        Filtered(vs[idx[k]].labels, p), map[])
  {
    idx := FilterMapOrigins(VolumeBuilder(p), vs);
  }

  /** The network collector, likewise. */
  lemma NetworkEntitiesOrigins(ns: seq<NetworkSummary>, p: seq<string>) returns (idx: seq<nat>)
    ensures |idx| == |NetworkEntities(ns, p)| <= |ns|
    ensures forall k, l :: 0 <= k < l < |idx| ==> idx[k] < idx[l]
    ensures forall i :: 0 <= i < |ns| ==> (i in idx <==> Filtered(ns[i].labels, p) != map[])
    ensures forall k :: 0 <= k < |idx| ==>
      idx[k] < |ns| &&
      NetworkEntities(ns, p)[k] == LabeledEntity(KindNetwork, ns[idx[k]].id, ns[idx[k]].name,
        Filtered(ns[idx[k]].labels, p), map[])
  {
    idx := FilterMapOrigins(NetworkBuilder(p), ns);
  }

  /**
   * What every entity of a snapshot satisfies: its labels are not empty, each
   * label key starts with a selector prefix, each label value has a character
   * that is not white space, and a volume's ID equals its name.
   */
  predicate WellFormed(e: LabeledEntity, prefixes: seq<string>)
  {
    && e.labels != map[]
    && (forall k :: k in e.labels ==> MatchesAny(k, prefixes) && !IsBlank(e.labels[k]))
    && (e.kind == KindVolume ==> e.id == e.name)
  }

  lemma FilteredWellFormed(e: LabeledEntity, raw: map<string, string>, prefixes: seq<string>)
    requires e.labels == Filtered(raw, prefixes) != map[]
    requires e.kind == KindVolume ==> e.id == e.name
    ensures WellFormed(e, prefixes)
  {
    FilteredCharacterized(raw, prefixes);
  }

  /** Every entity of a snapshot is well formed, and each block carries its collector's kind. */
  lemma EntitiesWellFormed(rt: Runtime, sel: Selector)
    ensures forall e :: e in Entities(rt, sel) ==> WellFormed(e, sel.prefixes)
    ensures forall e :: e in Containers(rt, sel).GetOr([]) ==> e.kind == KindContainer
    ensures forall e :: e in Volumes(rt, sel).GetOr([]) ==> e.kind == KindVolume
    ensures forall e :: e in Networks(rt, sel).GetOr([]) ==> e.kind == KindNetwork
  {
    var p := sel.prefixes;
    var cs := Containers(rt, sel).GetOr([]);
    var vs := Volumes(rt, sel).GetOr([]);
    var ns := Networks(rt, sel).GetOr([]);
    if ContainerList(rt, sel.includeStopped).Ok? {
      var listing := ContainerList(rt, sel.includeStopped).value;
      var idx := ContainerEntitiesOrigins(listing, p);
      forall k | 0 <= k < |cs| ensures WellFormed(cs[k], p) && cs[k].kind == KindContainer {
        FilteredWellFormed(cs[k], listing[idx[k]].labels, p);
      }
    }
    if rt.volumes.Ok? {
      var idx := VolumeEntitiesOrigins(rt.volumes.value, p);
      forall k | 0 <= k < |vs| ensures WellFormed(vs[k], p) && vs[k].kind == KindVolume {
        FilteredWellFormed(vs[k], rt.volumes.value[idx[k]].labels, p);
      }
    }
    if rt.networks.Ok? {
      var idx := NetworkEntitiesOrigins(rt.networks.value, p);
      forall k | 0 <= k < |ns| ensures WellFormed(ns[k], p) && ns[k].kind == KindNetwork {
        FilteredWellFormed(ns[k], rt.networks.value[idx[k]].labels, p);
      }
    }
  }

  /** No collector reads the project filter: the outcome of a snapshot does not depend on it. */
  lemma ProjectFilterIgnored(rt: Runtime, sel: Selector, projects: seq<string>)
    ensures Failures(rt, sel.(projectFilter := projects)) == Failures(rt, sel)
    ensures Entities(rt, sel.(projectFilter := projects)) == Entities(rt, sel)
  {
  }

  /**
   * `includeStopped` only chooses which container listing is used; the volume
   * and network collectors ignore it.
   */
  lemma IncludeStoppedOnlySelectsContainerListing(rt: Runtime, sel: Selector, all: bool)
    ensures Volumes(rt, sel.(includeStopped := all)) == Volumes(rt, sel)
    ensures Networks(rt, sel.(includeStopped := all)) == Networks(rt, sel)
    ensures rt.runningContainers == rt.allContainers ==>
      Containers(rt, sel.(includeStopped := all)) == Containers(rt, sel)
  {
  }
}
