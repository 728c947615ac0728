# bosun Docker label source, modelled in Dafny

bosun's Docker label source turns what the container runtime lists into an
inventory of labeled entities:

- `FilterByPrefixes` keeps a resource label when its key starts with one of
  the selector's prefixes and its value is not blank.
- Three collectors (containers, volumes and networks) build one
  `LabeledEntity` for every resource that still has a label after filtering.
  Each entity carries its kind, ID and name, the filtered labels, and derived
  metadata.
- `Snapshot` runs the three collectors. If any one fails, it returns a runtime
  error and the zero snapshot. Otherwise it returns the containers, then the
  volumes, then the networks, stamped with the time.
- The unit tests order a snapshot by kind rank (container < volume < network)
  and then by name. They also expect more metadata than the collectors set:
  a volume's driver, a network's driver and scope, and the `bosun.instance`
  label's value under `instance`.

The project has one module per part:

| file | module | models |
|---|---|---|
| `results.dfy` | `Results` | `Option` and `Result`, for Go's `(value, error)` returns |
| `strings.dfy` | `Strings` | Go's `strings.TrimSpace`, `HasPrefix` and `TrimPrefix`, and Go's `<` on strings |
| `labels.dfy` | `Labels` | `internal/domain/labels/types.go`: `Kind`, `LabeledEntity`, `Snapshot` and the label constants |
| `ports.dfy` | `Ports` | `internal/ports/labels.go`: `Selector` and the `LabelSource.Snapshot` reply contract |
| `sequences.dfy` | `Sequences` | `FilterMap`, the shape of every collector loop ("map each element, skip some"), and its general lemmas |
| `filters.dfy` | `Filters` | `internal/adapters/dockerlabels/filters.go` |
| `source.dfy` | `DockerLabels` | `internal/adapters/dockerlabels/source.go`: the three collectors and `Snapshot` |
| `ordering.dfy` | `Ordering` | the `kindOrder` / `sort.Slice` ordering of `source_test.go`, and a sorted snapshot |
| `enrichment.dfy` | `Enrichment` | the metadata enrichment that `source_test.go` expects |

How the model is built:

- The runtime is not called. Its answers to the four list queries are a
  `Runtime` value, passed as a parameter:
  - running containers (`All: false`);
  - all containers (`All: true`);
  - volumes;
  - networks.

  Each answer is a list or a `RuntimeError`.
- `FilterByPrefixes` and the collectors are methods with loops. Each is proved
  to compute a specification function (`Filtered`, `Containers`, `Volumes`,
  `Networks`), and the lemmas state what those functions promise.
- The ordering rule sorts an array in place with a selection sort.
- The time stamp is a parameter `now`.

Where the tests check more than `source.go` does, the model follows the code
and adds the tested behaviour beside it, under its own name:

- `source.go` builds an empty metadata map for volumes and networks
  (internal/adapters/dockerlabels/source.go:84 and :109). It never sets
  `instance`, and it does not sort the concatenated entities
  (internal/adapters/dockerlabels/source.go:143).
- `DockerLabels` models `source.go` as written.
- `Enrichment` defines the enriched collectors that the tests describe. Its
  lemmas prove that they agree with the as-written ones except for the
  metadata. The `AsWritten…Fixture` lemmas show that the as-written
  collectors, run on the tests' mocks, lack the metadata the tests check.
- `Ordering.SortedSnapshot` applies the tests' ordering to the snapshot.
- The tests and this `source.go` read as different versions of the code. The
  tests put a `&mockDockerClient{}` into the `CLI` field
  (internal/adapters/dockerlabels/source_test.go:92, :130 and :168), which
  `source.go` declares as `*client.Client`
  (internal/adapters/dockerlabels/source.go:19). So the shown tests cannot
  compile against the shown `source.go`. The model treats the metadata and
  ordering gap as this version skew, not as a coding error.
- The tests check `instance` only for a present label and an absent one
  (internal/adapters/dockerlabels/source_test.go:118-126, :153-164 and
  :194-208). The model also leaves `instance` out when the label's value is
  empty; see "## Left out".

## Model

| member | source | states |
|---|---|---|
| Strings.IsSpace | internal/adapters/dockerlabels/filters.go:16 | definition: Go's `unicode.IsSpace` set (ASCII white space, NEL, NBSP and the Unicode White_Space characters), which `strings.TrimSpace` trims |
| Strings.TrimLeft | internal/adapters/dockerlabels/filters.go:16 | the result is a suffix of the input, only white space was dropped, and it does not start with white space |
| Strings.TrimRight | internal/adapters/dockerlabels/filters.go:16 | the result is a prefix of the input, only white space was dropped, and it does not end with white space |
| Strings.TrimSpace | internal/adapters/dockerlabels/filters.go:16 | the result is no longer than the input and neither starts nor ends with white space |
| Strings.TrimSpaceCutsBlank | internal/adapters/dockerlabels/filters.go:16 | the input is a white-space prefix, then the trimmed result, then a white-space suffix |
| Strings.TrimSpaceEmptyIffBlank | internal/adapters/dockerlabels/filters.go:16-18 | a value trims to `""` exactly when every character is white space (Go's `unicode.IsSpace` set) |
| Strings.HasPrefix | internal/adapters/dockerlabels/filters.go:20 | definition of Go's `strings.HasPrefix`: the prefix is no longer than the string and equals its first characters; no contract of its own |
| Strings.TrimPrefix | internal/adapters/dockerlabels/source.go:47 | one leading occurrence of the prefix is removed when present; the string is unchanged otherwise |
| Strings.Less | internal/adapters/dockerlabels/source_test.go:235 | definition of Go's `<` on strings as lexicographic order; its properties are the three lemmas below |
| Strings.LessIrreflexive | internal/adapters/dockerlabels/source_test.go:235 | no string is less than itself |
| Strings.LessTransitive | internal/adapters/dockerlabels/source_test.go:235 | string `<` is transitive |
| Strings.LessTotal | internal/adapters/dockerlabels/source_test.go:235 | of two different strings one is less than the other |
| Labels.KindName | internal/domain/labels/types.go:14-18 | definition: the string value of each kind constant; no contract of its own |
| Labels.KindNameInjective | internal/domain/labels/types.go:12-18 | the string forms `container`, `volume`, `network` of the three kinds are pairwise distinct |
| Ports.IsLabelSourceReply | internal/ports/labels.go:15-17 | definition of what a `LabelSource.Snapshot` reply is: a snapshot and an optional error, with the zero snapshot beside an error; `Snapshot` and `SortedSnapshot` promise it |
| Filters.MatchesAny | internal/adapters/dockerlabels/filters.go:19-23 | definition: the key starts, literally, with at least one of the prefixes, which is when the inner loop finds a match |
| Filters.Keeps | internal/adapters/dockerlabels/filters.go:16-22 | definition: the keep rule for one label, a value that is not blank once trimmed and a key that matches some prefix |
| Filters.Filtered | internal/adapters/dockerlabels/filters.go:15-24 | specification of the filter as a map comprehension; `FilteredCharacterized` states what it means |
| Filters.FilterByPrefixes | internal/adapters/dockerlabels/filters.go:9-27 | the loop returns exactly `Filtered(labels, prefixes)`: the labels whose key starts with a prefix and whose trimmed value is non-empty, with their input values |
| Filters.NoPrefixesKeepNothing | internal/adapters/dockerlabels/filters.go:10-12 | with no prefixes the result is the empty map, whatever the labels |
| Filters.FilteredCharacterized | internal/adapters/dockerlabels/filters.go:15-24 | a key is in the result iff it is in the input, starts with some prefix and its value is not all white space; every kept value equals the input value (a sub-map, and complete) |
| Filters.NoMatchKeepsNothing | internal/adapters/dockerlabels/filters_test.go:47-52 | when no key starts with any prefix the result is empty |
| Filters.FilteredUnion | internal/adapters/dockerlabels/filters.go:19-24 | filtering by `p + q` is the union of filtering by `p` and by `q` |
| Filters.PrefixHasNoDotBoundary | internal/adapters/dockerlabels/filters.go:20 | the prefix `bosun` also keeps `bosunx.foo`: matching is a literal prefix test |
| Filters.BlankValuesDropped | internal/adapters/dockerlabels/filters_test.go:41-46 | values `"   "` and `"\t\n"` are dropped and `value1` is kept |
| Filters.KeptLabel | internal/adapters/dockerlabels/filters.go:16-22 | a key that starts with a prefix and whose value starts with a non-space character is kept |
| DockerLabels.ContainerList | internal/adapters/dockerlabels/source.go:33-34 | definition: the runtime's container listing for `ListOptions{All: all}`, all containers when `all` holds and only running ones otherwise |
| DockerLabels.Lookup | internal/adapters/dockerlabels/source.go:55-56 | definition: Go's `m[key]` on a string map, the stored value or `""` when the key is absent |
| DockerLabels.ContainerName | internal/adapters/dockerlabels/source.go:45-48 | a container's name is its first name without one leading `/`, or `""` when it has no name |
| DockerLabels.ContainerMeta | internal/adapters/dockerlabels/source.go:54-58 | a container's metadata has exactly the keys `compose.project`, `compose.service` and `image`, holding the two compose labels (`""` when absent) and the image |
| DockerLabels.ContainerEntity | internal/adapters/dockerlabels/source.go:41-60 | definition: one container's loop step, no entity when its filtered labels are empty, otherwise kind container, its ID, `ContainerName`, the filtered labels and `ContainerMeta` |
| DockerLabels.VolumeEntity | internal/adapters/dockerlabels/source.go:75-86 | definition: one volume's loop step, no entity when its filtered labels are empty, otherwise kind volume with the volume's name as ID and name, the filtered labels and empty metadata |
| DockerLabels.NetworkEntity | internal/adapters/dockerlabels/source.go:100-111 | definition: one network's loop step, no entity when its filtered labels are empty, otherwise kind network with the network's ID and name, the filtered labels and empty metadata |
| DockerLabels.ContainerEntities | internal/adapters/dockerlabels/source.go:39-62 | definition: the entities of a container listing, the `ContainerEntity` of each container in listing order with the skipped ones left out; `ContainerEntitiesOrigins` states what this means |
| DockerLabels.VolumeEntities | internal/adapters/dockerlabels/source.go:73-87 | definition: the same for a volume listing; `VolumeEntitiesOrigins` states what this means |
| DockerLabels.NetworkEntities | internal/adapters/dockerlabels/source.go:98-112 | definition: the same for a network listing; `NetworkEntitiesOrigins` states what this means |
| DockerLabels.Containers | internal/adapters/dockerlabels/source.go:32-63 | definition: what `snapshotContainers` returns, the listing's error unchanged or the `ContainerEntities` of the listing; the specification `SnapshotContainers` is proved to meet |
| DockerLabels.Volumes | internal/adapters/dockerlabels/source.go:67-88 | definition: what `snapshotVolumes` returns, the listing's error unchanged or its `VolumeEntities`; the specification of `SnapshotVolumes` |
| DockerLabels.Networks | internal/adapters/dockerlabels/source.go:92-113 | definition: what `snapshotNetworks` returns, the listing's error unchanged or its `NetworkEntities`; the specification of `SnapshotNetworks` |
| DockerLabels.SnapshotContainers | internal/adapters/dockerlabels/source.go:32-63 | returns the container listing's error unchanged (chosen by `includeStopped`), or exactly `ContainerEntities` of the listing |
| DockerLabels.SnapshotVolumes | internal/adapters/dockerlabels/source.go:67-88 | returns the volume listing's error unchanged, or exactly `VolumeEntities` of the listing |
| DockerLabels.SnapshotNetworks | internal/adapters/dockerlabels/source.go:92-113 | returns the network listing's error unchanged, or exactly `NetworkEntities` of the listing |
| DockerLabels.ContainerEntitiesOrigins | internal/adapters/dockerlabels/source.go:39-62 | entities follow the listing order, one at most per container, one exactly for containers with non-empty filtered labels; each has kind container, the container's ID, its name, the filtered labels as `Labels`, and compose project/service (`""` when absent) and image as `Meta` |
| DockerLabels.VolumeEntitiesOrigins | internal/adapters/dockerlabels/source.go:73-87 | the same for volumes; ID and name are both the volume's name and `Meta` is empty |
| DockerLabels.NetworkEntitiesOrigins | internal/adapters/dockerlabels/source.go:98-112 | the same for networks; ID and name are the network's and `Meta` is empty |
| DockerLabels.Failures | internal/adapters/dockerlabels/source.go:121-141 | definition: the errors of the collectors that fail, in container, volume, network order; `Snapshot` fails exactly when this is non-empty and with one of its elements |
| DockerLabels.Entities | internal/adapters/dockerlabels/source.go:143 | definition: the concatenation containers ++ volumes ++ networks of the collectors' results, the entities of a successful snapshot |
| DockerLabels.Snapshot | internal/adapters/dockerlabels/source.go:116-149 | fails exactly when some collector fails; the error is one of the collectors' errors and comes with the zero snapshot; otherwise it returns containers ++ volumes ++ networks stamped with `now` |
| DockerLabels.EntitiesWellFormed | internal/adapters/dockerlabels/source.go:39-112 | every snapshot entity has non-empty labels, each key starting with a prefix and each value not blank; a volume's ID equals its name; each block carries its collector's kind |
| DockerLabels.ProjectFilterIgnored | internal/ports/labels.go:12 | the snapshot's failures and entities do not depend on `ProjectFilter` |
| DockerLabels.IncludeStoppedOnlySelectsContainerListing | internal/adapters/dockerlabels/source.go:33 | `IncludeStopped` leaves the volume and network results unchanged and only chooses the container listing |
| Ordering.Sorted | internal/adapters/dockerlabels/source_test.go:231-236 | definition: what `sort.Slice` with the comparator leaves, no entity less than one before it |
| Ordering.Keys | internal/adapters/dockerlabels/source_test.go:258-265 | definition: the (Kind, Name) sequence of a list of entities, which the ordering tests compare (also at source_test.go:308-313) |
| Ordering.Rank | internal/adapters/dockerlabels/source_test.go:226-230 | definition of `kindOrder`: container 0, volume 1, network 2 |
| Ordering.KeyLess | internal/adapters/dockerlabels/source_test.go:231-236 | definition of the comparator on (rank, name) keys: the lower rank first, and names by `<` within a rank; its properties are the three lemmas below |
| Ordering.EntityLess | internal/adapters/dockerlabels/source_test.go:231-236 | the comparator applied to two entities' (kind, name) keys |
| Ordering.KeyLessIrreflexive | internal/adapters/dockerlabels/source_test.go:231-236 | the comparator never puts an entity before one with the same kind and name |
| Ordering.KeyLessTransitive | internal/adapters/dockerlabels/source_test.go:231-236 | the comparator is transitive |
| Ordering.KeyLessTotal | internal/adapters/dockerlabels/source_test.go:231-236 | of two different (kind, name) keys one comes first |
| Ordering.SortEntities | internal/adapters/dockerlabels/source_test.go:231-236 | sorts the array in place: the result is sorted by the comparator and a permutation of the input |
| Ordering.SortedCopy | internal/adapters/dockerlabels/source_test.go:287-294 | sorting a copy: sorted, a permutation, same length, kind blocks in rank order and names ascending within a block |
| Ordering.SortedGroupsByKind | internal/adapters/dockerlabels/source_test.go:238-250 | in a sorted list, containers, volumes and networks come in that order and names do not descend within a kind |
| Ordering.SortedKeysUnique | internal/adapters/dockerlabels/source_test.go:268-315 | two sorted key sequences with the same elements are equal |
| Ordering.SortOutcomeDeterministic | internal/adapters/dockerlabels/source_test.go:268-315 | any two sorted permutations of the same entities have the same (kind, name) sequence, though the sort is unstable |
| Ordering.SortingFixture | internal/adapters/dockerlabels/source_test.go:215-223 | definition: the test's seven entities with their kinds, IDs and names, in the test's order |
| Ordering.ExpectedOrder | internal/adapters/dockerlabels/source_test.go:239-250 | definition: the (Kind, Name) order the test expects |
| Ordering.EntitySortingFixture | internal/adapters/dockerlabels/source_test.go:212-266 | every sorted permutation of the test's seven entities has the expected (kind, name) order |
| Ordering.SortedSnapshot | internal/adapters/dockerlabels/source_test.go:225-236 | `Snapshot` followed by the sort: the same reply contract and errors, and on success a sorted permutation of the snapshot's entities |
| Ordering.EntitiesGroupedByKind | internal/adapters/dockerlabels/source.go:143 | the unsorted concatenation already has the kinds in rank order |
| Ordering.EntitiesPermuted | internal/adapters/dockerlabels/source.go:40-112 | listings holding the same resources in another order give the same failures and the same entities, reordered |
| Ordering.SortedSnapshotIgnoresListingOrder | internal/adapters/dockerlabels/source_test.go:268-315 | whatever order the runtime lists resources in, the sorted snapshots have the same (kind, name) sequence |
| Enrichment.HasInstance | internal/adapters/dockerlabels/source_test.go:118-126 | definition: the raw labels name an instance, the `bosun.instance` label present with a non-empty value |
| Enrichment.WithInstance | internal/adapters/dockerlabels/source_test.go:118-126 | only the `instance` key changes; it is added with the raw `bosun.instance` value exactly when that value is present and non-empty, and otherwise the metadata is returned unchanged |
| Enrichment.InstanceLabelPassesDefaultFilter | internal/domain/labels/types.go:10 | a non-blank `bosun.instance` label survives the default `bosun.` filter with its value |
| Enrichment.EnrichedContainerMeta | internal/adapters/dockerlabels/source_test.go:108-126 | a container's metadata is exactly compose project, compose service, image and, when named, instance |
| Enrichment.EnrichedVolumeMeta | internal/adapters/dockerlabels/source_test.go:145-164 | a volume's metadata is exactly its driver and, when named, instance |
| Enrichment.EnrichedNetworkMeta | internal/adapters/dockerlabels/source_test.go:183-208 | a network's metadata is exactly its driver, its scope and, when named, instance |
| Enrichment.EnrichedContainerEntity | internal/adapters/dockerlabels/source_test.go:103-126 | definition: the container collector the tests describe for one container, the as-written `ContainerEntity` with its metadata replaced by `EnrichedContainerMeta` |
| Enrichment.EnrichedVolumeEntity | internal/adapters/dockerlabels/source_test.go:141-164 | definition: the same for one volume, with `EnrichedVolumeMeta` |
| Enrichment.EnrichedNetworkEntity | internal/adapters/dockerlabels/source_test.go:179-208 | definition: the same for one network, with `EnrichedNetworkMeta` |
| Enrichment.EnrichedContainerEntities | internal/adapters/dockerlabels/source_test.go:98-126 | definition: the enriched container collector's pass over a listing, the `EnrichedContainerEntity` of each container in listing order with the skipped ones left out |
| Enrichment.EnrichedVolumeEntities | internal/adapters/dockerlabels/source_test.go:136-164 | definition: the same pass over a volume listing |
| Enrichment.EnrichedNetworkEntities | internal/adapters/dockerlabels/source_test.go:174-208 | definition: the same pass over a network listing |
| Enrichment.EnrichedContainersAlong | internal/adapters/dockerlabels/source_test.go:103-126 | enriched container entities are the as-written ones, in the same order, with only `Meta` replaced: the k-th entity of both lists comes from the same container (the as-written entity is that container's `ContainerEntity`), its `Meta` becomes that container's enriched metadata, and the origins are strictly increasing |
| Enrichment.EnrichedVolumesAlong | internal/adapters/dockerlabels/source_test.go:141-164 | the same for volumes, with `VolumeEntity` as the origin |
| Enrichment.EnrichedNetworksAlong | internal/adapters/dockerlabels/source_test.go:179-208 | the same for networks, with `NetworkEntity` as the origin |
| Enrichment.InstanceIffLabel | internal/adapters/dockerlabels/source_test.go:118-208 | for every container, volume and network that yields an entity, that entity's metadata has `instance` iff the raw labels hold a non-empty `bosun.instance`, and then with that value |
| Enrichment.EnrichedContainers | internal/adapters/dockerlabels/source_test.go:98-126 | definition: the enriched container collector, the listing's error unchanged or the enriched entities of the listing |
| Enrichment.EnrichedVolumes | internal/adapters/dockerlabels/source_test.go:136-164 | definition: the enriched volume collector, the same shape for volumes |
| Enrichment.EnrichedNetworks | internal/adapters/dockerlabels/source_test.go:174-208 | definition: the enriched network collector, the same shape for networks |
| Enrichment.EnrichedEntities | internal/adapters/dockerlabels/source.go:143 | definition: the concatenation of the enriched collectors' results, containers, then volumes, then networks |
| Enrichment.EnrichedEntitiesAgree | internal/adapters/dockerlabels/source.go:116-149 | enriched collection fails exactly as the as-written one; on success it gives the same entities in the same order, differing only in `Meta` |
| Enrichment.AgreeingSortsMatch | internal/adapters/dockerlabels/source_test.go:231-236 | lists that differ only in metadata sort to the same (kind, name) sequence |
| Enrichment.EnrichmentKeepsOrder | internal/adapters/dockerlabels/source_test.go:225-236 | enrichment does not change the sorted (kind, name) sequence of a snapshot |
| Enrichment.MockContainers | internal/adapters/dockerlabels/source_test.go:19-43 | definition: the mock runtime's two containers, their IDs, names, images and labels |
| Enrichment.MockVolumes | internal/adapters/dockerlabels/source_test.go:45-65 | definition: the mock runtime's two volumes, their names, drivers and labels |
| Enrichment.MockNetworks | internal/adapters/dockerlabels/source_test.go:67-89 | definition: the mock runtime's two networks, their IDs, names, drivers, scopes and labels |
| Enrichment.ContainerMetaFixture | internal/adapters/dockerlabels/source_test.go:91-127 | the mock's two containers are both collected in order; the first has project `myproject`, service `web`, image `test:latest` and instance `prod-01`; the second has no instance |
| Enrichment.VolumeMetaFixture | internal/adapters/dockerlabels/source_test.go:129-165 | both mock volumes are collected as volumes, with drivers `local` and `nfs`; only the first has instance `prod-01` |
| Enrichment.NetworkMetaFixture | internal/adapters/dockerlabels/source_test.go:167-209 | both mock networks are collected as networks, with driver/scope `bridge`/`local` and `overlay`/`swarm`; only the first has instance `prod-01` |
| Enrichment.NoInstanceAsWritten | internal/adapters/dockerlabels/source.go:54-58 | the metadata `source.go` builds for a container never has an `instance` entry |
| Enrichment.AsWrittenContainerMetaFixture | internal/adapters/dockerlabels/source.go:32-63 | on the container test's mocks, `source.go` collects both containers but gives neither an `instance` entry, so the check at source_test.go:118-120 does not hold of it |
| Enrichment.AsWrittenVolumeMetaFixture | internal/adapters/dockerlabels/source.go:67-88 | on the volume test's mocks, `source.go` collects both volumes with empty metadata: no driver and no instance |
| Enrichment.AsWrittenNetworkMetaFixture | internal/adapters/dockerlabels/source.go:92-113 | on the network test's mocks, `source.go` collects both networks with empty metadata: no driver, scope or instance |

## Left out

- Concurrency: the errgroup fan-out and context cancellation (internal/adapters/dockerlabels/source.go:117-137). The three collectors run one after another.
- DockerLabels.Snapshot: with several failing collectors, Go's errgroup reports whichever error comes first in time. The contract therefore says only that the error is one of the failures. The body picks the container error, then the volume error, then the network error.
- The Docker client: constructing it (`NewFromEnv`) and its list calls are replaced by the `Runtime` parameter.
- `time.Now()`: replaced by the parameter `now`. The zero `time.Time` is `Instant(0)`.
- The CLI, JSON output, the integration harness and the test utilities are not part of this model.
- Strings are sequences of Unicode code points. Go compares strings by UTF-8 bytes, and on valid UTF-8 that order is the same. Invalid UTF-8 is not modelled, and `IsSpace` is Go's `unicode.IsSpace` set written out.
- Ordering.SortEntities: a selection sort stands in for `sort.Slice` (pdqsort). Only the postcondition the tests rely on is modelled: sorted and a permutation. No stability is claimed, and none is needed for the (kind, name) sequence.
- Pointers (`[]*volume.Volume`) and nil versus empty slices and maps are not distinguished.
- Enrichment.WithInstance: the tests check `instance` only for a present `bosun.instance` label and an absent one. The model also leaves `instance` out when the label's value is empty, a case no test covers.
- Filters.FilterByPrefixes: the input map is a value, so "the input is not mutated" holds by construction. Go's map iteration order is replaced by an arbitrary choice of the next key.
