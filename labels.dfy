/** The domain types of a label snapshot (internal/domain/labels/types.go). */
module Labels {

  /** The standard prefix of the labels this system manages. */
  const DefaultLabelPrefix: string := "bosun."

  /** The label key that names the instance a resource belongs to. */
  const LabelInstance: string := DefaultLabelPrefix + "instance"

  /** The closed set of resource kinds. */
  datatype Kind = KindContainer | KindVolume | KindNetwork

  /** The string form of a kind, as it appears in serialised snapshots. */
  function KindName(k: Kind): string
  {
    match k
    case KindContainer => "container"
    case KindVolume => "volume"
    case KindNetwork => "network"
  }

  /** Distinct kinds have distinct string forms. */
  lemma KindNameInjective(j: Kind, k: Kind)
    ensures KindName(j) == KindName(k) <==> j == k
  {
  }

  /** One resource of the runtime, reduced to its identity, its filtered labels and derived metadata. */
  datatype LabeledEntity = LabeledEntity(
    kind: Kind,
    id: string,
    name: string,
    labels: map<string, string>,
    meta: map<string, string>)

  /** A wall-clock instant; the value 0 stands for Go's zero `time.Time`. */
  datatype Instant = Instant(nanos: int)

  /** An ordered inventory of entities and the moment it was taken. */
  datatype Snapshot = Snapshot(entities: seq<LabeledEntity>, takenAt: Instant)

  /** The zero value `Snapshot{}`: no entities and the zero instant. */
  const ZeroSnapshot: Snapshot := Snapshot([], Instant(0))
}
