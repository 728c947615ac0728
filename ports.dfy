/** The query specification and the contract of a label source (internal/ports/labels.go). */
module Ports {
  import opened Results
  import Labels

  /**
   * What to collect: the allowed label-key prefixes, in order; whether stopped
   * containers are listed too; and a compose-project filter that no collector reads.
   */
  datatype Selector = Selector(prefixes: seq<string>, includeStopped: bool, projectFilter: seq<string>)

  /** An error reported by the container runtime (connectivity, API or cancellation failure). */
  datatype RuntimeError = RuntimeError(reason: string)

  /**
   * The `LabelSource.Snapshot` contract as the Docker source meets it: a call
   * returns a snapshot and possibly an error, and when there is an error the
   * snapshot is the zero value.
   */
  predicate IsLabelSourceReply(snap: Labels.Snapshot, err: Option<RuntimeError>)
  {
    err.Some? ==> snap == Labels.ZeroSnapshot
  }
}
