/** Stand-ins for the Temporal SDK types that the start options carry.
    The options builder never looks inside these values; it only stores
    them, so each is modelled by an identity. */
module Temporal {
  import opened GoInt

  /** `time.Duration`: a signed 64-bit count of nanoseconds. */
  type Duration = Int64

  /** `enums.WorkflowIdReusePolicy`, a protobuf enum: its int32 code,
      0 being WORKFLOW_ID_REUSE_POLICY_UNSPECIFIED. */
  type WorkflowIdReusePolicy = Int32

  /** `enums.WorkflowIdConflictPolicy`: its int32 code, 0 being unspecified. */
  type WorkflowIdConflictPolicy = Int32

  /** A value of a type the builder treats as opaque. Identity 0 stands for
      the Go zero value of its type (a nil pointer, a nil interface, the
      zero struct); any other identity for some other value. */
  datatype Foreign = Foreign(identity: nat)

  const Nil: Foreign := Foreign(0)

  /** `*temporal.RetryPolicy`. */
  type RetryPolicy = Foreign

  /** `temporal.SearchAttributes`. */
  type TypedSearchAttributes = Foreign

  /** `client.VersioningOverride`. */
  type VersioningOverride = Foreign

  /** `temporal.Priority`. */
  type Priority = Foreign

  /** `map[string]any`: either the nil map (the zero value) or a map value. */
  datatype StringMap = NilMap | MapOf(entries: map<string, Foreign>)
}
