/** The values shared by every component: identifiers, optional values and the
    artifacts that a cleanup plan may name. */
module Artifacts {

  /** Identifiers are opaque; only their equality and order matter. */
  type Uuid = nat

  datatype Option<+T> = None | Some(value: T)

  datatype Result<+T, +E> = Ok(value: T) | Err(error: E)

  datatype TempLocation = AppsRoot | AppRoot | Releases | ConfigRevisions

  /** A cleanup artifact. A release carries the configuration revision it was built from. */
  datatype Artifact =
    | Release(app: Uuid, id: Uuid, revision: Uuid)
    | ConfigRevision(app: Uuid, id: Uuid)
    | Temporary(owner: Option<Uuid>, location: TempLocation, name: string)

  /** Release `a` cannot be loaded without configuration revision `b`. */
  predicate Names(a: Artifact, b: Artifact) {
    a.Release? && b == ConfigRevision(a.app, a.revision)
  }

  /** The bound on one cleanup plan, for artifacts and for images. */
  const MAX_CLEANUP_ITEMS: nat := 100

  predicate NoDuplicates<T(==)>(s: seq<T>) {
    forall i, j :: 0 <= i < j < |s| ==> s[i] != s[j]
  }
}
