/** Snapshot manifests and the object store they live in, shared by gateway and sidecar. */
module Manifests {
  import opened Options
  import opened Text

  const SidecarWriter := "sync-sidecar"

  datatype Leaf = DataLeaf | ManifestLeaf

  /** `<prefix>/snapshots/<sanitized table>/<snapshot id>/<leaf>`; NoKey is a blank key field. */
  datatype Key = NoKey | Key(table: string, id: string, leaf: Leaf)

  type Bytes = seq<int>

  /** SHA-256 as an injective function; NoDigest is a blank hash field. */
  datatype Digest<T> = NoDigest | Sha256(content: T)

  datatype Manifest = Manifest(
    writer: string, snapshotId: string, timestamp: Option<int>, table: string, rowCount: nat,
    dataKey: Key, manifestKey: Key, sha: Digest<Bytes>, scope: string, status: string, verifiedAt: int)

  datatype Object = Data(bytes: Bytes) | ManifestObject(manifest: Manifest)

  type Store = map<Key, Object>

  /** `validateSidecarManifest` */
  predicate ValidSidecar(m: Manifest, table: string) {
    && m.snapshotId != ""
    && m.table == table
    && m.writer == SidecarWriter
    && m.scope == "table"
    && Trim(m.status) == "valid"
    && m.sha != NoDigest
  }

  /** The data object a manifest names; older manifests leave it to be derived from their own key. */
  function DataKeyOf(m: Manifest): Key {
    if m.dataKey == NoKey && m.manifestKey.Key? && m.manifestKey.leaf == ManifestLeaf
    then Key(m.manifestKey.table, m.manifestKey.id, DataLeaf)
    else m.dataKey
  }

  /** `verifyUploadedDataObject`: the stored object exists and hashes to `want`. */
  predicate DataMatches(store: Store, key: Key, want: Digest<Bytes>) {
    want != NoDigest && key in store && store[key].Data? && Sha256(store[key].bytes) == want
  }

  /** `verifyDataObject` */
  predicate DataVerified(store: Store, m: Manifest) {
    ValidSidecar(m, m.table) && DataKeyOf(m) != NoKey && DataMatches(store, DataKeyOf(m), m.sha)
  }
}
