# k8s-claimer GKE handler logic in Dafny

k8s-claimer leases Kubernetes clusters on Google Kubernetes Engine (GKE) to
clients such as CI jobs, one client per cluster at a time. This project models
the two pieces of logic in `handlers/gke.go`:

- **Cluster selection** (`findUnusedGKECluster`). The service walks the names
  of the cluster inventory in the order `Names()` returns them. It returns
  the first cluster that has no lease. If every cluster is leased, it returns
  the error "all GKE clusters are in use".
- **Kubeconfig construction** (`createKubeConfigFromCluster`). The service
  turns a cluster record into a kubeconfig document with one cluster entry,
  one context and one auth-info entry. The context and auth-info are named
  after the lower-cased cluster name. The cluster entry keeps the original
  name.

Files:

- `wrappers.dfy`: `Option`, and `Result`, which stands for Go's `(value, error)` pairs.
- `strings.dfy`: an ASCII model of `strings.ToLower`.
- `container.dfy`: the fields of a GKE cluster record that the handlers read.
- `clusters.dfy`: the cluster inventory (an ordered name list plus lookup by name) and the lease index (the set of cluster names that have a lease).
- `kubeconfig.dfy`: the kubeconfig document and its single-context invariant.
- `gke.dfy`: the handler logic, its specification and the lemmas about it.

`FindUnusedGKECluster` is a method with a loop, as in the source. It is
proved equal to the recursive specification `SelectUnused`, which is built on
`FirstUnleased`. The method takes the inventory and lease index as values and
has no `modifies` clause, so selection cannot change either of them.

`CreateKubeConfigFromCluster` is a pure function. Its contract states three
things: the document's internal consistency, the lower-cased context name,
and that `ClusterOf` reads every field of the input back unchanged. So no
field is dropped, including an empty username or password. The converse
lemma `MaterializedIsImageOfClusterOf` shows that every document of this
shape is the one built from the cluster it describes.

The error message follows the code ("all GKE clusters are in use").

## Model

| member | source | states |
|---|---|---|
| `Handlers.FirstUnleased` | handlers/gke.go:27-33 | The chosen index holds an unleased name and every earlier name is leased. There is no index exactly when every name is leased. |
| `Handlers.FindUnusedGKECluster` | handlers/gke.go:25-35 | The loop returns the first unleased cluster in `Names()` order, which equals `SelectUnused`. It returns `UnusedGKEClusterNotFound` exactly when every listed name has a lease. It has no `modifies` clause, so it is read-only. |
| `Handlers.SelectUnused` | handlers/gke.go:25-35 | The function form of selection. It fails exactly when every listed name is leased. A success is the cluster stored under a listed name that has no lease. |
| `Handlers.ExhaustionReportsSentinel` | handlers/gke.go:20-34 | When every listed name is leased, selection returns the sentinel error `UnusedGKEClusterNotFound`, whose message is "all GKE clusters are in use". |
| `Handlers.SelectedIsFirstUnleased` | handlers/gke.go:26-32 | A successful selection is the cluster stored under some listed name that has no lease, and every name before it has a lease. |
| `Handlers.FirstUnleasedUnique` | handlers/gke.go:27-32 | Any index where the name is unleased and all earlier names are leased is the index selection picks, so the result is fixed by enumeration order alone. |
| `Handlers.LeasingSelectedAdvances` | handlers/gke.go:25-35 | After the selected cluster is leased, the next selection picks a later cluster or reports exhaustion. |
| `Handlers.SelectSkipsLeased` | handlers/gke.go:27-33 | With inventory [A, B, C] and leases on A and C, selection returns B. |
| `Handlers.SelectExhausted` | handlers/gke.go:20-34 | With inventory [A] and a lease on A, selection fails with `UnusedGKEClusterNotFound`. |
| `Handlers.SelectEmptyInventory` | handlers/gke.go:26-34 | An empty name list yields `UnusedGKEClusterNotFound`, whatever the cluster map holds and whatever the leases. |
| `Handlers.ConfigVersionIsV1` | handlers/gke.go:16 | Every built document carries the version constant `KubeconfigAPIVersion`, which is "v1". |
| `Handlers.CreateKubeConfigFromCluster` | handlers/gke.go:37-67 | Never fails. The contexts map has exactly one key, the current context, which is the lower-cased cluster name. That context's cluster name and auth-info name are the only keys of the clusters and auth-infos maps. The auth-info name equals the context name. The version is "v1". `ClusterOf` recovers the input cluster exactly: name, endpoint, CA data, client certificate, client key, username and password. |
| `Handlers.MaterializedIsImageOfClusterOf` | handlers/gke.go:38-66 | Every single-context "v1" document whose auth-info name equals its current context, and whose current context is its lower-cased cluster name, is exactly the document built from the cluster it describes. |
| `Handlers.ContextNameIsLoweredClusterName` | handlers/gke.go:38-48 | The context name is already lower-case, and it is the lower-cased form of the cluster entry's key. |
| `Handlers.ProdEastConfig` | handlers/gke.go:37-66 | For cluster "Prod-East", the current context is "prod-east". The only cluster key is "Prod-East", with its server and CA data. The auth-info keeps the client certificate and key and the empty username and password. |
| `Strings.LowerChar` | handlers/gke.go:38 | ASCII upper-case letters map to their lower-case letters. Every other character is unchanged. The result is never upper-case. |
| `Strings.ToLower` | handlers/gke.go:38 | Lower-casing keeps the length and leaves no upper-case ASCII letter. |
| `Strings.ToLowerAt` | handlers/gke.go:38 | Each character of the result is the lowered character at the same position. |
| `Strings.ToLowerFixesLower` | handlers/gke.go:38 | A string with no upper-case ASCII letter is unchanged by lower-casing. |
| `Strings.ToLowerIdempotent` | handlers/gke.go:38 | Lower-casing twice gives the same result as lower-casing once. |

## Left out

- `marshalAndEncodeKubeConfig` (handlers/gke.go:69-75) is not modelled. It calls `encoding/json` on a Kubernetes struct whose JSON layout is not part of this model, and then Go's base64 encoder. Determinism and round-trip claims about the encoded string cannot be stated against code that is not visible.
- Strings.ToLower: ASCII-only. Go's `strings.ToLower` maps all Unicode upper-case letters. Non-ASCII characters are left unchanged here.
- The internals of `clusters.Map` and `leases.Map` are not part of this model. The inventory is an ordered name list plus a name-to-cluster map. The lease index is the set of cluster names that have a lease. Lease expiry and ownership metadata are not modelled.
- Handlers.FindUnusedGKECluster: requires every enumerated name to be a key of the cluster map. The source discards `ClusterByName`'s `found` flag, so a missing name would yield a nil cluster. That case is not modelled.
- A nil `MasterAuth` is not modelled. Auth material is a plain record.
- The `[]byte` conversions of certificate and key data are modelled as the strings they convert, copied unchanged.
- Cluster records keep only the fields the handlers read: name, endpoint and master auth. Kubeconfig entries keep only the fields the handlers set.
- Lease creation and the check-then-act race between selection and leasing are not modelled. The caller does both, outside this file.
