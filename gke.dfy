/**
 * The GKE handler logic: choosing a cluster that has no lease, and turning
 * a cluster record into a kubeconfig document for it.
 */
module Handlers {
  import opened Wrappers
  import opened Strings
  import opened Container
  import opened Clusters
  import opened Leases
  import Api = ClientCmdApi

  const KubeconfigAPIVersion: string := "v1"

  /** The errors this file produces; Go's `error` restricted to them. */
  datatype Error = UnusedGKEClusterNotFound {
    function Message(): string {
      "all GKE clusters are in use"
    }
  }

  // ---------------------------------------------------------------------
  // Cluster selection
  // ---------------------------------------------------------------------

  /** Every name of `names` has a lease. */
  predicate AllLeased(names: seq<string>, leaseMap: LeaseMap) {
    forall j :: 0 <= j < |names| ==> leaseMap.HasLease(names[j])
  }

  /** Index of the first name in `names` without a lease, if there is one. */
  function FirstUnleased(names: seq<string>, leaseMap: LeaseMap): (r: Option<nat>)
    ensures r.Some? ==> r.value < |names| && !leaseMap.HasLease(names[r.value])
    ensures r.Some? ==> AllLeased(names[..r.value], leaseMap)
    ensures r.None? <==> AllLeased(names, leaseMap)
  {
    if names == [] then None
    else if !leaseMap.HasLease(names[0]) then Some(0)
    else match FirstUnleased(names[1..], leaseMap)
      case None => None
      case Some(k) => Some(k + 1)
  }

  /** What selection yields: the first unleased cluster in enumeration order, or exhaustion. */
  function SelectUnused(clusterMap: ClusterMap, leaseMap: LeaseMap): (r: Result<Cluster, Error>)
    requires clusterMap.Valid()
    ensures r.Err? <==> AllLeased(clusterMap.names, leaseMap)
    ensures r.Ok? ==> exists n :: n in clusterMap.names && !leaseMap.HasLease(n) && r.value == clusterMap.byName[n]
  {
    match FirstUnleased(clusterMap.names, leaseMap)
    case Some(i) => Ok(clusterMap.ClusterByName(clusterMap.names[i]))
    case None => Err(UnusedGKEClusterNotFound)
  }

  /**
   * Walks `Names()` in order and returns the first cluster with no lease, or
   * `UnusedGKEClusterNotFound` when every listed cluster is leased. Reads
   * both maps and changes neither.
   */
  method FindUnusedGKECluster(clusterMap: ClusterMap, leaseMap: LeaseMap) returns (r: Result<Cluster, Error>)
    requires clusterMap.Valid()
    ensures r == SelectUnused(clusterMap, leaseMap)
    ensures r.Err? <==> AllLeased(clusterMap.names, leaseMap)
    // `Error` has one constructor; this clause names the sentinel for the reader.
    ensures r.Err? ==> r.error == UnusedGKEClusterNotFound
  {
    var clusterNames := clusterMap.names;
    var i := 0;
    while i < |clusterNames|
      invariant 0 <= i <= |clusterNames|
      invariant AllLeased(clusterNames[..i], leaseMap)
    {
      var clusterName := clusterNames[i];
      var cluster := clusterMap.ClusterByName(clusterName);
      var found := leaseMap.HasLease(clusterName);
      if !found {
        return Ok(cluster);
      }
      i := i + 1;
    }
    return Err(UnusedGKEClusterNotFound);
  }

  /** A successful selection names a listed cluster that has no lease, and every earlier name is leased. */
  lemma SelectedIsFirstUnleased(clusterMap: ClusterMap, leaseMap: LeaseMap)
    requires clusterMap.Valid()
    requires SelectUnused(clusterMap, leaseMap).Ok?
    ensures exists i :: (0 <= i < |clusterMap.names|
      && !leaseMap.HasLease(clusterMap.names[i])
      && SelectUnused(clusterMap, leaseMap).value == clusterMap.byName[clusterMap.names[i]]
      && forall j :: 0 <= j < i ==> leaseMap.HasLease(clusterMap.names[j]))
  {
  }

  /**
   * Any index at which the name is unleased and all earlier names are leased
   * is the one selection picks: the choice is determined by enumeration order.
   */
  lemma FirstUnleasedUnique(names: seq<string>, leaseMap: LeaseMap, i: nat)
    requires i < |names| && !leaseMap.HasLease(names[i])
    requires forall j :: 0 <= j < i ==> leaseMap.HasLease(names[j])
    ensures FirstUnleased(names, leaseMap) == Some(i)
  {
  }

  /**
   * Once the caller leases the selected cluster, the next selection picks a
   * cluster later in the enumeration, or reports exhaustion.
   */
  lemma LeasingSelectedAdvances(names: seq<string>, leaseMap: LeaseMap)
    requires FirstUnleased(names, leaseMap).Some?
    ensures var i := FirstUnleased(names, leaseMap).value;
      var next := FirstUnleased(names, LeaseMap(leaseMap.leasedNames + {names[i]}));
      next.None? || next.value > i
  {
  }

  // ---------------------------------------------------------------------
  // Kubeconfig construction
  // ---------------------------------------------------------------------

  /**
   * The cluster record a single-context kubeconfig describes: its name is the
   * context's cluster name, the rest is read from the cluster and auth-info
   * entries.
   */
  function ClusterOf(cfg: Api.Config): Cluster
    requires cfg.SingleContext()
  {
    var cluster := cfg.CurrentCluster();
    var authInfo := cfg.CurrentAuthInfo();
    Cluster(
      cfg.contexts[cfg.currentContext].cluster,
      cluster.server,
      MasterAuth(
        cluster.certificateAuthorityData,
        authInfo.clientCertificateData,
        authInfo.clientKeyData,
        authInfo.username,
        authInfo.password))
  }

  /**
   * Builds a kubeconfig for `cluster`. Never fails. The document has a single
   * context named after the lower-cased cluster name, which is also the
   * current context and the auth-info name; the cluster entry keeps the
   * original name; and every field of the record can be read back unchanged.
   */
  function CreateKubeConfigFromCluster(cluster: Cluster): (r: Result<Api.Config, Error>)
    ensures r.Ok?
    ensures r.value.SingleContext()
    ensures r.value.apiVersion == KubeconfigAPIVersion
    ensures r.value.currentContext == ToLower(cluster.name)
    ensures r.value.contexts[r.value.currentContext].authInfo == r.value.currentContext
    ensures ClusterOf(r.value) == cluster
  {
    var contextName := ToLower(cluster.name);
    var authInfoName := contextName;
    var clusters := map[cluster.name := Api.Cluster(cluster.endpoint, cluster.masterAuth.clusterCaCertificate)];
    var contexts := map[contextName := Api.Context(cluster.name, authInfoName)];
    var authInfos := map[authInfoName := Api.AuthInfo(
      cluster.masterAuth.clientCertificate,
      cluster.masterAuth.clientKey,
      cluster.masterAuth.username,
      cluster.masterAuth.password)];
    Ok(Api.Config(contextName, KubeconfigAPIVersion, clusters, contexts, authInfos))
  }

  /**
   * The shape of every document `CreateKubeConfigFromCluster` builds: single
   * context, the fixed version, the current context equal to the auth-info
   * name and to the lower-cased cluster name.
   */
  predicate IsMaterialized(cfg: Api.Config) {
    && cfg.SingleContext()
    && cfg.apiVersion == KubeconfigAPIVersion
    && cfg.contexts[cfg.currentContext].authInfo == cfg.currentContext
    && cfg.currentContext == ToLower(cfg.contexts[cfg.currentContext].cluster)
  }

  /** Every document of that shape is the one built from the cluster it describes. */
  lemma MaterializedIsImageOfClusterOf(cfg: Api.Config)
    requires IsMaterialized(cfg)
    ensures CreateKubeConfigFromCluster(ClusterOf(cfg)) == Ok(cfg)
  {
    var r := CreateKubeConfigFromCluster(ClusterOf(cfg)).value;
    var ctx := cfg.contexts[cfg.currentContext];
    assert r.clusters == cfg.clusters by {
      assert r.clusters.Keys == {ctx.cluster} == cfg.clusters.Keys;
    }
    assert r.contexts == cfg.contexts by {
      assert r.contexts.Keys == {cfg.currentContext} == cfg.contexts.Keys;
    }
    assert r.authInfos == cfg.authInfos by {
      assert r.authInfos.Keys == {ctx.authInfo} == cfg.authInfos.Keys;
    }
  }

  /** The context name differs from the cluster entry's key only in case, and is already lower-case. */
  lemma ContextNameIsLoweredClusterName(cluster: Cluster)
    ensures var cfg := CreateKubeConfigFromCluster(cluster).value;
      && ToLower(cfg.currentContext) == cfg.currentContext
      && ToLower(cfg.contexts[cfg.currentContext].cluster) == cfg.currentContext
  {
    ToLowerIdempotent(cluster.name);
  }

  // ---------------------------------------------------------------------
  // Scenarios
  // ---------------------------------------------------------------------

  lemma SelectSkipsLeased()
    ensures var a := Cluster("A", "a", MasterAuth("", "", "", "", ""));
      var b := Cluster("B", "b", MasterAuth("", "", "", "", ""));
      var c := Cluster("C", "c", MasterAuth("", "", "", "", ""));
      SelectUnused(ClusterMap(["A", "B", "C"], map["A" := a, "B" := b, "C" := c]), LeaseMap({"A", "C"})) == Ok(b)
  {
    FirstUnleasedUnique(["A", "B", "C"], LeaseMap({"A", "C"}), 1);
  }

  lemma SelectExhausted()
    ensures var a := Cluster("A", "a", MasterAuth("", "", "", "", ""));
      SelectUnused(ClusterMap(["A"], map["A" := a]), LeaseMap({"A"})) == Err(UnusedGKEClusterNotFound)
  {
  }

  lemma SelectEmptyInventory(byName: map<string, Cluster>, leaseMap: LeaseMap)
    ensures SelectUnused(ClusterMap([], byName), leaseMap) == Err(UnusedGKEClusterNotFound)
  {
  }

  /** Exhaustion is reported with the sentinel error and its fixed message. */
  lemma ExhaustionReportsSentinel(clusterMap: ClusterMap, leaseMap: LeaseMap)
    requires clusterMap.Valid() && AllLeased(clusterMap.names, leaseMap)
    ensures SelectUnused(clusterMap, leaseMap) == Err(UnusedGKEClusterNotFound)
    ensures SelectUnused(clusterMap, leaseMap).error.Message() == "all GKE clusters are in use"
  {
  }

  /** Every built document carries the kubeconfig format version "v1". */
  lemma ConfigVersionIsV1(cluster: Cluster)
    ensures CreateKubeConfigFromCluster(cluster).value.apiVersion == "v1"
  {
  }

  lemma ProdEastConfig()
    ensures var cfg := CreateKubeConfigFromCluster(
        Cluster("Prod-East", "https://1.2.3.4", MasterAuth("CAFE", "BEEF", "F00D", "", ""))).value;
      && cfg.currentContext == "prod-east"
      && cfg.clusters.Keys == {"Prod-East"}
      && cfg.clusters["Prod-East"] == Api.Cluster("https://1.2.3.4", "CAFE")
      && cfg.authInfos["prod-east"] == Api.AuthInfo("BEEF", "F00D", "", "")
  {
  }
}
