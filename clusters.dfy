/**
 * The cluster inventory (`clusters.Map`): the names in the order `Names()`
 * enumerates them, and lookup by name (`ClusterByName`).
 */
module Clusters {
  import opened Container

  datatype ClusterMap = ClusterMap(names: seq<string>, byName: map<string, Cluster>) {

    /** Every enumerated name can be looked up. */
    predicate Valid() {
      forall n :: n in names ==> n in byName
    }

    function ClusterByName(name: string): Cluster
      requires name in byName
    {
      byName[name]
    }
  }
}

/**
 * The lease index (`leases.Map`), as far as the handlers read it: whether a
 * lease exists for a cluster name (`LeaseByClusterName`'s `found` flag).
 */
module Leases {

  datatype LeaseMap = LeaseMap(leasedNames: set<string>) {

    predicate HasLease(clusterName: string) {
      clusterName in leasedNames
    }
  }
}
