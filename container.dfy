/**
 * The part of a GKE cluster record (package container/v1 of the Google API
 * client) that the handlers read: the cluster's name, its API server
 * endpoint and its master authentication material.
 */
module Container {

  datatype MasterAuth = MasterAuth(
    clusterCaCertificate: string,
    clientCertificate: string,
    clientKey: string,
    username: string,
    password: string)

  datatype Cluster = Cluster(name: string, endpoint: string, masterAuth: MasterAuth)
}
