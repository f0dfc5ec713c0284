/**
 * The kubeconfig document (`clientcmd/api.Config`), restricted to the fields
 * the handlers fill in. Byte-slice fields are kept as the strings they were
 * converted from.
 */
module ClientCmdApi {

  datatype Cluster = Cluster(server: string, certificateAuthorityData: string)

  datatype Context = Context(cluster: string, authInfo: string)

  datatype AuthInfo = AuthInfo(
    clientCertificateData: string,
    clientKeyData: string,
    username: string,
    password: string)

  datatype Config = Config(
    currentContext: string,
    apiVersion: string,
    clusters: map<string, Cluster>,
    contexts: map<string, Context>,
    authInfos: map<string, AuthInfo>)
  {
    /**
     * A self-contained single-cluster document: the current context is the
     * only context, and that context's cluster and auth-info names are the
     * only keys of the other two maps.
     */
    predicate SingleContext() {
      && contexts.Keys == {currentContext}
      && clusters.Keys == {contexts[currentContext].cluster}
      && authInfos.Keys == {contexts[currentContext].authInfo}
    }

    function CurrentCluster(): Cluster
      requires SingleContext()
    {
      clusters[contexts[currentContext].cluster]
    }

    function CurrentAuthInfo(): AuthInfo
      requires SingleContext()
    {
      authInfos[contexts[currentContext].authInfo]
    }
  }
}
