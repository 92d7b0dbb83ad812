/**
 * How the manager turns a cluster into the REST configuration of its API server
 * (`Manager.toRESTConfig` in cluster/manager.go).
 */
module Resolution {
  import opened Base

  /** The cluster as the caller names it: its object name and its instance UUID. */
  datatype PublicCluster = PublicCluster(id: string, uuid: string)

  /** The fields of the management cluster object that resolution looks at. */
  datatype Cluster = Cluster(
    internal: bool,             // Spec.Internal
    apiEndpoint: string,        // Status.APIEndpoint
    caCert: string,             // Status.CACert, base64 text
    serviceAccountToken: string // Status.ServiceAccountToken
  )

  /** What `ClusterLister.Get` answers: an error, a nil cluster, or a cluster. */
  datatype Lookup = LookupFailed(err: Error) | NoCluster | Found(cluster: Cluster)

  /** The two parts of a parsed URL that the configuration uses. */
  datatype URL = URL(host: string, path: string)

  /** The fields of a client REST configuration that resolution sets. */
  datatype RestConfig = RestConfig(host: string, prefix: string, bearerToken: string, caData: seq<byte>)

  /**
   * The collaborators resolution consults: the cluster lister, URL parsing and
   * standard base64 decoding. Their internals are not part of this model.
   */
  datatype Resolver = Resolver(
    getCluster: string -> Lookup,
    parseURL: string -> Result<URL>,
    decodeBase64: string -> Result<seq<byte>>
  )

  /**
   * The three shapes of the (config, err) pair `toRESTConfig` returns:
   * a config, (nil, nil) for "not ready", or (nil, err).
   */
  datatype ConfigOutcome = Ready(config: RestConfig) | NotReady | Failed(err: Error)

  /** All three status fields a remote cluster needs are filled in. */
  predicate Complete(c: Cluster) {
    c.apiEndpoint != "" && c.caCert != "" && c.serviceAccountToken != ""
  }

  /**
   * Resolves the REST configuration for `pc`. `localConfig` is the manager's
   * `LocalConfig` pointer, used for the internal (local) cluster.
   */
  function ToRESTConfig(env: Resolver, localConfig: Option<RestConfig>, pc: PublicCluster): (r: ConfigOutcome)
    // A lister error wins over everything and is passed through unchanged.
    ensures env.getCluster(pc.id).LookupFailed? ==> r == Failed(env.getCluster(pc.id).err)
    // "Not ready" is exactly: no cluster, an internal cluster without a local
    // config, or a remote cluster with an empty endpoint, CA or token.
    ensures r.NotReady? <==>
      match env.getCluster(pc.id)
      case LookupFailed(_) => false
      case NoCluster => true
      case Found(c) => if c.internal then localConfig.None? else !Complete(c)
    // An internal cluster gets the local config whatever its status says.
    ensures env.getCluster(pc.id).Found? && env.getCluster(pc.id).cluster.internal ==>
      (r.Ready? <==> localConfig.Some?) && (r.Ready? ==> r.config == localConfig.value)
    // A remote cluster is ready exactly when it is complete and both its endpoint
    // parses and its CA decodes; the config then carries the URL's host and path,
    // the decoded CA and the token itself.
    ensures env.getCluster(pc.id).Found? && !env.getCluster(pc.id).cluster.internal ==>
      var c := env.getCluster(pc.id).cluster;
      (r.Ready? <==> Complete(c) && env.parseURL(c.apiEndpoint).Ok? && env.decodeBase64(c.caCert).Ok?) &&
      (r.Ready? ==> r.config == RestConfig(env.parseURL(c.apiEndpoint).value.host,
                                           env.parseURL(c.apiEndpoint).value.path,
                                           c.serviceAccountToken,
                                           env.decodeBase64(c.caCert).value))
    // Any other error is the parser's, or else the decoder's, unchanged.
    ensures r.Failed? && !env.getCluster(pc.id).LookupFailed? ==>
      var c := env.getCluster(pc.id).cluster;
      env.getCluster(pc.id).Found? && !c.internal && Complete(c) &&
      (if env.parseURL(c.apiEndpoint).Err? then r.err == env.parseURL(c.apiEndpoint).error
       else env.decodeBase64(c.caCert).Err? && r.err == env.decodeBase64(c.caCert).error)
  {
    match env.getCluster(pc.id)
    case LookupFailed(e) => Failed(e)
    case NoCluster => NotReady
    case Found(c) =>
      if c.internal then
        (match localConfig case Some(cfg) => Ready(cfg) case None => NotReady)
      else if c.apiEndpoint == "" || c.caCert == "" || c.serviceAccountToken == "" then
        NotReady
      else
        match env.parseURL(c.apiEndpoint)
        case Err(e) => Failed(e)
        case Ok(u) =>
          match env.decodeBase64(c.caCert)
          case Err(e) => Failed(e)
          case Ok(ca) => Ready(RestConfig(u.host, u.path, c.serviceAccountToken, ca))
  }

  /** The status of an internal cluster plays no part in its resolution. */
  lemma InternalIgnoresStatus(env: Resolver, localConfig: Option<RestConfig>, pc: PublicCluster, other: Cluster)
    requires env.getCluster(pc.id).Found? && env.getCluster(pc.id).cluster.internal && other.internal
    ensures ToRESTConfig(env, localConfig, pc) ==
            ToRESTConfig(env.(getCluster := _ => Found(other)), localConfig, pc)
  {
  }
}
