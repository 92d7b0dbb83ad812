/**
 * What `Manager.toServer` in cluster/manager.go decides: resolve the config,
 * create the cluster context, open a cancellable context, build the handler
 * and start the cluster context, stopping at the first failure.
 */
module Construction {
  import opened Base
  import opened Resolution

  /** Opaque handle to the cluster context `config.NewClusterContext` returns. */
  datatype ClusterContext = ClusterContext(id: nat)

  /** Opaque handle to the HTTP handler `clusterapi.New` returns. */
  datatype Handler = Handler(id: nat)

  /** The collaborators the build calls; each yields a value or an error. */
  datatype Builder = Builder(
    newClusterContext: (RestConfig, RestConfig, string) -> Result<ClusterContext>,
    newHandler: ClusterContext -> Result<Handler>,
    start: ClusterContext -> Option<Error>
  )

  /**
   * The outcome of one build: whether a cancellable context was opened, the
   * handler of the record returned (if a record is returned) and the error
   * returned beside it.
   */
  datatype BuildResult = BuildResult(contextOpened: bool, record: Option<Handler>, err: Option<Error>)

  function Build(resolver: Resolver, builder: Builder, managementConfig: RestConfig,
                 localConfig: Option<RestConfig>, pc: PublicCluster): (b: BuildResult)
    // Nothing returned and nothing to report exactly when resolution is not ready.
    ensures (b.record.None? && b.err.None?) <==> ToRESTConfig(resolver, localConfig, pc).NotReady?
    // A resolution error is returned as it is, before anything is created.
    ensures ToRESTConfig(resolver, localConfig, pc).Failed? ==>
      b == BuildResult(false, None, Some(ToRESTConfig(resolver, localConfig, pc).err))
    // A context is opened exactly when the config is ready and the cluster context was created.
    ensures b.contextOpened <==>
      ToRESTConfig(resolver, localConfig, pc).Ready? &&
      builder.newClusterContext(managementConfig, ToRESTConfig(resolver, localConfig, pc).config, pc.id).Ok?
    // A record is returned only with the handler built on that cluster context,
    // and it comes with whatever error starting the cluster context gave.
    ensures b.record.Some? ==>
      && b.contextOpened
      && var cc := builder.newClusterContext(managementConfig, ToRESTConfig(resolver, localConfig, pc).config, pc.id).value;
         builder.newHandler(cc) == Ok(b.record.value) && b.err == builder.start(cc)
    // Once a context is opened, a record comes back exactly when the handler is built,
    // even if starting the cluster context then fails; a failed handler build drops
    // the opened context, uncancelled, and returns its error unchanged.
    ensures b.contextOpened ==>
      var cc := builder.newClusterContext(managementConfig, ToRESTConfig(resolver, localConfig, pc).config, pc.id).value;
      && (b.record.Some? <==> builder.newHandler(cc).Ok?)
      && (builder.newHandler(cc).Err? ==> b.err == Some(builder.newHandler(cc).error))
    // An error creating the cluster context is returned unchanged.
    ensures ToRESTConfig(resolver, localConfig, pc).Ready? ==>
      var created := builder.newClusterContext(managementConfig, ToRESTConfig(resolver, localConfig, pc).config, pc.id);
      created.Err? ==> b.err == Some(created.error)
    // When the handler cannot be built the opened context is dropped with an error, uncancelled.
    ensures b.contextOpened && b.record.None? ==> b.err.Some?
  {
    match ToRESTConfig(resolver, localConfig, pc)
    case Failed(e) => BuildResult(false, None, Some(e))
    case NotReady => BuildResult(false, None, None)
    case Ready(kubeConfig) =>
      match builder.newClusterContext(managementConfig, kubeConfig, pc.id)
      case Err(e) => BuildResult(false, None, Some(e))
      case Ok(cc) =>
        match builder.newHandler(cc)
        case Err(e) => BuildResult(true, None, Some(e))
        case Ok(h) => BuildResult(true, Some(h), builder.start(cc))
  }

  /** A build yields a usable record exactly when every step, start included, succeeds. */
  lemma UsableIffAllSucceed(resolver: Resolver, builder: Builder, managementConfig: RestConfig,
                            localConfig: Option<RestConfig>, pc: PublicCluster)
    ensures var b := Build(resolver, builder, managementConfig, localConfig, pc);
      var cfg := ToRESTConfig(resolver, localConfig, pc);
      (b.record.Some? && b.err.None?) <==>
        cfg.Ready? &&
        builder.newClusterContext(managementConfig, cfg.config, pc.id).Ok? &&
        builder.newHandler(builder.newClusterContext(managementConfig, cfg.config, pc.id).value).Ok? &&
        builder.start(builder.newClusterContext(managementConfig, cfg.config, pc.id).value).None?
  {
  }
}
