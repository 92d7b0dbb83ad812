/**
 * Callers of the manager, proved from its contracts alone: two requests that
 * miss on the same cluster at once, and the life of one entry on the clock.
 */
module Scenarios {
  import opened Base
  import opened Resolution
  import opened Construction
  import opened ClusterManager
  import Lifecycle

  /**
   * Request A misses and starts building with its own collaborators; while it
   * waits on them, request B runs `APIServer` to the end with its own; then A's
   * insert-if-absent runs. Each request gets a handler exactly when its own build
   * succeeds; whichever handlers come back are the one stored under the key; A's
   * insert loses only to a record B stored, and then A's record is dropped with
   * its context live and no goroutine to cancel it; and at most one eviction
   * goroutine is started, for the stored record.
   */
  method RacingMisses(m: Manager, resolverA: Resolver, builderA: Builder,
                      resolverB: Resolver, builderB: Builder, cluster: PublicCluster)
    returns (forB: Option<Handler>, forA: Option<Handler>, aLoaded: bool, builtA: Option<Record>)
    requires m.Valid() && cluster.uuid !in m.servers
    modifies m
    ensures m.Valid()
    ensures var bA := Build(resolverA, builderA, m.managementConfig, m.localConfig, cluster);
      forA.Some? <==> bA.record.Some? && bA.err.None?
    ensures var bB := Build(resolverB, builderB, m.managementConfig, m.localConfig, cluster);
      forB.Some? <==> bB.record.Some? && bB.err.None?
    ensures aLoaded <==> forA.Some? && forB.Some?
    // The losing record leaks: its context stays live and no goroutine will cancel it.
    ensures aLoaded ==>
      && builtA.Some? && !builtA.value.ctx.cancelled && builtA.value.ctx !in m.evictions
      && cluster.uuid in m.servers && m.servers[cluster.uuid] != builtA.value
    ensures forA.Some? ==> cluster.uuid in m.servers && forA == Some(m.servers[cluster.uuid].handler)
    ensures forB.Some? ==> cluster.uuid in m.servers && forB == Some(m.servers[cluster.uuid].handler)
    ensures forA.None? && forB.None? ==> m.servers == old(m.servers) && m.evictions == old(m.evictions)
    ensures cluster.uuid in m.servers ==>
      && m.evictions.Keys <= old(m.evictions).Keys + {m.servers[cluster.uuid].ctx}
      && forall c | c in m.evictions && c !in old(m.evictions) :: m.evictions[c].rec == m.servers[cluster.uuid]
  {
    var recA, errA := m.ToServer(resolverA, builderA, cluster);
    builtA := recA;
    var h, _ := m.APIServer(resolverB, builderB, cluster);
    forB, forA, aLoaded := h, None, false;
    if recA.Some? && errA.None? {
      var actual;
      actual, aLoaded := m.Publish(cluster.uuid, recA.value);
      forA := Some(actual.handler);
    }
  }

  /** A cluster whose resolution and build always succeed, with the handler `Handler(1)`. */
  function AlwaysReady(): (Resolver, Builder) {
    (Resolver(_ => Found(Cluster(true, "", "", "")), _ => Err(Error("unused")), _ => Err(Error("unused"))),
     Builder((_, _, _) => Ok(ClusterContext(0)), _ => Ok(Handler(1)), _ => None))
  }

  /** A cluster whose lookup always fails and whose build steps would all fail. */
  function NeverReady(): (Resolver, Builder) {
    (Resolver(_ => LookupFailed(Error("lister down")), _ => Err(Error("unused")), _ => Err(Error("unused"))),
     Builder((_, _, _) => Err(Error("unused")), _ => Err(Error("unused")), _ => Some(Error("unused"))))
  }

  /**
   * The first two requests for "A": a miss at time 0 that stores, and a hit at
   * time 5 that returns the stored handler although its collaborators fail, so
   * it does not build.
   */
  method FirstRequests(local: RestConfig) returns (m: Manager, first: Record, hit: Option<Handler>, hitLogged: Option<Error>)
    ensures fresh(m) && fresh(first.ctx) && m.Valid() && m.now == 5
    ensures m.managementConfig == local && m.localConfig == Some(local)
    ensures m.servers == map["A" := first] && !first.ctx.cancelled
    ensures m.evictions == map[first.ctx := Eviction("A", first, 0, Sleeping)]
    ensures hit == Some(first.handler) && hitLogged == None
  {
    m := new Manager(local, Some(local));
    var (resolver, builder) := AlwaysReady();
    var a := PublicCluster("a", "A");
    assert ToRESTConfig(resolver, Some(local), a) == Ready(local);
    assert Build(resolver, builder, local, Some(local), a) == BuildResult(true, Some(Handler(1)), None);

    var h, logged := m.APIServer(resolver, builder, a);
    first := m.servers["A"];
    assert h == Some(Handler(1));

    m.Advance(5);
    var (failing, broken) := NeverReady();
    hit, hitLogged := m.APIServer(failing, broken, a);
  }

  /** At time 10 the eviction goroutine of the first record hides it. */
  method HideFirst(m: Manager, first: Record)
    requires m.Valid() && m.now == 5
    requires m.servers == map["A" := first]
    requires m.evictions == map[first.ctx := Eviction("A", first, 0, Sleeping)]
    modifies m
    ensures m.Valid() && m.now == GracePeriod && !first.ctx.cancelled
    ensures m.servers == map[]
    ensures m.evictions == map[first.ctx := Eviction("A", first, 0, Draining(GracePeriod))]
  {
    m.Advance(GracePeriod);
    m.Hide(first.ctx);
  }

  /** At time 10, after the hide, a request for "A" misses and stores a second record. */
  method StoreAgain(m: Manager, first: Record, local: RestConfig) returns (second: Record)
    requires m.Valid() && m.now == GracePeriod && !first.ctx.cancelled
    requires m.managementConfig == local && m.localConfig == Some(local)
    requires m.servers == map[]
    requires m.evictions == map[first.ctx := Eviction("A", first, 0, Draining(GracePeriod))]
    modifies m
    ensures m.Valid() && m.now == GracePeriod
    ensures m.servers == map["A" := second] && first.ctx != second.ctx && !second.ctx.cancelled
    ensures m.evictions == map[first.ctx := Eviction("A", first, 0, Draining(GracePeriod)),
                               second.ctx := Eviction("A", second, GracePeriod, Sleeping)]
  {
    var (resolver, builder) := AlwaysReady();
    var a := PublicCluster("a", "A");
    assert Build(resolver, builder, local, Some(local), a) == BuildResult(true, Some(Handler(1)), None);
    var h, logged := m.APIServer(resolver, builder, a);
    assert h == Some(Handler(1));
    second := m.servers["A"];
  }

  /**
   * With a grace period of 10 and a drain delay of 1: stored at 0, a hit at 5
   * without building, hidden at 10 (the key then misses and stores a new
   * record), and cancelled at 11, the new record untouched.
   */
  method GraceThenDrain() returns (m: Manager, first: Record, second: Record)
    ensures m.now == GracePeriod + DrainDelay
    ensures first.ctx.cancelled && !second.ctx.cancelled && first.ctx != second.ctx
    ensures "A" in m.servers && m.servers["A"] == second
  {
    var local := RestConfig("local", "", "", []);
    var hit, hitLogged;
    m, first, hit, hitLogged := FirstRequests(local);
    HideFirst(m, first);
    second := StoreAgain(m, first, local);
    m.Advance(GracePeriod + DrainDelay);
    m.Destroy(first.ctx);
  }
}
