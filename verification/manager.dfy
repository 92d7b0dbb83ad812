/**
 * The cluster manager of cluster/manager.go: a get-or-create cache of API
 * server handlers keyed by cluster UUID, in which every stored record is
 * evicted by a goroutine that deletes its key after a grace period and cancels
 * its context after a further drain delay.
 *
 * Time is a discrete clock. Each eviction goroutine is an entry of
 * `evictions`, keyed by the context it will cancel, that wakes exactly when its
 * sleep ends; `Hide` and `Destroy` are its two wake-ups. The ghost `trace`
 * records every store, hide and cancel, so that the lemmas of `Lifecycle`
 * apply to the manager's own history.
 */
module ClusterManager {
  import opened Base
  import opened Resolution
  import opened Construction
  import Lifecycle

  /** The first sleep of an eviction goroutine (`time.Sleep(10 * time.Minute)`), in minutes. */
  const GracePeriod: nat := 10
  /** The second sleep, between deleting the key and cancelling (`time.Sleep(time.Minute)`). */
  const DrainDelay: nat := 1

  type Key = string

  /** A cancellable context made by `context.WithCancel`; `cancelled` is its Done state. */
  class Context {
    var cancelled: bool

    constructor ()
      ensures !cancelled
    {
      cancelled := false;
    }

    /** The context's `CancelFunc`. */
    method Cancel()
      modifies this
      ensures cancelled
    {
      cancelled := true;
    }
  }

  /** A `record`: the handler and the context it runs in (whose cancel function is `ctx.Cancel`). */
  datatype Record = Record(handler: Handler, ctx: Context)

  /** Where an eviction goroutine is: in its grace sleep, or in its drain sleep after hiding. */
  datatype Phase = Sleeping | Draining(hiddenAt: nat)

  /** The eviction goroutine started for `rec`, stored under `key` at time `storedAt`. */
  datatype Eviction = Eviction(key: Key, rec: Record, storedAt: nat, phase: Phase) {
    /** The time its current sleep ends. */
    function Wake(): nat {
      match phase
      case Sleeping => storedAt + GracePeriod
      case Draining(h) => h + DrainDelay
    }
  }

  /** What `sync.Map.LoadOrStore` reports: the map after, the value under the key, and whether it was already there. */
  datatype Loaded<K, V> = Loaded(after: map<K, V>, actual: V, loaded: bool)

  /** `LoadOrStore` on a map value: insert `v` only if `k` is absent. */
  function LoadOrStore<K, V>(m: map<K, V>, k: K, v: V): (r: Loaded<K, V>)
    ensures r.loaded <==> k in m
    ensures r.after.Keys == m.Keys + {k}
    // Nothing already there is overwritten.
    ensures forall k' | k' in m :: r.after[k'] == m[k']
    // The value returned is the one that is stored under the key afterwards.
    ensures r.after[k] == r.actual
    ensures !r.loaded ==> r.actual == v
  {
    if k in m then Loaded(m, m[k], true) else Loaded(m[k := v], v, false)
  }

  /** The eviction goroutine `e`, keyed by context `c`, agrees with the history and the clock. */
  ghost predicate Tracks(c: Context, e: Eviction, trace: seq<Lifecycle.Event<Key, Record>>, now: nat) {
    && e.rec.ctx == c
    && now <= e.Wake()
    && match e.phase
       case Sleeping =>
         Lifecycle.Stored(e.key, e.rec) in trace && Lifecycle.Hidden(e.key, e.rec) !in trace
       case Draining(h) =>
         && h == e.storedAt + GracePeriod
         && Lifecycle.Hidden(e.key, e.rec) in trace
         && Lifecycle.Cancelled(e.key, e.rec) !in trace
  }

  /** The visible record `r` under `k` has its eviction goroutine in the grace sleep. */
  ghost predicate Scheduled(evictions: map<Context, Eviction>, k: Key, r: Record) {
    r.ctx in evictions && evictions[r.ctx].key == k && evictions[r.ctx].rec == r &&
    evictions[r.ctx].phase == Sleeping
  }

  /** Every record stored and not yet cancelled still has its eviction goroutine. */
  ghost predicate Pending(evictions: map<Context, Eviction>, trace: seq<Lifecycle.Event<Key, Record>>) {
    forall e | e in trace && e.Stored? && Lifecycle.Cancelled(e.key, e.rec) !in trace ::
      e.rec.ctx in evictions && evictions[e.rec.ctx].key == e.key && evictions[e.rec.ctx].rec == e.rec
  }

  /**
   * The manager's state, apart from the contexts themselves: the map is the
   * replay of a legal history, every goroutine agrees with that history, every
   * record not yet cancelled has its goroutine, and every visible record has its
   * goroutine in the grace sleep.
   */
  ghost predicate Consistent(servers: map<Key, Record>, evictions: map<Context, Eviction>,
                             trace: seq<Lifecycle.Event<Key, Record>>, now: nat) {
    && Lifecycle.Legal(trace)
    && servers == Lifecycle.Visible(trace)
    && (forall c | c in evictions :: Tracks(c, evictions[c], trace, now))
    && Pending(evictions, trace)
    && (forall k | k in servers :: Scheduled(evictions, k, servers[k]))
  }

  /** A winning insert of a fresh record, with its new sleeping goroutine, keeps the state consistent. */
  lemma StoreKeepsConsistent(servers: map<Key, Record>, evictions: map<Context, Eviction>,
                             trace: seq<Lifecycle.Event<Key, Record>>, now: nat, key: Key, rec: Record)
    requires Consistent(servers, evictions, trace, now)
    requires key !in servers && rec.ctx !in evictions && Lifecycle.Fresh(trace, rec)
    ensures Consistent(servers[key := rec], evictions[rec.ctx := Eviction(key, rec, now, Sleeping)],
                       trace + [Lifecycle.Stored(key, rec)], now)
  {
    var stored := Lifecycle.Stored(key, rec);
    Lifecycle.Extend(trace, stored);
    var evictions' := evictions[rec.ctx := Eviction(key, rec, now, Sleeping)];
    var trace' := trace + [stored];
    forall c | c in evictions'
      ensures Tracks(c, evictions'[c], trace', now)
    {
      if c != rec.ctx {
        assert evictions'[c] == evictions[c] && evictions[c].rec != rec;
      }
    }
    forall ev | ev in trace' && ev.Stored? && Lifecycle.Cancelled(ev.key, ev.rec) !in trace'
      ensures ev.rec.ctx in evictions' && evictions'[ev.rec.ctx].key == ev.key && evictions'[ev.rec.ctx].rec == ev.rec
    {
      if ev != stored {
        assert ev in trace && ev.rec.ctx in evictions;
      }
    }
    var servers' := servers[key := rec];
    forall k | k in servers'
      ensures Scheduled(evictions', k, servers'[k])
    {
      if k != key {
        assert servers[k].ctx in evictions;
      }
    }
  }

  /** A hide step keeps every pending record's goroutine, as long as goroutines keep their key and record. */
  lemma PendingAfterHide(evictions: map<Context, Eviction>, trace: seq<Lifecycle.Event<Key, Record>>,
                         evictions': map<Context, Eviction>, hidden: Lifecycle.Event<Key, Record>)
    requires Pending(evictions, trace) && hidden.Hidden?
    requires forall c | c in evictions ::
      c in evictions' && evictions'[c].key == evictions[c].key && evictions'[c].rec == evictions[c].rec
    ensures Pending(evictions', trace + [hidden])
  {
    forall ev | ev in trace + [hidden] && ev.Stored? && Lifecycle.Cancelled(ev.key, ev.rec) !in trace + [hidden]
      ensures ev.rec.ctx in evictions' && evictions'[ev.rec.ctx].key == ev.key && evictions'[ev.rec.ctx].rec == ev.rec
    {
      assert ev in trace;
    }
  }

  /**
   * A goroutine waking from its grace sleep finds its own record under its
   * key; deleting the key and starting the drain sleep keeps the state consistent.
   */
  lemma HideKeepsConsistent(servers: map<Key, Record>, evictions: map<Context, Eviction>,
                            trace: seq<Lifecycle.Event<Key, Record>>, now: nat, c: Context)
    requires Consistent(servers, evictions, trace, now)
    requires c in evictions && evictions[c].phase == Sleeping && now == evictions[c].Wake()
    ensures var e := evictions[c];
      && e.key in servers && servers[e.key] == e.rec
      && Consistent(servers - {e.key}, evictions[c := e.(phase := Draining(now))],
                    trace + [Lifecycle.Hidden(e.key, e.rec)], now)
  {
    var e := evictions[c];
    var hidden := Lifecycle.Hidden(e.key, e.rec);
    Lifecycle.HideRemovesOwnRecord(trace, e.key, e.rec);
    Lifecycle.StepsFollowOrder(trace, e.key, e.rec);
    Lifecycle.Extend(trace, hidden);
    var evictions' := evictions[c := e.(phase := Draining(now))];
    var trace' := trace + [hidden];
    forall c' | c' in evictions'
      ensures Tracks(c', evictions'[c'], trace', now)
    {
      if c' != c {
        assert evictions'[c'] == evictions[c'] && evictions[c'].rec != e.rec;
      }
    }
    PendingAfterHide(evictions, trace, evictions', hidden);
    forall k | k in servers - {e.key}
      ensures Scheduled(evictions', k, servers[k])
    {
      assert servers[k].ctx != c;
    }
  }

  /**
   * A goroutine waking from its drain sleep holds a record no key maps to;
   * cancelling it and ending the goroutine keeps the state consistent.
   */
  lemma CancelKeepsConsistent(servers: map<Key, Record>, evictions: map<Context, Eviction>,
                              trace: seq<Lifecycle.Event<Key, Record>>, now: nat, c: Context)
    requires Consistent(servers, evictions, trace, now)
    requires c in evictions && evictions[c].phase.Draining?
    ensures var e := evictions[c];
      && (forall k | k in servers :: servers[k].ctx != c && servers[k].ctx in evictions)
      && Consistent(servers, evictions - {c}, trace + [Lifecycle.Cancelled(e.key, e.rec)], now)
  {
    var e := evictions[c];
    var cancelled := Lifecycle.Cancelled(e.key, e.rec);
    Lifecycle.Extend(trace, cancelled);
    var evictions' := evictions - {c};
    var trace' := trace + [cancelled];
    forall c' | c' in evictions'
      ensures Tracks(c', evictions'[c'], trace', now)
    {
      assert evictions'[c'] == evictions[c'] && evictions[c'].rec != e.rec;
    }
    forall ev | ev in trace' && ev.Stored? && Lifecycle.Cancelled(ev.key, ev.rec) !in trace'
      ensures ev.rec.ctx in evictions' && evictions'[ev.rec.ctx].key == ev.key && evictions'[ev.rec.ctx].rec == ev.rec
    {
      assert ev in trace && ev.rec.ctx in evictions;
      assert ev.rec.ctx != c;
    }
    forall k | k in servers
      ensures servers[k].ctx != c && Scheduled(evictions', k, servers[k])
    {
      assert Scheduled(evictions, k, servers[k]);
    }
  }

  class Manager {
    const managementConfig: RestConfig
    const localConfig: Option<RestConfig>
    /** The `servers` sync.Map. */
    var servers: map<Key, Record>
    /** The eviction goroutines still running, by the context each will cancel. */
    var evictions: map<Context, Eviction>
    var now: nat
    ghost var trace: seq<Lifecycle.Event<Key, Record>>

    /** The state is consistent and no running goroutine's context has been cancelled. */
    ghost predicate Valid()
      reads this, evictions.Keys
    {
      && Consistent(servers, evictions, trace, now)
      && (forall c | c in evictions :: !c.cancelled)
    }

    constructor (managementConfig: RestConfig, localConfig: Option<RestConfig>)
      ensures Valid()
      ensures this.managementConfig == managementConfig && this.localConfig == localConfig
      ensures servers == map[] && evictions == map[] && trace == [] && now == 0
    {
      this.managementConfig := managementConfig;
      this.localConfig := localConfig;
      servers := map[];
      evictions := map[];
      now := 0;
      trace := [];
    }

    /**
     * `toServer`: builds a record for `cluster`. The record comes back with the
     * error of `Start` when starting fails; a context opened before a failed
     * handler build is dropped without being cancelled.
     */
    method ToServer(resolver: Resolver, builder: Builder, cluster: PublicCluster)
      returns (rec: Option<Record>, err: Option<Error>)
      ensures var b := Build(resolver, builder, managementConfig, localConfig, cluster);
        && err == b.err
        && (rec.Some? <==> b.record.Some?)
        && (rec.Some? ==> rec.value.handler == b.record.value && fresh(rec.value.ctx) && !rec.value.ctx.cancelled)
    {
      match ToRESTConfig(resolver, localConfig, cluster) {
        case Failed(e) =>
          return None, Some(e);
        case NotReady =>
          return None, None;
        case Ready(kubeConfig) =>
          var clusterContext := builder.newClusterContext(managementConfig, kubeConfig, cluster.id);
          if clusterContext.Err? {
            return None, Some(clusterContext.error);
          }
          var ctx := new Context();
          var handler := builder.newHandler(clusterContext.value);
          if handler.Err? {
            return None, Some(handler.error);
          }
          var startErr := builder.start(clusterContext.value);
          return Some(Record(handler.value, ctx)), startErr;
      }
    }

    /**
     * The insert-if-absent of `APIServer` and what follows it: store `rec` unless
     * the key is taken, and start an eviction goroutine only if this insert won.
     */
    method Publish(key: Key, rec: Record) returns (actual: Record, loaded: bool)
      requires Valid()
      requires rec.ctx !in evictions && !rec.ctx.cancelled && Lifecycle.Fresh(trace, rec)
      modifies this
      ensures Valid() && now == old(now)
      ensures Loaded(servers, actual, loaded) == LoadOrStore(old(servers), key, rec)
      ensures loaded ==> evictions == old(evictions) && trace == old(trace)
      ensures !loaded ==>
        && evictions == old(evictions)[rec.ctx := Eviction(key, rec, now, Sleeping)]
        && trace == old(trace) + [Lifecycle.Stored(key, rec)]
    {
      var r := LoadOrStore(servers, key, rec);
      actual, loaded := r.actual, r.loaded;
      if !loaded {
        StoreKeepsConsistent(servers, evictions, trace, now, key, rec);
        servers := r.after;
        evictions := evictions[rec.ctx := Eviction(key, rec, now, Sleeping)];
        trace := trace + [Lifecycle.Stored(key, rec)];
      }
    }

    /**
     * `APIServer`: the handler for `cluster`, and the error it logs. A hit
     * returns the stored handler and touches nothing, whatever the collaborators
     * would answer; a miss builds a record, and stores it and starts its
     * eviction only if the build gave a record and no error.
     */
    method APIServer(resolver: Resolver, builder: Builder, cluster: PublicCluster)
      returns (h: Option<Handler>, logged: Option<Error>)
      requires Valid()
      modifies this
      ensures Valid() && now == old(now)
      // Hit: the stored handler and no change, stated without the collaborators.
      ensures cluster.uuid in old(servers) ==>
        && h == Some(old(servers)[cluster.uuid].handler) && logged == None
        && servers == old(servers) && evictions == old(evictions) && trace == old(trace)
      // Miss: the error logged is the build's own; "not ready" logs nothing.
      ensures cluster.uuid !in old(servers) ==>
        var b := Build(resolver, builder, managementConfig, localConfig, cluster);
        && logged == b.err
        && (h.Some? <==> b.record.Some? && b.err.None?)
        && (h.None? ==> servers == old(servers) && evictions == old(evictions) && trace == old(trace))
        && (h.Some? ==>
              && cluster.uuid in servers
              && var rec := servers[cluster.uuid];
                 && h == b.record && rec.handler == h.value && fresh(rec.ctx)
                 && servers == old(servers)[cluster.uuid := rec]
                 && evictions == old(evictions)[rec.ctx := Eviction(cluster.uuid, rec, now, Sleeping)]
                 && trace == old(trace) + [Lifecycle.Stored(cluster.uuid, rec)])
      // Whatever is returned is the handler stored under the key, on a live context.
      ensures h.Some? ==>
        cluster.uuid in servers && h.value == servers[cluster.uuid].handler &&
        !servers[cluster.uuid].ctx.cancelled
    {
      var key := cluster.uuid;
      if key in servers {
        return Some(servers[key].handler), None;
      }
      var rec, err := ToServer(resolver, builder, cluster);
      if rec.None? || err.Some? {
        return None, err;
      }
      var actual, loaded := Publish(key, rec.value);
      h, logged := Some(actual.handler), None;
    }

    /**
     * The eviction goroutine for `c` wakes from its grace sleep and deletes its
     * key, which still holds its own record.
     */
    method Hide(c: Context)
      requires Valid() && c in evictions && evictions[c].phase == Sleeping && now == evictions[c].Wake()
      modifies this
      ensures Valid() && now == old(now)
      ensures var e := old(evictions[c]);
        && e.key in old(servers) && old(servers)[e.key] == e.rec
        && servers == old(servers) - {e.key}
        && evictions == old(evictions)[c := e.(phase := Draining(now))]
        && trace == old(trace) + [Lifecycle.Hidden(e.key, e.rec)]
        && now == e.storedAt + GracePeriod
    {
      var e := evictions[c];
      HideKeepsConsistent(servers, evictions, trace, now, c);
      servers := servers - {e.key};
      evictions := evictions[c := e.(phase := Draining(now))];
      trace := trace + [Lifecycle.Hidden(e.key, e.rec)];
    }

    /**
     * The eviction goroutine for `c` wakes from its drain sleep, cancels the
     * context of the record it stored, and ends.
     */
    method Destroy(c: Context)
      requires Valid() && c in evictions && evictions[c].phase.Draining? && now == evictions[c].Wake()
      modifies this, c
      ensures Valid() && now == old(now)
      ensures var e := old(evictions[c]);
        && !old(c.cancelled) && c.cancelled
        && servers == old(servers)
        && (forall k | k in servers :: servers[k] != e.rec && !servers[k].ctx.cancelled)
        && evictions == old(evictions) - {c}
        && trace == old(trace) + [Lifecycle.Cancelled(e.key, e.rec)]
        && now == e.storedAt + GracePeriod + DrainDelay
    {
      var e := evictions[c];
      CancelKeepsConsistent(servers, evictions, trace, now, c);
      c.Cancel();
      evictions := evictions - {c};
      trace := trace + [Lifecycle.Cancelled(e.key, e.rec)];
    }

    /** Time passes up to `t`; no goroutine sleeps past its wake time. */
    method Advance(t: nat)
      requires Valid() && now <= t
      requires forall c | c in evictions :: t <= evictions[c].Wake()
      modifies this
      ensures Valid() && now == t
      ensures servers == old(servers) && evictions == old(evictions) && trace == old(trace)
    {
      now := t;
    }
  }

  /**
   * A visible entry was stored less than a grace period ago, its eviction is
   * still in its first sleep, and its context is live.
   */
  lemma VisibleWithinGrace(m: Manager, k: Key)
    requires m.Valid() && k in m.servers
    ensures var r := m.servers[k];
      && r.ctx in m.evictions && m.evictions[r.ctx].phase == Sleeping
      && m.now <= m.evictions[r.ctx].storedAt + GracePeriod
      && !r.ctx.cancelled
  {
    assert Scheduled(m.evictions, k, m.servers[k]);
    assert Tracks(m.servers[k].ctx, m.evictions[m.servers[k].ctx], m.trace, m.now);
  }

  /**
   * Every record the manager stored and has not cancelled still has its
   * eviction goroutine, on a live context, due to cancel it exactly grace
   * plus drain after the store: no stored record is left without a cancel.
   */
  lemma PendingUntilCancelled(m: Manager, k: Key, r: Record)
    requires m.Valid() && Lifecycle.Stored(k, r) in m.trace && Lifecycle.Cancelled(k, r) !in m.trace
    ensures r.ctx in m.evictions && m.evictions[r.ctx].key == k && m.evictions[r.ctx].rec == r
    ensures !r.ctx.cancelled
    ensures var e := m.evictions[r.ctx];
      m.now <= e.Wake() <= e.storedAt + GracePeriod + DrainDelay
  {
    var ev := Lifecycle.Stored(k, r);
    assert ev in m.trace && ev.Stored?;
    assert r.ctx in m.evictions;
    assert Tracks(r.ctx, m.evictions[r.ctx], m.trace, m.now);
  }
}
