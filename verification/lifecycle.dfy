/**
 * The life of the entries of the manager's `servers` map, as a history of
 * events: an entry is stored by the `APIServer` call whose insert won, hidden
 * (its key deleted) by its eviction goroutine once the grace period is over,
 * and then cancelled by the same goroutine once the drain delay is over
 * (cluster/manager.go, lines 54-61).
 *
 * `Visible` replays a history into the map the callers see; `Legal` fixes the
 * order of the steps but not their timing, so every history the code produces
 * is legal. The lemmas below hold of every legal history.
 */
module Lifecycle {

  /** One step in the life of the record `rec` stored under `key`. */
  datatype Event<K, R> = Stored(key: K, rec: R) | Hidden(key: K, rec: R) | Cancelled(key: K, rec: R)

  /** The map callers see after a history: Stored inserts, Hidden deletes the key, Cancelled leaves it alone. */
  function Visible<K(==), R>(t: seq<Event<K, R>>): map<K, R>
  {
    if t == [] then map[]
    else Apply(Visible(t[..|t| - 1]), t[|t| - 1])
  }

  /** The effect of one event on the visible map. */
  function Apply<K(==), R>(m: map<K, R>, e: Event<K, R>): map<K, R>
  {
    if e.Stored? then m[e.key := e.rec]
    else if e.Hidden? then m - {e.key}
    else m
  }

  /** `r` plays no part in the history `t`: a freshly built record. */
  predicate Fresh<K(==), R(==)>(t: seq<Event<K, R>>, r: R) {
    forall e | e in t :: e.rec != r
  }

  /**
   * When `e` may follow the history `p`: a store only into an absent key
   * (LoadOrStore wins) and only of a fresh record; a hide only by the goroutine
   * of a stored record, once; a cancel only by a goroutine that has hidden, once.
   */
  predicate Enabled<K(==), R(==)>(p: seq<Event<K, R>>, e: Event<K, R>) {
    match e
    case Stored(k, r) => k !in Visible(p) && Fresh(p, r)
    case Hidden(k, r) => Stored(k, r) in p && Hidden(k, r) !in p
    case Cancelled(k, r) => Hidden(k, r) in p && Cancelled(k, r) !in p
  }

  /** Every event of `t` was enabled by the events before it. */
  predicate Legal<K(==), R(==)>(t: seq<Event<K, R>>) {
    t == [] || (Legal(t[..|t| - 1]) && Enabled(t[..|t| - 1], t[|t| - 1]))
  }

  /** Appending an enabled event keeps a history legal and updates the visible map as the event says. */
  lemma Extend<K, R>(t: seq<Event<K, R>>, e: Event<K, R>)
    requires Legal(t) && Enabled(t, e)
    ensures Legal(t + [e])
    ensures Visible(t + [e]) == Apply(Visible(t), e)
  {
    assert (t + [e])[..|t|] == t;
  }

  /** Every prefix of a legal history is legal. */
  lemma {:induction false} LegalPrefix<K, R>(t: seq<Event<K, R>>, n: nat)
    requires Legal(t) && n <= |t|
    ensures Legal(t[..n])
  {
    if n < |t| {
      assert t[..|t| - 1][..n] == t[..n];
      LegalPrefix(t[..|t| - 1], n);
    } else {
      assert t[..n] == t;
    }
  }

  /** Each event of a legal history was enabled by the events before it. */
  lemma EnabledAt<K, R>(t: seq<Event<K, R>>, n: nat)
    requires Legal(t) && n < |t|
    ensures Legal(t[..n]) && Enabled(t[..n], t[n])
  {
    LegalPrefix(t, n + 1);
    assert t[..n + 1][..n] == t[..n];
  }

  /**
   * In a legal history a record is hidden only after it was stored, and
   * cancelled only after it was hidden: the earlier step occurs before the
   * position of the later one.
   */
  lemma {:induction false} StepsFollowOrder<K, R>(t: seq<Event<K, R>>, k: K, r: R)
    requires Legal(t)
    ensures Hidden(k, r) in t ==> Stored(k, r) in t
    ensures Cancelled(k, r) in t ==> Hidden(k, r) in t
    ensures forall j | 0 <= j < |t| && t[j] == Hidden(k, r) :: Stored(k, r) in t[..j]
    ensures forall j | 0 <= j < |t| && t[j] == Cancelled(k, r) :: Hidden(k, r) in t[..j]
  {
    if t != [] {
      var p := t[..|t| - 1];
      assert t == p + [t[|t| - 1]];
      StepsFollowOrder(p, k, r);
    }
    forall j | 0 <= j < |t| && t[j] in {Hidden(k, r), Cancelled(k, r)}
      ensures t[j] == Hidden(k, r) ==> Stored(k, r) in t[..j]
      ensures t[j] == Cancelled(k, r) ==> Hidden(k, r) in t[..j]
    {
      EnabledAt(t, j);
    }
  }

  /** A record is stored under one key only. */
  lemma {:induction false} StoredUnderOneKey<K, R>(t: seq<Event<K, R>>, k1: K, k2: K, r: R)
    requires Legal(t) && Stored(k1, r) in t && Stored(k2, r) in t
    ensures k1 == k2
  {
    var p, e := t[..|t| - 1], t[|t| - 1];
    assert t == p + [e];
    if e.Stored? && e.rec == r {
      assert Stored(k1, r) !in p && Stored(k2, r) !in p;
    } else {
      StoredUnderOneKey(p, k1, k2, r);
    }
  }

  /**
   * The key of a visible entry maps to record `r` exactly when `r` was stored
   * under it and has not been hidden: the map holds precisely the records whose
   * eviction has not yet run its hide step.
   */
  lemma {:induction false} VisibleIffPending<K, R>(t: seq<Event<K, R>>, k: K, r: R)
    requires Legal(t)
    ensures (Stored(k, r) in t && Hidden(k, r) !in t) <==> (k in Visible(t) && Visible(t)[k] == r)
  {
    if t != [] {
      var p, e := t[..|t| - 1], t[|t| - 1];
      assert t == p + [e];
      VisibleIffPending(p, k, r);
      match e {
        case Stored(k0, r0) =>
          if r == r0 {
            assert Stored(k, r) !in p && Hidden(k, r) !in p;
          }
        case Hidden(k0, r0) =>
          VisibleIffPending(p, k0, r0);
        case Cancelled(_, _) =>
      }
    }
  }

  /**
   * The hide step of a record's eviction deletes exactly that record: when the
   * goroutine deletes its key, the key still maps to the record it scheduled,
   * never to a later record stored under the same key.
   */
  lemma HideRemovesOwnRecord<K, R>(t: seq<Event<K, R>>, k: K, r: R)
    requires Legal(t) && Enabled(t, Hidden(k, r))
    ensures k in Visible(t) && Visible(t)[k] == r
  {
    VisibleIffPending(t, k, r);
  }

  /** No visible record has been cancelled. */
  lemma VisibleNeverCancelled<K, R>(t: seq<Event<K, R>>, k: K)
    requires Legal(t) && k in Visible(t)
    ensures forall e | e in t && e.rec == Visible(t)[k] :: !e.Cancelled?
  {
    var r := Visible(t)[k];
    VisibleIffPending(t, k, r);
    forall e | e in t && e.rec == r
      ensures !e.Cancelled?
    {
      if e.Cancelled? {
        StepsFollowOrder(t, e.key, r);
        StoredUnderOneKey(t, e.key, k, r);
      }
    }
  }

  /**
   * Two events of the same record come in the order Stored, Hidden, Cancelled,
   * with the same key, and none of them twice: at most one delete and at most
   * one cancel per stored record.
   */
  lemma EachStepOnce<K, R>(t: seq<Event<K, R>>, i: nat, j: nat)
    requires Legal(t) && i < j < |t| && t[i].rec == t[j].rec
    ensures t[i].key == t[j].key
    ensures (t[i].Stored? && !t[j].Stored?) || (t[i].Hidden? && t[j].Cancelled?)
  {
    var p, r := t[..j], t[j].rec;
    EnabledAt(t, j);
    assert t[i] == p[i];
    var ki, kj := t[i].key, t[j].key;
    StepsFollowOrder(p, ki, r);
    StepsFollowOrder(p, kj, r);
    match t[j] {
      case Stored(_, _) =>
      case Hidden(_, _) =>
        StoredUnderOneKey(p, ki, kj, r);
      case Cancelled(_, _) =>
        StoredUnderOneKey(p, ki, kj, r);
    }
  }

  /** Before every cancel there was the hide of the same record, and before that its store. */
  lemma HideBeforeCancel<K, R>(t: seq<Event<K, R>>, j: nat)
    requires Legal(t) && j < |t| && t[j].Cancelled?
    ensures exists s, h :: 0 <= s < h < j && t[s] == Stored(t[j].key, t[j].rec) && t[h] == Hidden(t[j].key, t[j].rec)
  {
    var k, r := t[j].key, t[j].rec;
    EnabledAt(t, j);
    var h :| 0 <= h < j && t[..j][h] == Hidden(k, r);
    assert t[h] == Hidden(k, r);
    EnabledAt(t, h);
    var s :| 0 <= s < h && t[..h][s] == Stored(k, r);
    assert t[s] == Stored(k, r);
  }
}
