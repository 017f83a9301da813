/** What every run of many robots over one remote keeps. */
module BrainTheorems {
  import opened Options
  import opened BrainModel
  import opened BrainProtocol

  function HeldRecord(r: Remote): Option<LockData> {
    match ReadLock(r)
    case FoundLock(l) => if IsHeld(l) then Some(l) else None
    case _ => None
  }

  /** At most one robot runs, and the remote lock record carries its lock ID and nonce hash. */
  lemma MutualExclusion(w: World, i: nat, j: nat)
    requires Reachable(w) && Running(w, i) && Running(w, j)
    ensures i == j
    ensures HeldRecord(w.remote).Some? && CanReclaim(w.caches[i].cache, HeldRecord(w.remote).value)
  {
    ReachableInv(w);
    RunningIsOwner(w, i);
    RunningIsOwner(w, j);
  }

  /** A successful start leaves every key outside the starter's outbox the same locally and remotely. */
  lemma NoStaleStart(w: World, i: nat, nonce: Id, id: Id)
    requires Reachable(w) && CanStart(w, i, nonce, id) && StartSucceeds(w, i, nonce)
    ensures Running(Next(w, Start(i, nonce, id)), i) && UpToDate(Next(w, Start(i, nonce, id)), i)
  {
    ReachableInv(w);
    StartIsUpToDate(w, i, nonce, id);
  }

  /** Every key outside the outbox has the same version, checksum, deleted flag and payload on both sides. */
  ghost predicate UpToDate(w: World, i: nat)
    requires i in w.caches
  {
    forall k :: k !in w.caches[i].cache.outbox ==> Agree(w.caches[i].cache, w.remote, k)
  }

  lemma StartIsUpToDate(w: World, i: nat, nonce: Id, id: Id)
    requires Inv(w) && CanStart(w, i, nonce, id) && StartSucceeds(w, i, nonce)
    ensures Running(Next(w, Start(i, nonce, id)), i) && UpToDate(Next(w, Start(i, nonce, id)), i)
  {
    StarterReady(w, i, nonce);
    LockWriteMakesOwner(Opened(w, i, nonce).value, w.remote, id);
  }

  /** The agreement was there before the lock write, and only a returning owner has anything pending. */
  lemma StarterIsUpToDate(w: World, i: nat, nonce: Id)
    requires Reachable(w) && StartSucceeds(w, i, nonce) && nonce !in w.used
    requires i in w.caches ==> w.caches[i].phase == Down
    ensures var c := Opened(w, i, nonce).value;
      && (forall k :: k != LOCK_KEY && k !in c.outbox ==> Agree(c, w.remote, k))
      && (w.owner != Some(i) ==> Pending(c) == map[])
  {
    ReachableInv(w);
    StarterReady(w, i, nonce);
  }

  /**
    With no other holder since, the same cache passes the checkpoint and cloud-write
    checks; it starts exactly when the lock is released or it still has its lock ID.
   */
  lemma OwnRestart(w: World, o: nat, nonce: Id, id: Id)
    requires Reachable(w) && w.owner == Some(o) && CanStart(w, o, nonce, id)
    ensures o in w.caches && HasLock(w.remote)
    ensures CheckpointHolds(w.caches[o].cache, w.remote) && LastCloudWriteHolds(w.caches[o].cache, w.remote)
    ensures StartSucceeds(w, o, nonce) <==> LockOf(w.remote).state == RELEASED || HasId(w.caches[o].cache, w.remote)
  {
    ReachableInv(w);
    OwnerStarts(w.caches[o], w.remote);
  }

  ghost predicate OwnerHasId(w: World) {
    w.owner.Some? ==> w.owner.value in w.caches && HasLock(w.remote) && HasId(w.caches[w.owner.value].cache, w.remote)
  }

  /** Only a start of the last owner that fails at its lock write loses the lock ID. */
  lemma EventKeepsId(w: World, e: Event)
    requires Reachable(w) && Enabled(w, e) && OwnerHasId(w)
    requires e.FailedStart? ==> w.owner != Some(e.i)
    ensures OwnerHasId(Next(w, e))
  {
    ReachableInv(w);
    match e
    case Start(i, nonce, id) => StartKeepsId(w, i, nonce, id);
    case FailedStart(i, nonce, id) => OtherFailureKeepsId(w, i, nonce, id);
    case Exit(i) => ExitKeepsId(w, i);
    case _ => OwnerEventKeepsId(w, e);
  }

  lemma OtherFailureKeepsId(w: World, i: nat, nonce: Id, id: Id)
    requires StartSucceeds(w, i, nonce) && w.owner != Some(i) && OwnerHasId(w)
    ensures OwnerHasId(AfterFailedStart(w, i, nonce, id))
  {
    FailedStartShape(w, i, nonce, id);
  }

  lemma ExitKeepsId(w: World, i: nat)
    requires Enabled(w, Exit(i)) && OwnerHasId(w)
    ensures OwnerHasId(Next(w, Exit(i)))
  {}

  lemma StartKeepsId(w: World, i: nat, nonce: Id, id: Id)
    requires Inv(w) && CanStart(w, i, nonce, id) && OwnerHasId(w)
    ensures OwnerHasId(AfterStart(w, i, nonce, id))
  {
    if StartSucceeds(w, i, nonce) {
      StarterReady(w, i, nonce);
      LockWriteMakesOwner(Opened(w, i, nonce).value, w.remote, id);
    } else {
      RefusalKeepsOwner(w, i, nonce, id);
    }
  }

  lemma OwnerEventKeepsId(w: World, e: Event)
    requires Inv(w) && Enabled(w, e) && IsOwners(e) && OwnerHasId(w)
    ensures OwnerHasId(Next(w, e))
  {
    ActorIsOwner(w, e);
    OthersUntouched(w, e);
    OwnerEventKeepsOwner(w, e, w.caches[e.i]);
    OwnerEventKeepsLockId(w, e, w.caches[e.i]);
  }

  /**
    Exactly which starts succeed once some robot has run: the last owner's own,
    unless the lock is held under an ID it has lost; and, when the lock is
    released, that of a new directory or of a complete copy that knows at least
    the released database version and, if it watches the lock, has this lock.
   */
  lemma StartSucceedsExactly(w: World, i: nat, nonce: Id)
    requires Reachable(w) && w.owner.Some? && nonce !in w.used
    requires i in w.caches ==> w.caches[i].phase == Down
    ensures HasLock(w.remote) && w.owner.value in w.caches
    ensures StartSucceeds(w, i, nonce) <==>
              if w.owner == Some(i) then LockOf(w.remote).state == RELEASED || HasId(w.caches[i].cache, w.remote)
              else
                && LockOf(w.remote).state == RELEASED
                && (i in w.caches ==>
                      var c := w.caches[i].cache;
                      && c.control.complete
                      && LockOf(w.remote).databaseVersion <= LatestVersion(c)
                      && (WatchesLock(c) ==> CheckpointHolds(c, w.remote)))
  {
    ReachableInv(w);
    var o := w.owner.value;
    if i == o {
      OwnerStarts(w.caches[o], w.remote);
    } else if i in w.caches {
      assert OutsiderOK(w.caches[i], w.caches[o], w.remote, w.used);
      OutsiderStarts(w.caches[i], w.caches[o], w.remote, w.used);
    } else {
      HydratedWhileHeld(w.caches[o], w.remote, nonce, w.used);
    }
  }

  /** No lock record, or one that was released at a version the remote still knows. */
  ghost predicate FreeToTake(r: Remote) {
    LOCK_KEY in r && !r[LOCK_KEY].deleted ==>
      && r[LOCK_KEY].payload.LockBlob?
      && r[LOCK_KEY].payload.lock.state == RELEASED
      && exists k :: k in r && r[LOCK_KEY].payload.lock.databaseVersion <= r[k].version
  }

  lemma InvitingExactly(r: Remote)
    ensures Inviting(r) <==> Hydratable(r) && FreeToTake(r)
  {
    if r != map[] {
      assert IsNewest(r, Newest(r));
      forall k | k in r ensures r[k].version <= r[Newest(r)].version { assert Precedes(r, k, Newest(r)); }
    }
  }

  /**
    Exactly which starts succeed before any robot has run: every record of the
    remote can be copied, the lock is free, and the directory is new or holds a
    whole copy.  A lock record that cannot be read refuses everyone.
   */
  lemma FirstStartSucceedsExactly(w: World, i: nat, nonce: Id)
    requires Reachable(w) && w.owner.None? && nonce !in w.used
    ensures StartSucceeds(w, i, nonce) <==>
              && Hydratable(w.remote) && FreeToTake(w.remote)
              && (i in w.caches ==> w.caches[i].cache.control.complete)
  {
    ReachableInv(w);
    InvitingExactly(w.remote);
    if i in w.caches {
      assert BystanderOK(w.caches[i], w.remote);
      var c := w.caches[i].cache;
      if c.control.complete { FirstCopyStarts(c, w.remote); }
    } else if Hydratable(w.remote) {
      InvitingAny(w.remote, nonce);
      HydratedReady(w.remote, nonce);
    }
  }

  lemma FirstCopyStarts(c: Cache, r: Remote)
    requires IsCopy(c, r) && (Inviting(r) || c == Hydrated(r, c.control.nonce))
    ensures OpenAllowed(c, r) && (AcquireAllowed(c, r) <==> Inviting(r))
  {
    InvitingAny(r, c.control.nonce);
    CopyReady(c, r);
  }

  /**
    A start writes a lock record that differs from the last owner's; its version
    is the same exactly when the starter is an old copy at the database version.
   */
  lemma LockVersionRepeatsExactly(w: World, i: nat, nonce: Id, id: Id)
    requires Reachable(w) && w.owner.Some?
    requires CanStart(w, i, nonce, id) && StartSucceeds(w, i, nonce)
    ensures HasLock(w.remote)
    ensures var r, r' := w.remote, Next(w, Start(i, nonce, id)).remote;
      && LOCK_KEY in r' && r'[LOCK_KEY] != r[LOCK_KEY] && r[LOCK_KEY].version <= r'[LOCK_KEY].version
      && (r'[LOCK_KEY].version == r[LOCK_KEY].version <==>
            i in w.caches && w.owner != Some(i) && LatestVersion(w.caches[i].cache) == LockOf(r).databaseVersion)
  {
    ReachableInv(w);
    StarterReady(w, i, nonce);
    LockWriteMakesOwner(Opened(w, i, nonce).value, w.remote, id);
    assert LockOf(w.remote).lockID != Some(id);
    if i !in w.caches { NewestOfReleased(w.caches[w.owner.value], w.remote, nonce); }
  }

  /** The checkpoint names the newest remote record, and the last cloud write is still in place. */
  lemma CheckpointTracksRemote(w: World, o: nat)
    requires Reachable(w) && w.owner == Some(o)
    ensures o in w.caches
    ensures var c := w.caches[o].cache;
      && c.control.checkpoint.Some?
      && var cp := c.control.checkpoint.value;
      && RemoteMatches(w.remote, cp.key, cp.version, cp.checksum)
      && (forall k :: k in w.remote ==> w.remote[k].version <= cp.version)
      && LastCloudWriteHolds(c, w.remote)
  {
    ReachableInv(w);
  }

  /** A key is pending at its metadata version and above the remote's, or the remote agrees with the cache. */
  lemma OutboxAgreement(w: World, i: nat, k: Key)
    requires Reachable(w) && Running(w, i)
    ensures var c := w.caches[i].cache;
      if k in c.outbox then
        && k in c.metas
        && c.outbox[k] == Entry(c.metas[k].version, c.metas[k].deleted)
        && (k in w.remote ==> w.remote[k].version < c.outbox[k].version)
      else Agree(c, w.remote, k)
  {
    ReachableInv(w);
    RunningIsOwner(w, i);
  }

  /** A write takes a version above every one in its cache and in the remote, and none is taken twice. */
  lemma ReservedVersionsAscend(w: World, e: Event)
    requires Reachable(w) && Enabled(w, e) && Running(w, e.i)
    ensures e.i in Next(w, e).caches
    ensures var c, c' := w.caches[e.i].cache, Next(w, e).caches[e.i].cache;
      && (forall k :: k in c.metas ==> c.metas[k].version < ReservedVersion(c))
      && (forall k :: k in w.remote ==> w.remote[k].version < ReservedVersion(c))
      && ReservedVersion(c) <= ReservedVersion(c')
      && (e.Store? || e.Delete? ==>
            && e.key in c'.metas && c'.metas[e.key].version == ReservedVersion(c)
            && ReservedVersion(c) < ReservedVersion(c'))
  {
    ReachableInv(w);
    RunningIsOwner(w, e.i);
    CounterAbove(w.caches[e.i], w.remote);
    if IsOwners(e) { OwnerEventKeepsCounter(w, e, w.caches[e.i]); }
  }

  lemma CounterAbove(n: Node, r: Remote)
    requires OwnerOK(n, r)
    ensures (forall k :: k in n.cache.metas ==> n.cache.metas[k].version < ReservedVersion(n.cache))
    ensures (forall k :: k in r ==> r[k].version < ReservedVersion(n.cache))
  {}

  lemma OwnerEventKeepsCounter(w: World, e: Event, n: Node)
    requires Enabled(w, e) && IsOwners(e) && n == w.caches[e.i] && OwnerOK(n, w.remote)
    ensures var c' := Next(w, e).caches[e.i].cache;
      && ReservedVersion(n.cache) <= ReservedVersion(c')
      && (e.Store? || e.Delete? ==>
            && e.key in c'.metas && c'.metas[e.key].version == ReservedVersion(n.cache)
            && ReservedVersion(n.cache) < ReservedVersion(c'))
  {
    match e
    case Release(_, _) =>
      LockWriteShape(n.cache, w.remote, RELEASED, 0);
      FailedLockWriteShape(n.cache, w.remote, RELEASED, 0);
    case SyncPicked(_, pick, putOk) => SyncKeepsCounter(n.cache, w.remote, pick.key, pick.version, putOk);
    case FlushPicked(_, pick, putOk) => SyncKeyKeepsCounter(n.cache, w.remote, pick.key, putOk);
    case LastFlush(_, k, putOk) => SyncKeyKeepsCounter(n.cache, w.remote, k, putOk);
    case _ =>
  }

  lemma SyncKeepsCounter(c: Cache, r: Remote, k: Key, version: nat, putOk: bool)
    ensures SyncEntry(c, r, k, version, putOk).cache.control.nextVersion == c.control.nextVersion
  {}

  lemma SyncKeyKeepsCounter(c: Cache, r: Remote, k: Key, putOk: bool)
    ensures SyncKey(c, r, k, putOk).cache.control.nextVersion == c.control.nextVersion
  {}

  // ---- remote versions ----

  /** No key is lost, no version decreases, and a data record changes only by gaining a version. */
  ghost predicate Grows(r: Remote, r': Remote) {
    forall k :: k in r ==>
      && k in r'
      && r[k].version <= r'[k].version
      && (k != LOCK_KEY && r[k] != r'[k] ==> r[k].version < r'[k].version)
  }

  lemma StartGrowsRemote(w: World, i: nat, nonce: Id, id: Id)
    requires Inv(w) && CanStart(w, i, nonce, id)
    ensures Grows(w.remote, AfterStart(w, i, nonce, id).remote)
  {
    if StartSucceeds(w, i, nonce) {
      StarterReady(w, i, nonce);
      LockWriteGrows(Opened(w, i, nonce).value, w.remote, HELD, id);
    }
  }

  lemma LockWriteGrows(c: Cache, r: Remote, state: string, id: Id)
    requires ReadyToLock(c, r)
    ensures Grows(r, LockWritten(c, r, state, id, true).remote)
  {
    LockWriteShape(c, r, state, id);
  }

  lemma PushGrowsRemote(n: Node, r: Remote, k: Key)
    requires OwnerOK(n, r) && k in n.cache.outbox
    ensures Grows(r, r) && Grows(r, r[k := Outgoing(n.cache, k)])
  {
    PendingIsAbove(n, r, k);
  }

  lemma PendingIsAbove(n: Node, r: Remote, k: Key)
    requires OwnerOK(n, r) && k in n.cache.outbox
    ensures k in r ==> r[k].version < n.cache.outbox[k].version
  {
    if k != LOCK_KEY { assert k in Pending(n.cache); }
  }

  lemma EventGrowsRemote(w: World, e: Event)
    requires Inv(w) && Enabled(w, e)
    ensures Grows(w.remote, Next(w, e).remote)
  {
    match e
    case Start(i, nonce, id) => StartGrowsRemote(w, i, nonce, id);
    case FailedStart(i, nonce, id) => FailedStartShape(w, i, nonce, id);
    case Exit(_) =>
    case _ => ActorGrowsRemote(w, e);
  }

  lemma ActorGrowsRemote(w: World, e: Event)
    requires Inv(w) && Enabled(w, e) && IsOwners(e)
    ensures Grows(w.remote, Next(w, e).remote)
  {
    ActorIsOwner(w, e);
    OwnerEventGrowsRemote(w, e, w.caches[e.i]);
  }

  lemma OwnerEventGrowsRemote(w: World, e: Event, n: Node)
    requires Enabled(w, e) && IsOwners(e) && e.i in w.caches && n == w.caches[e.i] && OwnerOK(n, w.remote)
    ensures Grows(w.remote, Next(w, e).remote)
  {
    var r := w.remote;
    match e
    case Release(_, putOk) =>
      LockWriteGrows(n.cache, r, RELEASED, 0);
      FailedLockWriteShape(n.cache, r, RELEASED, 0);
    case SyncPicked(_, pick, putOk) =>
      SyncIsPushOfNext(n, r, pick, putOk);
      if IsNext(n.cache, pick.key) { PushGrowsRemote(n, r, pick.key); }
    case FlushPicked(_, pick, putOk) =>
      FlushIsPush(n.cache, r, pick.key, putOk);
      if pick.key in n.cache.outbox { PushGrowsRemote(n, r, pick.key); }
    case LastFlush(_, k, putOk) =>
      FlushIsPush(n.cache, r, k, putOk);
      if k in n.cache.outbox { PushGrowsRemote(n, r, k); }
    case _ =>
  }

  lemma RemoteNeverDecreases(w: World, es: seq<Event>)
    requires Reachable(w) && IsRun(w, es)
    ensures Grows(w.remote, After(w, es).remote)
  {
    ReachableInv(w);
    RunGrowsRemote(w, es);
  }

  lemma {:induction false} RunGrowsRemote(w: World, es: seq<Event>)
    requires Inv(w) && IsRun(w, es)
    ensures Grows(w.remote, After(w, es).remote)
    decreases |es|
  {
    if es != [] {
      EventGrowsRemote(w, es[0]);
      EventKeepsInv(w, es[0]);
      RunGrowsRemote(Next(w, es[0]), es[1..]);
    }
  }

  // ---- everything pending can be pushed ----

  /** The cache holds what it held, and has less to push. */
  ghost predicate DrainedFurther(w: World, w': World, i: nat)
    requires i in w.caches
  {
    && i in w'.caches && w'.owner == w.owner && w'.caches[i].phase == w.caches[i].phase
    && var c, c' := w.caches[i].cache, w'.caches[i].cache;
    && c'.metas == c.metas && c'.payloads == c.payloads && c'.outbox.Keys <= c.outbox.Keys
  }

  /** The two events of a background sync, with a write that succeeds, push the lowest pending entry. */
  lemma SyncOnce(w: World, i: nat, k: Key) returns (es: seq<Event>)
    requires Inv(w) && Running(w, i) && IsNext(w.caches[i].cache, k)
    ensures IsRun(w, es) && Inv(After(w, es)) && DrainedFurther(w, After(w, es), i)
    ensures k !in After(w, es).caches[i].cache.outbox
  {
    var e, e' := PickNext(i, k), SyncPicked(i, Pick(k, w.caches[i].cache.outbox[k].version), true);
    PickedPushes(w, i, k);
    EventKeepsInv(w, e);
    EventKeepsInv(Next(w, e), e');
    OneEvent(w, e);
    es := [e] + [e'];
    RunExtends(w, [e], e');
  }

  lemma PickedPushes(w: World, i: nat, k: Key)
    requires Inv(w) && Running(w, i) && IsNext(w.caches[i].cache, k)
    ensures var e, e' := PickNext(i, k), SyncPicked(i, Pick(k, w.caches[i].cache.outbox[k].version), true);
      && Enabled(w, e) && Enabled(Next(w, e), e')
      && DrainedFurther(w, Next(Next(w, e), e'), i) && k !in Next(Next(w, e), e').caches[i].cache.outbox
  {
    RunningIsOwner(w, i);
    var c := w.caches[i].cache;
    SyncPushes(c, w.remote, k);
  }

  lemma SyncPushes(c: Cache, r: Remote, k: Key)
    requires WellFormed(c) && k in c.outbox
    ensures SyncEntry(c, r, k, c.outbox[k].version, true).cache == Pushed(c, k)
  {}

  /** After a release, one event of the last flush does. */
  lemma FlushOnce(w: World, i: nat, k: Key) returns (es: seq<Event>)
    requires Inv(w) && w.owner == Some(i) && w.caches[i].phase == Ending && IsNext(w.caches[i].cache, k)
    ensures IsRun(w, es) && Inv(After(w, es)) && DrainedFurther(w, After(w, es), i)
    ensures k !in After(w, es).caches[i].cache.outbox
  {
    LastFlushPushes(w, i, k);
    EventKeepsInv(w, LastFlush(i, k, true));
    OneEvent(w, LastFlush(i, k, true));
    es := [LastFlush(i, k, true)];
  }

  lemma LastFlushPushes(w: World, i: nat, k: Key)
    requires Inv(w) && w.owner == Some(i) && w.caches[i].phase == Ending && IsNext(w.caches[i].cache, k)
    ensures var e := LastFlush(i, k, true);
      Enabled(w, e) && DrainedFurther(w, Next(w, e), i) && k !in Next(w, e).caches[i].cache.outbox
  {
    SyncPushes(w.caches[i].cache, w.remote, k);
  }

  lemma {:induction false} OutboxDrains(w: World, i: nat) returns (es: seq<Event>)
    requires Inv(w) && w.owner == Some(i) && w.caches[i].phase != Down
    ensures IsRun(w, es) && Inv(After(w, es)) && DrainedFurther(w, After(w, es), i)
    ensures After(w, es).caches[i].cache.outbox == map[]
    decreases |w.caches[i].cache.outbox|
  {
    var c := w.caches[i].cache;
    es := [];
    if c.outbox != map[] {
      var k := NextExists(c.outbox);
      if w.caches[i].phase == Up { es := SyncOnce(w, i, k); } else { es := FlushOnce(w, i, k); }
      FewerPending(c.outbox, After(w, es).caches[i].cache.outbox, k);
      var rest := OutboxDrains(After(w, es), i);
      RunsAppend(w, es, rest);
      es := es + rest;
    }
  }

  lemma FewerPending(a: map<Key, Entry>, b: map<Key, Entry>, k: Key)
    requires b.Keys <= a.Keys && k in a && k !in b
    ensures |b| < |a|
  {
    assert b.Keys <= a.Keys - {k};
    SubsetSize(b.Keys, a.Keys - {k});
  }

  lemma {:induction false} SubsetSize(a: set<Key>, b: set<Key>)
    requires a <= b
    ensures |a| <= |b|
    decreases |a|
  {
    if a != {} {
      var x :| x in a;
      SubsetSize(a - {x}, b - {x});
    }
  }

  lemma {:induction false} RunsAppend(w: World, es: seq<Event>, more: seq<Event>)
    requires IsRun(w, es) && IsRun(After(w, es), more)
    ensures IsRun(w, es + more) && After(w, es + more) == After(After(w, es), more)
    decreases |es|
  {
    if es == [] {
      assert es + more == more;
    } else {
      assert (es + more)[0] == es[0] && (es + more)[1..] == es[1..] + more;
      RunsAppend(Next(w, es[0]), es[1..], more);
    }
  }

  /**
    From every reachable world a robot that runs, or has released the lock and
    still flushes, can push everything it has pending; then the remote agrees
    with its cache on every key, and a lock that was to be released is.
   */
  lemma EverythingCanBePushed(w: World, i: nat) returns (es: seq<Event>)
    requires Reachable(w) && w.owner == Some(i) && i in w.caches && w.caches[i].phase != Down
    ensures IsRun(w, es) && i in After(w, es).caches
    ensures var c, c', r' := w.caches[i].cache, After(w, es).caches[i].cache, After(w, es).remote;
      && c'.metas == c.metas && c'.payloads == c.payloads && c'.outbox == map[]
      && (forall k :: Agree(c', r', k))
      && (w.caches[i].phase == Ending ==> HasLock(r') && LockOf(r').state == RELEASED)
  {
    ReachableInv(w);
    es := OutboxDrains(w, i);
    assert OwnerOK(After(w, es).caches[i], After(w, es).remote);
  }

  /** Nothing is kept of what was deleted. */
  ghost predicate TombstonesEmpty(r: Remote) {
    forall k :: k in r && r[k].deleted ==> r[k].payload == Blob([])
  }

  lemma SyncKeepsTombstones(c: Cache, r: Remote, k: Key, putOk: bool)
    requires TombstonesEmpty(r)
    ensures TombstonesEmpty(SyncKey(c, r, k, putOk).remote)
    ensures forall version :: TombstonesEmpty(SyncEntry(c, r, k, version, putOk).remote)
  {}

  /** However robots start, stop and fail, the remote never keeps the payload of a deleted key. */
  lemma {:induction false} DeletedDataIsGone(w: World, es: seq<Event>)
    requires IsRun(w, es) && TombstonesEmpty(w.remote)
    ensures TombstonesEmpty(After(w, es).remote)
    decreases |es|
  {
    if es != [] {
      EventKeepsTombstones(w, es[0]);
      DeletedDataIsGone(Next(w, es[0]), es[1..]);
    }
  }

  lemma EventKeepsTombstones(w: World, e: Event)
    requires Enabled(w, e) && TombstonesEmpty(w.remote)
    ensures TombstonesEmpty(Next(w, e).remote)
  {
    match e
    case Start(i, nonce, id) =>
      if StartSucceeds(w, i, nonce) {
        SyncKeepsTombstones(LockStored(Opened(w, i, nonce).value, HELD, id), w.remote, LOCK_KEY, true);
      }
    case FailedStart(i, nonce, id) =>
      SyncKeepsTombstones(LockStored(Opened(w, i, nonce).value, HELD, id), w.remote, LOCK_KEY, false);
    case SyncPicked(i, pick, putOk) => SyncKeepsTombstones(w.caches[i].cache, w.remote, pick.key, putOk);
    case FlushPicked(i, pick, putOk) => SyncKeepsTombstones(w.caches[i].cache, w.remote, pick.key, putOk);
    case Release(i, putOk) =>
      SyncKeepsTombstones(LockStored(w.caches[i].cache, RELEASED, 0), w.remote, LOCK_KEY, putOk);
    case LastFlush(i, k, putOk) => SyncKeepsTombstones(w.caches[i].cache, w.remote, k, putOk);
    case _ =>
  }

  /** A data record of the remote has changed. */
  ghost predicate DataChanged(r: Remote, r': Remote, k: Key) {
    k != LOCK_KEY && k in r' && (k in r ==> r[k] != r'[k])
  }

  /** The last-cloud-write record moves exactly with the remote's data, and then names what changed. */
  ghost predicate FollowsData(c: Cache, r: Remote, c': Cache, r': Remote) {
    && (forall k :: DataChanged(r, r', k) ==>
          c'.control.lastCloudWrite == Some(CloudWrite(k, r'[k].version, r'[k].checksum, r'[k].deleted)))
    && ((forall k :: !DataChanged(r, r', k)) ==> c'.control.lastCloudWrite == c.control.lastCloudWrite)
  }

  lemma LockWriteFollowsData(c: Cache, r: Remote, state: string, id: Id)
    requires ReadyToLock(c, r)
    ensures var s := LockWritten(c, r, state, id, true); FollowsData(c, r, s.cache, s.remote)
  {
    LockWriteShape(c, r, state, id);
  }

  lemma PushFollowsData(n: Node, r: Remote, k: Key)
    requires OwnerOK(n, r) && k in n.cache.outbox
    ensures FollowsData(n.cache, r, Pushed(n.cache, k), r[k := Outgoing(n.cache, k)])
  {
    var r' := r[k := Outgoing(n.cache, k)];
    if k != LOCK_KEY {
      assert k in r ==> r[k].version < n.cache.outbox[k].version == r'[k].version;
      assert DataChanged(r, r', k);
    }
    assert forall j :: DataChanged(r, r', j) ==> j == k;
  }

  lemma NothingFollowsData(c: Cache, r: Remote, c': Cache)
    requires c'.control.lastCloudWrite == c.control.lastCloudWrite
    ensures FollowsData(c, r, c', r)
  {
    assert forall k :: !DataChanged(r, r, k);
  }

  lemma LastCloudWriteFollowsData(w: World, e: Event)
    requires Reachable(w) && Enabled(w, e) && e.i in w.caches && w.owner == Some(e.i)
    ensures e.i in Next(w, e).caches
    ensures FollowsData(w.caches[e.i].cache, w.remote, Next(w, e).caches[e.i].cache, Next(w, e).remote)
  {
    ReachableInv(w);
    var n, r := w.caches[e.i], w.remote;
    match e
    case Start(i, nonce, id) => StartFollowsData(w, i, nonce, id);
    case FailedStart(i, nonce, id) =>
      FailedStartShape(w, i, nonce, id);
      NothingFollowsData(n.cache, r, LockStored(n.cache, HELD, id));
    case Exit(_) => NothingFollowsData(n.cache, r, n.cache);
    case _ => OwnerEventFollowsData(w, e, n);
  }

  lemma StartFollowsData(w: World, i: nat, nonce: Id, id: Id)
    requires CanStart(w, i, nonce, id) && i in w.caches && OwnerOK(w.caches[i], w.remote)
    ensures FollowsData(w.caches[i].cache, w.remote,
                        AfterStart(w, i, nonce, id).caches[i].cache, AfterStart(w, i, nonce, id).remote)
  {
    if StartSucceeds(w, i, nonce) {
      LockWriteFollowsData(w.caches[i].cache, w.remote, HELD, id);
    } else {
      RefusalShape(w, i, nonce, id);
      NothingFollowsData(w.caches[i].cache, w.remote, w.caches[i].cache);
    }
  }

  lemma OwnerEventFollowsData(w: World, e: Event, n: Node)
    requires Enabled(w, e) && IsOwners(e) && e.i in w.caches && n == w.caches[e.i] && OwnerOK(n, w.remote)
    ensures FollowsData(n.cache, w.remote, Next(w, e).caches[e.i].cache, Next(w, e).remote)
  {
    var r := w.remote;
    match e
    case Release(_, putOk) =>
      LockWriteFollowsData(n.cache, r, RELEASED, 0);
      FailedLockWriteShape(n.cache, r, RELEASED, 0);
      NothingFollowsData(n.cache, r, LockStored(n.cache, RELEASED, 0));
    case SyncPicked(_, pick, putOk) =>
      SyncIsPushOfNext(n, r, pick, putOk);
      NothingFollowsData(n.cache, r, n.cache);
      if IsNext(n.cache, pick.key) { PushFollowsData(n, r, pick.key); }
    case FlushPicked(_, pick, putOk) =>
      FlushIsPush(n.cache, r, pick.key, putOk);
      NothingFollowsData(n.cache, r, n.cache);
      if pick.key in n.cache.outbox { PushFollowsData(n, r, pick.key); }
    case LastFlush(_, k, putOk) =>
      FlushIsPush(n.cache, r, k, putOk);
      NothingFollowsData(n.cache, r, n.cache);
      if k in n.cache.outbox { PushFollowsData(n, r, k); }
    case Store(_, k, p) => NothingFollowsData(n.cache, r, Stored(n.cache, k, p));
    case Delete(_, k) => NothingFollowsData(n.cache, r, Removed(n.cache, k));
    case PickNext(_, _) => NothingFollowsData(n.cache, r, n.cache);
  }

  // ---- many robots, one brain ----

  /** The brain's contents apart from the lock. */
  function DataView(c: Cache): map<Key, Payload> {
    View(c) - {LOCK_KEY}
  }

  function RemoteData(r: Remote): map<Key, Payload> {
    map k | k in r && !r[k].deleted && k != LOCK_KEY :: r[k].payload
  }

  /** What an event does to a plain map. */
  function Apply(m: map<Key, Payload>, e: Event): map<Key, Payload> {
    match e
    case Store(_, k, p) => m[k := p]
    case Delete(_, k) => m - {k}
    case _ => m
  }

  function Contents(m: map<Key, Payload>, es: seq<Event>): map<Key, Payload>
    decreases |es|
  {
    if es == [] then m else Contents(Apply(m, es[0]), es[1..])
  }

  ghost predicate Holds(w: World, m: map<Key, Payload>) {
    Inv(w) && Shows(w, m)
  }

  /** If the event is another robot's acquisition, the previous owner had nothing left to push. */
  ghost predicate CleanTakeover(w: World, e: Event) {
    e.Start? && w.owner.Some? && w.owner != Some(e.i) && w.owner.value in w.caches && StartSucceeds(w, e.i, e.nonce) ==>
      Pending(w.caches[w.owner.value].cache) == map[]
  }

  ghost predicate CleanTakeovers(w: World, es: seq<Event>)
    requires IsRun(w, es)
    decreases |es|
  {
    es == [] || (CleanTakeover(w, es[0]) && CleanTakeovers(Next(w, es[0]), es[1..]))
  }

  lemma AgreeingViews(c: Cache, r: Remote)
    requires WellFormed(c) && DataAgree(c, r)
    ensures DataView(c) == RemoteData(r)
  {
    forall k ensures k in DataView(c) <==> k in RemoteData(r) {
      if k != LOCK_KEY { assert Agree(c, r, k); }
    }
    forall k | k in DataView(c) ensures DataView(c)[k] == RemoteData(r)[k] {
      assert Agree(c, r, k);
    }
  }

  lemma LocalWriteViews(c: Cache, k: Key, p: Payload)
    requires k != LOCK_KEY
    ensures DataView(Stored(c, k, p)) == DataView(c)[k := p]
    ensures DataView(Removed(c, k)) == DataView(c) - {k}
  {}

  lemma LockWriteViews(c: Cache, r: Remote, state: string, id: Id, putOk: bool)
    requires WellFormed(c)
    ensures DataView(LockWritten(c, r, state, id, putOk).cache) == DataView(c)
  {
    LockStoredShape(c, state, id);
    LockWriteShape(c, r, state, id);
    FailedLockWriteShape(c, r, state, id);
  }

  /** The contents of an owner with no data pending are the remote's. */
  lemma FlushedViews(n: Node, r: Remote)
    requires OwnerOK(n, r) && Pending(n.cache) == map[]
    ensures DataView(n.cache) == RemoteData(r)
  {
    forall k | k != LOCK_KEY ensures Agree(n.cache, r, k) { assert k !in Pending(n.cache); }
    AgreeingViews(n.cache, r);
  }

  lemma StarterView(w: World, i: nat, nonce: Id, id: Id, m: map<Key, Payload>)
    requires Holds(w, m) && CanStart(w, i, nonce, id) && StartSucceeds(w, i, nonce)
    requires CleanTakeover(w, Start(i, nonce, id))
    ensures DataView(Opened(w, i, nonce).value) == m
  {
    var c := Opened(w, i, nonce).value;
    StarterReady(w, i, nonce);
    if w.owner != Some(i) {
      AgreeingViews(c, w.remote);
      if w.owner.Some? { FlushedViews(w.caches[w.owner.value], w.remote); }
    }
  }

  lemma EventSimulates(w: World, e: Event, m: map<Key, Payload>)
    requires Holds(w, m) && Enabled(w, e) && CleanTakeover(w, e)
    ensures Holds(Next(w, e), Apply(m, e))
  {
    EventKeepsInv(w, e);
    EventShows(w, e, m);
  }

  lemma EventShows(w: World, e: Event, m: map<Key, Payload>)
    requires Holds(w, m) && Enabled(w, e) && CleanTakeover(w, e)
    ensures Shows(Next(w, e), Apply(m, e))
  {
    match e
    case Start(i, nonce, id) => StartSimulates(w, i, nonce, id, m);
    case FailedStart(i, nonce, id) => FailedStartSimulates(w, i, nonce, id, m);
    case Exit(i) => ExitSimulates(w, i, m);
    case _ => OwnerEventShows(w, e, m);
  }

  lemma OwnerEventShows(w: World, e: Event, m: map<Key, Payload>)
    requires Holds(w, m) && Enabled(w, e) && IsOwners(e)
    ensures Shows(Next(w, e), Apply(m, e))
  {
    ActorIsOwner(w, e);
    OthersUntouched(w, e);
    OwnerEventSimulates(w, e, w.caches[e.i]);
  }

  lemma ExitSimulates(w: World, i: nat, m: map<Key, Payload>)
    requires Shows(w, m) && Enabled(w, Exit(i))
    ensures Shows(Next(w, Exit(i)), m)
  {}

  /** The contents that count, in the world as it is. */
  ghost predicate Shows(w: World, m: map<Key, Payload>) {
    && (w.owner.Some? ==> w.owner.value in w.caches)
    && m == if w.owner.Some? then DataView(w.caches[w.owner.value].cache) else RemoteData(w.remote)
  }

  lemma StartSimulates(w: World, i: nat, nonce: Id, id: Id, m: map<Key, Payload>)
    requires Holds(w, m) && CanStart(w, i, nonce, id) && CleanTakeover(w, Start(i, nonce, id))
    ensures Shows(AfterStart(w, i, nonce, id), m)
  {
    if StartSucceeds(w, i, nonce) {
      StarterView(w, i, nonce, id, m);
      StarterReady(w, i, nonce);
      LockWriteViews(Opened(w, i, nonce).value, w.remote, HELD, id, true);
    } else {
      RefusalKeepsOwner(w, i, nonce, id);
    }
  }

  lemma FailedStartSimulates(w: World, i: nat, nonce: Id, id: Id, m: map<Key, Payload>)
    requires Holds(w, m) && CanStart(w, i, nonce, id) && StartSucceeds(w, i, nonce)
    ensures Shows(AfterFailedStart(w, i, nonce, id), m)
  {
    FailedStartShape(w, i, nonce, id);
    StarterReady(w, i, nonce);
    LockWriteViews(Opened(w, i, nonce).value, w.remote, HELD, id, false);
  }

  lemma RefusalKeepsOwner(w: World, i: nat, nonce: Id, id: Id)
    requires Inv(w) && CanStart(w, i, nonce, id) && !StartSucceeds(w, i, nonce)
    ensures var w' := AfterStart(w, i, nonce, id);
      && w'.remote == w.remote && w'.owner == w.owner
      && (w.owner.Some? ==> w.owner.value in w'.caches && w'.caches[w.owner.value] == w.caches[w.owner.value])
  {
    RefusalShape(w, i, nonce, id);
  }

  lemma OwnerEventSimulates(w: World, e: Event, n: Node)
    requires Enabled(w, e) && IsOwners(e) && n == w.caches[e.i] && WellFormed(n.cache)
    ensures Next(w, e).owner == w.owner
    ensures DataView(Next(w, e).caches[e.i].cache) == Apply(DataView(n.cache), e)
  {
    match e
    case Store(_, k, p) => LocalWriteViews(n.cache, k, p);
    case Delete(_, k) => LocalWriteViews(n.cache, k, Blob([]));
    case PickNext(_, _) =>
    case SyncPicked(_, pick, putOk) => SyncViews(n.cache, w.remote, pick.key, pick.version, putOk);
    case FlushPicked(_, pick, putOk) => SyncKeyViews(n.cache, w.remote, pick.key, putOk);
    case LastFlush(_, k, putOk) => SyncKeyViews(n.cache, w.remote, k, putOk);
    case Release(_, putOk) => LockWriteViews(n.cache, w.remote, RELEASED, 0, putOk);
  }

  lemma SyncViews(c: Cache, r: Remote, k: Key, version: nat, putOk: bool)
    ensures DataView(SyncEntry(c, r, k, version, putOk).cache) == DataView(c)
  {}

  lemma SyncKeyViews(c: Cache, r: Remote, k: Key, putOk: bool)
    ensures DataView(SyncKey(c, r, k, putOk).cache) == DataView(c)
  {
    if k in c.outbox { SyncViews(c, r, k, c.outbox[k].version, putOk); }
  }

  lemma {:induction false} RunSimulates(w: World, es: seq<Event>, m: map<Key, Payload>)
    requires Holds(w, m) && IsRun(w, es) && CleanTakeovers(w, es)
    ensures Holds(After(w, es), Contents(m, es))
    decreases |es|
  {
    if es != [] {
      EventSimulates(w, es[0], m);
      RunSimulates(Next(w, es[0]), es[1..], Apply(m, es[0]));
    }
  }

  /**
    Through any run of any number of robots, with crashes, restarts, handovers
    and failed pushes, the robot that runs reads exactly the contents of one
    plain map to which every store and delete of every robot was applied in
    order, as long as no robot takes over from one that still had writes to
    push; and whenever the last owner has nothing pending, so does the remote.
   */
  lemma OneBrain(w0: World, es: seq<Event>)
    requires Initial(w0) && IsRun(w0, es) && CleanTakeovers(w0, es)
    ensures var w, m := After(w0, es), Contents(RemoteData(w0.remote), es);
      && (forall i :: Running(w, i) ==> DataView(w.caches[i].cache) == m)
      && (w.owner.Some? ==> w.owner.value in w.caches)
      && (w.owner.Some? && Pending(w.caches[w.owner.value].cache) == map[] ==> RemoteData(w.remote) == m)
  {
    var w, m := After(w0, es), Contents(RemoteData(w0.remote), es);
    InitialInv(w0);
    RunSimulates(w0, es, RemoteData(w0.remote));
    forall i | Running(w, i) ensures DataView(w.caches[i].cache) == m { RunningIsOwner(w, i); }
    if w.owner.Some? && Pending(w.caches[w.owner.value].cache) == map[] {
      FlushedViews(w.caches[w.owner.value], w.remote);
    }
  }

  // ---- when a handover loses writes ----

  /** Both caches hold the same record for `k`, or neither does. */
  ghost predicate SameRecord(a: Cache, b: Cache, k: Key) {
    && (k in a.metas <==> k in b.metas)
    && (k in a.metas ==> a.metas[k] == b.metas[k] && (k in a.payloads <==> k in b.payloads))
    && (k in a.payloads && k in b.payloads ==> a.payloads[k] == b.payloads[k])
  }

  /**
    Right after a release, remote and cache agree on every key exactly when nothing was
    pending and the lock was written.
   */
  lemma ReleaseAgreesExactly(w: World, i: nat, putOk: bool)
    requires Reachable(w) && Enabled(w, Release(i, putOk))
    ensures var w' := Next(w, Release(i, putOk));
      AgreesOnAll(w'.caches[i].cache, w'.remote) <==> putOk && w.caches[i].cache.outbox == map[]
  {
    ReachableInv(w);
    RunningIsOwner(w, i);
    ReleaseShape(w, i, putOk);
    if putOk { ReleasedAgrees(w.caches[i], w.remote); } else { UnreleasedDisagrees(w.caches[i], w.remote); }
  }

  ghost predicate AgreesOnAll(c: Cache, r: Remote) {
    forall k :: Agree(c, r, k)
  }

  lemma ReleasedAgrees(n: Node, r: Remote)
    requires OwnerOK(n, r) && n.phase == Up
    ensures var s := LockWritten(n.cache, r, RELEASED, 0, true);
      AgreesOnAll(s.cache, s.remote) <==> n.cache.outbox == map[]
  {
    var s := LockWritten(n.cache, r, RELEASED, 0, true);
    ReleaseKeepsOwner(n, r);
    LockWriteShape(n.cache, r, RELEASED, 0);
    assert Pending(n.cache) == n.cache.outbox;
    if k :| k in n.cache.outbox { PendingDisagrees(Node(s.cache, Ending, {}), s.remote, k); }
    else { assert n.cache.outbox.Keys == {}; }
  }

  lemma UnreleasedDisagrees(n: Node, r: Remote)
    requires OwnerOK(n, r) && n.phase == Up
    ensures var s := LockWritten(n.cache, r, RELEASED, 0, false); !AgreesOnAll(s.cache, s.remote)
  {
    var s := LockWritten(n.cache, r, RELEASED, 0, false);
    FailedReleaseKeepsOwner(n, r);
    FailedLockWriteShape(n.cache, r, RELEASED, 0);
    LockStoredShape(n.cache, RELEASED, 0);
    PendingDisagrees(Node(s.cache, Ending, {}), s.remote, LOCK_KEY);
  }

  lemma PendingDisagrees(n: Node, r: Remote, k: Key)
    requires OwnerOK(n, r) && k in n.cache.outbox
    ensures !Agree(n.cache, r, k)
  {
    if k != LOCK_KEY { assert k in Pending(n.cache); }
  }

  /** A robot taking over holds every data record of the last owner exactly when that had none pending. */
  lemma TakeoverReadsExactly(w: World, i: nat, nonce: Id, id: Id)
    requires Reachable(w) && CanStart(w, i, nonce, id) && StartSucceeds(w, i, nonce)
    requires w.owner.Some? && w.owner != Some(i)
    ensures w.owner.value in w.caches
    ensures var c, o := Opened(w, i, nonce).value, w.caches[w.owner.value].cache;
      (forall k :: k != LOCK_KEY ==> SameRecord(c, o, k)) <==> Pending(o) == map[]
  {
    ReachableInv(w);
    StarterReady(w, i, nonce);
    var c, n := Opened(w, i, nonce).value, w.caches[w.owner.value];
    if Pending(n.cache) == map[] {
      forall k | k != LOCK_KEY ensures SameRecord(c, n.cache, k) {
        assert k !in Pending(n.cache);
        BothAgree(c, n.cache, w.remote, k);
      }
    } else {
      var k :| k in Pending(n.cache);
      assert Agree(c, w.remote, k);
      assert !SameRecord(c, n.cache, k);
    }
  }

  lemma BothAgree(a: Cache, b: Cache, r: Remote, k: Key)
    requires WellFormed(a) && WellFormed(b) && Agree(a, r, k) && Agree(b, r, k)
    ensures SameRecord(a, b, k)
  {}

  /** Every release of the run comes after a flush that left nothing pending, as a shutdown intends. */
  ghost predicate CleanReleases(w: World, es: seq<Event>)
    requires IsRun(w, es)
    decreases |es|
  {
    es == [] || ((es[0].Release? ==> w.caches[es[0].i].cache.outbox == map[]) && CleanReleases(Next(w, es[0]), es[1..]))
  }

  ghost predicate ReleasedIsClean(w: World) {
    Inv(w) && EndsClean(w)
  }

  /** Once the last owner has released the lock, or has failed to, it has no data pending. */
  ghost predicate EndsClean(w: World) {
    w.owner.Some? ==>
      && w.owner.value in w.caches && HasLock(w.remote)
      && var n := w.caches[w.owner.value];
      LockOf(w.remote).state == RELEASED || n.phase == Ending ==> Pending(n.cache) == map[]
  }

  lemma EventKeepsReleasedClean(w: World, e: Event)
    requires ReleasedIsClean(w) && Enabled(w, e)
    requires e.Release? ==> w.caches[e.i].cache.outbox == map[]
    ensures ReleasedIsClean(Next(w, e))
  {
    EventKeepsInv(w, e);
    EventEndsClean(w, e);
  }

  lemma EventEndsClean(w: World, e: Event)
    requires ReleasedIsClean(w) && Enabled(w, e)
    requires e.Release? ==> w.caches[e.i].cache.outbox == map[]
    ensures EndsClean(Next(w, e))
  {
    match e
    case Start(i, nonce, id) => StartKeepsClean(w, i, nonce, id);
    case FailedStart(i, nonce, id) => FailedStartKeepsClean(w, i, nonce, id);
    case Exit(i) => ExitKeepsClean(w, i);
    case _ => ActorKeepsClean(w, e);
  }

  lemma ExitKeepsClean(w: World, i: nat)
    requires ReleasedIsClean(w) && Enabled(w, Exit(i))
    ensures EndsClean(Next(w, Exit(i)))
  {}

  lemma ActorKeepsClean(w: World, e: Event)
    requires ReleasedIsClean(w) && Enabled(w, e) && IsOwners(e)
    requires e.Release? ==> w.caches[e.i].cache.outbox == map[]
    ensures EndsClean(Next(w, e))
  {
    ActorIsOwner(w, e);
    OwnerEventKeepsClean(w, e, w.caches[e.i]);
  }

  lemma StartKeepsClean(w: World, i: nat, nonce: Id, id: Id)
    requires ReleasedIsClean(w) && CanStart(w, i, nonce, id)
    ensures EndsClean(AfterStart(w, i, nonce, id))
  {
    if StartSucceeds(w, i, nonce) {
      StarterReady(w, i, nonce);
      LockWriteMakesOwner(Opened(w, i, nonce).value, w.remote, id);
    } else {
      RefusalKeepsOwner(w, i, nonce, id);
    }
  }

  lemma FailedStartKeepsClean(w: World, i: nat, nonce: Id, id: Id)
    requires ReleasedIsClean(w) && CanStart(w, i, nonce, id) && StartSucceeds(w, i, nonce)
    ensures EndsClean(AfterFailedStart(w, i, nonce, id))
  {
    FailedStartShape(w, i, nonce, id);
    StarterReady(w, i, nonce);
    FailedWriteKeepsReady(Opened(w, i, nonce).value, w.remote, HELD, id);
  }

  lemma OwnerEventKeepsClean(w: World, e: Event, n: Node)
    requires Enabled(w, e) && IsOwners(e) && e.i in w.caches && n == w.caches[e.i] && OwnerOK(n, w.remote)
    requires e.Release? ==> n.cache.outbox == map[]
    requires n.phase == Ending ==> Pending(n.cache) == map[]
    ensures HasLock(Next(w, e).remote) && Next(w, e).owner == w.owner
    ensures var n' := Next(w, e).caches[e.i];
      LockOf(Next(w, e).remote).state == RELEASED || n'.phase == Ending ==> Pending(n'.cache) == map[]
  {
    var r := w.remote;
    match e
    case SyncPicked(_, pick, putOk) => SyncIsPushOfNext(n, r, pick, putOk);
    case FlushPicked(_, pick, putOk) => FlushIsPush(n.cache, r, pick.key, putOk);
    case Release(_, putOk) => CleanRelease(n, r, putOk);
    case LastFlush(_, k, putOk) => CleanLastFlush(n, r, k, putOk);
    case _ =>
  }

  lemma CleanRelease(n: Node, r: Remote, putOk: bool)
    requires OwnerOK(n, r) && n.phase == Up && n.cache.outbox == map[]
    ensures var s := LockWritten(n.cache, r, RELEASED, 0, putOk); HasLock(s.remote) && Pending(s.cache) == map[]
  {
    ReleaseKeepsOwner(n, r);
    LockWriteShape(n.cache, r, RELEASED, 0);
    FailedReleaseKeepsOwner(n, r);
    FailedLockWriteShape(n.cache, r, RELEASED, 0);
  }

  lemma CleanLastFlush(n: Node, r: Remote, k: Key, putOk: bool)
    requires OwnerOK(n, r) && n.phase == Ending && Pending(n.cache) == map[]
    ensures var s := SyncKey(n.cache, r, k, putOk); HasLock(s.remote) && Pending(s.cache) == map[]
  {
    FlushIsPush(n.cache, r, k, putOk);
    if k in n.cache.outbox {
      assert k == LOCK_KEY by { assert k !in Pending(n.cache); }
      LatePushOfLock(n, r);
    }
  }

  /** When every release follows a complete flush, no takeover loses a write. */
  lemma {:induction false} CleanReleasesSuffice(w: World, es: seq<Event>)
    requires ReleasedIsClean(w) && IsRun(w, es) && CleanReleases(w, es)
    ensures CleanTakeovers(w, es)
    decreases |es|
  {
    if es != [] {
      var e := es[0];
      if e.Start? && w.owner.Some? && w.owner != Some(e.i) && StartSucceeds(w, e.i, e.nonce) {
        StarterReady(w, e.i, e.nonce);
      }
      EventKeepsReleasedClean(w, e);
      CleanReleasesSuffice(Next(w, e), es[1..]);
    }
  }
}
