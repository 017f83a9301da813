/**
  A stopping robot flushes once more after it has released the lock.  That is
  harmless until another robot has taken over; this is what exactly a later
  push of its breaks.
 */
module BrainLatePush {
  import opened Options
  import opened BrainModel
  import opened BrainProtocol
  import opened BrainTheorems
  import opened BrainLimits

  /** The data a cache that lost the lock still has pending is older than the owner's, and not in the remote. */
  ghost predicate LeftBehind(c: Cache, o: Cache, r: Remote) {
    && (c.outbox == map[] || WellFormed(c))
    && forall k :: k in Pending(c) ==>
         && (k in r ==> r[k].version != c.outbox[k].version)
         && c.outbox[k].version <= DatabaseVersion(o, r)
         && forall j :: j in Pending(o) ==> c.outbox[k].version < o.outbox[j].version
  }

  ghost predicate OthersBehind(w: World) {
    Inv(w) && AllBehind(w)
  }

  ghost predicate AllBehind(w: World) {
    forall i :: i in w.caches && w.owner != Some(i) ==> Behind(w, i)
  }

  ghost predicate Behind(w: World, i: nat)
    requires i in w.caches
  {
    if w.owner.None? then Pending(w.caches[i].cache) == map[]
    else w.owner.value in w.caches && LeftBehind(w.caches[i].cache, w.caches[w.owner.value].cache, w.remote)
  }

  /** The owner writes locally: its database version moves up. */
  lemma LocalWriteKeepsBehind(x: Cache, n: Node, c': Cache, r: Remote, k: Key)
    requires OwnerOK(n, r) && n.phase == Up && LeftBehind(x, n.cache, r) && k != LOCK_KEY
    requires k in c'.outbox && c'.outbox == n.cache.outbox[k := c'.outbox[k]]
    requires c'.outbox[k].version == n.cache.control.nextVersion
    requires c'.control == n.cache.control.(nextVersion := n.cache.control.nextVersion + 1)
    ensures LeftBehind(x, c', r)
  {
    assert DatabaseVersion(n.cache, r) < DatabaseVersion(c', r) == n.cache.control.nextVersion;
    forall j | j in Pending(c') && j != k ensures j in Pending(n.cache) && c'.outbox[j] == n.cache.outbox[j] {}
  }

  lemma PushKeepsBehind(x: Cache, n: Node, r: Remote, k: Key)
    requires OwnerOK(n, r) && LeftBehind(x, n.cache, r) && k in Pending(n.cache)
    requires DatabaseVersion(Pushed(n.cache, k), r[k := Outgoing(n.cache, k)]) == DatabaseVersion(n.cache, r)
    ensures LeftBehind(x, Pushed(n.cache, k), r[k := Outgoing(n.cache, k)])
  {}

  /** A lock record is written, or left pending, by a cache that keeps the old owner's pending data or has none. */
  lemma LockWriteKeepsBehind(x: Cache, o: Cache, r: Remote, o': Cache, r': Remote)
    requires LeftBehind(x, o, r)
    requires forall k :: k != LOCK_KEY ==> (k in r <==> k in r') && (k in r ==> r[k] == r'[k])
    requires DatabaseVersion(o, r) <= DatabaseVersion(o', r')
    requires Pending(o') == map[] || Pending(o') == Pending(o)
    ensures LeftBehind(x, o', r')
  {
    forall j | j in Pending(o') ensures j in Pending(o) && o'.outbox[j] == o.outbox[j] {
      assert Pending(o')[j] == Pending(o)[j];
    }
  }

  lemma OwnerEventKeepsBehind(w: World, e: Event, n: Node, x: Cache)
    requires Enabled(w, e) && IsOwners(e) && e.i in w.caches && n == w.caches[e.i] && OwnerOK(n, w.remote)
    requires LeftBehind(x, n.cache, w.remote)
    ensures LeftBehind(x, Next(w, e).caches[e.i].cache, Next(w, e).remote)
  {
    var r := w.remote;
    match e
    case Store(_, k, p) => LocalWriteKeepsBehind(x, n, Stored(n.cache, k, p), r, k);
    case Delete(_, k) => LocalWriteKeepsBehind(x, n, Removed(n.cache, k), r, k);
    case PickNext(_, _) =>
    case SyncPicked(_, pick, putOk) =>
      SyncIsPushOfNext(n, r, pick, putOk);
      if IsNext(n.cache, pick.key) {
        NextMayBePushed(n.cache, pick.key);
        PushKeepsOwner(n, r, pick.key);
        PushKeepsBehind(x, n, r, pick.key);
      }
    case FlushPicked(_, pick, putOk) =>
      FlushIsPush(n.cache, r, pick.key, putOk);
      if pick.key in n.cache.outbox {
        PushKeepsOwner(n, r, pick.key);
        PushKeepsBehind(x, n, r, pick.key);
      }
    case Release(_, putOk) => ReleaseKeepsBehind(x, n, r, putOk);
    case LastFlush(_, k, putOk) => LastFlushKeepsBehind(x, n, r, k, putOk);
  }

  lemma ReleaseKeepsBehind(x: Cache, n: Node, r: Remote, putOk: bool)
    requires OwnerOK(n, r) && n.phase == Up && LeftBehind(x, n.cache, r)
    ensures var s := LockWritten(n.cache, r, RELEASED, 0, putOk); LeftBehind(x, s.cache, s.remote)
  {
    if putOk { WrittenReleaseKeepsBehind(x, n, r); } else { FailedReleaseKeepsBehind(x, n, r); }
  }

  lemma WrittenReleaseKeepsBehind(x: Cache, n: Node, r: Remote)
    requires OwnerOK(n, r) && n.phase == Up && LeftBehind(x, n.cache, r)
    ensures var s := LockWritten(n.cache, r, RELEASED, 0, true); LeftBehind(x, s.cache, s.remote)
  {
    var s := LockWritten(n.cache, r, RELEASED, 0, true);
    ReleaseKeepsOwner(n, r);
    LockWriteShape(n.cache, r, RELEASED, 0);
    PendingOf(s.cache, n.cache);
    LockWriteKeepsBehind(x, n.cache, r, s.cache, s.remote);
  }

  lemma FailedReleaseKeepsBehind(x: Cache, n: Node, r: Remote)
    requires OwnerOK(n, r) && n.phase == Up && LeftBehind(x, n.cache, r)
    ensures var s := LockWritten(n.cache, r, RELEASED, 0, false); LeftBehind(x, s.cache, s.remote)
  {
    var s := LockWritten(n.cache, r, RELEASED, 0, false);
    FailedReleaseKeepsOwner(n, r);
    FailedLockWriteShape(n.cache, r, RELEASED, 0);
    LockWriteKeepsBehind(x, n.cache, r, s.cache, s.remote);
  }

  lemma LastFlushKeepsBehind(x: Cache, n: Node, r: Remote, k: Key, putOk: bool)
    requires OwnerOK(n, r) && n.phase == Ending && LeftBehind(x, n.cache, r)
    requires k in n.cache.outbox ==> IsNext(n.cache, k)
    ensures var s := SyncKey(n.cache, r, k, putOk); LeftBehind(x, s.cache, s.remote)
  {
    FlushIsPush(n.cache, r, k, putOk);
    if k in n.cache.outbox && putOk {
      if k == LOCK_KEY {
        LatePushOfLock(n, r);
        LockWriteKeepsBehind(x, n.cache, r, Pushed(n.cache, k), r[k := Outgoing(n.cache, k)]);
      } else {
        EndingMayPush(n, r, k);
        PushKeepsOwner(n, r, k);
        PushKeepsBehind(x, n, r, k);
      }
    }
  }

  /** The previous owner, once another robot has taken over. */
  lemma OwnerLeftBehind(n: Node, r: Remote, o': Cache, r': Remote)
    requires OwnerOK(n, r) && LockOf(r).state == RELEASED
    requires forall k :: k != LOCK_KEY ==> (k in r <==> k in r') && (k in r ==> r[k] == r'[k])
    requires LockOf(r).databaseVersion <= DatabaseVersion(o', r') && Pending(o') == map[]
    ensures LeftBehind(n.cache, o', r')
  {}

  lemma StartKeepsBehind(w: World, i: nat, nonce: Id, id: Id, j: nat)
    requires OthersBehind(w) && CanStart(w, i, nonce, id) && StartSucceeds(w, i, nonce)
    requires j in w.caches && j != i
    ensures var s := LockWritten(Opened(w, i, nonce).value, w.remote, HELD, id, true);
      LeftBehind(w.caches[j].cache, s.cache, s.remote)
  {
    if w.owner.None? {
      assert Pending(w.caches[j].cache) == map[];
      assert BystanderOK(w.caches[j], w.remote);
    } else {
      LaterStartKeepsBehind(w, i, nonce, id, j);
    }
  }

  lemma LaterStartKeepsBehind(w: World, i: nat, nonce: Id, id: Id, j: nat)
    requires OthersBehind(w) && w.owner.Some? && CanStart(w, i, nonce, id) && StartSucceeds(w, i, nonce)
    requires j in w.caches && j != i
    ensures var s := LockWritten(Opened(w, i, nonce).value, w.remote, HELD, id, true);
      LeftBehind(w.caches[j].cache, s.cache, s.remote)
  {
    var n, s := w.caches[w.owner.value], LockWritten(Opened(w, i, nonce).value, w.remote, HELD, id, true);
    NewOwnerAhead(w, i, nonce, id);
    if w.owner == Some(j) {
      OwnerLeftBehind(n, w.remote, s.cache, s.remote);
    } else {
      assert Behind(w, j);
      LockWriteKeepsBehind(w.caches[j].cache, n.cache, w.remote, s.cache, s.remote);
    }
  }

  lemma NewOwnerAhead(w: World, i: nat, nonce: Id, id: Id)
    requires Inv(w) && w.owner.Some? && CanStart(w, i, nonce, id) && StartSucceeds(w, i, nonce)
    ensures var n, s := w.caches[w.owner.value], LockWritten(Opened(w, i, nonce).value, w.remote, HELD, id, true);
      && (forall k :: k != LOCK_KEY ==>
            (k in w.remote <==> k in s.remote) && (k in w.remote ==> w.remote[k] == s.remote[k]))
      && DatabaseVersion(n.cache, w.remote) < DatabaseVersion(s.cache, s.remote)
      && Pending(s.cache) == (if w.owner == Some(i) then Pending(n.cache) else map[])
      && (w.owner != Some(i) ==> LockOf(w.remote).state == RELEASED)
  {
    StarterReady(w, i, nonce);
    LockWriteAhead(Opened(w, i, nonce).value, w.remote, id);
  }

  lemma LockWriteAhead(c: Cache, r: Remote, id: Id)
    requires ReadyToLock(c, r)
    ensures var s := LockWritten(c, r, HELD, id, true);
      && (forall k :: k != LOCK_KEY ==> (k in r <==> k in s.remote) && (k in r ==> r[k] == s.remote[k]))
      && LatestVersion(c) < DatabaseVersion(s.cache, s.remote)
      && Pending(s.cache) == Pending(c)
  {
    var s := LockWritten(c, r, HELD, id, true);
    LockWriteMakesOwner(c, r, id);
    PendingOf(s.cache, c);
    assert DatabaseVersion(s.cache, s.remote) == c.control.nextVersion;
  }

  lemma PendingOf(c': Cache, c: Cache)
    requires c'.outbox == Pending(c)
    ensures Pending(c') == Pending(c)
  {}

  lemma StartEventKeepsBehind(w: World, i: nat, nonce: Id, id: Id)
    requires OthersBehind(w) && CanStart(w, i, nonce, id)
    ensures AllBehind(AfterStart(w, i, nonce, id))
  {
    var w' := AfterStart(w, i, nonce, id);
    if StartSucceeds(w, i, nonce) {
      forall j | j in w'.caches && j != i ensures Behind(w', j) {
        StartKeepsBehind(w, i, nonce, id, j);
      }
    } else {
      forall j | j in w'.caches && w.owner != Some(j) ensures Behind(w', j) {
        RefusedStartKeepsBehind(w, i, nonce, id, j);
      }
    }
  }

  lemma RefusedStartKeepsBehind(w: World, i: nat, nonce: Id, id: Id, j: nat)
    requires OthersBehind(w) && CanStart(w, i, nonce, id) && !StartSucceeds(w, i, nonce)
    requires j in AfterStart(w, i, nonce, id).caches && w.owner != Some(j)
    ensures Behind(AfterStart(w, i, nonce, id), j)
  {
    RefusalShape(w, i, nonce, id);
    if j in w.caches { assert Behind(w, j); }
  }

  lemma FailedStartKeepsBehind(w: World, i: nat, nonce: Id, id: Id)
    requires OthersBehind(w) && CanStart(w, i, nonce, id) && StartSucceeds(w, i, nonce)
    ensures AllBehind(AfterFailedStart(w, i, nonce, id))
  {
    FailedStartShape(w, i, nonce, id);
    var w' := AfterFailedStart(w, i, nonce, id);
    forall j | j in w'.caches && w.owner != Some(j) ensures Behind(w', j) {
      if w.owner == Some(i) { OwnFailureKeepsBehind(w, i, nonce, id, j); }
      else { OtherFailureKeepsBehind(w, i, nonce, id, j); }
    }
  }

  lemma OwnFailureKeepsBehind(w: World, i: nat, nonce: Id, id: Id, j: nat)
    requires OthersBehind(w) && CanStart(w, i, nonce, id) && StartSucceeds(w, i, nonce)
    requires w.owner == Some(i) && j in w.caches && j != i
    ensures Behind(AfterFailedStart(w, i, nonce, id), j)
  {
    FailedStartShape(w, i, nonce, id);
    var o, w' := w.caches[i], AfterFailedStart(w, i, nonce, id);
    assert Behind(w, j);
    FailedStartKeepsOwner(o, w.remote, id);
    LockWriteKeepsBehind(w.caches[j].cache, o.cache, w.remote, w'.caches[i].cache, w.remote);
  }

  lemma OtherFailureKeepsBehind(w: World, i: nat, nonce: Id, id: Id, j: nat)
    requires OthersBehind(w) && CanStart(w, i, nonce, id) && StartSucceeds(w, i, nonce)
    requires w.owner != Some(i) && j in AfterFailedStart(w, i, nonce, id).caches && w.owner != Some(j)
    ensures Behind(AfterFailedStart(w, i, nonce, id), j)
  {
    FailedStartShape(w, i, nonce, id);
    if j == i {
      StarterReady(w, i, nonce);
      FailedWriteKeepsReady(Opened(w, i, nonce).value, w.remote, HELD, id);
    } else {
      assert Behind(w, j);
    }
  }

  lemma EventKeepsBehind(w: World, e: Event)
    requires OthersBehind(w) && Enabled(w, e)
    ensures OthersBehind(Next(w, e))
  {
    EventKeepsInv(w, e);
    EventLeavesBehind(w, e);
  }

  lemma EventLeavesBehind(w: World, e: Event)
    requires OthersBehind(w) && Enabled(w, e)
    ensures AllBehind(Next(w, e))
  {
    match e
    case Start(i, nonce, id) => StartEventKeepsBehind(w, i, nonce, id);
    case FailedStart(i, nonce, id) => FailedStartKeepsBehind(w, i, nonce, id);
    case Exit(i) => ExitKeepsBehind(w, i);
    case _ => OwnerEventLeavesBehind(w, e);
  }

  lemma ExitKeepsBehind(w: World, i: nat)
    requires OthersBehind(w) && Enabled(w, Exit(i))
    ensures AllBehind(Next(w, Exit(i)))
  {
    var w' := Next(w, Exit(i));
    forall j | j in w'.caches && w.owner != Some(j) ensures Behind(w', j) { assert Behind(w, j); }
  }

  lemma OwnerEventLeavesBehind(w: World, e: Event)
    requires OthersBehind(w) && Enabled(w, e) && IsOwners(e)
    ensures AllBehind(Next(w, e))
  {
    ActorIsOwner(w, e);
    OthersUntouched(w, e);
    forall j | j in Next(w, e).caches && j != e.i ensures Behind(Next(w, e), j) { OwnerKeepsBehind(w, e, j); }
  }

  lemma OwnerKeepsBehind(w: World, e: Event, j: nat)
    requires OthersBehind(w) && Enabled(w, e) && IsOwners(e) && j in w.caches && j != e.i
    ensures j in Next(w, e).caches && Next(w, e).owner == Some(e.i) && e.i in Next(w, e).caches
    ensures Behind(Next(w, e), j)
  {
    ActorIsOwner(w, e);
    OthersUntouched(w, e);
    assert Behind(w, j);
    OwnerEventKeepsBehind(w, e, w.caches[e.i], w.caches[j].cache);
  }

  lemma {:induction false} RunKeepsBehind(w: World, es: seq<Event>)
    requires OthersBehind(w) && IsRun(w, es)
    ensures OthersBehind(After(w, es))
    decreases |es|
  {
    if es != [] {
      EventKeepsBehind(w, es[0]);
      RunKeepsBehind(Next(w, es[0]), es[1..]);
    }
  }

  lemma ReachableBehind(w: World)
    requires Reachable(w)
    ensures OthersBehind(w)
  {
    var w0, es :| Initial(w0) && IsRun(w0, es) && After(w0, es) == w;
    InitialInv(w0);
    RunKeepsBehind(w0, es);
  }

  /**
    A push of data by another robot than the last owner of the lock: the owner
    stays up to date exactly when it has a write of its own pending for the key;
    its own next start passes exactly when it would have passed before and the
    key is neither its checkpoint's nor that of its last cloud write; and the
    remote keeps its versions from falling exactly when it had none as new.
   */
  lemma LatePushExactly(w: World, o: nat, i: nat, k: Key, nonce: Id)
    requires Reachable(w) && w.owner == Some(o) && i != o
    requires i in w.caches && k in Pending(w.caches[i].cache)
    ensures o in w.caches && o in FlushStep(w, i, k).caches
    ensures UpToDate(FlushStep(w, i, k), o) <==> k in w.caches[o].cache.outbox
    ensures StartSucceeds(FlushStep(w, i, k), o, nonce) <==>
              StartSucceeds(w, o, nonce) && !Names(w.caches[o].cache.control, k)
    ensures Grows(w.remote, FlushStep(w, i, k).remote) <==>
              (k in w.remote ==> w.remote[k].version < w.caches[i].cache.outbox[k].version)
  {
    ReachableBehind(w);
    assert Behind(w, i);
    OwnerAgrees(w.caches[o], w.remote);
    FlushShape(w, i, k);
    ForeignPush(w.caches[o].cache, w.caches[i].cache, w.remote, k);
    ForeignPushAndChecks(w.caches[o].cache, w.caches[i].cache, w.remote, k);
    ForeignPushAndGrowth(w.caches[i].cache, w.remote, k);
  }

  lemma FlushShape(w: World, i: nat, k: Key)
    requires i in w.caches && WellFormed(w.caches[i].cache) && k in w.caches[i].cache.outbox
    ensures var w', c := FlushStep(w, i, k), w.caches[i].cache;
      && w'.remote == w.remote[k := Outgoing(c, k)] && w'.owner == w.owner && w'.used == w.used
      && w'.caches == w.caches[i := w.caches[i].(cache := Pushed(c, k))]
  {
    FlushIsPush(w.caches[i].cache, w.remote, k, true);
  }

  /** The control record names `k`, in its checkpoint or as its last cloud write. */
  predicate Names(control: Control, k: Key) {
    || (control.checkpoint.Some? && control.checkpoint.value.key == k)
    || (control.lastCloudWrite.Some? && control.lastCloudWrite.value.key == k)
  }

  lemma OwnerAgrees(n: Node, r: Remote)
    requires OwnerOK(n, r)
    ensures forall j :: j !in n.cache.outbox ==> Agree(n.cache, r, j)
    ensures CheckpointHolds(n.cache, r) && LastCloudWriteHolds(n.cache, r)
  {}

  /** The last owner of the lock may push what it has pending at any time. */
  lemma OwnLatePush(w: World, o: nat, k: Key)
    requires Reachable(w) && w.owner == Some(o) && o in w.caches && k in Pending(w.caches[o].cache)
    ensures UpToDate(FlushStep(w, o, k), o)
  {
    ReachableInv(w);
    var c := w.caches[o].cache;
    OwnerAgrees(w.caches[o], w.remote);
    FlushIsPush(c, w.remote, k, true);
    PushKeepsAgreement(c, w.remote, k);
  }

  /** Another cache's record under `k` spoils the agreement on `k`, and on nothing else. */
  lemma ForeignPush(o: Cache, c: Cache, r: Remote, k: Key)
    requires forall j :: j !in o.outbox ==> Agree(o, r, j)
    requires WellFormed(c) && k in c.outbox && (k in r ==> r[k].version != c.outbox[k].version)
    ensures (forall j :: j !in o.outbox ==> Agree(o, r[k := Outgoing(c, k)], j)) <==> k in o.outbox
  {
    var r' := r[k := Outgoing(c, k)];
    assert k !in o.outbox ==> Agree(o, r, k) && !Agree(o, r', k);
    forall j | j !in o.outbox && j != k ensures Agree(o, r', j) { assert Agree(o, r, j); }
  }

  /** What the checks of a start make of another cache's record under `k`. */
  lemma ForeignPushAndChecks(o: Cache, c: Cache, r: Remote, k: Key)
    requires CheckpointHolds(o, r) && LastCloudWriteHolds(o, r)
    requires WellFormed(c) && k in Pending(c) && (k in r ==> r[k].version != c.outbox[k].version)
    ensures var r' := r[k := Outgoing(c, k)];
      && (CheckpointHolds(o, r') && LastCloudWriteHolds(o, r') <==> !Names(o.control, k))
      && (LockAllows(o, r') <==> LockAllows(o, r))
  {}

  lemma ForeignPushAndGrowth(c: Cache, r: Remote, k: Key)
    requires WellFormed(c) && k in Pending(c) && (k in r ==> r[k].version != c.outbox[k].version)
    ensures Grows(r, r[k := Outgoing(c, k)]) <==> (k in r ==> r[k].version < c.outbox[k].version)
  {}

  // ---- runs that get there ----

  /** Robot `i` still has data under `k` to push although robot `m` now runs with nothing pending. */
  ghost predicate TakenOver(w: World, i: nat, m: nat, k: Key) {
    && w.owner == Some(m) && m != i && Running(w, m) && w.caches[m].cache.outbox == map[]
    && i in w.caches && k in Pending(w.caches[i].cache)
  }

  /** Release with `k` pending, and let a new robot start. */
  lemma ReleaseAndTakeOver(w: World, i: nat, k: Key) returns (es: seq<Event>, m: nat)
    requires Reachable(w) && Running(w, i) && k in Pending(w.caches[i].cache)
    ensures IsRun(w, es) && TakenOver(After(w, es), i, m, k)
  {
    var a := FreshIds(w.used);
    m := FreshNat(w.caches.Keys);
    ReachableInv(w);
    NewRobotAfterRelease(w, i, k, m, a);
    es := Extend(w, [], w, Release(i, true));
    es := Extend(w, es, Next(w, Release(i, true)), Start(m, a, a + 1));
  }

  lemma NewRobotAfterRelease(w: World, i: nat, k: Key, m: nat, a: Id)
    requires Inv(w) && Running(w, i) && k in Pending(w.caches[i].cache)
    requires m !in w.caches && a !in w.used && a + 1 !in w.used
    ensures Enabled(w, Release(i, true)) && Enabled(Next(w, Release(i, true)), Start(m, a, a + 1))
    ensures TakenOver(Next(Next(w, Release(i, true)), Start(m, a, a + 1)), i, m, k)
  {
    var w1 := Next(w, Release(i, true));
    RunningIsOwner(w, i);
    ReleasedWithPending(w, i, k);
    EventKeepsInv(w, Release(i, true));
    NewDirectoryTakesOver(w1, m, a);
    NewRobotRuns(w1, i, m, a, a + 1, k);
  }

  lemma ReleasedWithPending(w: World, i: nat, k: Key)
    requires Running(w, i) && w.owner == Some(i) && OwnerOK(w.caches[i], w.remote) && k in Pending(w.caches[i].cache)
    ensures var w1 := Next(w, Release(i, true));
      && w1.owner == Some(i) && w1.caches.Keys == w.caches.Keys && w1.used == w.used
      && HasLock(w1.remote) && LockOf(w1.remote).state == RELEASED
      && k in Pending(w1.caches[i].cache)
  {
    ReleaseShape(w, i, true);
    ReleaseKeepsOwner(w.caches[i], w.remote);
    LockWriteShape(w.caches[i].cache, w.remote, RELEASED, 0);
  }

  lemma NewRobotRuns(w: World, i: nat, m: nat, nonce: Id, id: Id, k: Key)
    requires i in w.caches && k in Pending(w.caches[i].cache)
    requires m !in w.caches && CanStart(w, m, nonce, id) && StartSucceeds(w, m, nonce)
    ensures TakenOver(Next(w, Start(m, nonce, id)), i, m, k)
  {
    HydratedReady(w.remote, nonce);
    LockWriteMakesOwner(Hydrated(w.remote, nonce), w.remote, id);
    PendingOf(LockWritten(Hydrated(w.remote, nonce), w.remote, HELD, id, true).cache, Hydrated(w.remote, nonce));
  }

  /** The new robot stores and pushes `k`, which becomes its checkpoint, and stores it again. */
  lemma StoreTwice(w0: World, before: seq<Event>, i: nat, m: nat, k: Key, p: Payload) returns (es: seq<Event>)
    requires IsRun(w0, before) && Inv(After(w0, before)) && TakenOver(After(w0, before), i, m, k)
    ensures IsRun(w0, es)
    ensures var w := After(w0, es);
      && w.owner == Some(m) && m in w.caches && i in w.caches && k in Pending(w.caches[i].cache)
      && k in w.caches[m].cache.outbox && Names(w.caches[m].cache.control, k)
  {
    var w := After(w0, before);
    RunningIsOwner(w, m);
    es := StoreTwiceFrom(w0, before, w, i, m, k, p);
  }

  lemma StoreTwiceFrom(w0: World, before: seq<Event>, w: World, i: nat, m: nat, k: Key, p: Payload)
    returns (es: seq<Event>)
    requires IsRun(w0, before) && After(w0, before) == w && TakenOver(w, i, m, k)
    requires WellFormed(w.caches[m].cache)
    requires CheckpointVersion(w.caches[m].cache.control) <= w.caches[m].cache.control.nextVersion
    ensures IsRun(w0, es)
    ensures var w := After(w0, es);
      && w.owner == Some(m) && m in w.caches && i in w.caches && k in Pending(w.caches[i].cache)
      && k in w.caches[m].cache.outbox && Names(w.caches[m].cache.control, k)
  {
    var w1 := Next(w, Store(m, k, p));
    es := Extend(w0, before, w, Store(m, k, p));
    OneStored(w.caches[m].cache, k, p);
    PickAndSync(w1, m, k);
    es := Extend(w0, es, w1, PickNext(m, k));
    var pick := Pick(k, w1.caches[m].cache.outbox[k].version);
    es := Extend(w0, es, Next(w1, PickNext(m, k)), SyncPicked(m, pick, true));
    es := Extend(w0, es, WithNext(w1, m, k), Store(m, k, p));
  }

  lemma OneStored(c: Cache, k: Key, p: Payload)
    requires WellFormed(c) && c.outbox == map[] && CheckpointVersion(c.control) <= c.control.nextVersion
    ensures var c1 := Stored(c, k, p);
      && WellFormed(c1) && IsNext(c1, k)
      && Names(Pushed(c1, k).control, k)
  {
    StoredWellFormed(c, k, p);
  }

  /**
    From every reachable world in which a robot runs with data pending, some run
    leads to a push that puts the new owner at odds with the remote, and some run
    to one that leaves it up to date but keeps it from ever starting again.
   */
  lemma LatePushHappens(w: World, i: nat, k: Key, p: Payload) returns (m: nat, first: seq<Event>, second: seq<Event>)
    requires Reachable(w) && Running(w, i) && k in Pending(w.caches[i].cache)
    ensures IsRun(w, first) && IsRun(w, second)
    ensures Breaks(After(w, first), i, m, k, false) && Breaks(After(w, second), i, m, k, true)
  {
    first, m := ReleaseAndTakeOver(w, i, k);
    ReachableInv(w);
    RunKeepsInv(w, first);
    second := StoreTwice(w, first, i, m, k, p);
    RunStaysReachable(w, first);
    RunStaysReachable(w, second);
    assert !UpToDate(FlushStep(After(w, first), i, k), m) by { LatePushExactly(After(w, first), m, i, k, 0); }
    assert UpToDate(FlushStep(After(w, second), i, k), m) by { LatePushExactly(After(w, second), m, i, k, 0); }
    forall nonce ensures !StartSucceeds(FlushStep(After(w, second), i, k), m, nonce) {
      LatePushExactly(After(w, second), m, i, k, nonce);
    }
  }

  /**
    What a push of `k` by robot `i` does to the last owner `m`: it leaves it up to date but
    barred, or not up to date.
   */
  ghost predicate Breaks(w: World, i: nat, m: nat, k: Key, barred: bool) {
    && w.owner == Some(m) && m != i && i in w.caches && m in w.caches && k in Pending(w.caches[i].cache)
    && m in FlushStep(w, i, k).caches
    && (UpToDate(FlushStep(w, i, k), m) <==> barred)
    && (barred ==> forall nonce :: !StartSucceeds(FlushStep(w, i, k), m, nonce))
  }
}
