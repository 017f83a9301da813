/**
  Many robots, each with its own cache directory, sharing one remote.  A world
  is the remote plus every cache directory; an event is one locked operation of
  one robot, one whole start (open and acquire), or the end of a process.  A
  start may fail at its lock write, and so may a release.  The replay of the
  outbox that ends a start is made of later picks and syncs.
 */
module BrainProtocol {
  import opened Options
  import opened BrainModel

  /** An outbox entry some thread has read with `nextOutboxEntry` and not yet synced. */
  datatype Pick = Pick(key: Key, version: nat)

  /** No process on the directory, a robot that runs, or one that has released the lock and still flushes. */
  datatype Phase = Down | Up | Ending

  /** A cache directory, its process, and the entries the process's threads have picked. */
  datatype Node = Node(cache: Cache, phase: Phase, picks: set<Pick>)

  /** `owner` records who last acquired the lock; `used` every random identifier drawn so far. */
  datatype World = World(remote: Remote, caches: map<nat, Node>, owner: Option<nat>, used: set<Id>)

  /** `FailedStart` passes every check and then fails to write the lock; `Exit` is a crash or the end of a shutdown. */
  datatype Event =
    | Start(i: nat, nonce: Id, id: Id)
    | FailedStart(i: nat, nonce: Id, id: Id)
    | Store(i: nat, key: Key, payload: Payload)
    | Delete(i: nat, key: Key)
    | PickNext(i: nat, key: Key)
    | SyncPicked(i: nat, pick: Pick, putOk: bool)
    | FlushPicked(i: nat, pick: Pick, putOk: bool)
    | Release(i: nat, putOk: bool)
    | LastFlush(i: nat, key: Key, putOk: bool)
    | Exit(i: nat)

  ghost predicate Initial(w: World) {
    w.caches == map[] && w.owner == None
  }

  /** The cache a start works on: hydrated when the directory is new, refused when `None`. */
  ghost function Opened(w: World, i: nat, nonce: Id): Option<Cache> {
    if i in w.caches then
      if OpenAllowed(w.caches[i].cache, w.remote) then Some(w.caches[i].cache) else None
    else if Hydratable(w.remote) then Some(Hydrated(w.remote, nonce))
    else None
  }

  ghost predicate StartSucceeds(w: World, i: nat, nonce: Id) {
    var o := Opened(w, i, nonce);
    o.Some? && AcquireAllowed(o.value, w.remote)
  }

  /** What an interrupted hydration leaves: a control record that is not complete. */
  function Incomplete(nonce: Id): Cache {
    Cache(Control(false, 1, None, nonce, None, None), map[], map[], map[])
  }

  ghost predicate CanStart(w: World, i: nat, nonce: Id, id: Id) {
    && (i in w.caches ==> w.caches[i].phase == Down)
    && nonce !in w.used && id !in w.used && nonce != id
  }

  ghost predicate Enabled(w: World, e: Event) {
    match e
    case Start(i, nonce, id) => CanStart(w, i, nonce, id)
    case FailedStart(i, nonce, id) =>
      CanStart(w, i, nonce, id) && StartSucceeds(w, i, nonce) && FailureSafe(w, i, nonce)
    case Store(i, k, _) => Running(w, i) && k != LOCK_KEY
    case Delete(i, k) => Running(w, i) && k != LOCK_KEY
    case PickNext(i, k) => Running(w, i) && IsNext(w.caches[i].cache, k)
    case SyncPicked(i, pick, _) => Running(w, i) && pick in w.caches[i].picks
    case FlushPicked(i, pick, _) =>
      && Running(w, i) && pick in w.caches[i].picks
      && FlushInOrder(w.caches[i].cache, pick.key)
    case Release(i, _) => Running(w, i)
    case LastFlush(i, k, _) => CanFlushLast(w, i, k)
    case Exit(i) => i in w.caches && w.caches[i].phase != Down
  }

  /** Robot `i` has released the lock, or failed to, and nobody has taken it since: the flush takes the lowest entry. */
  ghost predicate CanFlushLast(w: World, i: nat, key: Key) {
    && i in w.caches && w.caches[i].phase == Ending && w.owner == Some(i)
    && (key in w.caches[i].cache.outbox ==> IsNext(w.caches[i].cache, key))
  }

  ghost predicate Running(w: World, i: nat) {
    i in w.caches && w.caches[i].phase == Up
  }

  /**
    A flush syncs whatever is pending for the picked key, even if the entry was
    replaced since.  This is an event unless it would push the newest version of
    all past another pending one; `BrainLimits` shows that no other condition will do.
   */
  ghost predicate FlushInOrder(c: Cache, key: Key) {
    key in c.outbox ==> MayPush(c, key)
  }

  /** The cache's checkpoint is a lock record, which the next lock write replaces. */
  predicate WatchesLock(c: Cache) {
    c.control.checkpoint.Some? && c.control.checkpoint.value.key == LOCK_KEY
  }

  /** Robot `j` is not running and would be given the lock now. */
  ghost predicate CanTakeOver(w: World, j: nat, nonce: Id) {
    (j in w.caches ==> w.caches[j].phase == Down) && nonce !in w.used && StartSucceeds(w, j, nonce)
  }

  /**
    A start that fails at its lock write has used up a version.  That is an
    event when the robot is the last owner, and otherwise when the last owner's
    shutdown has nothing more to push and the cache watches the lock, or the
    version is not above the one any other robot would take the lock with;
    `BrainLimits` shows that no other condition will do.
   */
  ghost predicate FailureSafe(w: World, i: nat, nonce: Id)
    requires StartSucceeds(w, i, nonce)
  {
    || w.owner == Some(i)
    || (&& NothingMoreToFlush(w)
        && (WatchesLock(Opened(w, i, nonce).value) || NotAboveOthers(w, i, nonce)))
  }

  ghost predicate NothingMoreToFlush(w: World) {
    w.owner.Some? && w.owner.value in w.caches && w.caches[w.owner.value].phase == Ending ==>
      Pending(w.caches[w.owner.value].cache) == map[]
  }

  ghost predicate NotAboveOthers(w: World, i: nat, nonce: Id)
    requires StartSucceeds(w, i, nonce)
  {
    forall j, a :: j != i && CanTakeOver(w, j, a) ==>
      ReservedVersion(Opened(w, i, nonce).value) <= ReservedVersion(Opened(w, j, a).value)
  }

  function WithCache(w: World, i: nat, c: Cache): World
    requires i in w.caches
  {
    w.(caches := w.caches[i := w.caches[i].(cache := c)])
  }

  ghost function AfterStart(w: World, i: nat, nonce: Id, id: Id): World {
    var w1 := w.(used := w.used + {nonce, id});
    var o := Opened(w, i, nonce);
    if o.None? then
      if i in w.caches then w1 else w1.(caches := w.caches[i := Node(Incomplete(nonce), Down, {})])
    else if !AcquireAllowed(o.value, w.remote) then
      w1.(caches := w.caches[i := Node(o.value, Down, {})])
    else
      var s := LockWritten(o.value, w.remote, HELD, id, true);
      World(s.remote, w.caches[i := Node(s.cache, Up, {})], Some(i), w1.used)
  }

  ghost function AfterFailedStart(w: World, i: nat, nonce: Id, id: Id): World
    requires StartSucceeds(w, i, nonce)
  {
    var s := LockWritten(Opened(w, i, nonce).value, w.remote, HELD, id, false);
    World(s.remote, w.caches[i := Node(s.cache, Down, {})], w.owner, w.used + {nonce, id})
  }

  ghost function Next(w: World, e: Event): World
    requires Enabled(w, e)
  {
    match e
    case Start(i, nonce, id) => AfterStart(w, i, nonce, id)
    case FailedStart(i, nonce, id) => AfterFailedStart(w, i, nonce, id)
    case Store(i, k, p) => WithCache(w, i, Stored(w.caches[i].cache, k, p))
    case Delete(i, k) => WithCache(w, i, Removed(w.caches[i].cache, k))
    case PickNext(i, k) =>
      var n := w.caches[i];
      w.(caches := w.caches[i := n.(picks := n.picks + {Pick(k, n.cache.outbox[k].version)})])
    case SyncPicked(i, pick, putOk) =>
      var s := SyncEntry(w.caches[i].cache, w.remote, pick.key, pick.version, putOk);
      WithCache(w, i, s.cache).(remote := s.remote)
    case FlushPicked(i, pick, putOk) =>
      var s := SyncKey(w.caches[i].cache, w.remote, pick.key, putOk);
      WithCache(w, i, s.cache).(remote := s.remote)
    case Release(i, putOk) =>
      var s := LockWritten(w.caches[i].cache, w.remote, RELEASED, 0, putOk);
      w.(remote := s.remote, caches := w.caches[i := Node(s.cache, Ending, {})])
    case LastFlush(i, k, putOk) =>
      var s := SyncKey(w.caches[i].cache, w.remote, k, putOk);
      WithCache(w, i, s.cache).(remote := s.remote)
    case Exit(i) => w.(caches := w.caches[i := Node(w.caches[i].cache, Down, {})])
  }

  /** `es` is a run from `w`: every event is enabled where it happens. */
  ghost predicate IsRun(w: World, es: seq<Event>)
    decreases |es|
  {
    es == [] || (Enabled(w, es[0]) && IsRun(Next(w, es[0]), es[1..]))
  }

  ghost function After(w: World, es: seq<Event>): World
    requires IsRun(w, es)
    decreases |es|
  {
    if es == [] then w else After(Next(w, es[0]), es[1..])
  }

  lemma {:induction false} RunExtends(w: World, es: seq<Event>, e: Event)
    requires IsRun(w, es) && Enabled(After(w, es), e)
    ensures IsRun(w, es + [e]) && After(w, es + [e]) == Next(After(w, es), e)
    decreases |es|
  {
    if es == [] {
      OneEvent(w, e);
      assert es + [e] == [e];
    } else {
      RunExtends(Next(w, es[0]), es[1..], e);
      assert (es + [e])[0] == es[0] && (es + [e])[1..] == es[1..] + [e];
    }
  }

  lemma OneEvent(w: World, e: Event)
    requires Enabled(w, e)
    ensures IsRun(w, [e]) && After(w, [e]) == Next(w, e)
  {
    var es := [e];
    assert es[1..] == [];
  }

  ghost predicate Reachable(w: World) {
    exists w0, es :: Initial(w0) && IsRun(w0, es) && After(w0, es) == w
  }

  lemma {:induction false} RunStaysReachable(w: World, es: seq<Event>)
    requires Reachable(w) && IsRun(w, es)
    ensures Reachable(After(w, es))
    decreases |es|
  {
    if es != [] {
      EventStaysReachable(w, es[0]);
      RunStaysReachable(Next(w, es[0]), es[1..]);
    }
  }

  lemma EventStaysReachable(w: World, e: Event)
    requires Reachable(w) && Enabled(w, e)
    ensures Reachable(Next(w, e))
  {
    var w0, es :| Initial(w0) && IsRun(w0, es) && After(w0, es) == w;
    RunExtends(w0, es, e);
  }

  lemma {:induction false} FreshNat(s: set<nat>) returns (n: nat)
    ensures forall m :: m in s ==> m < n
    decreases |s|
  {
    n := 0;
    if s != {} {
      var m :| m in s;
      var rest := FreshNat(s - {m});
      assert forall x :: x in s ==> x == m || x in s - {m};
      n := if rest <= m then m + 1 else rest;
    }
  }

  // ---- the invariant ----

  /** Cache and remote hold the same record for `k`, or neither holds one. */
  ghost predicate Agree(c: Cache, r: Remote, k: Key) {
    && (k in c.metas <==> k in r)
    && (k in r ==>
          && r[k].v3
          && c.metas[k] == Meta(r[k].version, r[k].checksum, r[k].deleted)
          && (!r[k].deleted ==> k in c.payloads && c.payloads[k] == r[k].payload))
  }

  ghost predicate DataAgree(c: Cache, r: Remote) {
    forall k :: k != LOCK_KEY ==> Agree(c, r, k)
  }

  /** The remote lock record is a readable one with an ID. */
  ghost predicate HasLock(r: Remote) {
    && LOCK_KEY in r && r[LOCK_KEY].v3 && !r[LOCK_KEY].deleted
    && r[LOCK_KEY].payload.LockBlob?
    && r[LOCK_KEY].checksum == SumOf(r[LOCK_KEY].payload)
    && var l := r[LOCK_KEY].payload.lock;
    l.lockID.Some? && (l.state == HELD || l.state == RELEASED)
  }

  ghost function LockOf(r: Remote): LockData
    requires HasLock(r)
  {
    r[LOCK_KEY].payload.lock
  }

  /** This cache still has the lock ID of the remote lock record. */
  ghost predicate HasId(c: Cache, r: Remote)
    requires HasLock(r)
  {
    c.control.activeLockID == LockOf(r).lockID
  }

  ghost predicate CheckpointIsNewest(c: Cache, r: Remote) {
    && c.control.checkpoint.Some?
    && CheckpointHolds(c, r)
    && forall k :: k in r ==> r[k].version <= c.control.checkpoint.value.version
  }

  /**
    A pending version is above the remote's for its key, and while any data is
    pending the remote knows no data as new as the newest local version.
   */
  ghost predicate PendingAbove(c: Cache, r: Remote) {
    && (forall k :: k in Pending(c) && k in r ==> r[k].version < c.outbox[k].version)
    && (Pending(c) != map[] ==> forall j :: j in r && j != LOCK_KEY ==> r[j].version < LatestVersion(c))
  }

  ghost predicate PicksLowest(n: Node) {
    forall p :: p in n.picks ==>
      && p.version < n.cache.control.nextVersion
      && (p.key in n.cache.outbox && n.cache.outbox[p.key].version == p.version ==> IsNext(n.cache, p.key))
  }

  ghost predicate LastWriteIsData(c: Cache) {
    c.control.lastCloudWrite.Some? ==> c.control.lastCloudWrite.value.key != LOCK_KEY
  }

  /** What a start needs of a cache for its lock write to make it a sound owner. */
  ghost predicate ReadyToLock(c: Cache, r: Remote) {
    && c.control.complete && WellFormed(c)
    && (forall k :: k !in c.outbox && k != LOCK_KEY ==> Agree(c, r, k))
    && (forall k :: k in r && k != LOCK_KEY ==> r[k].version < c.control.nextVersion)
    && (LOCK_KEY in r ==> r[LOCK_KEY].version <= c.control.nextVersion)
    && PendingAbove(c, r)
    && CheckpointVersion(c.control) <= c.control.nextVersion
    && LastCloudWriteHolds(c, r) && LastWriteIsData(c)
    && Hydratable(r)
  }

  /** Every data version of the remote is below `version`. */
  ghost predicate DataBelow(r: Remote, version: nat) {
    forall k :: k in r && k != LOCK_KEY ==> r[k].version < version
  }

  /** A released lock record names the version below its own, and all data, pending or not, is older. */
  ghost predicate ReleaseRecorded(c: Cache, r: Remote)
    requires HasLock(r)
  {
    && LockOf(r).databaseVersion + 1 == r[LOCK_KEY].version
    && r[LOCK_KEY].version < c.control.nextVersion
    && WatchesLock(c)
    && DataBelow(r, r[LOCK_KEY].version)
    && forall k :: k in Pending(c) ==> c.outbox[k].version < r[LOCK_KEY].version
  }

  /** A released lock record is pending, as the newest version of all. */
  ghost predicate ReleasePending(c: Cache) {
    && LOCK_KEY in c.outbox && LOCK_KEY in c.metas && LOCK_KEY in c.payloads
    && c.payloads[LOCK_KEY].LockBlob?
    && var v, l := c.metas[LOCK_KEY].version, c.payloads[LOCK_KEY].lock;
    && l == LockData(RELEASED, c.control.activeLockID, Some(c.control.nonce), l.databaseVersion)
    && v == l.databaseVersion + 1 && c.control.nextVersion == v + 1 && CheckpointVersion(c.control) <= v
  }

  /** A pending lock record is a held one from a failed start, or a released one above everything in the remote. */
  ghost predicate LockPendingOK(c: Cache, r: Remote)
    requires LOCK_KEY in c.outbox && LOCK_KEY in r
  {
    && r[LOCK_KEY].version < c.outbox[LOCK_KEY].version
    && (HeldPending(c) || (ReleasePending(c) && BelowRelease(c, r)))
  }

  ghost predicate HeldPending(c: Cache) {
    LOCK_KEY in c.payloads && c.payloads[LOCK_KEY].LockBlob? && c.payloads[LOCK_KEY].lock.state == HELD
  }

  /** Remote data is at most at the pending database version, and below it while any data is pending. */
  ghost predicate BelowRelease(c: Cache, r: Remote)
    requires ReleasePending(c)
  {
    var version := c.payloads[LOCK_KEY].lock.databaseVersion;
    DataBelow(r, version + 1) && (Pending(c) != map[] ==> DataBelow(r, version))
  }

  /** What the process of an owner may be doing. */
  ghost predicate PhaseOK(n: Node, r: Remote)
    requires HasLock(r)
  {
    match n.phase
    case Up => HasId(n.cache, r) && LockOf(r).state == HELD && LOCK_KEY !in n.cache.outbox
    case Ending =>
      && n.picks == {} && HasId(n.cache, r)
      && if LOCK_KEY in n.cache.outbox then
           ReleasePending(n.cache) && LockOf(r).state == HELD
         else LockOf(r).state == RELEASED
    case Down => n.picks == {}
  }

  /** The cache that last acquired the lock. */
  ghost predicate OwnerOK(n: Node, r: Remote) {
    var c := n.cache;
    && ReadyToLock(c, r)
    && HasLock(r) && LockOf(r).nonceHash == Some(c.control.nonce)
    && r[LOCK_KEY].version < c.control.nextVersion
    && (if LOCK_KEY in c.outbox then LockPendingOK(c, r) else Agree(c, r, LOCK_KEY))
    && (forall k :: k in Pending(c) ==> c.outbox[k].version != r[LOCK_KEY].version)
    && CheckpointIsNewest(c, r)
    && PicksLowest(n)
    && PhaseOK(n, r)
    && (LockOf(r).state == RELEASED ==> ReleaseRecorded(c, r))
  }

  /** The newest version the owner has used, apart from a releasing lock write, pushed or pending. */
  function DatabaseVersion(o: Cache, r: Remote): nat {
    if LOCK_KEY in r && r[LOCK_KEY].payload.LockBlob? && r[LOCK_KEY].payload.lock.state == RELEASED
    then r[LOCK_KEY].payload.lock.databaseVersion
    else if LOCK_KEY in o.outbox && LOCK_KEY in o.payloads && o.payloads[LOCK_KEY].LockBlob?
            && o.payloads[LOCK_KEY].lock.state == RELEASED
    then o.payloads[LOCK_KEY].lock.databaseVersion
    else LatestVersion(o)
  }

  /** The checkpoint names a lock record that is gone and can never be written again. */
  ghost predicate LockDead(c: Cache, r: Remote, used: set<Id>)
    requires HasLock(r)
  {
    && WatchesLock(c)
    && var cp := c.control.checkpoint.value;
    || cp.version < r[LOCK_KEY].version
    || (&& cp.checksum.SumOf? && cp.checksum.payload.LockBlob?
        && var l := cp.checksum.payload.lock;
        && l.lockID.Some? && l.lockID.value in used
        && (l.lockID != LockOf(r).lockID || (l.state == HELD && LockOf(r).state == RELEASED)))
  }

  /** The checkpoint names the held lock record that is in place. */
  ghost predicate LockWatched(c: Cache, r: Remote)
    requires HasLock(r)
  {
    WatchesLock(c) && LockOf(r).state == HELD && c.control.checkpoint.value.checksum == r[LOCK_KEY].checksum
  }

  /** A copy of a released brain: its checkpoint names the lock record that is in place. */
  ghost predicate LockCopied(c: Cache, n: Node, r: Remote)
    requires HasLock(r)
  {
    && LockOf(r).state == RELEASED
    && c.control.checkpoint == Some(Checkpoint(LOCK_KEY, r[LOCK_KEY].version, r[LOCK_KEY].checksum))
    && r[LOCK_KEY].version <= LatestVersion(c)
    && Pending(c) == map[] && c.control.lastCloudWrite.None? && DataAgree(c, r)
    && (n.phase == Ending ==> Pending(n.cache) == map[])
  }

  /** The checkpoint is that of a record this cache holds. */
  ghost predicate CheckpointIsLocal(c: Cache) {
    c.control.checkpoint.Some? ==>
      var cp := c.control.checkpoint.value;
      && cp.key in c.metas && c.metas[cp.key].version == cp.version && c.metas[cp.key].checksum == cp.checksum
      && cp.version <= LatestVersion(c)
  }

  /**
    The cache's checkpoint is a data record.  While the lock is held it knows no
    version above the database version, and it knows that only if it is up to date.
   */
  ghost predicate VersionWatched(c: Cache, o: Cache, r: Remote)
    requires HasLock(r)
  {
    && Pending(c) == map[]
    && !WatchesLock(c) && CheckpointIsLocal(c)
    && c.control.lastCloudWrite.None?
    && (LockOf(r).state == HELD ==> LatestVersion(c) <= DatabaseVersion(o, r))
    && (DatabaseVersion(o, r) <= LatestVersion(c) ==> Pending(o) == map[] && DataAgree(c, r))
  }

  /** A cache directory other than the owner's: up to date, or sure to be refused. */
  ghost predicate OutsiderOK(x: Node, n: Node, r: Remote, used: set<Id>)
    requires HasLock(r)
  {
    var c := x.cache;
    && x.phase != Up && x.picks == {}
    && c.control.nonce != n.cache.control.nonce
    && (x.phase == Ending ==> c.control.complete && LockDead(c, r, used))
    && (if c.control.complete then
          && WellFormed(c)
          && (LockDead(c, r, used) || LockWatched(c, r) || LockCopied(c, n, r) || VersionWatched(c, n.cache, r))
        else c.outbox == map[])
  }

  /** A copy that a released lock lets in for its version. */
  ghost predicate Eligible(c: Cache, r: Remote)
    requires HasLock(r)
  {
    && c.control.complete && !WatchesLock(c)
    && LockOf(r).state == RELEASED && LockOf(r).databaseVersion <= LatestVersion(c)
  }

  /** No copy has used up a version above the one with which another robot would take the lock. */
  ghost predicate FailuresBounded(w: World, o: nat)
    requires HasLock(w.remote)
  {
    && (forall i :: i in w.caches && i != o && Eligible(w.caches[i].cache, w.remote) ==>
          LatestVersion(w.caches[i].cache) <= LockOf(w.remote).databaseVersion + 2)
    && forall i, j ::
         (&& i in w.caches && j in w.caches && i != o && j != o && i != j
          && Eligible(w.caches[i].cache, w.remote) && Eligible(w.caches[j].cache, w.remote)) ==>
         LatestVersion(w.caches[i].cache) <= LatestVersion(w.caches[j].cache) + 1
  }

  /** A complete copy of the remote, but perhaps for the lock and the versions used up by failed lock writes. */
  ghost predicate IsCopy(c: Cache, r: Remote) {
    var made := HydratedControl(r, c.control.nonce);
    && Hydratable(r) && c.control.complete && WellFormed(c) && Pending(c) == map[] && DataAgree(c, r)
    && c.control.lastCloudWrite.None? && c.control.checkpoint == made.checkpoint
    && made.nextVersion <= c.control.nextVersion
  }

  /** A new directory is let in. */
  ghost predicate Inviting(r: Remote) {
    Hydratable(r) && AcquireAllowed(Hydrated(r, 0), r)
  }

  /** Before anyone has acquired the lock, a complete cache is a copy that was refused, or failed to write the lock. */
  ghost predicate BystanderOK(n: Node, r: Remote) {
    var c := n.cache;
    && n.phase == Down && n.picks == {}
    && (if c.control.complete then
          && IsCopy(c, r)
          && (if Inviting(r) then
                WatchesLock(c) || c.control.nextVersion <= HydratedControl(r, c.control.nonce).nextVersion + 1
              else c == Hydrated(r, c.control.nonce))
        else c.outbox == map[])
  }

  ghost predicate IdsOK(w: World) {
    && (forall i :: i in w.caches ==>
          && w.caches[i].cache.control.nonce in w.used
          && (w.caches[i].cache.control.activeLockID.Some? ==> w.caches[i].cache.control.activeLockID.value in w.used))
    && (forall i, j :: i in w.caches && j in w.caches && i != j ==>
          w.caches[i].cache.control.nonce != w.caches[j].cache.control.nonce)
  }

  ghost predicate CachesOK(w: World) {
    match w.owner
    case None => forall i :: i in w.caches ==> BystanderOK(w.caches[i], w.remote)
    case Some(o) =>
      && o in w.caches
      && OwnerOK(w.caches[o], w.remote)
      && LockOf(w.remote).lockID.value in w.used
      && (forall i :: i in w.caches && i != o ==> OutsiderOK(w.caches[i], w.caches[o], w.remote, w.used))
      && FailuresBounded(w, o)
  }

  ghost predicate Inv(w: World) {
    IdsOK(w) && CachesOK(w)
  }

  lemma InitialInv(w: World)
    requires Initial(w)
    ensures Inv(w)
  {}

  // ---- the owner's own operations ----

  /** A new record for one key, written to cache and remote alike, disturbs no other key. */
  lemma OtherKeysStillAgree(c: Cache, r: Remote, c': Cache, r': Remote, x: Key)
    requires forall k :: k !in c.outbox && k != x ==> Agree(c, r, k)
    requires forall k :: k != x ==> (k in r <==> k in r') && (k in r ==> r[k] == r'[k])
    requires forall k :: k != x ==> (k in c.metas <==> k in c'.metas) && (k in c.metas ==> c.metas[k] == c'.metas[k])
    requires forall k :: k != x && k in c.payloads ==> k in c'.payloads && c.payloads[k] == c'.payloads[k]
    requires forall k :: k != x ==> (k in c.outbox <==> k in c'.outbox)
    ensures forall k :: k !in c'.outbox && k != x ==> Agree(c', r', k)
  {
    forall k | k !in c'.outbox && k != x ensures Agree(c', r', k) {
      assert Agree(c, r, k);
    }
  }

  lemma LockWriteKeepsAgreement(c: Cache, r: Remote, state: string, id: Id)
    requires ReadyToLock(c, r)
    ensures var s := LockWritten(c, r, state, id, true);
      && (forall k :: k !in s.cache.outbox && k != LOCK_KEY ==> Agree(s.cache, s.remote, k))
      && Agree(s.cache, s.remote, LOCK_KEY)
      && PendingAbove(s.cache, s.remote)
  {
    var s := LockWritten(c, r, state, id, true);
    LockWriteShape(c, r, state, id);
    assert Pending(s.cache) == Pending(c);
    OtherKeysStillAgree(c, r, s.cache, s.remote, LOCK_KEY);
  }

  lemma LockWriteKeepsReady(c: Cache, r: Remote, state: string, id: Id)
    requires ReadyToLock(c, r)
    ensures var s := LockWritten(c, r, state, id, true);
      ReadyToLock(s.cache, s.remote) && Agree(s.cache, s.remote, LOCK_KEY)
  {
    LockWriteKeepsAgreement(c, r, state, id);
    LockWriteKeepsVersions(c, r, state, id);
    LockWriteShape(c, r, state, id);
    LockWrittenWellFormed(c, r, state, id);
  }

  lemma LockWriteKeepsVersions(c: Cache, r: Remote, state: string, id: Id)
    requires ReadyToLock(c, r)
    ensures var s := LockWritten(c, r, state, id, true);
      && (forall k :: k in s.remote && k != LOCK_KEY ==> s.remote[k].version < s.cache.control.nextVersion)
      && LastCloudWriteHolds(s.cache, s.remote)
      && Hydratable(s.remote)
  {
    LockWriteShape(c, r, state, id);
  }

  lemma LockWriteMovesCheckpoint(c: Cache, r: Remote, state: string, id: Id)
    requires ReadyToLock(c, r)
    ensures var s := LockWritten(c, r, state, id, true);
      CheckpointIsNewest(s.cache, s.remote) && WatchesLock(s.cache)
  {
    LockWriteShape(c, r, state, id);
  }

  lemma LockWriteLeavesLock(c: Cache, r: Remote, state: string, id: Id)
    requires ReadyToLock(c, r) && (state == HELD || (state == RELEASED && c.control.activeLockID.Some?))
    ensures var s := LockWritten(c, r, state, id, true);
      && HasLock(s.remote) && LockOf(s.remote) == NextLock(c, state, id)
      && s.remote == r[LOCK_KEY := s.remote[LOCK_KEY]]
      && s.remote[LOCK_KEY].version == c.control.nextVersion
      && s.cache.outbox == Pending(c)
      && s.cache.control.nextVersion == c.control.nextVersion + 1
      && s.cache.control.nonce == c.control.nonce
      && s.cache.control.activeLockID == ActiveId(c, state, id)
  {
    LockWriteShape(c, r, state, id);
  }

  lemma LockWriteMakesOwner(c: Cache, r: Remote, id: Id)
    requires ReadyToLock(c, r)
    ensures var s := LockWritten(c, r, HELD, id, true);
      && s.ok
      && OwnerOK(Node(s.cache, Up, {}), s.remote)
      && LockOf(s.remote) == NextLock(c, HELD, id)
      && s.cache.control.activeLockID == Some(id) && s.cache.control.nonce == c.control.nonce
      && s.cache.control.nextVersion == c.control.nextVersion + 1
      && s.cache.outbox == Pending(c)
      && s.remote == r[LOCK_KEY := s.remote[LOCK_KEY]]
      && s.remote[LOCK_KEY].version == c.control.nextVersion
  {
    LockWriteKeepsReady(c, r, HELD, id);
    LockWriteMovesCheckpoint(c, r, HELD, id);
    LockWriteLeavesLock(c, r, HELD, id);
    LockWriteShape(c, r, HELD, id);
  }

  lemma ReleaseKeepsOwner(n: Node, r: Remote)
    requires OwnerOK(n, r) && n.phase == Up
    ensures var s := LockWritten(n.cache, r, RELEASED, 0, true);
      && s.ok
      && OwnerOK(Node(s.cache, Ending, {}), s.remote)
      && LockOf(s.remote) == LockData(RELEASED, LockOf(r).lockID, LockOf(r).nonceHash, DatabaseVersion(n.cache, r))
      && s.cache.control.activeLockID == n.cache.control.activeLockID
      && s.cache.control.nonce == n.cache.control.nonce
      && s.remote[LOCK_KEY].version == n.cache.control.nextVersion
      && s.remote == r[LOCK_KEY := s.remote[LOCK_KEY]]
  {
    LockWriteKeepsReady(n.cache, r, RELEASED, 0);
    LockWriteMovesCheckpoint(n.cache, r, RELEASED, 0);
    LockWriteLeavesLock(n.cache, r, RELEASED, 0);
    LockWriteShape(n.cache, r, RELEASED, 0);
  }

  // ---- lock writes that fail ----

  lemma FailedWriteKeepsReady(c: Cache, r: Remote, state: string, id: Id)
    requires ReadyToLock(c, r)
    ensures var c' := LockStored(c, state, id);
      && ReadyToLock(c', r) && Pending(c') == Pending(c)
      && LatestVersion(c') == LatestVersion(c) + 1
      && c'.control.checkpoint == c.control.checkpoint && c'.control.lastCloudWrite == c.control.lastCloudWrite
      && c'.control.nonce == c.control.nonce && c'.control.activeLockID == ActiveId(c, state, id)
      && LOCK_KEY in c'.outbox && c'.outbox[LOCK_KEY].version == c.control.nextVersion
  {
    var c' := LockStored(c, state, id);
    LockStoredShape(c, state, id);
    LockStoredWellFormed(c, state, id);
    assert Pending(c') == Pending(c);
    forall k | k !in c'.outbox && k != LOCK_KEY ensures Agree(c', r, k) { assert Agree(c, r, k); }
  }

  lemma FailedWriteKeepsAgreement(c: Cache, r: Remote, state: string, id: Id)
    requires c.control.nextVersion >= 1 && DataAgree(c, r)
    ensures DataAgree(LockStored(c, state, id), r)
  {
    LockStoredShape(c, state, id);
    forall k | k != LOCK_KEY ensures Agree(LockStored(c, state, id), r, k) { assert Agree(c, r, k); }
  }

  /** An owner whose start fails at the lock write stays as sound as it was, but for its lock ID. */
  lemma FailedStartKeepsOwner(n: Node, r: Remote, id: Id)
    requires OwnerOK(n, r) && n.phase == Down
    ensures var c' := LockStored(n.cache, HELD, id);
      && OwnerOK(Node(c', Down, {}), r) && Pending(c') == Pending(n.cache)
      && DatabaseVersion(n.cache, r) <= DatabaseVersion(c', r)
      && (LockOf(r).state == HELD ==> DatabaseVersion(n.cache, r) < DatabaseVersion(c', r))
  {
    FailedWriteKeepsReady(n.cache, r, HELD, id);
    LockStoredShape(n.cache, HELD, id);
    assert Pending(LockStored(n.cache, HELD, id)) == Pending(n.cache);
    OwnerDatabaseVersion(n, r);
  }

  lemma OwnerDatabaseVersion(n: Node, r: Remote)
    requires OwnerOK(n, r)
    ensures DatabaseVersion(n.cache, r) <= LatestVersion(n.cache)
  {}

  /** A release whose lock write fails leaves the released record pending, as the newest version of all. */
  lemma FailedReleaseKeepsOwner(n: Node, r: Remote)
    requires OwnerOK(n, r) && n.phase == Up
    ensures var c' := LockStored(n.cache, RELEASED, 0);
      && OwnerOK(Node(c', Ending, {}), r) && Pending(c') == Pending(n.cache)
      && DatabaseVersion(c', r) == DatabaseVersion(n.cache, r)
      && c'.control.activeLockID == n.cache.control.activeLockID && c'.control.nonce == n.cache.control.nonce
  {
    FailedWriteKeepsReady(n.cache, r, RELEASED, 0);
    LockStoredShape(n.cache, RELEASED, 0);
    assert Pending(LockStored(n.cache, RELEASED, 0)) == Pending(n.cache);
    assert ReleasePending(LockStored(n.cache, RELEASED, 0));
  }

  // ---- local writes and pushes ----

  lemma StoreKeepsOwner(n: Node, r: Remote, k: Key, p: Payload)
    requires OwnerOK(n, r) && n.phase == Up && k != LOCK_KEY
    ensures OwnerOK(n.(cache := Stored(n.cache, k, p)), r)
  {
    var c, c' := n.cache, Stored(n.cache, k, p);
    StoredWellFormed(c, k, p);
    WriteKeepsPicks(n, k, c');
    forall j | j !in c'.outbox ensures Agree(c', r, j) { assert Agree(c, r, j); }
  }

  lemma DeleteKeepsOwner(n: Node, r: Remote, k: Key)
    requires OwnerOK(n, r) && n.phase == Up && k != LOCK_KEY
    ensures OwnerOK(n.(cache := Removed(n.cache, k)), r)
  {
    var c, c' := n.cache, Removed(n.cache, k);
    RemovedWellFormed(c, k);
    WriteKeepsPicks(n, k, c');
    forall j | j !in c'.outbox ensures Agree(c', r, j) { assert Agree(c, r, j); }
  }

  lemma WriteKeepsPicks(n: Node, k: Key, c': Cache)
    requires PicksLowest(n) && WellFormed(n.cache)
    requires c'.control.nextVersion == n.cache.control.nextVersion + 1
    requires k in c'.outbox && c'.outbox == n.cache.outbox[k := c'.outbox[k]]
    requires c'.outbox[k].version == n.cache.control.nextVersion
    ensures PicksLowest(n.(cache := c'))
  {
    forall q | q in n.picks && q.key in c'.outbox && c'.outbox[q.key].version == q.version ensures IsNext(c', q.key) {
      assert IsNext(n.cache, q.key);
    }
  }

  lemma PushKeepsAgreement(c: Cache, r: Remote, k: Key)
    requires WellFormed(c) && k in c.outbox
    ensures var c', r' := Pushed(c, k), r[k := Outgoing(c, k)];
      && Agree(c', r', k)
      && forall j :: j != k && Agree(c, r, j) ==> Agree(c', r', j)
  {}

  /** A push of data keeps pending versions above the remote exactly when it does not push the newest past another. */
  lemma PushKeepsPendingAbove(c: Cache, r: Remote, k: Key)
    requires WellFormed(c) && k in Pending(c) && PendingAbove(c, r)
    requires LOCK_KEY in c.outbox ==> c.outbox[k].version < c.outbox[LOCK_KEY].version
    ensures PendingAbove(Pushed(c, k), r[k := Outgoing(c, k)]) <==> MayPush(c, k)
  {
    PushedPending(c, k);
    OthersLeft(c, k);
    if PendingAbove(Pushed(c, k), r[k := Outgoing(c, k)]) { AboveSoMayPush(c, r, k); }
  }

  lemma PushedPending(c: Cache, k: Key)
    requires WellFormed(c) && k in Pending(c)
    ensures Pending(Pushed(c, k)) == Pending(c) - {k}
    ensures LatestVersion(Pushed(c, k)) == LatestVersion(c) >= c.outbox[k].version
  {}

  lemma AboveSoMayPush(c: Cache, r: Remote, k: Key)
    requires WellFormed(c) && k in Pending(c) && PendingAbove(Pushed(c, k), r[k := Outgoing(c, k)])
    ensures Pending(c) - {k} == map[] || c.outbox[k].version < LatestVersion(c)
  {
    PushedPending(c, k);
    var r' := r[k := Outgoing(c, k)];
    assert k in r' && r'[k].version == c.outbox[k].version;
  }

  /** Nothing else is pending, or the pushed version is below the newest. */
  lemma OthersLeft(c: Cache, k: Key)
    requires WellFormed(c) && k in Pending(c)
    requires LOCK_KEY in c.outbox ==> c.outbox[k].version < c.outbox[LOCK_KEY].version
    ensures MayPush(c, k) <==> Pending(c) - {k} == map[] || c.outbox[k].version < LatestVersion(c)
  {
    if LOCK_KEY in c.outbox {
      assert c.outbox[LOCK_KEY].version <= LatestVersion(c);
    } else if (Pending(c) - {k}).Keys == {} {
      assert c.outbox.Keys == {k};
    } else {
      assert c.outbox.Keys != {k} by { var j :| j in (Pending(c) - {k}).Keys; assert j in c.outbox && j != k; }
    }
  }

  lemma PushKeepsCheckpoint(c: Cache, r: Remote, k: Key)
    requires WellFormed(c) && k in c.outbox && CheckpointIsNewest(c, r)
    requires k in r ==> r[k].version < c.outbox[k].version
    ensures CheckpointIsNewest(Pushed(c, k), r[k := Outgoing(c, k)])
  {}

  lemma PushMovesLastWrite(c: Cache, r: Remote, k: Key)
    requires WellFormed(c) && k in c.outbox && k != LOCK_KEY
    ensures LastCloudWriteHolds(Pushed(c, k), r[k := Outgoing(c, k)]) && LastWriteIsData(Pushed(c, k))
  {}

  lemma PushKeepsHydratable(c: Cache, r: Remote, k: Key)
    requires WellFormed(c) && k in c.outbox && Hydratable(r)
    ensures Hydratable(r[k := Outgoing(c, k)])
  {}

  lemma PushKeepsReady(c: Cache, r: Remote, k: Key)
    requires ReadyToLock(c, r) && MayPush(c, k) && k != LOCK_KEY
    requires LOCK_KEY in c.outbox ==> c.outbox[k].version < c.outbox[LOCK_KEY].version
    ensures ReadyToLock(Pushed(c, k), r[k := Outgoing(c, k)])
  {
    PushedWellFormed(c, k);
    PushKeepsDataAgreement(c, r, k);
    PushKeepsPendingAbove(c, r, k);
    PushMovesLastWrite(c, r, k);
    PushKeepsHydratable(c, r, k);
    PushKeepsVersions(c, r, k);
  }

  lemma PushKeepsDataAgreement(c: Cache, r: Remote, k: Key)
    requires WellFormed(c) && k in c.outbox
    requires forall j :: j !in c.outbox && j != LOCK_KEY ==> Agree(c, r, j)
    ensures var c', r' := Pushed(c, k), r[k := Outgoing(c, k)];
      forall j :: j !in c'.outbox && j != LOCK_KEY ==> Agree(c', r', j)
  {
    var c', r' := Pushed(c, k), r[k := Outgoing(c, k)];
    PushKeepsAgreement(c, r, k);
    forall j | j !in c'.outbox && j != LOCK_KEY ensures Agree(c', r', j) {
      if j != k { assert Agree(c, r, j); }
    }
  }

  lemma PushKeepsVersions(c: Cache, r: Remote, k: Key)
    requires ReadyToLock(c, r) && k in Pending(c)
    ensures var c', r' := Pushed(c, k), r[k := Outgoing(c, k)];
      && (forall j :: j in r' && j != LOCK_KEY ==> r'[j].version < c'.control.nextVersion)
      && (LOCK_KEY in r' ==> r'[LOCK_KEY].version <= c'.control.nextVersion)
      && CheckpointVersion(c'.control) <= c'.control.nextVersion
  {}

  lemma PushKeepsPicks(n: Node, k: Key)
    requires PicksLowest(n) && WellFormed(n.cache) && k in n.cache.outbox
    ensures PicksLowest(n.(cache := Pushed(n.cache, k)))
  {
    forall q | q in n.picks && q.key in n.cache.outbox - {k} && n.cache.outbox[q.key].version == q.version
      ensures IsNext(Pushed(n.cache, k), q.key)
    {
      assert IsNext(n.cache, q.key);
    }
  }

  /** While a shutdown still flushes, every pending data version is below the releasing lock write. */
  lemma EndingMayPush(n: Node, r: Remote, k: Key)
    requires OwnerOK(n, r) && n.phase == Ending && k in Pending(n.cache)
    ensures MayPush(n.cache, k)
    ensures LOCK_KEY in n.cache.outbox ==> n.cache.outbox[k].version < n.cache.outbox[LOCK_KEY].version
  {}

  lemma PushKeepsOwner(n: Node, r: Remote, k: Key)
    requires OwnerOK(n, r) && n.phase != Down && k in Pending(n.cache) && MayPush(n.cache, k)
    requires n.phase == Ending ==> IsNext(n.cache, k)
    ensures OwnerOK(n.(cache := Pushed(n.cache, k)), r[k := Outgoing(n.cache, k)])
    ensures DatabaseVersion(Pushed(n.cache, k), r[k := Outgoing(n.cache, k)]) == DatabaseVersion(n.cache, r)
  {
    var c, c' := n.cache, Pushed(n.cache, k);
    if n.phase == Ending { EndingMayPush(n, r, k); }
    PushKeepsReady(c, r, k);
    PushKeepsCheckpoint(c, r, k);
    PushKeepsPicks(n, k);
    PushKeepsAgreement(c, r, k);
    PushLeavesLock(n, r, k);
  }

  lemma PushBelowRelease(c: Cache, r: Remote, k: Key)
    requires WellFormed(c) && ReleasePending(c) && BelowRelease(c, r) && k in Pending(c) && IsNext(c, k)
    ensures var c', r' := Pushed(c, k), r[k := Outgoing(c, k)]; ReleasePending(c') && BelowRelease(c', r')
  {
    var c' := Pushed(c, k);
    if Pending(c') != map[] {
      var j :| j in Pending(c');
      assert c.outbox[k].version < c.outbox[j].version < c.outbox[LOCK_KEY].version;
    }
  }

  lemma PushLeavesLock(n: Node, r: Remote, k: Key)
    requires OwnerOK(n, r) && n.phase != Down && k in Pending(n.cache)
    requires n.phase == Ending ==> IsNext(n.cache, k)
    ensures var n', r' := n.(cache := Pushed(n.cache, k)), r[k := Outgoing(n.cache, k)];
      && HasLock(r') && PhaseOK(n', r')
      && (LockOf(r').state == RELEASED ==> ReleaseRecorded(n'.cache, r'))
      && (LOCK_KEY in n'.cache.outbox ==> LockPendingOK(n'.cache, r'))
  {
    var c, c' := n.cache, Pushed(n.cache, k);
    assert Pending(c').Keys == Pending(c).Keys - {k};
    if LOCK_KEY in c.outbox { PushBelowRelease(c, r, k); }
  }

  /** The flush after a failed release pushes the lock record and so releases the lock. */
  lemma LatePushOfLock(n: Node, r: Remote)
    requires OwnerOK(n, r) && n.phase == Ending && LOCK_KEY in n.cache.outbox
    ensures var c', r' := Pushed(n.cache, LOCK_KEY), r[LOCK_KEY := Outgoing(n.cache, LOCK_KEY)];
      && OwnerOK(n.(cache := c'), r')
      && LockOf(r').state == RELEASED && LockOf(r').lockID == LockOf(r).lockID
      && LockOf(r').databaseVersion == DatabaseVersion(n.cache, r)
      && r[LOCK_KEY].version < r'[LOCK_KEY].version
      && Pending(c') == Pending(n.cache)
  {
    var c, k := n.cache, LOCK_KEY;
    assert Pending(Pushed(c, k)) == Pending(c);
    PushedWellFormed(c, k);
    PushKeepsAgreement(c, r, k);
    PushKeepsCheckpoint(c, r, k);
    PushKeepsHydratable(c, r, k);
    PushKeepsPicks(n, k);
    LatePushOfLockReady(n, r);
  }

  lemma LatePushOfLockReady(n: Node, r: Remote)
    requires OwnerOK(n, r) && n.phase == Ending && LOCK_KEY in n.cache.outbox
    ensures ReadyToLock(Pushed(n.cache, LOCK_KEY), r[LOCK_KEY := Outgoing(n.cache, LOCK_KEY)])
  {
    var c, k := n.cache, LOCK_KEY;
    assert Pending(Pushed(c, k)) == Pending(c);
    PushedWellFormed(c, k);
    PushKeepsAgreement(c, r, k);
    PushKeepsHydratable(c, r, k);
  }

  /** A background sync pushes nothing, or the entry with the lowest pending version. */
  lemma SyncIsPushOfNext(n: Node, r: Remote, pick: Pick, putOk: bool)
    requires OwnerOK(n, r) && pick in n.picks
    ensures var s := SyncEntry(n.cache, r, pick.key, pick.version, putOk);
      || (s.cache == n.cache && s.remote == r)
      || (&& IsNext(n.cache, pick.key) && s.cache == Pushed(n.cache, pick.key)
          && s.remote == r[pick.key := Outgoing(n.cache, pick.key)])
  {}

  /** A flush pushes the key it picked, unless nothing is pending for it or the write fails. */
  lemma FlushIsPush(c: Cache, r: Remote, k: Key, putOk: bool)
    requires WellFormed(c)
    ensures SyncKey(c, r, k, putOk) ==
            if k !in c.outbox then SyncResult(c, r, true)
            else if putOk then SyncResult(Pushed(c, k), r[k := Outgoing(c, k)], true)
            else SyncResult(c, r, false)
  {}

  lemma SyncKeepsOwner(n: Node, r: Remote, pick: Pick, putOk: bool)
    requires OwnerOK(n, r) && n.phase == Up && pick in n.picks
    ensures var s := SyncEntry(n.cache, r, pick.key, pick.version, putOk);
      && OwnerOK(n.(cache := s.cache), s.remote)
      && s.cache.control.nonce == n.cache.control.nonce && s.cache.control.activeLockID == n.cache.control.activeLockID
  {
    SyncIsPushOfNext(n, r, pick, putOk);
    if IsNext(n.cache, pick.key) {
      NextMayBePushed(n.cache, pick.key);
      PushKeepsOwner(n, r, pick.key);
    }
  }

  lemma FlushKeepsOwner(n: Node, r: Remote, k: Key, putOk: bool)
    requires OwnerOK(n, r) && n.phase == Up && FlushInOrder(n.cache, k)
    ensures var s := SyncKey(n.cache, r, k, putOk);
      && OwnerOK(n.(cache := s.cache), s.remote)
      && s.cache.control.nonce == n.cache.control.nonce && s.cache.control.activeLockID == n.cache.control.activeLockID
  {
    FlushIsPush(n.cache, r, k, putOk);
    if k in n.cache.outbox { PushKeepsOwner(n, r, k); }
  }

  lemma LastFlushKeepsOwner(n: Node, r: Remote, k: Key, putOk: bool)
    requires OwnerOK(n, r) && n.phase == Ending && (k in n.cache.outbox ==> IsNext(n.cache, k))
    ensures var s := SyncKey(n.cache, r, k, putOk);
      && OwnerOK(n.(cache := s.cache), s.remote)
      && s.cache.control.nonce == n.cache.control.nonce && s.cache.control.activeLockID == n.cache.control.activeLockID
  {
    FlushIsPush(n.cache, r, k, putOk);
    if k in n.cache.outbox {
      if k == LOCK_KEY {
        LatePushOfLock(n, r);
      } else {
        EndingMayPush(n, r, k);
        PushKeepsOwner(n, r, k);
      }
    }
  }

  // ---- what the owner's operations do to the other caches ----

  lemma LocalWriteKeepsOutsider(x: Node, n: Node, n': Node, r: Remote, used: set<Id>)
    requires OwnerOK(n, r) && n.phase == Up && OutsiderOK(x, n, r, used)
    requires n'.phase == Up && LOCK_KEY !in n'.cache.outbox
    requires n'.cache.control == n.cache.control.(nextVersion := n.cache.control.nextVersion + 1)
    ensures OutsiderOK(x, n', r, used)
  {
    assert DatabaseVersion(n.cache, r) < DatabaseVersion(n'.cache, r);
  }

  lemma PushKeepsOutsider(x: Node, n: Node, r: Remote, k: Key, used: set<Id>)
    requires OwnerOK(n, r) && n.phase != Down && OutsiderOK(x, n, r, used)
    requires k in Pending(n.cache)
    requires DatabaseVersion(Pushed(n.cache, k), r[k := Outgoing(n.cache, k)]) == DatabaseVersion(n.cache, r)
    ensures HasLock(r[k := Outgoing(n.cache, k)])
    ensures OutsiderOK(x, n.(cache := Pushed(n.cache, k)), r[k := Outgoing(n.cache, k)], used)
  {
    assert Pending(n.cache) != map[];
  }

  /** What a new lock record by the same holder, with the same ID, asks of the other caches. */
  lemma ReleaseKeepsOutsider(x: Node, n: Node, n': Node, r: Remote, r': Remote, used: set<Id>)
    requires OwnerOK(n, r) && LockOf(r).state == HELD && LockOf(r).lockID.value in used
    requires OutsiderOK(x, n, r, used)
    requires HasLock(r') && LockOf(r').state == RELEASED && LockOf(r').lockID == LockOf(r).lockID
    requires r' == r[LOCK_KEY := r'[LOCK_KEY]] && r[LOCK_KEY].version <= r'[LOCK_KEY].version
    requires LockOf(r').databaseVersion == DatabaseVersion(n.cache, r)
    requires n'.cache.control.nonce == n.cache.control.nonce && Pending(n'.cache) == Pending(n.cache)
    ensures OutsiderOK(x, n', r', used)
    ensures x.cache.control.complete && Eligible(x.cache, r') ==>
              LatestVersion(x.cache) == LockOf(r').databaseVersion
  {
    var c := x.cache;
    if c.control.complete {
      if VersionWatched(c, n.cache, r) {
        if DataAgree(c, r) {
          forall k | k != LOCK_KEY ensures Agree(c, r', k) { assert Agree(c, r, k); }
        }
        assert VersionWatched(c, n'.cache, r');
      } else {
        assert LockDead(c, r', used);
      }
    }
  }

  /** After a lock write under a fresh ID, every other cache is sure to be refused from now on, or up to date. */
  lemma LockWriteKeepsOutsider(x: Node, n: Node, c: Cache, r: Remote, id: Id, used: set<Id>)
    requires HasLock(r) && LockOf(r).lockID.value in used
    requires OutsiderOK(x, n, r, used)
    requires ReadyToLock(c, r) && id !in used && x.cache.control.nonce != c.control.nonce
    requires DatabaseVersion(n.cache, r) <= LatestVersion(c)
    requires x.cache.control.complete && VersionWatched(x.cache, n.cache, r)
             && DatabaseVersion(n.cache, r) <= LatestVersion(x.cache) ==>
               LatestVersion(x.cache) <= c.control.nextVersion && Pending(c) == map[]
    ensures var s := LockWritten(c, r, HELD, id, true);
      HasLock(s.remote) && OutsiderOK(x, Node(s.cache, Up, {}), s.remote, used + {id})
  {
    var s := LockWritten(c, r, HELD, id, true);
    LockWriteMakesOwner(c, r, id);
    assert DatabaseVersion(s.cache, s.remote) == c.control.nextVersion;
    var xc := x.cache;
    if xc.control.complete {
      if VersionWatched(xc, n.cache, r) {
        if DataAgree(xc, r) {
          forall k | k != LOCK_KEY ensures Agree(xc, s.remote, k) { assert Agree(xc, r, k); }
        }
        assert VersionWatched(xc, s.cache, s.remote);
      } else {
        assert LockDead(xc, s.remote, used + {id});
      }
    }
  }

  /** The previous owner has released, so its checkpoint names a lock record that is now gone. */
  lemma OwnerBecomesOutsider(n: Node, c: Cache, r: Remote, id: Id, used: set<Id>)
    requires OwnerOK(n, r) && LockOf(r).state == RELEASED
    requires LockOf(r).lockID.value in used && id !in used
    requires ReadyToLock(c, r) && n.cache.control.nonce != c.control.nonce
    ensures var s := LockWritten(c, r, HELD, id, true);
      HasLock(s.remote) && OutsiderOK(n, Node(s.cache, Up, {}), s.remote, used + {id})
  {
    var s := LockWritten(c, r, HELD, id, true);
    LockWriteMakesOwner(c, r, id);
    assert LockDead(n.cache, s.remote, used + {id});
  }

  lemma OutsiderMonotone(x: Node, n: Node, r: Remote, used: set<Id>, more: set<Id>)
    requires HasLock(r) && OutsiderOK(x, n, r, used)
    ensures OutsiderOK(x, n, r, used + more)
  {}

  /** The owner's process ends, or its start fails. */
  lemma IdleOwnerKeepsOutsider(x: Node, n: Node, n': Node, r: Remote, used: set<Id>)
    requires OwnerOK(n, r) && OutsiderOK(x, n, r, used)
    requires n'.phase == Down && Pending(n'.cache) == Pending(n.cache)
    requires n'.cache.control.nonce == n.cache.control.nonce
    requires DatabaseVersion(n.cache, r) <= DatabaseVersion(n'.cache, r)
    ensures OutsiderOK(x, n', r, used)
  {}

  // ---- starting ----

  lemma HydratedReady(r: Remote, nonce: Id)
    requires Hydratable(r)
    ensures ReadyToLock(Hydrated(r, nonce), r) && DataAgree(Hydrated(r, nonce), r)
    ensures IsCopy(Hydrated(r, nonce), r)
    ensures OpenAllowed(Hydrated(r, nonce), r)
  {
    HydratedWellFormed(r, nonce);
    if r != map[] { assert IsNewest(r, Newest(r)); }
    forall k | k in r ensures r[k].version < Hydrated(r, nonce).control.nextVersion {
      assert Precedes(r, k, Newest(r));
    }
  }

  /** A start of the owner passes every check unless the lock is held under an ID it no longer has. */
  lemma OwnerStarts(n: Node, r: Remote)
    requires OwnerOK(n, r)
    ensures OpenAllowed(n.cache, r) && LastCloudWriteHolds(n.cache, r)
    ensures AcquireAllowed(n.cache, r) <==> LockOf(r).state == RELEASED || HasId(n.cache, r)
  {
    OwnerDatabaseVersion(n, r);
  }

  /** A start of any other cache passes exactly when it is an up-to-date copy of a released brain. */
  lemma OutsiderStarts(x: Node, n: Node, r: Remote, used: set<Id>)
    requires OwnerOK(n, r) && OutsiderOK(x, n, r, used)
    ensures (OpenAllowed(x.cache, r) && AcquireAllowed(x.cache, r)) <==>
              (&& x.cache.control.complete
               && LockOf(r).state == RELEASED
               && LockOf(r).databaseVersion <= LatestVersion(x.cache)
               && (WatchesLock(x.cache) ==> CheckpointHolds(x.cache, r)))
    ensures OpenAllowed(x.cache, r) && AcquireAllowed(x.cache, r) ==>
              ReadyToLock(x.cache, r) && Pending(x.cache) == map[] && DataAgree(x.cache, r)
  {
    var c := x.cache;
    if c.control.complete && LockOf(r).state == RELEASED && LockOf(r).databaseVersion <= LatestVersion(c) {
      if LockDead(c, r, used) {
        assert !CheckpointHolds(c, r);
      } else {
        assert LockCopied(c, n, r) || VersionWatched(c, n.cache, r);
        OutsiderReady(c, n, r);
        assert !WatchesLock(c) && c.control.checkpoint.Some? ==> Agree(c, r, c.control.checkpoint.value.key);
      }
    }
  }

  lemma OutsiderReady(c: Cache, n: Node, r: Remote)
    requires OwnerOK(n, r) && c.control.complete && WellFormed(c)
    requires LockOf(r).state == RELEASED && LockOf(r).databaseVersion <= LatestVersion(c)
    requires LockCopied(c, n, r) || VersionWatched(c, n.cache, r)
    ensures ReadyToLock(c, r) && Pending(c) == map[] && DataAgree(c, r)
  {
    forall k | k in r && k != LOCK_KEY ensures r[k].version < c.control.nextVersion {
      assert Agree(c, r, k);
    }
    assert c.control.checkpoint.Some? ==> CheckpointVersion(c.control) <= c.control.nextVersion;
  }

  /** The newest record of a released brain is the lock. */
  lemma NewestOfReleased(n: Node, r: Remote, nonce: Id)
    requires OwnerOK(n, r) && LockOf(r).state == RELEASED
    ensures var c := Hydrated(r, nonce);
      && c.control.checkpoint == Some(Checkpoint(LOCK_KEY, r[LOCK_KEY].version, r[LOCK_KEY].checksum))
      && c.control.nextVersion == LockOf(r).databaseVersion + 2
  {
    assert Precedes(r, LOCK_KEY, Newest(r));
  }

  /** A cache that hydrates while the lock is held is refused and watched from then on; a released lock lets it in. */
  lemma HydratedWhileHeld(n: Node, r: Remote, nonce: Id, used: set<Id>)
    requires OwnerOK(n, r)
    requires n.cache.control.nonce in used && nonce !in used
    ensures AcquireAllowed(Hydrated(r, nonce), r) <==> LockOf(r).state == RELEASED
    ensures LockOf(r).state == HELD ==> OutsiderOK(Node(Hydrated(r, nonce), Down, {}), n, r, used)
  {
    var c := Hydrated(r, nonce);
    HydratedReady(r, nonce);
    var k := Newest(r);
    assert Precedes(r, LOCK_KEY, k);
    if LockOf(r).state == HELD && k != LOCK_KEY {
      HydratedIsWatched(n, r, nonce);
    }
    if LockOf(r).state == RELEASED { NewestOfReleased(n, r, nonce); }
  }

  lemma HydratedIsWatched(n: Node, r: Remote, nonce: Id)
    requires OwnerOK(n, r) && LockOf(r).state == HELD && Newest(r) != LOCK_KEY
    ensures VersionWatched(Hydrated(r, nonce), n.cache, r)
  {
    var c := Hydrated(r, nonce);
    HydratedReady(r, nonce);
    HydratedBelowOwner(n, r);
  }

  /** While the lock is held, remote data is at most at the database version, and below it while any is pending. */
  lemma HydratedBelowOwner(n: Node, r: Remote)
    requires OwnerOK(n, r) && LockOf(r).state == HELD
    ensures forall k :: k in r && k != LOCK_KEY ==> r[k].version <= DatabaseVersion(n.cache, r)
    ensures Pending(n.cache) != map[] ==> DataBelow(r, DatabaseVersion(n.cache, r))
  {}

  /** Whether a new directory is let in does not depend on its nonce. */
  lemma InvitingAny(r: Remote, nonce: Id)
    requires Hydratable(r)
    ensures Inviting(r) <==> AcquireAllowed(Hydrated(r, nonce), r)
  {}

  lemma CopyReady(c: Cache, r: Remote)
    requires IsCopy(c, r)
    ensures ReadyToLock(c, r) && OpenAllowed(c, r)
    ensures WatchesLock(c) ==> LOCK_KEY in r && c.control.checkpoint.value.version == r[LOCK_KEY].version
    ensures c.control.checkpoint.Some? ==>
              c.control.checkpoint.value.version < HydratedControl(r, c.control.nonce).nextVersion
    ensures CheckpointIsLocal(c) || WatchesLock(c)
  {
    HydratedReady(r, c.control.nonce);
    if r != map[] {
      assert IsNewest(r, Newest(r));
      if Newest(r) != LOCK_KEY { assert Agree(c, r, Newest(r)); }
    }
    forall k | k in r ensures r[k].version < HydratedControl(r, c.control.nonce).nextVersion {
      assert Precedes(r, k, Newest(r));
    }
  }

  /** A cache that passes every check is ready to lock, whoever it is. */
  lemma StarterReady(w: World, i: nat, nonce: Id)
    requires Inv(w) && StartSucceeds(w, i, nonce) && nonce !in w.used
    requires i in w.caches ==> w.caches[i].phase == Down
    ensures var c := Opened(w, i, nonce).value;
      && ReadyToLock(c, w.remote)
      && (w.owner.Some? ==> DatabaseVersion(w.caches[w.owner.value].cache, w.remote) <= LatestVersion(c))
      && (w.owner.Some? && w.owner.value != i ==> LockOf(w.remote).state == RELEASED)
      && (w.owner != Some(i) ==> Pending(c) == map[] && DataAgree(c, w.remote))
      && (w.owner.None? ==> IsCopy(c, w.remote) && Inviting(w.remote))
  {
    if w.owner.Some? { StarterReadyLater(w, i, nonce); } else { StarterReadyFirst(w, i, nonce); }
  }

  lemma StarterReadyLater(w: World, i: nat, nonce: Id)
    requires Inv(w) && w.owner.Some? && StartSucceeds(w, i, nonce) && nonce !in w.used
    ensures var c := Opened(w, i, nonce).value;
      && ReadyToLock(c, w.remote)
      && DatabaseVersion(w.caches[w.owner.value].cache, w.remote) <= LatestVersion(c)
      && (w.owner.value != i ==> LockOf(w.remote).state == RELEASED && Pending(c) == map[] && DataAgree(c, w.remote))
  {
    var n := w.caches[w.owner.value];
    if i !in w.caches {
      HydratedReady(w.remote, nonce);
      HydratedWhileHeld(n, w.remote, nonce, w.used);
      NewestOfReleased(n, w.remote, nonce);
    } else if i == w.owner.value {
      OwnerDatabaseVersion(n, w.remote);
    } else {
      OutsiderStarts(w.caches[i], n, w.remote, w.used);
    }
  }

  lemma StarterReadyFirst(w: World, i: nat, nonce: Id)
    requires Inv(w) && w.owner.None? && StartSucceeds(w, i, nonce)
    ensures var c := Opened(w, i, nonce).value;
      ReadyToLock(c, w.remote) && IsCopy(c, w.remote) && Inviting(w.remote)
  {
    if i in w.caches {
      assert BystanderOK(w.caches[i], w.remote);
      InvitingAny(w.remote, w.caches[i].cache.control.nonce);
    } else {
      HydratedReady(w.remote, nonce);
      InvitingAny(w.remote, nonce);
    }
    CopyReady(Opened(w, i, nonce).value, w.remote);
  }

  // ---- every event keeps the invariant ----

  /** Identifiers stay distinct when one cache is replaced by one with its own, or with a new nonce. */
  lemma ReplacingKeepsIds(w: World, w': World, i: nat)
    requires IdsOK(w) && w.used <= w'.used
    requires w'.caches.Keys == w.caches.Keys + {i}
    requires forall j :: j in w.caches && j != i ==> w'.caches[j] == w.caches[j]
    requires var c := w'.caches[i].cache.control;
      && c.nonce in w'.used && (c.activeLockID.Some? ==> c.activeLockID.value in w'.used)
      && (if i in w.caches then c.nonce == w.caches[i].cache.control.nonce else c.nonce !in w.used)
    ensures IdsOK(w')
  {}

  lemma LockStoredIds(c: Cache, r: Remote, id: Id, putOk: bool)
    ensures var s := LockWritten(c, r, HELD, id, putOk);
      s.cache.control.nonce == c.control.nonce && s.cache.control.activeLockID == Some(id)
  {}

  lemma StartKeepsIds(w: World, i: nat, nonce: Id, id: Id)
    requires IdsOK(w) && CanStart(w, i, nonce, id)
    ensures IdsOK(AfterStart(w, i, nonce, id))
  {
    var o := Opened(w, i, nonce);
    if o.Some? { LockStoredIds(o.value, w.remote, id, true); }
    ReplacingKeepsIds(w, AfterStart(w, i, nonce, id), i);
  }

  lemma FailedStartKeepsIds(w: World, i: nat, nonce: Id, id: Id)
    requires IdsOK(w) && CanStart(w, i, nonce, id) && StartSucceeds(w, i, nonce)
    ensures IdsOK(AfterFailedStart(w, i, nonce, id))
  {
    LockStoredIds(Opened(w, i, nonce).value, w.remote, id, false);
    ReplacingKeepsIds(w, AfterFailedStart(w, i, nonce, id), i);
  }

  lemma StartKeepsInv(w: World, i: nat, nonce: Id, id: Id)
    requires Inv(w) && CanStart(w, i, nonce, id)
    ensures Inv(AfterStart(w, i, nonce, id))
  {
    if StartSucceeds(w, i, nonce) {
      StartSuccessKeepsInv(w, i, nonce, id);
    } else {
      StartRefusalKeepsInv(w, i, nonce, id);
    }
  }

  /** A start that succeeds writes the lock. */
  lemma SuccessShape(w: World, i: nat, nonce: Id, id: Id)
    requires CanStart(w, i, nonce, id) && StartSucceeds(w, i, nonce)
    ensures var s := LockWritten(Opened(w, i, nonce).value, w.remote, HELD, id, true);
      Next(w, Start(i, nonce, id)) ==
        World(s.remote, w.caches[i := Node(s.cache, Up, {})], Some(i), w.used + {nonce, id})
  {}

  /** A refused start leaves every directory alone, but for a new one. */
  lemma RefusalShape(w: World, i: nat, nonce: Id, id: Id)
    requires CanStart(w, i, nonce, id) && !StartSucceeds(w, i, nonce)
    ensures var w' := AfterStart(w, i, nonce, id);
      && w'.remote == w.remote && w'.owner == w.owner && w'.used == w.used + {nonce, id}
      && w'.caches.Keys == w.caches.Keys + {i}
      && (forall j :: j in w.caches ==>
            w'.caches[j].cache == w.caches[j].cache && w'.caches[j].phase == w.caches[j].phase)
      && (forall j :: j in w.caches && j != i ==> w'.caches[j] == w.caches[j])
      && (i in w.caches && w.caches[i].picks == {} ==> w'.caches[i] == w.caches[i])
      && (i !in w.caches ==>
            w'.caches[i] ==
            Node(if Hydratable(w.remote) then Hydrated(w.remote, nonce) else Incomplete(nonce), Down, {}))
  {}

  lemma StartRefusalKeepsInv(w: World, i: nat, nonce: Id, id: Id)
    requires Inv(w) && CanStart(w, i, nonce, id) && !StartSucceeds(w, i, nonce)
    ensures Inv(AfterStart(w, i, nonce, id))
  {
    StartKeepsIds(w, i, nonce, id);
    RefusalShape(w, i, nonce, id);
    var w' := AfterStart(w, i, nonce, id);
    if w.owner.Some? {
      var o := w.owner.value;
      assert w'.caches[o] == w.caches[o];
      forall j | j in w'.caches && j != o ensures OutsiderOK(w'.caches[j], w'.caches[o], w'.remote, w'.used) {
        OutsiderAfterRefusal(w, i, nonce, id, j);
      }
      RefusalKeepsBounds(w, i, nonce, id);
    } else {
      forall j | j in w'.caches ensures BystanderOK(w'.caches[j], w'.remote) {
        if j == i && i !in w.caches && Hydratable(w.remote) {
          HydratedReady(w.remote, nonce);
          InvitingAny(w.remote, nonce);
        } else if j == i && i in w.caches {
          assert BystanderOK(w.caches[i], w.remote);
        }
      }
    }
  }

  lemma OutsiderAfterRefusal(w: World, i: nat, nonce: Id, id: Id, j: nat)
    requires Inv(w) && CanStart(w, i, nonce, id) && !StartSucceeds(w, i, nonce)
    requires w.owner.Some? && j != w.owner.value && j in AfterStart(w, i, nonce, id).caches
    ensures OutsiderOK(AfterStart(w, i, nonce, id).caches[j], w.caches[w.owner.value], w.remote, w.used + {nonce, id})
  {
    var n := w.caches[w.owner.value];
    RefusalShape(w, i, nonce, id);
    if j in w.caches {
      assert OutsiderOK(w.caches[j], n, w.remote, w.used);
      assert AfterStart(w, i, nonce, id).caches[j] == w.caches[j];
      OutsiderMonotone(w.caches[j], n, w.remote, w.used, {nonce, id});
    } else {
      HydratedWhileHeld(n, w.remote, nonce, w.used);
      OutsiderMonotone(Node(Hydrated(w.remote, nonce), Down, {}), n, w.remote, w.used, {nonce, id});
    }
  }

  lemma RefusalKeepsBounds(w: World, i: nat, nonce: Id, id: Id)
    requires Inv(w) && CanStart(w, i, nonce, id) && !StartSucceeds(w, i, nonce) && w.owner.Some?
    ensures FailuresBounded(AfterStart(w, i, nonce, id), w.owner.value)
  {
    RefusalShape(w, i, nonce, id);
    if i !in w.caches { HydratedWhileHeld(w.caches[w.owner.value], w.remote, nonce, w.used); }
    SameEligible(w, AfterStart(w, i, nonce, id), w.owner.value);
  }

  /** The bounds on failures speak only of the copies a released lock lets in. */
  lemma SameEligible(w: World, w': World, o: nat)
    requires HasLock(w.remote) && HasLock(w'.remote) && LockOf(w'.remote) == LockOf(w.remote) && FailuresBounded(w, o)
    requires forall j :: j in w'.caches && j != o && Eligible(w'.caches[j].cache, w'.remote) ==>
               j in w.caches && w'.caches[j].cache == w.caches[j].cache
    ensures FailuresBounded(w', o)
  {
    forall j | j in w'.caches && j != o && Eligible(w'.caches[j].cache, w'.remote)
      ensures j in w.caches && Eligible(w.caches[j].cache, w.remote) && w'.caches[j].cache == w.caches[j].cache {}
  }

  /** Before the first acquisition every copy is at most one version past a new directory, or watches the lock. */
  lemma BystanderBecomesOutsider(x: Node, c: Cache, r: Remote, id: Id, used: set<Id>)
    requires BystanderOK(x, r) && IsCopy(c, r) && Inviting(r)
    requires x.cache.control.nonce != c.control.nonce
    ensures var s := LockWritten(c, r, HELD, id, true);
      HasLock(s.remote) && OutsiderOK(x, Node(s.cache, Up, {}), s.remote, used)
  {
    var s := LockWritten(c, r, HELD, id, true);
    CopyReady(c, r);
    LockWriteMakesOwner(c, r, id);
    assert DatabaseVersion(s.cache, s.remote) == c.control.nextVersion;
    var xc := x.cache;
    if xc.control.complete {
      CopyReady(xc, r);
      if WatchesLock(xc) {
        assert LockDead(xc, s.remote, used);
      } else {
        forall k | k != LOCK_KEY ensures Agree(xc, s.remote, k) { assert Agree(xc, r, k); }
        assert VersionWatched(xc, s.cache, s.remote);
      }
    }
  }

  /** Another copy that would be let in has used up no version above the one a start takes the lock with. */
  lemma TakeoverBound(w: World, i: nat, nonce: Id, j: nat)
    requires Inv(w) && w.owner.Some? && StartSucceeds(w, i, nonce) && nonce !in w.used
    requires i in w.caches ==> w.caches[i].phase == Down
    requires j in w.caches && j != i && j != w.owner.value
    requires var o := w.caches[w.owner.value].cache;
      && w.caches[j].cache.control.complete && VersionWatched(w.caches[j].cache, o, w.remote)
      && DatabaseVersion(o, w.remote) <= LatestVersion(w.caches[j].cache)
    ensures var c := Opened(w, i, nonce).value;
      LatestVersion(w.caches[j].cache) <= c.control.nextVersion && Pending(c) == map[]
  {
    var n, x := w.caches[w.owner.value], w.caches[j].cache;
    StarterReady(w, i, nonce);
    if LockOf(w.remote).state == RELEASED {
      assert Eligible(x, w.remote);
      if i !in w.caches {
        NewestOfReleased(n, w.remote, nonce);
      } else if i != w.owner.value {
        OutsiderStarts(w.caches[i], n, w.remote, w.used);
        if !WatchesLock(w.caches[i].cache) { assert Eligible(w.caches[i].cache, w.remote); }
        else { CopiedAboveLock(w.caches[i], n, w.remote, w.used); }
      }
    }
  }

  lemma CopiedAboveLock(x: Node, n: Node, r: Remote, used: set<Id>)
    requires OwnerOK(n, r) && OutsiderOK(x, n, r, used) && OpenAllowed(x.cache, r) && WatchesLock(x.cache)
    requires LockOf(r).state == RELEASED
    ensures LockCopied(x.cache, n, r)
  {
    assert !LockDead(x.cache, r, used);
  }

  lemma StartSuccessKeepsInv(w: World, i: nat, nonce: Id, id: Id)
    requires Inv(w) && CanStart(w, i, nonce, id) && StartSucceeds(w, i, nonce)
    ensures Inv(AfterStart(w, i, nonce, id))
  {
    var w' := AfterStart(w, i, nonce, id);
    var c := Opened(w, i, nonce).value;
    StarterReady(w, i, nonce);
    LockWriteMakesOwner(c, w.remote, id);
    StartKeepsIds(w, i, nonce, id);
    forall j | j in w'.caches && j != i ensures OutsiderOK(w'.caches[j], w'.caches[i], w'.remote, w'.used) {
      CacheAfterAcquisition(w, i, nonce, id, j);
    }
  }

  lemma NonceDiffers(w: World, i: nat, nonce: Id, j: nat)
    requires IdsOK(w) && nonce !in w.used && Opened(w, i, nonce).Some? && j in w.caches && j != i
    ensures w.caches[j].cache.control.nonce != Opened(w, i, nonce).value.control.nonce
  {}

  lemma CacheAfterAcquisition(w: World, i: nat, nonce: Id, id: Id, j: nat)
    requires Inv(w) && CanStart(w, i, nonce, id) && StartSucceeds(w, i, nonce)
    requires j in w.caches && j != i
    ensures var s := LockWritten(Opened(w, i, nonce).value, w.remote, HELD, id, true);
      HasLock(s.remote) && OutsiderOK(w.caches[j], Node(s.cache, Up, {}), s.remote, w.used + {nonce, id})
  {
    if w.owner.None? {
      StarterReady(w, i, nonce);
      NonceDiffers(w, i, nonce, j);
      BystanderBecomesOutsider(w.caches[j], Opened(w, i, nonce).value, w.remote, id, w.used + {nonce, id});
    } else {
      CacheAfterTakeover(w, i, nonce, id, j);
    }
  }

  lemma CacheAfterTakeover(w: World, i: nat, nonce: Id, id: Id, j: nat)
    requires Inv(w) && w.owner.Some? && CanStart(w, i, nonce, id) && StartSucceeds(w, i, nonce)
    requires j in w.caches && j != i
    ensures var s := LockWritten(Opened(w, i, nonce).value, w.remote, HELD, id, true);
      HasLock(s.remote) && OutsiderOK(w.caches[j], Node(s.cache, Up, {}), s.remote, w.used + {nonce, id})
  {
    assert w.used + {nonce, id} == w.used + {nonce} + {id};
    if j == w.owner.value { OwnerAfterTakeover(w, i, nonce, id); } else { OutsiderAfterTakeover(w, i, nonce, id, j); }
  }

  lemma OwnerAfterTakeover(w: World, i: nat, nonce: Id, id: Id)
    requires Inv(w) && w.owner.Some? && CanStart(w, i, nonce, id) && StartSucceeds(w, i, nonce) && i != w.owner.value
    ensures var s := LockWritten(Opened(w, i, nonce).value, w.remote, HELD, id, true);
      && HasLock(s.remote)
      && OutsiderOK(w.caches[w.owner.value], Node(s.cache, Up, {}), s.remote, w.used + {nonce} + {id})
  {
    StarterReady(w, i, nonce);
    NonceDiffers(w, i, nonce, w.owner.value);
    OwnerBecomesOutsider(w.caches[w.owner.value], Opened(w, i, nonce).value, w.remote, id, w.used + {nonce});
  }

  lemma OutsiderAfterTakeover(w: World, i: nat, nonce: Id, id: Id, j: nat)
    requires Inv(w) && w.owner.Some? && CanStart(w, i, nonce, id) && StartSucceeds(w, i, nonce)
    requires j in w.caches && j != i && j != w.owner.value
    ensures var s := LockWritten(Opened(w, i, nonce).value, w.remote, HELD, id, true);
      HasLock(s.remote) && OutsiderOK(w.caches[j], Node(s.cache, Up, {}), s.remote, w.used + {nonce} + {id})
  {
    var x, n := w.caches[j], w.caches[w.owner.value];
    StarterReady(w, i, nonce);
    NonceDiffers(w, i, nonce, j);
    OutsiderMonotone(x, n, w.remote, w.used, {nonce});
    if x.cache.control.complete && VersionWatched(x.cache, n.cache, w.remote)
       && DatabaseVersion(n.cache, w.remote) <= LatestVersion(x.cache) {
      TakeoverBound(w, i, nonce, j);
    }
    LockWriteKeepsOutsider(x, n, Opened(w, i, nonce).value, w.remote, id, w.used + {nonce});
  }

  // ---- starts that fail at their lock write ----

  /** A copy that uses up a version stays a copy. */
  lemma FailedStartKeepsCopy(c: Cache, r: Remote, id: Id)
    requires IsCopy(c, r)
    ensures IsCopy(LockStored(c, HELD, id), r)
    ensures LockStored(c, HELD, id).control.nextVersion == c.control.nextVersion + 1
  {
    CopyReady(c, r);
    FailedWriteKeepsReady(c, r, HELD, id);
    LockStoredShape(c, HELD, id);
    FailedWriteKeepsAgreement(c, r, HELD, id);
  }

  /** A copy of a released brain that uses up a version stays one. */
  lemma FailedStartKeepsOutsider(x: Node, n: Node, r: Remote, id: Id, used: set<Id>)
    requires OwnerOK(n, r) && OutsiderOK(x, n, r, used) && x.phase == Down
    requires OpenAllowed(x.cache, r) && AcquireAllowed(x.cache, r)
    ensures OutsiderOK(x.(cache := LockStored(x.cache, HELD, id)), n, r, used)
  {
    var c, c' := x.cache, LockStored(x.cache, HELD, id);
    OutsiderStarts(x, n, r, used);
    FailedWriteKeepsReady(c, r, HELD, id);
    LockStoredShape(c, HELD, id);
    FailedWriteKeepsAgreement(c, r, HELD, id);
    assert !LockDead(c, r, used);
    if LockCopied(c, n, r) {
      assert LockCopied(c', n, r);
    } else {
      assert VersionWatched(c', n.cache, r);
    }
  }

  /** A new directory whose first start fails is a copy of the released brain. */
  lemma FailedHydrationIsCopied(n: Node, r: Remote, nonce: Id, id: Id, used: set<Id>)
    requires OwnerOK(n, r) && LockOf(r).state == RELEASED
    requires n.cache.control.nonce in used && nonce !in used
    requires n.phase == Ending ==> Pending(n.cache) == map[]
    ensures var c' := LockStored(Hydrated(r, nonce), HELD, id);
      OutsiderOK(Node(c', Down, {}), n, r, used) && WatchesLock(c')
  {
    var c, c' := Hydrated(r, nonce), LockStored(Hydrated(r, nonce), HELD, id);
    HydratedReady(r, nonce);
    NewestOfReleased(n, r, nonce);
    FailedWriteKeepsReady(c, r, HELD, id);
    FailedWriteKeepsAgreement(c, r, HELD, id);
    assert LockCopied(c', n, r);
  }

  lemma FailedStartShape(w: World, i: nat, nonce: Id, id: Id)
    requires StartSucceeds(w, i, nonce)
    ensures AfterFailedStart(w, i, nonce, id) ==
            World(w.remote, w.caches[i := Node(LockStored(Opened(w, i, nonce).value, HELD, id), Down, {})],
                  w.owner, w.used + {nonce, id})
  {
    FailedLockWriteShape(Opened(w, i, nonce).value, w.remote, HELD, id);
  }

  lemma FailedStartKeepsInv(w: World, i: nat, nonce: Id, id: Id)
    requires Inv(w) && CanStart(w, i, nonce, id) && StartSucceeds(w, i, nonce) && FailureSafe(w, i, nonce)
    ensures Inv(AfterFailedStart(w, i, nonce, id))
  {
    FailedStartKeepsIds(w, i, nonce, id);
    FailedStartShape(w, i, nonce, id);
    if w.owner.None? {
      FirstFailureKeepsInv(w, i, nonce, id);
    } else if w.owner == Some(i) {
      OwnFailureKeepsInv(w, i, nonce, id);
    } else {
      OtherFailureKeepsInv(w, i, nonce, id);
    }
  }

  lemma FirstFailureKeepsInv(w: World, i: nat, nonce: Id, id: Id)
    requires Inv(w) && w.owner.None? && CanStart(w, i, nonce, id) && StartSucceeds(w, i, nonce)
    requires FailureSafe(w, i, nonce)
    ensures forall j :: j in AfterFailedStart(w, i, nonce, id).caches ==>
              BystanderOK(AfterFailedStart(w, i, nonce, id).caches[j], w.remote)
  {
    FailedStartShape(w, i, nonce, id);
    StarterReady(w, i, nonce);
    var c := Opened(w, i, nonce).value;
    FailedStartKeepsCopy(c, w.remote, id);
    LockStoredShape(c, HELD, id);
    if !WatchesLock(c) && i in w.caches { FirstFailureBound(w, i, nonce); }
  }

  /** A new directory could always start instead. */
  lemma FirstFailureBound(w: World, i: nat, nonce: Id)
    requires Inv(w) && w.owner.None? && i in w.caches && w.caches[i].phase == Down && nonce !in w.used
    requires StartSucceeds(w, i, nonce) && NotAboveOthers(w, i, nonce)
    ensures w.caches[i].cache.control.nextVersion <= HydratedControl(w.remote, nonce).nextVersion
  {
    StarterReady(w, i, nonce);
    var m := FreshNat(w.caches.Keys);
    InvitingAny(w.remote, nonce);
    HydratedReady(w.remote, nonce);
    assert CanTakeOver(w, m, nonce);
  }

  lemma OwnFailureKeepsInv(w: World, i: nat, nonce: Id, id: Id)
    requires Inv(w) && w.owner == Some(i) && CanStart(w, i, nonce, id) && StartSucceeds(w, i, nonce)
    ensures CachesOK(AfterFailedStart(w, i, nonce, id))
  {
    FailedStartShape(w, i, nonce, id);
    var n, w' := w.caches[i], AfterFailedStart(w, i, nonce, id);
    FailedStartKeepsOwner(n, w.remote, id);
    forall j | j in w'.caches && j != i ensures OutsiderOK(w'.caches[j], w'.caches[i], w'.remote, w'.used) {
      OutsiderAfterOwnFailure(w.caches[j], n, w.remote, id, w.used, {nonce, id});
    }
    SameEligible(w, w', i);
  }

  lemma OutsiderAfterOwnFailure(x: Node, n: Node, r: Remote, id: Id, used: set<Id>, more: set<Id>)
    requires OwnerOK(n, r) && n.phase == Down && OutsiderOK(x, n, r, used)
    ensures OutsiderOK(x, Node(LockStored(n.cache, HELD, id), Down, {}), r, used + more)
  {
    var n' := Node(LockStored(n.cache, HELD, id), Down, {});
    FailedStartKeepsOwner(n, r, id);
    LockStoredShape(n.cache, HELD, id);
    IdleOwnerKeepsOutsider(x, n, n', r, used);
    OutsiderMonotone(x, n', r, used, more);
  }

  lemma OtherFailureKeepsInv(w: World, i: nat, nonce: Id, id: Id)
    requires Inv(w) && w.owner.Some? && w.owner != Some(i) && CanStart(w, i, nonce, id)
    requires StartSucceeds(w, i, nonce) && FailureSafe(w, i, nonce)
    ensures CachesOK(AfterFailedStart(w, i, nonce, id))
  {
    FailedStartShape(w, i, nonce, id);
    var o, w' := w.owner.value, AfterFailedStart(w, i, nonce, id);
    var n := w.caches[o];
    forall j | j in w'.caches && j != o ensures OutsiderOK(w'.caches[j], w'.caches[o], w'.remote, w'.used) {
      if j != i { OutsiderMonotone(w.caches[j], n, w.remote, w.used, {nonce, id}); }
      else { FailedOutsider(w, i, nonce, id); }
    }
    StarterReady(w, i, nonce);
    FailedWriteKeepsReady(Opened(w, i, nonce).value, w.remote, HELD, id);
    FailedOutsider(w, i, nonce, id);
    FailureKeepsBounds(w, w', i, nonce);
  }

  lemma FailedOutsider(w: World, i: nat, nonce: Id, id: Id)
    requires Inv(w) && w.owner.Some? && w.owner != Some(i) && CanStart(w, i, nonce, id)
    requires StartSucceeds(w, i, nonce) && NothingMoreToFlush(w)
    ensures OutsiderOK(Node(LockStored(Opened(w, i, nonce).value, HELD, id), Down, {}),
                       w.caches[w.owner.value], w.remote, w.used + {nonce, id})
    ensures i !in w.caches ==> WatchesLock(LockStored(Opened(w, i, nonce).value, HELD, id))
  {
    var n := w.caches[w.owner.value];
    var x := Node(LockStored(Opened(w, i, nonce).value, HELD, id), Down, {});
    if i in w.caches {
      FailedStartKeepsOutsider(w.caches[i], n, w.remote, id, w.used);
    } else {
      StarterReady(w, i, nonce);
      FailedHydrationIsCopied(n, w.remote, nonce, id, w.used);
    }
    OutsiderMonotone(x, n, w.remote, w.used, {nonce, id});
  }

  /** The version a failing copy uses up, against the two kinds of robots that could take the lock instead. */
  lemma FailureKeepsBounds(w: World, w': World, i: nat, nonce: Id)
    requires Inv(w) && w.owner.Some? && w.owner != Some(i) && nonce !in w.used
    requires i in w.caches ==> w.caches[i].phase == Down
    requires StartSucceeds(w, i, nonce) && FailureSafe(w, i, nonce)
    requires i in w'.caches && w'.remote == w.remote && w'.caches == w.caches[i := w'.caches[i]]
    requires LatestVersion(w'.caches[i].cache) == LatestVersion(Opened(w, i, nonce).value) + 1
    requires WatchesLock(w'.caches[i].cache) <==> WatchesLock(Opened(w, i, nonce).value)
    requires i !in w.caches ==> WatchesLock(w'.caches[i].cache)
    ensures FailuresBounded(w', w.owner.value)
  {
    if WatchesLock(w'.caches[i].cache) {
      SameEligible(w, w', w.owner.value);
    } else {
      CopyBounds(w, i, nonce);
      RaisedBounds(w, w', w.owner.value, i);
    }
  }

  /** The copy `i` may use up one more version. */
  ghost predicate RoomToFail(w: World, o: nat, i: nat)
    requires HasLock(w.remote) && i in w.caches
  {
    var version := LatestVersion(w.caches[i].cache);
    && version <= LockOf(w.remote).databaseVersion + 1
    && forall j :: j in w.caches && j != o && j != i && Eligible(w.caches[j].cache, w.remote) ==>
         version <= LatestVersion(w.caches[j].cache) <= version + 1
  }

  lemma CopyBounds(w: World, i: nat, nonce: Id)
    requires Inv(w) && w.owner.Some? && w.owner != Some(i) && i in w.caches && nonce !in w.used
    requires StartSucceeds(w, i, nonce) && NotAboveOthers(w, i, nonce) && w.caches[i].phase == Down
    requires !WatchesLock(w.caches[i].cache)
    ensures RoomToFail(w, w.owner.value, i)
  {
    StarterReady(w, i, nonce);
    NewDirectoryBound(w, i, nonce);
    forall j | j in w.caches && j != w.owner.value && j != i && Eligible(w.caches[j].cache, w.remote)
      ensures LatestVersion(w.caches[i].cache) <= LatestVersion(w.caches[j].cache)
      ensures LatestVersion(w.caches[j].cache) <= LatestVersion(w.caches[i].cache) + 1
    {
      OtherCopyBound(w, i, nonce, j);
    }
  }

  lemma RaisedBounds(w: World, w': World, o: nat, i: nat)
    requires HasLock(w.remote) && w'.remote == w.remote && FailuresBounded(w, o) && i in w.caches
    requires w'.caches.Keys == w.caches.Keys && forall j :: j in w.caches && j != i ==> w'.caches[j] == w.caches[j]
    requires LatestVersion(w'.caches[i].cache) == LatestVersion(w.caches[i].cache) + 1
    requires RoomToFail(w, o, i)
    ensures FailuresBounded(w', o)
  {}

  /** Under a released lock a new directory would be let in, and take the lock one version past the released one's. */
  lemma NewDirectoryTakesOver(w: World, m: nat, nonce: Id)
    requires Inv(w) && w.owner.Some? && LockOf(w.remote).state == RELEASED && m !in w.caches && nonce !in w.used
    ensures CanTakeOver(w, m, nonce)
    ensures ReservedVersion(Opened(w, m, nonce).value) == LockOf(w.remote).databaseVersion + 2
  {
    var n := w.caches[w.owner.value];
    HydratedReady(w.remote, nonce);
    NewestOfReleased(n, w.remote, nonce);
    HydratedWhileHeld(n, w.remote, nonce, w.used);
  }

  lemma NewDirectoryBound(w: World, i: nat, nonce: Id)
    requires Inv(w) && w.owner.Some? && i in w.caches && nonce !in w.used
    requires LockOf(w.remote).state == RELEASED
    requires StartSucceeds(w, i, nonce) && NotAboveOthers(w, i, nonce)
    ensures LatestVersion(w.caches[i].cache) <= LockOf(w.remote).databaseVersion + 1
  {
    var m := FreshNat(w.caches.Keys);
    NewDirectoryTakesOver(w, m, nonce);
    assert ReservedVersion(w.caches[i].cache) <= ReservedVersion(Opened(w, m, nonce).value);
  }

  lemma OtherCopyBound(w: World, i: nat, nonce: Id, j: nat)
    requires Inv(w) && w.owner.Some? && w.owner != Some(i) && i in w.caches && nonce !in w.used
    requires StartSucceeds(w, i, nonce) && NotAboveOthers(w, i, nonce) && w.caches[i].phase == Down
    requires !WatchesLock(w.caches[i].cache)
    requires j in w.caches && w.owner != Some(j) && j != i && Eligible(w.caches[j].cache, w.remote)
    ensures LatestVersion(w.caches[i].cache) <= LatestVersion(w.caches[j].cache) <= LatestVersion(w.caches[i].cache) + 1
  {
    var n := w.caches[w.owner.value];
    OutsiderStarts(w.caches[i], n, w.remote, w.used);
    OutsiderStarts(w.caches[j], n, w.remote, w.used);
    assert Eligible(w.caches[i].cache, w.remote);
    assert CanTakeOver(w, j, nonce);
  }

  // ---- the other events ----

  lemma IdleUnlessOwner(w: World, i: nat)
    requires Inv(w) && i in w.caches && w.owner != Some(i)
    ensures w.caches[i].phase != Up
  {
    if w.owner.None? { assert BystanderOK(w.caches[i], w.remote); }
    else { assert OutsiderOK(w.caches[i], w.caches[w.owner.value], w.remote, w.used); }
  }

  lemma RunningIsOwner(w: World, i: nat)
    requires Inv(w) && Running(w, i)
    ensures w.owner == Some(i) && OwnerOK(w.caches[i], w.remote)
  {
    if w.owner != Some(i) { IdleUnlessOwner(w, i); }
  }

  predicate IsStart(e: Event) {
    e.Start? || e.FailedStart?
  }

  /** An event of the robot that runs, or still flushes. */
  predicate IsOwners(e: Event) {
    !IsStart(e) && !e.Exit?
  }

  lemma ActorIsOwner(w: World, e: Event)
    requires Inv(w) && Enabled(w, e) && IsOwners(e)
    ensures w.owner == Some(e.i) && e.i in w.caches && OwnerOK(w.caches[e.i], w.remote)
    ensures w.caches[e.i].phase == if e.LastFlush? then Ending else Up
  {
    if !e.LastFlush? { RunningIsOwner(w, e.i); }
  }

  lemma OwnerEventKeepsInv(w: World, e: Event)
    requires Inv(w) && Enabled(w, e) && IsOwners(e)
    ensures Inv(Next(w, e))
  {
    var o := e.i;
    ActorIsOwner(w, e);
    var n, w' := w.caches[o], Next(w, e);
    OwnerEventKeepsOwner(w, e, n);
    OthersUntouched(w, e);
    assert IdsOK(w') by { OwnerEventKeepsIds(w, w', o); }
    OwnerEventKeepsLockId(w, e, n);
    forall j | j in w'.caches && j != o ensures OutsiderOK(w'.caches[j], w'.caches[o], w'.remote, w'.used) {
      OwnerEventKeepsOutsider(w, e, n, w.caches[j]);
    }
    OwnerEventKeepsBounds(w, e, n);
  }

  lemma OwnerEventKeepsIds(w: World, w': World, o: nat)
    requires IdsOK(w) && o in w.caches && w'.caches.Keys == w.caches.Keys && w'.used == w.used
    requires w'.caches[o].cache.control.nonce == w.caches[o].cache.control.nonce
    requires w'.caches[o].cache.control.activeLockID == w.caches[o].cache.control.activeLockID
    requires forall j :: j in w.caches && j != o ==> w'.caches[j] == w.caches[j]
    ensures IdsOK(w')
  {}

  lemma OthersUntouched(w: World, e: Event)
    requires Enabled(w, e) && !IsStart(e)
    ensures var w' := Next(w, e);
      && w'.caches.Keys == w.caches.Keys && w'.owner == w.owner && w'.used == w.used
      && forall j :: j in w.caches && j != e.i ==> w'.caches[j] == w.caches[j]
  {}

  lemma OwnerEventKeepsOwner(w: World, e: Event, n: Node)
    requires Enabled(w, e) && IsOwners(e) && e.i in w.caches && n == w.caches[e.i] && OwnerOK(n, w.remote)
    ensures var w' := Next(w, e);
      && OwnerOK(w'.caches[e.i], w'.remote)
      && w'.caches[e.i].cache.control.nonce == n.cache.control.nonce
      && w'.caches[e.i].cache.control.activeLockID == n.cache.control.activeLockID
  {
    var r := w.remote;
    match e
    case Store(_, k, p) => StoreKeepsOwner(n, r, k, p);
    case Delete(_, k) => DeleteKeepsOwner(n, r, k);
    case PickNext(_, k) =>
    case SyncPicked(_, pick, putOk) => SyncKeepsOwner(n, r, pick, putOk);
    case FlushPicked(_, pick, putOk) => FlushKeepsOwner(n, r, pick.key, putOk);
    case Release(_, putOk) =>
      ReleaseKeepsOwner(n, r);
      FailedReleaseKeepsOwner(n, r);
      FailedLockWriteShape(n.cache, r, RELEASED, 0);
    case LastFlush(_, k, putOk) => LastFlushKeepsOwner(n, r, k, putOk);
  }

  lemma ReleaseShape(w: World, i: nat, putOk: bool)
    requires Running(w, i)
    ensures var s := LockWritten(w.caches[i].cache, w.remote, RELEASED, 0, putOk);
      Next(w, Release(i, putOk)) ==
        World(s.remote, w.caches[i := Node(s.cache, Ending, {})], w.owner, w.used)
  {}

  lemma OwnerEventKeepsLockId(w: World, e: Event, n: Node)
    requires Enabled(w, e) && IsOwners(e) && e.i in w.caches && n == w.caches[e.i] && OwnerOK(n, w.remote)
    ensures HasLock(Next(w, e).remote) && LockOf(Next(w, e).remote).lockID == LockOf(w.remote).lockID
  {
    OwnerEventKeepsOwner(w, e, n);
    var r, n' := w.remote, Next(w, e).caches[e.i];
    match e
    case SyncPicked(_, pick, putOk) => SyncIsPushOfNext(n, r, pick, putOk);
    case FlushPicked(_, pick, putOk) => FlushIsPush(n.cache, r, pick.key, putOk);
    case Release(_, putOk) =>
      ReleaseKeepsOwner(n, r);
      FailedLockWriteShape(n.cache, r, RELEASED, 0);
    case LastFlush(_, k, putOk) =>
      FlushIsPush(n.cache, r, k, putOk);
      if k == LOCK_KEY && k in n.cache.outbox { LatePushOfLock(n, r); }
    case _ =>
  }

  lemma PushedByOwner(x: Node, n: Node, r: Remote, k: Key, used: set<Id>)
    requires OwnerOK(n, r) && n.phase != Down && OutsiderOK(x, n, r, used)
    requires k in Pending(n.cache) && MayPush(n.cache, k) && (n.phase == Ending ==> IsNext(n.cache, k))
    ensures HasLock(r[k := Outgoing(n.cache, k)])
    ensures OutsiderOK(x, n.(cache := Pushed(n.cache, k)), r[k := Outgoing(n.cache, k)], used)
  {
    PushKeepsOwner(n, r, k);
    PushKeepsOutsider(x, n, r, k, used);
  }

  lemma OwnerEventKeepsOutsider(w: World, e: Event, n: Node, x: Node)
    requires Enabled(w, e) && IsOwners(e) && e.i in w.caches && n == w.caches[e.i] && OwnerOK(n, w.remote)
    requires LockOf(w.remote).lockID.value in w.used
    requires OutsiderOK(x, n, w.remote, w.used)
    ensures var w' := Next(w, e);
      HasLock(w'.remote) && OutsiderOK(x, w'.caches[e.i], w'.remote, w.used)
  {
    var r, n' := w.remote, Next(w, e).caches[e.i];
    match e
    case Store(_, k, p) => LocalWriteKeepsOutsider(x, n, n', r, w.used);
    case Delete(_, k) => LocalWriteKeepsOutsider(x, n, n', r, w.used);
    case PickNext(_, k) =>
    case SyncPicked(_, pick, putOk) =>
      SyncIsPushOfNext(n, r, pick, putOk);
      if IsNext(n.cache, pick.key) {
        NextMayBePushed(n.cache, pick.key);
        PushedByOwner(x, n, r, pick.key, w.used);
      }
    case FlushPicked(_, pick, putOk) =>
      FlushIsPush(n.cache, r, pick.key, putOk);
      if pick.key in n.cache.outbox { PushedByOwner(x, n, r, pick.key, w.used); }
    case Release(_, putOk) => ReleaseKeepsOutsiders(x, n, r, putOk, w.used);
    case LastFlush(_, k, putOk) => LastFlushKeepsOutsider(x, n, r, k, putOk, w.used);
  }

  lemma ReleaseKeepsOutsiders(x: Node, n: Node, r: Remote, putOk: bool, used: set<Id>)
    requires OwnerOK(n, r) && n.phase == Up && LockOf(r).lockID.value in used && OutsiderOK(x, n, r, used)
    ensures var s := LockWritten(n.cache, r, RELEASED, 0, putOk);
      HasLock(s.remote) && OutsiderOK(x, Node(s.cache, Ending, {}), s.remote, used)
    ensures var s := LockWritten(n.cache, r, RELEASED, 0, putOk);
      x.cache.control.complete && Eligible(x.cache, s.remote) ==>
        LatestVersion(x.cache) == LockOf(s.remote).databaseVersion
  {
    var s := LockWritten(n.cache, r, RELEASED, 0, putOk);
    if putOk {
      ReleaseKeepsOwner(n, r);
      LockWriteShape(n.cache, r, RELEASED, 0);
      assert Pending(s.cache) == Pending(n.cache);
      ReleaseKeepsOutsider(x, n, Node(s.cache, Ending, {}), r, s.remote, used);
    } else {
      FailedReleaseKeepsOwner(n, r);
      FailedLockWriteShape(n.cache, r, RELEASED, 0);
      assert OutsiderOK(x, Node(s.cache, Ending, {}), r, used);
    }
  }

  lemma LastFlushKeepsOutsider(x: Node, n: Node, r: Remote, k: Key, putOk: bool, used: set<Id>)
    requires OwnerOK(n, r) && n.phase == Ending && LockOf(r).lockID.value in used && OutsiderOK(x, n, r, used)
    requires k in n.cache.outbox ==> IsNext(n.cache, k)
    ensures var s := SyncKey(n.cache, r, k, putOk);
      HasLock(s.remote) && OutsiderOK(x, n.(cache := s.cache), s.remote, used)
    ensures var s := SyncKey(n.cache, r, k, putOk);
      LockOf(r).state == HELD && x.cache.control.complete && Eligible(x.cache, s.remote) ==>
        LatestVersion(x.cache) == LockOf(s.remote).databaseVersion
  {
    FlushIsPush(n.cache, r, k, putOk);
    if k in n.cache.outbox && putOk {
      if k == LOCK_KEY {
        LatePushOfLock(n, r);
        ReleaseKeepsOutsider(x, n, n.(cache := Pushed(n.cache, k)), r, r[k := Outgoing(n.cache, k)], used);
      } else {
        EndingMayPush(n, r, k);
        PushedByOwner(x, n, r, k, used);
      }
    }
  }

  lemma OwnerEventKeepsBounds(w: World, e: Event, n: Node)
    requires Inv(w) && Enabled(w, e) && IsOwners(e) && e.i in w.caches && n == w.caches[e.i] && w.owner == Some(e.i)
    requires HasLock(Next(w, e).remote)
    ensures FailuresBounded(Next(w, e), e.i)
  {
    var r, w' := w.remote, Next(w, e);
    OthersUntouched(w, e);
    if LockOf(w'.remote) == LockOf(r) {
      SameEligible(w, w', e.i);
    } else {
      LockChangeIsRelease(w, e, n);
      forall j | j in w'.caches && j != e.i && Eligible(w'.caches[j].cache, w'.remote)
        ensures LatestVersion(w'.caches[j].cache) == LockOf(w'.remote).databaseVersion
      {
        if e.Release? { ReleaseKeepsOutsiders(w.caches[j], n, r, e.putOk, w.used); }
        else { LastFlushKeepsOutsider(w.caches[j], n, r, e.key, e.putOk, w.used); }
      }
    }
  }

  lemma LockChangeIsRelease(w: World, e: Event, n: Node)
    requires Enabled(w, e) && IsOwners(e) && e.i in w.caches && n == w.caches[e.i] && OwnerOK(n, w.remote)
    requires HasLock(Next(w, e).remote) && LockOf(Next(w, e).remote) != LockOf(w.remote)
    ensures (e.Release? || e.LastFlush?) && LockOf(w.remote).state == HELD
  {
    var r := w.remote;
    match e
    case SyncPicked(_, pick, putOk) => SyncIsPushOfNext(n, r, pick, putOk);
    case FlushPicked(_, pick, putOk) => FlushIsPush(n.cache, r, pick.key, putOk);
    case LastFlush(_, k, putOk) => FlushIsPush(n.cache, r, k, putOk);
    case _ =>
  }

  /** A process ends: the owner's, or that of a robot that has been replaced. */
  lemma ExitKeepsInv(w: World, i: nat)
    requires Inv(w) && Enabled(w, Exit(i))
    ensures Inv(Next(w, Exit(i)))
  {
    ReplacingKeepsIds(w, Next(w, Exit(i)), i);
    if w.owner.Some? { ExitKeepsCaches(w, i); }
  }

  lemma ExitKeepsCaches(w: World, i: nat)
    requires Inv(w) && Enabled(w, Exit(i)) && w.owner.Some?
    ensures CachesOK(Next(w, Exit(i)))
  {
    var w' := Next(w, Exit(i));
    OwnerGoesDown(w.caches[w.owner.value], w.remote);
    forall j | j in w'.caches && w.owner != Some(j)
      ensures OutsiderOK(w'.caches[j], w'.caches[w.owner.value], w'.remote, w'.used)
    {
      ExitKeepsOutsider(w, i, j);
    }
    SameEligible(w, w', w.owner.value);
  }

  lemma OwnerGoesDown(n: Node, r: Remote)
    requires OwnerOK(n, r)
    ensures OwnerOK(Node(n.cache, Down, {}), r)
  {}

  lemma ExitKeepsOutsider(w: World, i: nat, j: nat)
    requires Inv(w) && Enabled(w, Exit(i)) && w.owner.Some? && j in w.caches && w.owner != Some(j)
    ensures var w' := Next(w, Exit(i)); OutsiderOK(w'.caches[j], w'.caches[w.owner.value], w'.remote, w'.used)
  {
    var o := w.owner.value;
    assert OutsiderOK(w.caches[j], w.caches[o], w.remote, w.used);
    if i == o {
      IdleOwnerKeepsOutsider(w.caches[j], w.caches[o], Next(w, Exit(i)).caches[o], w.remote, w.used);
    }
  }

  lemma EventKeepsInv(w: World, e: Event)
    requires Inv(w) && Enabled(w, e)
    ensures Inv(Next(w, e))
  {
    match e
    case Start(i, nonce, id) => StartKeepsInv(w, i, nonce, id);
    case FailedStart(i, nonce, id) => FailedStartKeepsInv(w, i, nonce, id);
    case Exit(i) => ExitKeepsInv(w, i);
    case _ => OwnerEventKeepsInv(w, e);
  }

  lemma {:induction false} RunKeepsInv(w: World, es: seq<Event>)
    requires Inv(w) && IsRun(w, es)
    ensures Inv(After(w, es))
    decreases |es|
  {
    if es != [] {
      EventKeepsInv(w, es[0]);
      RunKeepsInv(Next(w, es[0]), es[1..]);
    }
  }

  lemma ReachableInv(w: World)
    requires Reachable(w)
    ensures Inv(w)
  {
    var w0, es :| Initial(w0) && IsRun(w0, es) && After(w0, es) == w;
    InitialInv(w0);
    RunKeepsInv(w0, es);
  }
}
