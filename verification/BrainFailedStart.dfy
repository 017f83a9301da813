/**
  A start whose lock write does not reach the remote has passed every check, has
  replaced the local lock ID, and has used up a version.  This is what exactly
  such a start breaks: a copy that fails often enough knows a newer version than
  the next holder's first writes, and the check of the released database version
  then lets it in although it is stale.
 */
module BrainFailedStart {
  import opened Options
  import opened BrainModel
  import opened BrainProtocol
  import opened BrainTheorems
  import opened BrainLimits

  /**
    A failed lock write leaves every later start up to date exactly when the
    robot owned the lock last, or the last owner's shutdown has nothing more to
    push and the version it used up is not above the one with which any other
    robot could take the lock now, or it watches the lock itself.
   */
  lemma FailedStartSafeExactly(w: World, i: nat, nonce: Id, id: Id)
    requires Reachable(w) && CanStart(w, i, nonce, id) && StartSucceeds(w, i, nonce)
    ensures NeverStale(AfterFailedStart(w, i, nonce, id)) <==> FailureSafe(w, i, nonce)
  {
    ReachableInv(w);
    if FailureSafe(w, i, nonce) {
      FailedStartKeepsInv(w, i, nonce, id);
      SoundIsNeverStale(AfterFailedStart(w, i, nonce, id));
    } else if !NothingMoreToFlush(w) {
      LateFlushMakesStale(w, i, nonce, id);
    } else {
      var j, a :| j != i && CanTakeOver(w, j, a)
                  && ReservedVersion(Opened(w, j, a).value) < ReservedVersion(Opened(w, i, nonce).value);
      HolderMakesStale(w, i, nonce, id, j, a);
    }
  }

  /** After a failed lock write the same start passes again, but for the last owner of a held lock. */
  lemma FailedStartRestarts(w: World, i: nat, nonce: Id, id: Id, again: Id)
    requires Reachable(w) && CanStart(w, i, nonce, id) && StartSucceeds(w, i, nonce)
    ensures AfterFailedStart(w, i, nonce, id).remote == w.remote
    ensures w.owner.Some? ==> HasLock(w.remote)
    ensures StartSucceeds(AfterFailedStart(w, i, nonce, id), i, again) <==>
              (w.owner == Some(i) ==> LockOf(w.remote).state == RELEASED)
  {
    ReachableInv(w);
    FailedStartShape(w, i, nonce, id);
    if w.owner == Some(i) { OwnRestartAfterFailure(w.caches[i], w.remote, id, w.used); }
    else { StrangerPassesAgain(w, i, nonce, id); }
  }

  lemma StrangerPassesAgain(w: World, i: nat, nonce: Id, id: Id)
    requires Inv(w) && CanStart(w, i, nonce, id) && StartSucceeds(w, i, nonce) && w.owner != Some(i)
    ensures var c' := LockStored(Opened(w, i, nonce).value, HELD, id);
      OpenAllowed(c', w.remote) && AcquireAllowed(c', w.remote)
  {
    StarterReady(w, i, nonce);
    NotHeldForStrangers(w, i, nonce);
    StillPasses(Opened(w, i, nonce).value, w.remote, id);
  }

  lemma OwnRestartAfterFailure(n: Node, r: Remote, id: Id, used: set<Id>)
    requires OwnerOK(n, r) && n.phase == Down && LockOf(r).lockID.value in used && id !in used
    ensures var c' := LockStored(n.cache, HELD, id);
      OpenAllowed(c', r) && (AcquireAllowed(c', r) <==> LockOf(r).state == RELEASED)
  {
    FailedStartKeepsOwner(n, r, id);
    FailedWriteKeepsReady(n.cache, r, HELD, id);
    OwnerStarts(Node(LockStored(n.cache, HELD, id), Down, {}), r);
  }

  /** Using up a version and a lock ID changes nothing about a start under a lock that nobody holds. */
  lemma StillPasses(c: Cache, r: Remote, id: Id)
    requires OpenAllowed(c, r) && AcquireAllowed(c, r) && c.control.nextVersion >= 1
    requires ReadLock(r).FoundLock? ==> !IsHeld(ReadLock(r).lock)
    ensures OpenAllowed(LockStored(c, HELD, id), r) && AcquireAllowed(LockStored(c, HELD, id), r)
  {
    LockStoredShape(c, HELD, id);
  }

  /** A robot that did not own the lock last is let in only when nobody holds it. */
  lemma NotHeldForStrangers(w: World, i: nat, nonce: Id)
    requires Inv(w) && StartSucceeds(w, i, nonce) && nonce !in w.used && w.owner != Some(i)
    requires i in w.caches ==> w.caches[i].phase == Down
    ensures ReadLock(w.remote).FoundLock? ==> !IsHeld(ReadLock(w.remote).lock)
  {
    StarterReady(w, i, nonce);
    if w.owner.None? { assert !CanReclaim(Hydrated(w.remote, 0), LockData(HELD, None, None, 0)); }
  }

  // ---- how many failures a copy has left ----

  /**
    A copy of a brain that has been released, and that does not watch the lock,
    may fail exactly while it knows at most one version past the released one,
    and no other such copy knows less.
   */
  lemma FailuresLeft(w: World, i: nat, nonce: Id)
    requires Reachable(w) && w.owner.Some? && w.owner != Some(i) && nonce !in w.used
    requires i in w.caches && w.caches[i].phase == Down
    requires StartSucceeds(w, i, nonce) && !WatchesLock(w.caches[i].cache)
    ensures HasLock(w.remote)
    ensures FailureSafe(w, i, nonce) <==>
              var version := LatestVersion(w.caches[i].cache);
              version <= LockOf(w.remote).databaseVersion + 1 && KnowsLeast(w, i)
  {
    ReachableInv(w);
    var version, d := LatestVersion(w.caches[i].cache), LockOf(w.remote).databaseVersion;
    CopyIsCurrent(w, i, nonce);
    if NotAboveOthers(w, i, nonce) { CopyBounds(w, i, nonce); }
    if version <= d + 1 && KnowsLeast(w, i) {
      forall j, a | j != i && CanTakeOver(w, j, a)
        ensures ReservedVersion(w.caches[i].cache) <= ReservedVersion(Opened(w, j, a).value)
      {
        TakesOverAbove(w, j, a);
      }
    }
  }

  /** No other copy that a released lock lets in for its version knows a lower one. */
  ghost predicate KnowsLeast(w: World, i: nat)
    requires HasLock(w.remote) && i in w.caches
  {
    forall j :: j in w.caches && w.owner != Some(j) && j != i && Eligible(w.caches[j].cache, w.remote) ==>
      LatestVersion(w.caches[i].cache) <= LatestVersion(w.caches[j].cache)
  }

  lemma CopyIsCurrent(w: World, i: nat, nonce: Id)
    requires Inv(w) && w.owner.Some? && w.owner != Some(i) && nonce !in w.used
    requires i in w.caches && w.caches[i].phase == Down
    requires StartSucceeds(w, i, nonce) && !WatchesLock(w.caches[i].cache)
    ensures NothingMoreToFlush(w) && Pending(w.caches[w.owner.value].cache) == map[]
    ensures Eligible(w.caches[i].cache, w.remote) && w.caches[i].cache.control.lastCloudWrite.None?
  {
    OutsiderStarts(w.caches[i], w.caches[w.owner.value], w.remote, w.used);
    assert VersionWatched(w.caches[i].cache, w.caches[w.owner.value].cache, w.remote);
  }

  /**
    Whoever takes a released lock, other than an eligible copy, takes it at least two
    versions past the database version.
   */
  lemma TakesOverAbove(w: World, j: nat, a: Id)
    requires Inv(w) && w.owner.Some? && CanTakeOver(w, j, a) && LockOf(w.remote).state == RELEASED
    ensures ReservedVersion(Opened(w, j, a).value) >= LockOf(w.remote).databaseVersion + 2
            || (&& j in w.caches && w.owner != Some(j) && Eligible(w.caches[j].cache, w.remote)
                && ReservedVersion(Opened(w, j, a).value) == LatestVersion(w.caches[j].cache) + 1)
  {
    var n := w.caches[w.owner.value];
    if j !in w.caches {
      NewestOfReleased(n, w.remote, a);
    } else if w.owner != Some(j) {
      OutsiderStarts(w.caches[j], n, w.remote, w.used);
      if WatchesLock(w.caches[j].cache) { CopiedAboveLock(w.caches[j], n, w.remote, w.used); }
    }
  }

  /** A robot that did not own the lock last has passed every check, and its lock write fails. */
  ghost predicate Failing(w: World, i: nat, nonce: Id, id: Id) {
    Inv(w) && CanStart(w, i, nonce, id) && StartSucceeds(w, i, nonce) && w.owner != Some(i)
  }

  /** What such a robot works on. */
  lemma FailingCopy(w: World, i: nat, nonce: Id, id: Id)
    requires Failing(w, i, nonce, id)
    ensures var c := Opened(w, i, nonce).value;
      && ReadyToLock(c, w.remote) && Pending(c) == map[] && DataAgree(c, w.remote)
      && c.control.complete && CheckpointHolds(c, w.remote)
      && (!WatchesLock(c) ==> c.control.lastCloudWrite.None?)
  {
    StarterReady(w, i, nonce);
    if !WatchesLock(Opened(w, i, nonce).value) { NoCloudWrite(w, i, nonce); }
  }

  // ---- a stale start after the last flush of the owner ----

  /** The failing robot was new: it has a copy of the released brain, which the owner's last flush then changes. */
  lemma LateFlushMakesStale(w: World, i: nat, nonce: Id, id: Id)
    requires Failing(w, i, nonce, id) && !NothingMoreToFlush(w)
    ensures !NeverStale(AfterFailedStart(w, i, nonce, id))
  {
    LateFlush(w, i, nonce, id);
    StaleAfterOne(AfterFailedStart(w, i, nonce, id), i);
  }

  lemma LateFlush(w: World, i: nat, nonce: Id, id: Id)
    requires Failing(w, i, nonce, id) && !NothingMoreToFlush(w)
    ensures StaleSoon(AfterFailedStart(w, i, nonce, id), i)
  {
    var k := NextExists(Pending(w.caches[w.owner.value].cache));
    var b := FreshIds(w.used + {nonce, id});
    LateFlushIsStale(w, i, nonce, id, k, b);
  }

  lemma LateFlushIsStale(w: World, i: nat, nonce: Id, id: Id, k: Key, b: Id)
    requires Failing(w, i, nonce, id) && !NothingMoreToFlush(w)
    requires var c := w.caches[w.owner.value].cache;
      k in Pending(c) && forall j :: j in Pending(c) ==> c.outbox[k].version <= c.outbox[j].version
    requires b !in w.used + {nonce, id} && b + 1 !in w.used + {nonce, id}
    ensures StaleInOne(AfterFailedStart(w, i, nonce, id), LastFlush(w.owner.value, k, true), i, b, b + 1, k)
  {
    FailedStartShape(w, i, nonce, id);
    LastFlushPasses(w, i, nonce, id, k);
    CopyAcquiresAfterFlush(w, i, nonce, id, k, b + 1);
  }

  /** Once `e` has happened, robot `i` starts without the remote's record of `k`. */
  ghost predicate StaleInOne(w1: World, e: Event, i: nat, nonce: Id, id: Id, k: Key) {
    && Enabled(w1, e) && i in w1.caches && w1.caches[i].phase == Down
    && nonce !in w1.used && id !in w1.used && nonce != id
    && i in Next(w1, e).caches && Next(w1, e).caches[i] == w1.caches[i] && Next(w1, e).used == w1.used
    && var c, r := w1.caches[i].cache, Next(w1, e).remote;
    && OpenAllowed(c, r) && AcquireAllowed(c, r)
    && var s := LockWritten(c, r, HELD, id, true);
    k !in s.cache.outbox && !Agree(s.cache, s.remote, k)
  }

  ghost predicate StaleSoon(w1: World, i: nat) {
    exists e, nonce, id, k :: StaleInOne(w1, e, i, nonce, id, k)
  }

  lemma StaleAfterOne(w1: World, i: nat)
    requires StaleSoon(w1, i)
    ensures !NeverStale(w1)
  {
    var e, nonce, id, k :| StaleInOne(w1, e, i, nonce, id, k);
    OneEvent(w1, e);
    assert StartsStale(w1, [e], i, nonce, id);
  }

  lemma LastFlushPasses(w: World, i: nat, nonce: Id, id: Id, k: Key)
    requires Failing(w, i, nonce, id) && w.owner.Some? && w.caches[w.owner.value].phase == Ending
    requires var c := w.caches[w.owner.value].cache;
      k in Pending(c) && forall j :: j in Pending(c) ==> c.outbox[k].version <= c.outbox[j].version
    ensures var o, w1 := w.owner.value, AfterFailedStart(w, i, nonce, id);
      && Enabled(w1, LastFlush(o, k, true))
      && var w2 := Next(w1, LastFlush(o, k, true));
      && w2.remote == w.remote[k := Outgoing(w.caches[o].cache, k)] && w2.used == w1.used
      && i in w2.caches && w2.caches[i] == w1.caches[i]
  {
    FailedStartShape(w, i, nonce, id);
    OwnerReleased(w, i, nonce, id);
    LastFlushOf(AfterFailedStart(w, i, nonce, id), w.owner.value, k);
  }

  lemma OwnerReleased(w: World, i: nat, nonce: Id, id: Id)
    requires Failing(w, i, nonce, id) && w.owner.Some? && w.caches[w.owner.value].phase == Ending
    ensures WellFormed(w.caches[w.owner.value].cache) && LOCK_KEY !in w.caches[w.owner.value].cache.outbox
  {
    StarterReady(w, i, nonce);
  }

  lemma LastFlushOf(w: World, o: nat, k: Key)
    requires o in w.caches && w.caches[o].phase == Ending && w.owner == Some(o)
    requires WellFormed(w.caches[o].cache) && IsNext(w.caches[o].cache, k)
    ensures Enabled(w, LastFlush(o, k, true))
    ensures var c := w.caches[o].cache;
      Next(w, LastFlush(o, k, true)) == World(w.remote[k := Outgoing(c, k)],
                                              w.caches[o := w.caches[o].(cache := Pushed(c, k))], w.owner, w.used)
  {
    FlushIsPush(w.caches[o].cache, w.remote, k, true);
  }

  lemma CopyAcquiresAfterFlush(w: World, i: nat, nonce: Id, id: Id, k: Key, again: Id)
    requires Failing(w, i, nonce, id) && w.owner.Some? && !NothingMoreToFlush(w)
             && k in Pending(w.caches[w.owner.value].cache)
    ensures var c', r' := LockStored(Opened(w, i, nonce).value, HELD, id),
                          w.remote[k := Outgoing(w.caches[w.owner.value].cache, k)];
      && OpenAllowed(c', r') && AcquireAllowed(c', r')
      && var s := LockWritten(c', r', HELD, again, true);
      k !in s.cache.outbox && !Agree(s.cache, s.remote, k)
  {
    var n, r := w.caches[w.owner.value], w.remote;
    StarterReady(w, i, nonce);
    if i in w.caches { PassingOutsiderSeesNothingPending(w.caches[i], n, r, w.used); }
    NewestOfReleased(n, r, nonce);
    assert k in r ==> r[k].version < n.cache.outbox[k].version;
    HydratedAfterFlush(r, nonce, id, r[k := Outgoing(n.cache, k)], k, again);
  }

  /** A copy of `r` that has failed once, against a remote with a newer record for `k`. */
  lemma HydratedAfterFlush(r: Remote, nonce: Id, id: Id, r': Remote, k: Key, again: Id)
    requires Hydratable(r) && WatchesLock(Hydrated(r, nonce)) && k != LOCK_KEY
    requires HasLock(r) && LockOf(r).state == RELEASED && LockOf(r).databaseVersion <= LatestVersion(Hydrated(r, nonce))
    requires k in r' && r' == r[k := r'[k]] && (k in r ==> r[k].version < r'[k].version)
    ensures var c' := LockStored(Hydrated(r, nonce), HELD, id);
      && OpenAllowed(c', r') && AcquireAllowed(c', r')
      && var s := LockWritten(c', r', HELD, again, true);
      k !in s.cache.outbox && !Agree(s.cache, s.remote, k)
  {
    var c' := LockStored(Hydrated(r, nonce), HELD, id);
    HydratedReady(r, nonce);
    FailedWriteKeepsReady(Hydrated(r, nonce), r, HELD, id);
    FailedWriteKeepsAgreement(Hydrated(r, nonce), r, HELD, id);
    assert Agree(c', r, k);
    CopyAcquires(c', r', k, again);
  }

  lemma PassingOutsiderSeesNothingPending(x: Node, n: Node, r: Remote, used: set<Id>)
    requires OwnerOK(n, r) && OutsiderOK(x, n, r, used) && n.phase == Ending
    requires OpenAllowed(x.cache, r) && AcquireAllowed(x.cache, r)
    ensures Pending(n.cache) == map[]
  {
    OutsiderStarts(x, n, r, used);
    assert !LockDead(x.cache, r, used);
  }

  // ---- a stale start after another robot has held the lock ----

  /** The other robot starts, stores and pushes one key, and releases: the copy already knows that version. */
  lemma HolderMakesStale(w: World, i: nat, nonce: Id, id: Id, j: nat, a: Id)
    requires Failing(w, i, nonce, id) && NothingMoreToFlush(w) && !WatchesLock(Opened(w, i, nonce).value)
    requires j != i && CanTakeOver(w, j, a)
    requires ReservedVersion(Opened(w, j, a).value) < ReservedVersion(Opened(w, i, nonce).value)
    ensures !NeverStale(AfterFailedStart(w, i, nonce, id))
  {
    OtherStage(w, i, nonce, id, j, a);
    StagedIsStale(AfterFailedStart(w, i, nonce, id), i);
  }

  lemma OtherStage(w: World, i: nat, nonce: Id, id: Id, j: nat, a: Id)
    requires Failing(w, i, nonce, id) && NothingMoreToFlush(w) && !WatchesLock(Opened(w, i, nonce).value)
    requires j != i && CanTakeOver(w, j, a)
    requires ReservedVersion(Opened(w, j, a).value) < ReservedVersion(Opened(w, i, nonce).value)
    ensures StagedSoon(AfterFailedStart(w, i, nonce, id), i)
  {
    var b := FreshIds(w.used + {nonce, id});
    var w2 := OtherTakesOver(w, i, nonce, id, j, a, b);
    FailingCopy(w, i, nonce, id);
    assert Staged(AfterFailedStart(w, i, nonce, id), Start(j, b, b + 1), w2, w.remote, i,
                  Opened(w, i, nonce).value, id, j, ReservedVersion(Opened(w, j, a).value), b + 2, b + 3);
  }

  /** A copy of `r` that does not watch the lock and knows more than `version`. */
  ghost predicate Ahead(c: Cache, r: Remote, version: nat) {
    && ReadyToLock(c, r) && Pending(c) == map[] && DataAgree(c, r)
    && c.control.lastCloudWrite.None? && CheckpointHolds(c, r) && !WatchesLock(c)
    && version < c.control.nextVersion
  }

  /** The copy has failed, and the other robot has started. */
  ghost predicate Staged(w1: World, e: Event, w2: World, r: Remote, i: nat, c: Cache, id: Id, j: nat, version: nat,
                         nonce: Id, id': Id) {
    && Leads(w1, e, w2) && Ahead(c, r, version) && OtherRuns(r, i, LockStored(c, HELD, id), j, w2, version)
    && nonce !in w2.used && id' !in w2.used && nonce != id'
  }

  ghost predicate StagedSoon(w1: World, i: nat) {
    exists e, w2, r, c, id, j, version, nonce, id' :: Staged(w1, e, w2, r, i, c, id, j, version, nonce, id')
  }

  lemma StagedIsStale(w1: World, i: nat)
    requires StagedSoon(w1, i)
    ensures !NeverStale(w1)
  {
    var e, w2, r, c, id, j, version, nonce, id' :| Staged(w1, e, w2, r, i, c, id, j, version, nonce, id');
    OtherMakesStale(w1, e, w2, r, i, c, id, j, version, nonce, id');
  }

  lemma OtherMakesStale(w1: World, e: Event, w2: World, r: Remote, i: nat, c: Cache, id: Id, j: nat, version: nat,
                        nonce: Id, id': Id)
    requires Staged(w1, e, w2, r, i, c, id, j, version, nonce, id')
    ensures !NeverStale(w1)
  {
    OneEvent(w1, e);
    var t := OtherKey(c);
    var es, w3 := StoreAndPush(w1, [e], w2, j, t, P);
    EndIsStaged(w2, r, i, c, id, j, version, nonce, id', t, w3);
    StaleAfterRelease(w1, es, w3, j, i, nonce, id', t);
  }

  lemma EndIsStaged(w2: World, r: Remote, i: nat, c: Cache, id: Id, j: nat, version: nat, nonce: Id, id': Id,
                    t: Key, w3: World)
    requires Ahead(c, r, version) && OtherRuns(r, i, LockStored(c, HELD, id), j, w2, version)
    requires nonce !in w2.used && id' !in w2.used && nonce != id'
    requires t != LOCK_KEY && !(c.control.checkpoint.Some? && c.control.checkpoint.value.key == t)
    requires Running(w3, j) && w3.caches[j].cache.outbox == map[] && w3.used == w2.used && i in w3.caches
    requires w3.caches[j].cache.control.nextVersion == version + 2 && w3.remote == w2.remote[t := Rec(version + 1, P)]
    requires w3.caches[i] == w2.caches[i]
    ensures EndStaged(w3, j, i, nonce, id', t)
  {
    MisledBy(c, r, id, w3.remote, w3.caches[j].cache, t, version + 1);
  }

  /** Only the release and the copy's start are left to happen. */
  ghost predicate EndStaged(w: World, j: nat, i: nat, nonce: Id, id: Id, t: Key) {
    && Running(w, j) && i in w.caches && i != j && w.caches[i].phase == Down && w.caches[j].cache.outbox == map[]
    && Misled(w.caches[i].cache, w.remote, w.caches[j].cache, t)
    && nonce !in w.used && id !in w.used && nonce != id
  }

  lemma StaleAfterRelease(w1: World, es: seq<Event>, w: World, j: nat, i: nat, nonce: Id, id: Id, t: Key)
    requires IsRun(w1, es) && After(w1, es) == w && EndStaged(w, j, i, nonce, id, t)
    ensures !NeverStale(w1)
  {
    CopyStartsStale(w, j, i, nonce, id, t);
    var all := Extend(w1, es, w, Release(j, true));
    assert StartsStale(w1, all, i, nonce, id);
  }

  /** A key that the cache's checkpoint does not name. */
  lemma OtherKey(c: Cache) returns (t: Key)
    ensures t != LOCK_KEY && !(c.control.checkpoint.Some? && c.control.checkpoint.value.key == t)
  {
    KeysDiffer();
    t := if c.control.checkpoint.Some? && c.control.checkpoint.value.key == A then B else A;
  }

  /** The world in which the other robot has just started, as far as the continuation needs it. */
  ghost predicate OtherRuns(r: Remote, i: nat, x: Cache, j: nat, w2: World, version: nat) {
    && Running(w2, j) && WellFormed(w2.caches[j].cache) && w2.caches[j].cache.outbox == map[]
    && w2.caches[j].cache.control.nextVersion == version + 1
    && CheckpointVersion(w2.caches[j].cache.control) <= version + 1
    && i in w2.caches && i != j && w2.caches[i] == Node(x, Down, {})
    && (forall k :: k != LOCK_KEY ==> (k in r <==> k in w2.remote) && (k in r ==> r[k] == w2.remote[k]))
    && DataBelow(r, version)
  }

  lemma OtherTakesOver(w: World, i: nat, nonce: Id, id: Id, j: nat, a: Id, b: Id) returns (w2: World)
    requires Failing(w, i, nonce, id) && !WatchesLock(Opened(w, i, nonce).value)
    requires j != i && CanTakeOver(w, j, a)
    requires b !in w.used + {nonce, id} && b + 1 !in w.used + {nonce, id}
    ensures Leads(AfterFailedStart(w, i, nonce, id), Start(j, b, b + 1), w2)
    ensures w2.used == w.used + {nonce, id} + {b, b + 1}
    ensures OtherRuns(w.remote, i, LockStored(Opened(w, i, nonce).value, HELD, id), j, w2,
                      ReservedVersion(Opened(w, j, a).value))
  {
    var w1 := AfterFailedStart(w, i, nonce, id);
    FailedStartShape(w, i, nonce, id);
    SameOpening(w, w1, j, a, b);
    assert CanTakeOver(w, j, b);
    PendingGone(w, i, nonce, j, b);
    OtherOwner(w, j, b, b + 1);
    SuccessShape(w1, j, b, b + 1);
    w2 := Next(w1, Start(j, b, b + 1));
    OtherRunsNow(w1, i, j, Opened(w, j, b).value, b + 1, w2);
  }

  lemma OtherRunsNow(w1: World, i: nat, j: nat, c: Cache, id: Id, w2: World)
    requires OwnsNow(c, w1.remote, id) && i in w1.caches && i != j && w1.caches[i].phase == Down
             && w1.caches[i].picks == {}
    requires var s := LockWritten(c, w1.remote, HELD, id, true);
      w2.remote == s.remote && w2.caches == w1.caches[j := Node(s.cache, Up, {})]
    ensures OtherRuns(w1.remote, i, w1.caches[i].cache, j, w2, ReservedVersion(c))
  {}

  /** What the lock write of a cache with nothing pending leaves. */
  ghost predicate OwnsNow(c: Cache, r: Remote, id: Id) {
    var s := LockWritten(c, r, HELD, id, true);
    && c.control.nextVersion >= 1
    && WellFormed(s.cache) && s.cache.outbox == map[]
    && s.cache.control.nextVersion == c.control.nextVersion + 1
    && CheckpointVersion(s.cache.control) <= s.cache.control.nextVersion
    && LOCK_KEY in s.remote && s.remote == r[LOCK_KEY := s.remote[LOCK_KEY]]
    && DataBelow(r, c.control.nextVersion)
  }

  /** The directory of the other robot once it has the lock. */
  lemma OtherOwner(w: World, j: nat, b: Id, id: Id)
    requires Inv(w) && CanTakeOver(w, j, b) && Pending(Opened(w, j, b).value) == map[]
    ensures OwnsNow(Opened(w, j, b).value, w.remote, id)
  {
    StarterReady(w, j, b);
    LockWriteMakesOwner(Opened(w, j, b).value, w.remote, id);
  }

  /** A start passes whatever nonce it would draw, and whatever other directories have become. */
  lemma SameOpening(w: World, w1: World, j: nat, a: Id, b: Id)
    requires StartSucceeds(w, j, a) && w1.remote == w.remote && (j in w.caches <==> j in w1.caches)
    requires j in w.caches ==> w1.caches[j] == w.caches[j]
    ensures StartSucceeds(w, j, b) && StartSucceeds(w1, j, b)
    ensures Opened(w1, j, b) == Opened(w, j, b)
    ensures Opened(w, j, b).value.control.nextVersion == Opened(w, j, a).value.control.nextVersion
  {
    if j !in w.caches {
      InvitingAny(w.remote, a);
      InvitingAny(w.remote, b);
    }
  }

  /** While a copy could start that does not watch the lock, nobody has data pending that matters. */
  lemma PendingGone(w: World, i: nat, nonce: Id, j: nat, b: Id)
    requires Inv(w) && StartSucceeds(w, i, nonce) && nonce !in w.used && (i in w.caches ==> w.caches[i].phase == Down)
    requires w.owner != Some(i) && !WatchesLock(Opened(w, i, nonce).value)
    requires CanTakeOver(w, j, b)
    ensures Pending(Opened(w, j, b).value) == map[]
  {
    StarterReady(w, j, b);
    if w.owner == Some(j) {
      if i in w.caches { CopyIsCurrent(w, i, nonce); }
      else {
        StarterReady(w, i, nonce);
        NewestOfReleased(w.caches[j], w.remote, nonce);
      }
    }
  }

  lemma StoreAndPush(w0: World, before: seq<Event>, w: World, j: nat, t: Key, p: Payload)
    returns (es: seq<Event>, w': World)
    requires IsRun(w0, before) && After(w0, before) == w && t != LOCK_KEY
    requires Running(w, j) && WellFormed(w.caches[j].cache) && w.caches[j].cache.outbox == map[]
    ensures IsRun(w0, es) && After(w0, es) == w'
    ensures Running(w', j) && w'.caches[j].cache.outbox == map[]
    ensures w'.caches[j].cache.control.nextVersion == w.caches[j].cache.control.nextVersion + 1
    ensures w'.remote == w.remote[t := Rec(w.caches[j].cache.control.nextVersion, p)]
    ensures w'.used == w.used && w'.caches.Keys == w.caches.Keys
    ensures forall k :: k in w.caches && k != j ==> w'.caches[k] == w.caches[k]
  {
    var c := w.caches[j].cache;
    var w1 := Next(w, Store(j, t, p));
    StoredWellFormed(c, t, p);
    assert IsNext(Stored(c, t, p), t);
    PickAndSync(w1, j, t);
    es := Extend(w0, before, w, Store(j, t, p));
    es := Extend(w0, es, w1, PickNext(j, t));
    var pick := Pick(t, w1.caches[j].cache.outbox[t].version);
    es := Extend(w0, es, Next(w1, PickNext(j, t)), SyncPicked(j, pick, true));
    w' := WithNext(w1, j, t);
    assert Pushed(Stored(c, t, p), t).outbox == map[];
  }

  /** A copy of `r` that does not watch the lock, against a remote that has gained one data record. */
  lemma MisledBy(c: Cache, r: Remote, id: Id, r': Remote, holder: Cache, t: Key, version: nat)
    requires version > 0
    requires Ahead(c, r, version - 1)
    requires t != LOCK_KEY && !(c.control.checkpoint.Some? && c.control.checkpoint.value.key == t)
    requires forall k :: k != LOCK_KEY && k != t ==> (k in r <==> k in r') && (k in r ==> r[k] == r'[k])
    requires t in r' && r'[t].version == version && (t in r ==> r[t].version < version)
    requires holder.control.nextVersion == version + 1
    ensures Misled(LockStored(c, HELD, id), r', holder, t)
  {
    LockStoredShape(c, HELD, id);
    FailedWriteKeepsReady(c, r, HELD, id);
    assert Agree(c, r, t);
  }

  lemma NoCloudWrite(w: World, i: nat, nonce: Id)
    requires Inv(w) && StartSucceeds(w, i, nonce) && nonce !in w.used && (i in w.caches ==> w.caches[i].phase == Down)
    requires w.owner != Some(i) && !WatchesLock(Opened(w, i, nonce).value)
    ensures Opened(w, i, nonce).value.control.lastCloudWrite.None?
    ensures Opened(w, i, nonce).value.control.complete && CheckpointHolds(Opened(w, i, nonce).value, w.remote)
  {
    StarterReady(w, i, nonce);
    if w.owner.Some? && i in w.caches { CopyIsCurrent(w, i, nonce); }
    if i !in w.caches { HydratedReady(w.remote, nonce); }
  }

  // ---- a run that gets there ----

  /** Robot `m` is a copy at the released database version. */
  ghost predicate LetIn(w: World, i: nat, m: nat) {
    && w.owner == Some(i) && m != i && m in w.caches && w.caches[m].phase == Down
    && !WatchesLock(w.caches[m].cache)
    && OpenAllowed(w.caches[m].cache, w.remote) && AcquireAllowed(w.caches[m].cache, w.remote)
  }

  /** A running robot pushes its newest write, a copy is made and refused, and the robot releases. */
  lemma MakeCopy(w: World, i: nat, k: Key) returns (w': World, m: nat)
    requires Reachable(w) && Running(w, i) && OnlyNewest(w.caches[i].cache, k)
    ensures Reachable(w') && LetIn(w', i, m)
  {
    var a := FreshIds(w.used);
    m := FreshNat(w.caches.Keys);
    PushNewest(w, i, k);
    w' := CopyAndRelease(w, i, k, m, a);
  }

  lemma PushNewest(w: World, i: nat, k: Key)
    requires Reachable(w) && Running(w, i) && OnlyNewest(w.caches[i].cache, k)
    ensures w.owner == Some(i) && OwnerOK(w.caches[i], w.remote) && Reachable(WithNext(w, i, k))
  {
    ReachableInv(w);
    RunningIsOwner(w, i);
    PushedAlone(w.caches[i], w.remote, k);
    PickAndSync(w, i, k);
    EventStaysReachable(w, PickNext(i, k));
    EventStaysReachable(Next(w, PickNext(i, k)), SyncPicked(i, Pick(k, w.caches[i].cache.outbox[k].version), true));
  }

  lemma CopyAndRelease(w: World, i: nat, k: Key, m: nat, a: Id) returns (w': World)
    requires Running(w, i) && OnlyNewest(w.caches[i].cache, k) && w.owner == Some(i)
    requires OwnerOK(w.caches[i], w.remote) && Reachable(WithNext(w, i, k))
    requires m !in w.caches && a !in w.used && a + 1 !in w.used
    ensures Reachable(w') && LetIn(w', i, m)
  {
    var n, w1 := w.caches[i], WithNext(w, i, k);
    PushedAlone(n, w.remote, k);
    HydratesAndIsRefused(w1, m, a, a + 1);
    EventStaysReachable(w1, Start(m, a, a + 1));
    var w2 := Next(w1, Start(m, a, a + 1));
    assert w2.caches[i].cache == Pushed(n.cache, k) && w2.remote == w1.remote;
    EventStaysReachable(w2, Release(i, true));
    w' := Next(w2, Release(i, true));
    CopyPasses(n, w.remote, k, a);
    assert w'.caches[m] == w2.caches[m];
  }

  ghost predicate OnlyNewest(c: Cache, k: Key) {
    k != LOCK_KEY && k in c.outbox && c.outbox.Keys == {k} && c.outbox[k].version == LatestVersion(c)
  }

  lemma PushedAlone(n: Node, r: Remote, k: Key)
    requires OwnerOK(n, r) && n.phase == Up && OnlyNewest(n.cache, k)
    ensures IsNext(n.cache, k)
    ensures var r1 := r[k := Outgoing(n.cache, k)];
      Hydratable(r1) && ReadLock(r1).FoundLock? && IsHeld(ReadLock(r1).lock)
  {
    PushKeepsHydratable(n.cache, r, k);
  }

  lemma CopyPasses(n: Node, r: Remote, k: Key, a: Id)
    requires OwnerOK(n, r) && n.phase == Up && OnlyNewest(n.cache, k)
    ensures var r1 := r[k := Outgoing(n.cache, k)];
      var copy, r' := Hydrated(r1, a), LockWritten(Pushed(n.cache, k), r1, RELEASED, 0, true).remote;
      !WatchesLock(copy) && OpenAllowed(copy, r') && AcquireAllowed(copy, r')
  {
    var c, r1 := n.cache, r[k := Outgoing(n.cache, k)];
    PushKeepsHydratable(c, r, k);
    NewestInRemote(n, r, k);
    CopyOfNewest(c, r1, k, a);
    LockWriteShape(Pushed(c, k), r1, RELEASED, 0);
  }

  lemma NewestInRemote(n: Node, r: Remote, k: Key)
    requires OwnerOK(n, r) && OnlyNewest(n.cache, k)
    ensures forall j :: j in r && j != k ==> r[j].version < n.cache.outbox[k].version
  {
    assert k in Pending(n.cache);
    assert r[LOCK_KEY].version != n.cache.outbox[k].version;
  }

  /** A copy that keeps failing comes to a failure that is not safe, after at most as many as its room allows. */
  lemma {:induction false} FailUntilUnsafe(w: World, i: nat, m: nat) returns (w': World, nonce: Id, id: Id)
    requires Reachable(w) && LetIn(w, i, m) && HasLock(w.remote)
    ensures Reachable(w') && CanStart(w', m, nonce, id) && StartSucceeds(w', m, nonce) && !FailureSafe(w', m, nonce)
    decreases LockOf(w.remote).databaseVersion + 3 - LatestVersion(w.caches[m].cache)
  {
    nonce := FreshIds(w.used);
    id := nonce + 1;
    FailuresLeft(w, m, nonce);
    if FailureSafe(w, m, nonce) {
      var w1 := AfterFailedStart(w, m, nonce, id);
      EventStaysReachable(w, FailedStart(m, nonce, id));
      FailureKeepsLetIn(w, i, m, nonce, id);
      w', nonce, id := FailUntilUnsafe(w1, i, m);
    } else {
      w' := w;
    }
  }

  lemma FailureKeepsLetIn(w: World, i: nat, m: nat, nonce: Id, id: Id)
    requires Reachable(w) && LetIn(w, i, m) && CanStart(w, m, nonce, id)
    ensures var w1 := AfterFailedStart(w, m, nonce, id);
      LetIn(w1, i, m) && w1.remote == w.remote
      && LatestVersion(w1.caches[m].cache) == LatestVersion(w.caches[m].cache) + 1
  {
    ReachableInv(w);
    FailedStartRestarts(w, m, nonce, id, nonce);
    FailedStartShape(w, m, nonce, id);
    StarterReady(w, m, nonce);
    FailedWriteKeepsReady(w.caches[m].cache, w.remote, HELD, id);
  }

  /** Such a failure is reachable, and a stale start can follow it. */
  lemma FailedStartsAdmitStaleStart() returns (w: World, m: nat, nonce: Id, id: Id)
    ensures Reachable(w) && CanStart(w, m, nonce, id) && StartSucceeds(w, m, nonce)
    ensures !NeverStale(AfterFailedStart(w, m, nonce, id))
  {
    PendingIsReachable();
    KeysDiffer();
    var w1: World;
    w1, m := MakeCopy(RobotAt(STORED_A, {}), 0, A);
    ReachableInv(w1);
    w, nonce, id := FailUntilUnsafe(w1, 0, m);
    FailedStartSafeExactly(w, m, nonce, id);
  }
}
