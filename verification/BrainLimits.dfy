/**
  The flush step that the events of `BrainProtocol` leave out, and what exactly
  it breaks.

  `Flush` chooses the lowest pending entry, lets go of the mutex, and then syncs
  whatever is pending for that key.  A store to the key in between can make it
  push the newest version of all past older pending ones.  Exactly then some
  continuation of the run has a stale start.
 */
module BrainLimits {
  import opened Options
  import opened BrainModel
  import opened BrainProtocol
  import opened BrainTheorems
  import KeyOrder

  // ---- flushing whatever is pending for a picked key ----

  /** The flush step of the code, whatever happened since the key was picked. */
  function FlushStep(w: World, i: nat, key: Key): World
    requires i in w.caches
  {
    var s := SyncKey(w.caches[i].cache, w.remote, key, true);
    WithCache(w, i, s.cache).(remote := s.remote)
  }

  /** After the run `es`, robot `i` starts although some key it has nothing pending for differs from the remote. */
  ghost predicate StartsStale(w: World, es: seq<Event>, i: nat, nonce: Id, id: Id) {
    && IsRun(w, es)
    && var w1 := After(w, es);
    && Enabled(w1, Start(i, nonce, id)) && StartSucceeds(w1, i, nonce)
    && i in Next(w1, Start(i, nonce, id)).caches
    && !UpToDate(Next(w1, Start(i, nonce, id)), i)
  }

  ghost predicate NeverStale(w: World) {
    forall es, i, nonce, id :: !StartsStale(w, es, i, nonce, id)
  }

  /**
    A flush step leaves every later start up to date exactly when it does not
    push the newest local version of all while something else is pending.
   */
  lemma FlushStepSafeExactly(w: World, i: nat, pick: Pick)
    requires Reachable(w) && Running(w, i) && pick in w.caches[i].picks
    ensures NeverStale(FlushStep(w, i, pick.key)) <==> FlushInOrder(w.caches[i].cache, pick.key)
  {
    if FlushInOrder(w.caches[i].cache, pick.key) {
      ReachableInv(w);
      EventKeepsInv(w, FlushPicked(i, pick, true));
      SoundIsNeverStale(FlushStep(w, i, pick.key));
    } else {
      var m := FreshNat(w.caches.Keys);
      var a := FreshIds(w.used);
      StaleContinuation(w, i, pick, m, a);
    }
  }

  lemma SoundIsNeverStale(w: World)
    requires Inv(w)
    ensures NeverStale(w)
  {
    forall es, i, nonce, id ensures !StartsStale(w, es, i, nonce, id) {
      if StartsStale(w, es, i, nonce, id) {
        RunKeepsInv(w, es);
        StartIsUpToDate(After(w, es), i, nonce, id);
      }
    }
  }

  // ---- the continuation with a stale start ----

  lemma Extend(w0: World, es: seq<Event>, w: World, e: Event) returns (es': seq<Event>)
    requires IsRun(w0, es) && After(w0, es) == w && Enabled(w, e)
    ensures es' == es + [e] && IsRun(w0, es') && After(w0, es') == Next(w, e)
  {
    es' := es + [e];
    RunExtends(w0, es, e);
  }

  lemma FreshIds(used: set<Id>) returns (a: Id)
    ensures a !in used && a + 1 !in used
    ensures a + 2 !in used + {a, a + 1} && a + 3 !in used + {a, a + 1}
  {
    a := FreshNat(used);
  }

  /** The cache that hydrates right after the newest version has been pushed out of order. */
  lemma CopyOfNewest(c: Cache, r: Remote, k: Key, nonce: Id)
    requires WellFormed(c) && k in c.outbox && Hydratable(r)
    requires forall j :: j in r ==> r[j].version < c.outbox[k].version || j == k
    requires k in r && r[k].version == c.outbox[k].version
    ensures var copy := Hydrated(r, nonce);
      && copy.control ==
         Control(true, r[k].version + 1, Some(Checkpoint(k, r[k].version, r[k].checksum)), nonce, None, None)
      && copy.outbox == map[]
  {
    KeyOrder.LeqReflexive(k);
    assert IsNewest(r, k);
    NewestUnique(r, k, Newest(r));
  }

  /** `k` is pending at the newest version of all, and the remote takes a push of it past the rest. */
  ghost predicate OutOfOrder(c: Cache, r: Remote, k: Key) {
    && WellFormed(c) && PendingAbove(c, r)
    && k in c.outbox && k != LOCK_KEY && LOCK_KEY !in c.outbox
    && c.outbox[k].version == LatestVersion(c)
    && (forall j :: j in r && j != k ==> r[j].version < LatestVersion(c))
    && Hydratable(r[k := Outgoing(c, k)])
  }

  lemma OutOfOrderPush(n: Node, r: Remote, k: Key)
    requires OwnerOK(n, r) && n.phase == Up && k in n.cache.outbox && !MayPush(n.cache, k)
    ensures OutOfOrder(n.cache, r, k)
  {
    PushKeepsHydratable(n.cache, r, k);
    assert LatestVersion(n.cache) != r[LOCK_KEY].version;
  }

  /** While the lock is held, a new directory hydrates and is refused. */
  lemma HydratesAndIsRefused(w: World, m: nat, nonce: Id, id: Id)
    requires m !in w.caches && nonce !in w.used && id !in w.used && nonce != id
    requires Hydratable(w.remote) && ReadLock(w.remote).FoundLock? && IsHeld(ReadLock(w.remote).lock)
    ensures Enabled(w, Start(m, nonce, id))
    ensures Next(w, Start(m, nonce, id)) ==
            w.(used := w.used + {nonce, id}, caches := w.caches[m := Node(Hydrated(w.remote, nonce), Down, {})])
  {
    assert !AcquireAllowed(Hydrated(w.remote, nonce), w.remote);
  }

  /** What a complete flush of robot `i` leaves. */
  ghost predicate Flushed(w: World, w': World, i: nat) {
    && Running(w, i) && Running(w', i) && WellFormed(w.caches[i].cache)
    && w'.caches.Keys == w.caches.Keys && w'.used == w.used
    && (forall j :: j in w.caches && j != i ==> w'.caches[j] == w.caches[j])
    && var c, c' := w.caches[i].cache, w'.caches[i].cache;
    && c'.outbox == map[]
    && c'.control.nextVersion == c.control.nextVersion
    && w'.remote == AllPushed(c, w.remote)
  }

  /** One pick and one sync push the lowest pending entry. */
  lemma PickAndSync(w: World, i: nat, k: Key)
    requires Running(w, i) && WellFormed(w.caches[i].cache) && IsNext(w.caches[i].cache, k)
    ensures var n := w.caches[i];
      var pick := Pick(k, n.cache.outbox[k].version);
      && Enabled(w, PickNext(i, k))
      && var w1 := Next(w, PickNext(i, k));
      && Enabled(w1, SyncPicked(i, pick, true))
      && Next(w1, SyncPicked(i, pick, true)) == WithNext(w, i, k)
  {
    var n := w.caches[i];
    var w1 := Next(w, PickNext(i, k));
    assert w1.caches[i] == n.(picks := n.picks + {Pick(k, n.cache.outbox[k].version)});
  }

  /** The world once `k` has been picked and pushed. */
  ghost function WithNext(w: World, i: nat, k: Key): World
    requires Running(w, i) && WellFormed(w.caches[i].cache) && k in w.caches[i].cache.outbox
  {
    var n := w.caches[i];
    w.(remote := w.remote[k := Outgoing(n.cache, k)],
       caches := w.caches[i := Node(Pushed(n.cache, k), Up, n.picks + {Pick(k, n.cache.outbox[k].version)})])
  }

  /** The run `before` goes on until robot `i` has pushed everything. */
  lemma {:induction false} FlushAll(w0: World, before: seq<Event>, w: World, i: nat) returns (es: seq<Event>, w': World)
    requires IsRun(w0, before) && After(w0, before) == w
    requires Running(w, i) && WellFormed(w.caches[i].cache)
    ensures IsRun(w0, es) && After(w0, es) == w' && Flushed(w, w', i)
    decreases |w.caches[i].cache.outbox.Keys|
  {
    var c := w.caches[i].cache;
    if c.outbox == map[] {
      es, w' := before, w;
      assert AllPushed(c, w.remote) == w.remote;
    } else {
      var k := NextExists(c.outbox);
      PickAndSync(w, i, k);
      es := Extend(w0, before, w, PickNext(i, k));
      es := Extend(w0, es, Next(w, PickNext(i, k)), SyncPicked(i, Pick(k, c.outbox[k].version), true));
      FlushesOneLess(w, i, k);
      es, w' := FlushAll(w0, es, WithNext(w, i, k), i);
      FlushedFirst(w, i, k, w');
    }
  }

  lemma FlushesOneLess(w: World, i: nat, k: Key)
    requires Running(w, i) && WellFormed(w.caches[i].cache) && k in w.caches[i].cache.outbox
    ensures var w1 := WithNext(w, i, k);
      && Running(w1, i) && WellFormed(w1.caches[i].cache)
      && |w1.caches[i].cache.outbox.Keys| < |w.caches[i].cache.outbox.Keys|
  {
    var c := w.caches[i].cache;
    PushedWellFormed(c, k);
    assert Pushed(c, k).outbox.Keys == c.outbox.Keys - {k};
  }

  lemma FlushedFirst(w: World, i: nat, k: Key, w': World)
    requires Running(w, i) && WellFormed(w.caches[i].cache) && k in w.caches[i].cache.outbox
    requires Flushed(WithNext(w, i, k), w', i)
    ensures Flushed(w, w', i)
  {
    PushedFirst(w.caches[i].cache, w.remote, k);
  }

  lemma PushedFirst(c: Cache, r: Remote, k: Key)
    requires WellFormed(c) && k in c.outbox
    ensures WellFormed(Pushed(c, k))
    ensures AllPushed(Pushed(c, k), r[k := Outgoing(c, k)]) == AllPushed(c, r)
  {
    PushedWellFormed(c, k);
    var c' := Pushed(c, k);
    var all, rest := map j | j in c.outbox :: Outgoing(c, j), map j | j in c'.outbox :: Outgoing(c', j);
    forall j | j in rest ensures rest[j] == all[j] { PushedKeepsOutgoing(c, k, j); }
    InsertedFirst(r, k, all, rest);
  }

  lemma PushedKeepsOutgoing(c: Cache, k: Key, j: Key)
    requires WellFormed(c) && k in c.outbox && j in c.outbox
    ensures Outgoing(Pushed(c, k), j) == Outgoing(c, j)
  {}

  lemma InsertedFirst(r: Remote, k: Key, all: Remote, rest: Remote)
    requires k in all && rest.Keys == all.Keys - {k} && forall j :: j in rest ==> rest[j] == all[j]
    ensures r[k := all[k]] + rest == r + all
  {}

  /** Hydrate a copy, flush the rest, release: the copy then starts without a record the remote has. */
  lemma StaleContinuation(w: World, i: nat, pick: Pick, m: nat, a: Id)
    requires Reachable(w) && Running(w, i) && !FlushInOrder(w.caches[i].cache, pick.key)
    requires m !in w.caches && a !in w.used && a + 1 !in w.used
    requires a + 2 !in w.used + {a, a + 1} && a + 3 !in w.used + {a, a + 1}
    ensures !NeverStale(FlushStep(w, i, pick.key))
  {
    var w2, j := CopyIsSet(w, i, pick, m, a);
    StaleEnd(FlushStep(w, i, pick.key), Start(m, a, a + 1), w2, i, m, a + 2, a + 3, j);
  }

  ghost predicate Leads(w: World, e: Event, w': World) {
    Enabled(w, e) && w' == Next(w, e)
  }

  lemma OthersPending(c: Cache, k: Key)
    requires k in c.outbox && c.outbox.Keys != {k}
    ensures exists j :: j in c.outbox.Keys - {k}
  {
    assert forall j :: j in c.outbox.Keys ==> j == k || j in c.outbox.Keys - {k};
  }

  lemma CopyIsSet(w: World, i: nat, pick: Pick, m: nat, a: Id) returns (w2: World, j: Key)
    requires Reachable(w) && Running(w, i) && !FlushInOrder(w.caches[i].cache, pick.key)
    requires m !in w.caches && a !in w.used && a + 1 !in w.used
    ensures Leads(FlushStep(w, i, pick.key), Start(m, a, a + 1), w2)
    ensures w2.used == w.used + {a, a + 1} && CopyStands(w2, i, m, j)
  {
    OutOfOrderInWorld(w, i, pick.key);
    var c, k := w.caches[i].cache, pick.key;
    OthersPending(c, k);
    j :| j in c.outbox.Keys - {k};
    CopyIsMisled(c, w.remote, k, j, a, Pushed(c, k));
    w2 := CopyJoins(w, i, pick, m, a);
    CopyStandsNow(w, i, m, w2, Pushed(c, k), Hydrated(w.remote[k := Outgoing(c, k)], a), j);
  }

  lemma CopyStandsNow(w: World, i: nat, m: nat, w2: World, c: Cache, copy: Cache, j: Key)
    requires Running(w, i) && m !in w.caches && WellFormed(c)
    requires w2.caches == w.caches[i := w.caches[i].(cache := c)][m := Node(copy, Down, {})]
    requires Misled(copy, AllPushed(c, w2.remote), c, j)
    ensures CopyStands(w2, i, m, j)
  {}

  lemma OutOfOrderInWorld(w: World, i: nat, k: Key)
    requires Reachable(w) && Running(w, i) && !FlushInOrder(w.caches[i].cache, k)
    ensures OutOfOrder(w.caches[i].cache, w.remote, k)
    ensures ReadLock(w.remote).FoundLock? && IsHeld(ReadLock(w.remote).lock)
  {
    ReachableInv(w);
    RunningIsOwner(w, i);
    OutOfOrderPush(w.caches[i], w.remote, k);
  }

  lemma StaleEnd(w1: World, copies: Event, w2: World, i: nat, m: nat, nonce: Id, id: Id, j: Key)
    requires Leads(w1, copies, w2) && CopyStands(w2, i, m, j)
    requires nonce !in w2.used && id !in w2.used && nonce != id
    ensures !NeverStale(w1)
  {
    OneEvent(w1, copies);
    var es, w3 := FlushAll(w1, [copies], w2, i);
    CopyStartsStale(w3, i, m, nonce, id, j);
    es := Extend(w1, es, w3, Release(i, true));
    assert StartsStale(w1, es, m, nonce, id);
  }

  lemma CopyJoins(w: World, i: nat, pick: Pick, m: nat, a: Id) returns (w2: World)
    requires Running(w, i) && OutOfOrder(w.caches[i].cache, w.remote, pick.key)
    requires ReadLock(w.remote).FoundLock? && IsHeld(ReadLock(w.remote).lock)
    requires m !in w.caches && a !in w.used && a + 1 !in w.used
    ensures var w1 := FlushStep(w, i, pick.key);
      && Enabled(w1, Start(m, a, a + 1)) && w2 == Next(w1, Start(m, a, a + 1))
    ensures WellFormed(Pushed(w.caches[i].cache, pick.key))
    ensures var n := w.caches[i];
      var r1 := w.remote[pick.key := Outgoing(n.cache, pick.key)];
      w2 == World(r1,
                  w.caches[i := n.(cache := Pushed(n.cache, pick.key))][m := Node(Hydrated(r1, a), Down, {})],
                  w.owner, w.used + {a, a + 1})
  {
    var n := w.caches[i];
    PushedWellFormed(n.cache, pick.key);
    HydratesAndIsRefused(FlushStep(w, i, pick.key), m, a, a + 1);
    w2 := Next(FlushStep(w, i, pick.key), Start(m, a, a + 1));
  }

  /** A copy that passes the checks of a released lock at the holder's version, and lacks the record of `j`. */
  ghost predicate Misled(copy: Cache, r: Remote, holder: Cache, j: Key) {
    && copy.control.complete && Pending(copy) == map[] && copy.control.lastCloudWrite.None?
    && CheckpointHolds(copy, r) && !WatchesLock(copy)
    && 1 <= holder.control.nextVersion <= copy.control.nextVersion
    && j != LOCK_KEY && j in r && (j in copy.metas ==> copy.metas[j].version != r[j].version)
  }

  /** Robot `i` runs beside a stopped copy that is misled about what the remote will hold. */
  ghost predicate CopyStands(w: World, i: nat, m: nat, j: Key) {
    && Running(w, i) && WellFormed(w.caches[i].cache)
    && m in w.caches && m != i && w.caches[m].phase == Down
    && Misled(w.caches[m].cache, AllPushed(w.caches[i].cache, w.remote), w.caches[i].cache, j)
  }

  lemma CopyIsMisled(c: Cache, r: Remote, k: Key, j: Key, a: Id, holder: Cache)
    requires OutOfOrder(c, r, k) && j in c.outbox && j != k
    requires holder.control.nextVersion == c.control.nextVersion
    ensures WellFormed(Pushed(c, k))
    ensures var r1 := r[k := Outgoing(c, k)];
      Misled(Hydrated(r1, a), AllPushed(Pushed(c, k), r1), holder, j)
  {
    PushedWellFormed(c, k);
    CopyOfNewest(c, r[k := Outgoing(c, k)], k, a);
    CopyLacks(c, r, k, j, a);
    RemoteInTheEnd(c, r, k, j);
  }

  lemma RemoteInTheEnd(c: Cache, r: Remote, k: Key, j: Key)
    requires WellFormed(c) && k in c.outbox && j in c.outbox && j != k && WellFormed(Pushed(c, k))
    ensures var r' := AllPushed(Pushed(c, k), r[k := Outgoing(c, k)]);
      k in r' && j in r' && r'[k] == Outgoing(c, k) && r'[j] == Outgoing(c, j)
  {
    PushedKeepsOutgoing(c, k, j);
  }

  /** The last step of the continuation. */
  lemma CopyStartsStale(w: World, i: nat, m: nat, nonce: Id, id: Id, j: Key)
    requires Running(w, i) && m in w.caches && m != i && w.caches[m].phase == Down
    requires w.caches[i].cache.outbox == map[]
    requires Misled(w.caches[m].cache, w.remote, w.caches[i].cache, j)
    requires nonce !in w.used && id !in w.used && nonce != id
    ensures Enabled(w, Release(i, true))
    ensures var w' := Next(w, Release(i, true));
      && Enabled(w', Start(m, nonce, id)) && StartSucceeds(w', m, nonce)
      && m in Next(w', Start(m, nonce, id)).caches
      && !UpToDate(Next(w', Start(m, nonce, id)), m)
  {
    LockWriteShape(w.caches[i].cache, w.remote, RELEASED, 0);
    CopyAcquires(w.caches[m].cache, LockWritten(w.caches[i].cache, w.remote, RELEASED, 0, true).remote, j, id);
    StaleStart(w, i, m, nonce, id, j);
  }

  /** The copy does not have the record that `j` has in the end. */
  lemma CopyLacks(c: Cache, r: Remote, k: Key, j: Key, a: Id)
    requires WellFormed(c) && PendingAbove(c, r) && k in c.outbox && j in c.outbox && j != k && j != LOCK_KEY
    requires Hydratable(r[k := Outgoing(c, k)])
    ensures var copy := Hydrated(r[k := Outgoing(c, k)], a);
      j in copy.metas ==> copy.metas[j].version != Outgoing(c, j).version
  {}

  /** A copy whose checkpoint is in place starts on a released lock at its own version. */
  lemma CopyAcquires(copy: Cache, r: Remote, j: Key, id: Id)
    requires copy.control.complete && copy.control.lastCloudWrite.None?
    requires copy.control.nextVersion >= 1 && Pending(copy) == map[]
    requires CheckpointHolds(copy, r)
    requires ReadLock(r).FoundLock? && ReadLock(r).lock.state == RELEASED
    requires ReadLock(r).lock.databaseVersion <= LatestVersion(copy)
    requires j in r && j != LOCK_KEY && (j in copy.metas ==> copy.metas[j].version != r[j].version)
    ensures OpenAllowed(copy, r) && AcquireAllowed(copy, r)
    ensures var s := LockWritten(copy, r, HELD, id, true);
      j !in s.cache.outbox && !Agree(s.cache, s.remote, j)
  {
    LockWriteShape(copy, r, HELD, id);
  }

  lemma StaleStart(w: World, i: nat, m: nat, nonce: Id, id: Id, j: Key)
    requires Running(w, i) && m in w.caches && m != i && w.caches[m].phase == Down
    requires nonce !in w.used && id !in w.used && nonce != id
    requires var r' := LockWritten(w.caches[i].cache, w.remote, RELEASED, 0, true).remote;
      var copy := w.caches[m].cache;
      && OpenAllowed(copy, r') && AcquireAllowed(copy, r')
      && var s := LockWritten(copy, r', HELD, id, true);
      j !in s.cache.outbox && !Agree(s.cache, s.remote, j)
    ensures Enabled(w, Release(i, true))
    ensures var w' := Next(w, Release(i, true));
      && Enabled(w', Start(m, nonce, id)) && StartSucceeds(w', m, nonce)
      && m in Next(w', Start(m, nonce, id)).caches
      && !UpToDate(Next(w', Start(m, nonce, id)), m)
  {
    var w' := Next(w, Release(i, true));
    assert w'.caches[m] == w.caches[m];
  }

  // ---- a concrete run that gets there ----

  const A: Key := "a"
  const B: Key := "b"
  const P: Payload := Blob([])
  const LOCK1 := LockBlob(LockData(HELD, Some(2), Some(1), 0))
  const LOCK_POINT := Some(Checkpoint(LOCK_KEY, 1, SumOf(LOCK1)))

  function Rec(v: nat, p: Payload): Record { Record(true, v, SumOf(p), false, p) }
  function Live(v: nat, p: Payload): Meta { Meta(v, SumOf(p), false) }

  const REMOTE: Remote := map[LOCK_KEY := Rec(1, LOCK1)]
  /** The robot's directory after each event of the run that changes it. */
  const STARTED := Cache(Control(true, 2, LOCK_POINT, 1, Some(2), None),
                         map[LOCK_KEY := Live(1, LOCK1)], map[LOCK_KEY := LOCK1], map[])
  const STORED_A := Cache(Control(true, 3, LOCK_POINT, 1, Some(2), None),
                          map[LOCK_KEY := Live(1, LOCK1), A := Live(2, P)],
                          map[LOCK_KEY := LOCK1, A := P],
                          map[A := Entry(2, false)])
  const STORED_B := Cache(Control(true, 4, LOCK_POINT, 1, Some(2), None),
                          map[LOCK_KEY := Live(1, LOCK1), A := Live(2, P), B := Live(3, P)],
                          map[LOCK_KEY := LOCK1, A := P, B := P],
                          map[A := Entry(2, false), B := Entry(3, false)])
  const RESTORED_A := Cache(Control(true, 5, LOCK_POINT, 1, Some(2), None),
                            map[LOCK_KEY := Live(1, LOCK1), A := Live(4, P), B := Live(3, P)],
                            map[LOCK_KEY := LOCK1, A := P, B := P],
                            map[A := Entry(4, false), B := Entry(3, false)])

  const W0 := World(map[], map[], None, {})

  function RobotAt(c: Cache, picks: set<Pick>): World {
    World(REMOTE, map[0 := Node(c, Up, picks)], Some(0), {1, 2})
  }

  lemma KeysDiffer()
    ensures A != B && A != LOCK_KEY && B != LOCK_KEY
  {
    assert A[0] != B[0] && |A| == 1 && |B| == 1 && |LOCK_KEY| == 17;
  }

  lemma FirstStart()
    ensures Enabled(W0, Start(0, 1, 2)) && Next(W0, Start(0, 1, 2)) == RobotAt(STARTED, {})
  {
    var c := Hydrated(map[], 1);
    assert c == Cache(Control(true, 1, None, 1, None, None), map[], map[], map[]);
    LockWriteShape(c, map[], HELD, 2);
    assert LockWritten(c, map[], HELD, 2, true) == SyncResult(STARTED, REMOTE, true);
  }

  /** A store by the one robot, given what it does to the directory. */
  lemma RobotStores(c: Cache, k: Key, c': Cache, picks: set<Pick>)
    requires k != LOCK_KEY && Stored(c, k, P) == c'
    ensures Enabled(RobotAt(c, picks), Store(0, k, P)) && Next(RobotAt(c, picks), Store(0, k, P)) == RobotAt(c', picks)
  {
    assert WithCache(RobotAt(c, picks), 0, c') == RobotAt(c', picks);
  }

  lemma StoresA()
    ensures Stored(STARTED, A, P) == STORED_A
  {
    KeysDiffer();
  }

  lemma StoresB()
    ensures Stored(STORED_A, B, P) == STORED_B
  {
    KeysDiffer();
  }

  lemma StoresAAgain()
    ensures Stored(STORED_B, A, P) == RESTORED_A
  {
    KeysDiffer();
    assert STORED_B.metas[A := Live(4, P)] == RESTORED_A.metas;
    assert STORED_B.outbox[A := Entry(4, false)] == RESTORED_A.outbox;
  }

  lemma PicksA()
    ensures Enabled(RobotAt(STORED_B, {}), PickNext(0, A))
    ensures Next(RobotAt(STORED_B, {}), PickNext(0, A)) == RobotAt(STORED_B, {Pick(A, 2)})
  {
    KeysDiffer();
    assert IsNext(STORED_B, A);
    assert {} + {Pick(A, 2)} == {Pick(A, 2)};
  }

  /** A world with data pending is reachable: a robot starts and stores A. */
  lemma PendingIsReachable()
    ensures Reachable(RobotAt(STORED_A, {})) && Running(RobotAt(STORED_A, {}), 0) && A in Pending(STORED_A)
  {
    KeysDiffer();
    FirstStart();
    StoresA();
    RobotStores(STARTED, A, STORED_A, {});
    var before := Extend(W0, [], W0, Start(0, 1, 2));
    before := Extend(W0, before, RobotAt(STARTED, {}), Store(0, A, P));
    assert Initial(W0) && IsRun(W0, before);
  }

  /**
    The window is reachable: a robot stores A and B, a flush picks A, and A is
    stored again.  The flush then pushes A past B, and a stale start can follow.
   */
  lemma RacyFlushAdmitsStaleStart() returns (before: seq<Event>)
    ensures Initial(W0) && IsRun(W0, before)
    ensures var w, pick := After(W0, before), Pick(A, 2);
      && Running(w, 0) && pick in w.caches[0].picks && !FlushInOrder(w.caches[0].cache, A)
      && !NeverStale(FlushStep(w, 0, A))
  {
    KeysDiffer();
    FirstStart();
    StoresA();
    StoresB();
    StoresAAgain();
    PicksA();
    RobotStores(STARTED, A, STORED_A, {});
    RobotStores(STORED_A, B, STORED_B, {});
    RobotStores(STORED_B, A, RESTORED_A, {Pick(A, 2)});
    before := Extend(W0, [], W0, Start(0, 1, 2));
    before := Extend(W0, before, RobotAt(STARTED, {}), Store(0, A, P));
    before := Extend(W0, before, RobotAt(STORED_A, {}), Store(0, B, P));
    before := Extend(W0, before, RobotAt(STORED_B, {}), PickNext(0, A));
    before := Extend(W0, before, RobotAt(STORED_B, {Pick(A, 2)}), Store(0, A, P));
    var w := RobotAt(RESTORED_A, {Pick(A, 2)});
    assert w.caches[0].cache == RESTORED_A;
    RacyFlushIsUnsafe(before, w);
  }

  lemma RacyFlushIsUnsafe(before: seq<Event>, w: World)
    requires Initial(W0) && IsRun(W0, before) && After(W0, before) == w == RobotAt(RESTORED_A, {Pick(A, 2)})
    ensures !FlushInOrder(RESTORED_A, A) && !NeverStale(FlushStep(w, 0, A))
  {
    KeysDiffer();
    assert B in RESTORED_A.outbox.Keys;
    assert Reachable(w);
    FlushStepSafeExactly(w, 0, Pick(A, 2));
  }
}
