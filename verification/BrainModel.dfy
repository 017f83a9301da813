/** Lexicographic order on keys, the order Go's `sort.Strings` uses. */
module KeyOrder {

  predicate Leq(a: string, b: string) {
    if a == [] then true
    else if b == [] then false
    else if a[0] != b[0] then a[0] < b[0]
    else Leq(a[1..], b[1..])
  }

  /** Alphabetical order: the first difference decides, and a prefix comes before what it is a prefix of. */
  ghost predicate Alphabetical(a: string, b: string) {
    a <= b || exists i :: SmallerAt(a, b, i)
  }

  /** The first difference is at `i`, where `a` has the smaller character. */
  predicate SmallerAt(a: string, b: string, i: nat) {
    i < |a| && i < |b| && a[..i] == b[..i] && a[i] < b[i]
  }

  lemma {:induction false} LeqExactly(a: string, b: string)
    ensures Leq(a, b) <==> Alphabetical(a, b)
  {
    forall i: nat | SmallerAt(a, b, i) && i > 0 ensures a[0] == b[0] { assert a[..i][0] == b[..i][0]; }
    if a != [] && b != [] && a[0] < b[0] {
      assert SmallerAt(a, b, 0);
    } else if a != [] && b != [] && a[0] == b[0] {
      LeqExactly(a[1..], b[1..]);
      assert a == [a[0]] + a[1..] && b == [b[0]] + b[1..];
      if i: nat :| SmallerAt(a, b, i) {
        assert a[1..][..i - 1] == a[..i][1..] && b[1..][..i - 1] == b[..i][1..];
        assert SmallerAt(a[1..], b[1..], i - 1);
      }
      if i: nat :| SmallerAt(a[1..], b[1..], i) {
        assert a[..i + 1] == [a[0]] + a[1..][..i] && b[..i + 1] == [b[0]] + b[1..][..i];
        assert SmallerAt(a, b, i + 1);
      }
    }
  }

  lemma {:induction false} LeqReflexive(a: string)
    ensures Leq(a, a)
  {
    if a != [] { LeqReflexive(a[1..]); }
  }

  lemma {:induction false} LeqTotal(a: string, b: string)
    ensures Leq(a, b) || Leq(b, a)
  {
    if a != [] && b != [] && a[0] == b[0] { LeqTotal(a[1..], b[1..]); }
  }

  lemma {:induction false} LeqAntisymmetric(a: string, b: string)
    requires Leq(a, b) && Leq(b, a)
    ensures a == b
  {
    if a != [] && b != [] {
      LeqAntisymmetric(a[1..], b[1..]);
      assert a == [a[0]] + a[1..] && b == [b[0]] + b[1..];
    }
  }

  /** The order of outbox entries and remote records: by version, then by key. */
  predicate NotAfter(version: nat, key: string, version': nat, key': string) {
    version < version' || (version == version' && Leq(key, key'))
  }

  lemma NotAfterTotal(version: nat, key: string, version': nat, key': string)
    ensures NotAfter(version, key, version', key') || NotAfter(version', key', version, key)
  {
    LeqTotal(key, key');
  }

  lemma NotAfterTransitive(v0: nat, k0: string, v1: nat, k1: string, v2: nat, k2: string)
    requires NotAfter(v0, k0, v1, k1) && NotAfter(v1, k1, v2, k2)
    ensures NotAfter(v0, k0, v2, k2)
  {
    if v0 == v1 == v2 { LeqTransitive(k0, k1, k2); }
  }

  lemma NotAfterAntisymmetric(version: nat, key: string, version': nat, key': string)
    requires NotAfter(version, key, version', key') && NotAfter(version', key', version, key)
    ensures key == key'
  {
    LeqAntisymmetric(key, key');
  }

  lemma {:induction false} LeqTransitive(a: string, b: string, c: string)
    requires Leq(a, b) && Leq(b, c)
    ensures Leq(a, c)
  {
    if a != [] && a[0] == b[0] && b[0] == c[0] { LeqTransitive(a[1..], b[1..], c[1..]); }
  }
}

/**
  The values a brain cache works with, and what each locked operation of the
  cache does to them.  A cache is its directory: control record, metadata,
  payloads and outbox.  The remote is a map from key to record.
 */
module BrainModel {
  import opened Options
  import KeyOrder

  type Key = string
  /** A random 16-byte identifier: a cache nonce or a lock ID. */
  type Id = nat
  type Remote = map<Key, Record>

  const LOCK_KEY: Key := "bot:instance-lock"
  const HELD := "held"
  const RELEASED := "released"

  datatype LockData = LockData(state: string, lockID: Option<Id>, nonceHash: Option<Id>, databaseVersion: nat)

  /** A stored blob; `LockBlob` is one that decrypts and parses as lock data. */
  datatype Payload = Blob(bytes: seq<bv8>) | LockBlob(lock: LockData)

  /** A collision-free checksum; `NoSum` is the empty string. */
  datatype Checksum = NoSum | SumOf(payload: Payload)

  datatype Record = Record(v3: bool, version: nat, checksum: Checksum, deleted: bool, payload: Payload)
  datatype Meta = Meta(version: nat, checksum: Checksum, deleted: bool)
  datatype Entry = Entry(version: nat, delete: bool)
  datatype Checkpoint = Checkpoint(key: Key, version: nat, checksum: Checksum)
  datatype CloudWrite = CloudWrite(key: Key, version: nat, checksum: Checksum, deleted: bool)
  datatype Control = Control(
    complete: bool,
    nextVersion: nat,
    checkpoint: Option<Checkpoint>,
    nonce: Id,
    activeLockID: Option<Id>,
    lastCloudWrite: Option<CloudWrite>)
  datatype Cache = Cache(
    control: Control,
    metas: map<Key, Meta>,
    payloads: map<Key, Payload>,
    outbox: map<Key, Entry>)

  /** The user-visible contents: live keys and their payloads. */
  function View(c: Cache): map<Key, Payload> {
    map k | k in c.metas && !c.metas[k].deleted && k in c.payloads :: c.payloads[k]
  }

  /** What holds of every complete cache directory between operations. */
  ghost predicate WellFormed(c: Cache) {
    && c.control.nextVersion >= 1
    && c.payloads.Keys <= c.metas.Keys
    && (forall k :: k in c.metas ==>
          && c.metas[k].version < c.control.nextVersion
          && (c.metas[k].deleted <==> k !in c.payloads)
          && (k in c.payloads ==> c.metas[k].checksum == SumOf(c.payloads[k])))
    && (forall k :: k in c.outbox ==>
          && k in c.metas
          && c.outbox[k] == Entry(c.metas[k].version, c.metas[k].deleted))
    && (forall j, k :: j in c.outbox && k in c.outbox && c.outbox[j].version == c.outbox[k].version ==> j == k)
  }

  // ---- local writes ----

  function ReservedVersion(c: Cache): nat {
    if c.control.nextVersion == 0 then 1 else c.control.nextVersion
  }

  function LatestVersion(c: Cache): nat {
    if c.control.nextVersion == 0 then 0 else c.control.nextVersion - 1
  }

  function Stored(c: Cache, k: Key, p: Payload): Cache {
    var v := ReservedVersion(c);
    Cache(c.control.(nextVersion := v + 1),
          c.metas[k := Meta(v, SumOf(p), false)],
          c.payloads[k := p],
          c.outbox[k := Entry(v, false)])
  }

  function Removed(c: Cache, k: Key): Cache {
    var v := ReservedVersion(c);
    Cache(c.control.(nextVersion := v + 1),
          c.metas[k := Meta(v, NoSum, true)],
          c.payloads - {k},
          c.outbox[k := Entry(v, true)])
  }

  // ---- pushing to the remote ----

  /** The pending entries other than the lock's. */
  function Pending(c: Cache): map<Key, Entry> {
    c.outbox - {LOCK_KEY}
  }

  /** The record a push of `k` writes to the remote. */
  function Outgoing(c: Cache, k: Key): Record
    requires k in c.metas && (c.metas[k].deleted || k in c.payloads)
  {
    var m := c.metas[k];
    if m.deleted then Record(true, m.version, m.checksum, true, Blob([]))
    else Record(true, m.version, if m.checksum == NoSum then SumOf(c.payloads[k]) else m.checksum, false, c.payloads[k])
  }

  function CheckpointVersion(c: Control): nat {
    if c.checkpoint.None? then 0 else c.checkpoint.value.version
  }

  /** What a successful push of `k` leaves in the cache. */
  function Pushed(c: Cache, k: Key): Cache
    requires k in c.metas
  {
    var m := c.metas[k];
    var control := if k == LOCK_KEY then c.control
                   else c.control.(lastCloudWrite := Some(CloudWrite(k, m.version, m.checksum, m.deleted)));
    var control' := if m.version < CheckpointVersion(c.control) then control
                    else control.(checkpoint := Some(Checkpoint(k, m.version, m.checksum)));
    c.(control := control', outbox := c.outbox - {k})
  }

  datatype SyncResult = SyncResult(cache: Cache, remote: Remote, ok: bool)

  /** Sync of an outbox entry read earlier: it does nothing once the entry has been replaced. */
  function SyncEntry(c: Cache, r: Remote, k: Key, version: nat, putOk: bool): SyncResult {
    if k !in c.outbox || c.outbox[k].version != version then SyncResult(c, r, true)
    else if k !in c.metas then SyncResult(c.(outbox := c.outbox - {k}), r, true)
    else if !c.metas[k].deleted && k !in c.payloads then SyncResult(c, r, false)
    else if !putOk then SyncResult(c, r, false)
    else SyncResult(Pushed(c, k), r[k := Outgoing(c, k)], true)
  }

  /** Sync of whatever entry is pending for `k` now. */
  function SyncKey(c: Cache, r: Remote, k: Key, putOk: bool): SyncResult {
    if k !in c.outbox then SyncResult(c, r, true) else SyncEntry(c, r, k, c.outbox[k].version, putOk)
  }

  /** `k` is pending and no pending version is lower than its own. */
  ghost predicate IsNext(c: Cache, k: Key) {
    k in c.outbox && forall j :: j in c.outbox ==> c.outbox[k].version <= c.outbox[j].version
  }

  /**
    Pushing `k` keeps every version the remote gets to know below the newest one
    while anything else is pending.
   */
  ghost predicate MayPush(c: Cache, k: Key) {
    k in c.outbox && (c.outbox.Keys == {k} || c.outbox[k].version < LatestVersion(c))
  }

  lemma NextMayBePushed(c: Cache, k: Key)
    requires WellFormed(c) && IsNext(c, k)
    ensures MayPush(c, k)
  {
    if c.outbox.Keys - {k} == {} {
      assert c.outbox.Keys == {k};
    } else {
      var j :| j in c.outbox.Keys - {k};
      assert c.outbox[k].version < c.outbox[j].version;
    }
  }

  /** The remote once everything pending has been pushed. */
  ghost function AllPushed(c: Cache, r: Remote): Remote
    requires WellFormed(c)
  {
    r + (map k | k in c.outbox :: Outgoing(c, k))
  }

  lemma {:induction false} NextExists(outbox: map<Key, Entry>) returns (k: Key)
    requires outbox != map[]
    ensures k in outbox && forall j :: j in outbox ==> outbox[k].version <= outbox[j].version
    decreases |outbox|
  {
    k :| k in outbox;
    var rest := outbox - {k};
    assert rest.Keys == outbox.Keys - {k};
    if rest != map[] {
      var n := NextExists(rest);
      if outbox[n].version < outbox[k].version { k := n; }
    }
    forall j | j in outbox ensures outbox[k].version <= outbox[j].version {
      if j !in rest { assert j == k || j !in outbox.Keys - {j}; }
    }
  }

  // ---- opening a cache ----

  ghost predicate Hydratable(r: Remote) {
    forall k :: k in r ==> r[k].v3 && (!r[k].deleted ==> r[k].checksum == SumOf(r[k].payload))
  }

  predicate Precedes(r: Remote, a: Key, b: Key)
    requires a in r && b in r
  {
    KeyOrder.NotAfter(r[a].version, a, r[b].version, b)
  }

  ghost predicate IsNewest(r: Remote, k: Key) {
    k in r && forall j :: j in r ==> Precedes(r, j, k)
  }

  lemma {:induction false} NewestExists(r: Remote)
    requires r != map[]
    ensures exists k :: IsNewest(r, k)
    decreases |r|
  {
    var k :| k in r;
    var rest := r - {k};
    if rest == map[] {
      KeyOrder.LeqReflexive(k);
      assert forall j :: j in r && j != k ==> j in rest;
      assert IsNewest(r, k);
    } else {
      assert rest.Keys == r.Keys - {k};
      NewestExists(rest);
      var n :| IsNewest(rest, n);
      KeyOrder.NotAfterTotal(r[k].version, k, r[n].version, n);
      KeyOrder.LeqReflexive(k);
      if Precedes(r, k, n) {
        forall j | j in r ensures Precedes(r, j, n) {
          if j != k { assert j in rest && Precedes(rest, j, n); }
        }
        assert IsNewest(r, n);
      } else {
        forall j | j in r ensures Precedes(r, j, k) {
          if j != k {
            assert j in rest && Precedes(rest, j, n);
            KeyOrder.NotAfterTransitive(r[j].version, j, r[n].version, n, r[k].version, k);
          }
        }
        assert IsNewest(r, k);
      }
    }
  }

  lemma NewestUnique(r: Remote, a: Key, b: Key)
    requires IsNewest(r, a) && IsNewest(r, b)
    ensures a == b
  {
    assert Precedes(r, a, b) && Precedes(r, b, a);
    KeyOrder.NotAfterAntisymmetric(r[a].version, a, r[b].version, b);
  }

  /** The newest record has the greatest version and, among those of that version, the alphabetically last key. */
  lemma NewestExactly(r: Remote, k: Key)
    ensures IsNewest(r, k) <==>
              && k in r
              && (forall j :: j in r ==> r[j].version <= r[k].version)
              && (forall j :: j in r && r[j].version == r[k].version ==> KeyOrder.Alphabetical(j, k))
  {
    forall j | j in r ensures KeyOrder.Leq(j, k) <==> KeyOrder.Alphabetical(j, k) { KeyOrder.LeqExactly(j, k); }
    if k in r { assert forall j :: j in r ==> (Precedes(r, j, k) <==>
      r[j].version < r[k].version || (r[j].version == r[k].version && KeyOrder.Leq(j, k))); }
  }

  /** The record with the greatest version; the greatest key among equals. */
  ghost function Newest(r: Remote): (k: Key)
    requires r != map[]
    ensures IsNewest(r, k)
  {
    NewestExists(r);
    var k :| IsNewest(r, k);
    k
  }

  ghost function HydratedControl(r: Remote, nonce: Id): Control {
    if r == map[] then Control(true, 1, None, nonce, None, None)
    else
      var k := Newest(r);
      Control(true, r[k].version + 1, Some(Checkpoint(k, r[k].version, r[k].checksum)), nonce, None, None)
  }

  /** A new cache that has copied the whole remote. */
  ghost function Hydrated(r: Remote, nonce: Id): Cache {
    Cache(HydratedControl(r, nonce),
          map k | k in r :: Meta(r[k].version, r[k].checksum, r[k].deleted),
          map k | k in r && !r[k].deleted :: r[k].payload,
          map[])
  }

  /** `verifyRemoteRecord`, with a remote that answers every read. */
  predicate RemoteMatches(r: Remote, key: Key, version: nat, sum: Checksum) {
    key in r && r[key].v3 && r[key].version == version && r[key].checksum == sum
  }

  predicate CheckpointHolds(c: Cache, r: Remote) {
    c.control.checkpoint.Some? ==>
      var cp := c.control.checkpoint.value;
      RemoteMatches(r, cp.key, cp.version, cp.checksum)
  }

  predicate LastCloudWriteHolds(c: Cache, r: Remote) {
    c.control.lastCloudWrite.Some? ==>
      var w := c.control.lastCloudWrite.value;
      RemoteMatches(r, w.key, w.version, w.checksum) && r[w.key].deleted == w.deleted
  }

  predicate OpenAllowed(c: Cache, r: Remote) {
    c.control.complete && CheckpointHolds(c, r)
  }

  /** The same record, but for what an old payload of a tombstone may be. */
  predicate SameRecord(a: Record, b: Record) {
    if b.deleted then a.(payload := b.payload) == b else a == b
  }

  /**
    The last cloud write is found in place exactly when the remote still has the
    record that was pushed.  Remote payloads match their checksums.
   */
  lemma CloudWriteDetects(c: Cache, k: Key, r: Remote)
    requires WellFormed(c) && k in c.outbox && k != LOCK_KEY
    requires k in r && !r[k].deleted ==> r[k].checksum == SumOf(r[k].payload)
    ensures LastCloudWriteHolds(Pushed(c, k), r) <==> k in r && SameRecord(r[k], Outgoing(c, k))
  {}

  /** The checkpoint is found in place exactly when a record of the pushed format, version and checksum is. */
  lemma CheckpointDetects(c: Cache, k: Key, r: Remote)
    requires WellFormed(c) && k in c.outbox && CheckpointVersion(c.control) <= c.metas[k].version
    ensures var out := Outgoing(c, k);
      CheckpointHolds(Pushed(c, k), r) <==> k in r && r[k].(deleted := out.deleted, payload := out.payload) == out
  {}

  // ---- the instance lock ----

  datatype LockRead = NoLock | BadLock | FoundLock(lock: LockData)

  function ReadLock(r: Remote): LockRead {
    if LOCK_KEY !in r || r[LOCK_KEY].deleted then NoLock
    else match r[LOCK_KEY].payload
      case LockBlob(l) => FoundLock(l)
      case Blob(_) => BadLock
  }

  predicate CanReclaim(c: Cache, l: LockData) {
    c.control.activeLockID.Some? && l.lockID == c.control.activeLockID && l.nonceHash == Some(c.control.nonce)
  }

  /** An empty state counts as held. */
  predicate IsHeld(l: LockData) {
    l.state == "" || l.state == HELD
  }

  predicate LockAllows(c: Cache, r: Remote) {
    match ReadLock(r)
    case NoLock => true
    case BadLock => false
    case FoundLock(l) =>
      if IsHeld(l) then CanReclaim(c, l)
      else l.state == RELEASED && l.databaseVersion <= LatestVersion(c)
  }

  /**
    A cache gets the lock exactly when there is no lock record, or one that can
    be read and was released at a version the cache knows, or one that is not
    released but carries the cache's own lock ID and nonce.
   */
  lemma LockAllowsExactly(c: Cache, r: Remote)
    ensures LockAllows(c, r) <==>
              (LOCK_KEY in r && !r[LOCK_KEY].deleted ==>
                 && r[LOCK_KEY].payload.LockBlob?
                 && var l := r[LOCK_KEY].payload.lock;
                 || (l.state == "released" && l.databaseVersion <= LatestVersion(c))
                 || (&& (l.state == "" || l.state == "held")
                     && l.lockID.Some? && l.lockID == c.control.activeLockID && l.nonceHash == Some(c.control.nonce)))
  {}

  predicate AcquireAllowed(c: Cache, r: Remote) {
    LockAllows(c, r) && LastCloudWriteHolds(c, r)
  }

  /** The cache once a lock record has been stored in it; a held record takes the new lock ID `id`. */
  function LockStored(c: Cache, state: string, id: Id): Cache {
    var c1 := if state == HELD then c.(control := c.control.(activeLockID := Some(id))) else c;
    var l := LockData(state, c1.control.activeLockID, Some(c1.control.nonce), LatestVersion(c1));
    Stored(c1, LOCK_KEY, LockBlob(l))
  }

  /** Write the lock record as `state`: store it and sync it at once. */
  function LockWritten(c: Cache, r: Remote, state: string, id: Id, putOk: bool): SyncResult {
    SyncKey(LockStored(c, state, id), r, LOCK_KEY, putOk)
  }

  function ActiveId(c: Cache, state: string, id: Id): Option<Id> {
    if state == HELD then Some(id) else c.control.activeLockID
  }

  /** The lock record a cache would store now. */
  function NextLock(c: Cache, state: string, id: Id): LockData {
    LockData(state, ActiveId(c, state, id), Some(c.control.nonce), LatestVersion(c))
  }

  lemma LockStoredShape(c: Cache, state: string, id: Id)
    requires c.control.nextVersion >= 1
    ensures var v, p := c.control.nextVersion, LockBlob(NextLock(c, state, id));
      LockStored(c, state, id) ==
        Cache(c.control.(nextVersion := v + 1, activeLockID := ActiveId(c, state, id)),
              c.metas[LOCK_KEY := Meta(v, SumOf(p), false)], c.payloads[LOCK_KEY := p],
              c.outbox[LOCK_KEY := Entry(v, false)])
  {}

  /** A lock write reserves the next version and leaves the rest of the outbox alone. */
  lemma LockWriteShape(c: Cache, r: Remote, state: string, id: Id)
    requires c.control.nextVersion >= 1
    ensures var s := LockWritten(c, r, state, id, true);
      var v, p := c.control.nextVersion, LockBlob(NextLock(c, state, id));
      var control := c.control.(nextVersion := v + 1, activeLockID := ActiveId(c, state, id));
      && s.ok
      && s.cache == Cache(
           if v < CheckpointVersion(c.control) then control
           else control.(checkpoint := Some(Checkpoint(LOCK_KEY, v, SumOf(p)))),
           c.metas[LOCK_KEY := Meta(v, SumOf(p), false)], c.payloads[LOCK_KEY := p], Pending(c))
      && s.remote == r[LOCK_KEY := Record(true, v, SumOf(p), false, p)]
  {
    LockStoredShape(c, state, id);
    assert c.outbox[LOCK_KEY := Entry(c.control.nextVersion, false)] - {LOCK_KEY} == Pending(c);
  }

  /** A lock write that does not reach the remote leaves the lock record pending. */
  lemma FailedLockWriteShape(c: Cache, r: Remote, state: string, id: Id)
    ensures LockWritten(c, r, state, id, false) == SyncResult(LockStored(c, state, id), r, false)
  {}

  // ---- well-formedness is kept by every local operation ----

  lemma StoredWellFormed(c: Cache, k: Key, p: Payload)
    requires WellFormed(c)
    ensures WellFormed(Stored(c, k, p))
  {}

  lemma RemovedWellFormed(c: Cache, k: Key)
    requires WellFormed(c)
    ensures WellFormed(Removed(c, k))
  {}

  lemma PushedWellFormed(c: Cache, k: Key)
    requires WellFormed(c) && k in c.outbox
    ensures WellFormed(Pushed(c, k))
  {}

  lemma LockStoredWellFormed(c: Cache, state: string, id: Id)
    requires WellFormed(c)
    ensures WellFormed(LockStored(c, state, id))
  {
    LockStoredShape(c, state, id);
  }

  lemma LockWrittenWellFormed(c: Cache, r: Remote, state: string, id: Id)
    requires WellFormed(c)
    ensures WellFormed(LockWritten(c, r, state, id, true).cache)
  {
    LockWriteShape(c, r, state, id);
  }

  lemma HydratedWellFormed(r: Remote, nonce: Id)
    requires Hydratable(r)
    ensures WellFormed(Hydrated(r, nonce))
  {}
}
