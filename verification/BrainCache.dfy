/** Keys in the order `sort.Slice` leaves them: by version, then by key. */
module VersionSort {
  import KeyOrder

  predicate Before(versions: map<string, nat>, a: string, b: string)
    requires a in versions && b in versions
  {
    KeyOrder.NotAfter(versions[a], a, versions[b], b)
  }

  ghost predicate Sorted(versions: map<string, nat>, order: seq<string>) {
    && (forall k :: k in order ==> k in versions)
    && forall i, j :: 0 <= i < j < |order| ==> Before(versions, order[i], order[j]) && order[i] != order[j]
  }

  method Insert(versions: map<string, nat>, order: seq<string>, k: string) returns (r: seq<string>)
    requires Sorted(versions, order) && k in versions && k !in order
    ensures Sorted(versions, r)
    ensures forall x :: x in r <==> x in order || x == k
  {
    var j := 0;
    while j < |order| && Before(versions, order[j], k)
      invariant 0 <= j <= |order|
      invariant forall i :: 0 <= i < j ==> Before(versions, order[i], k)
    {
      j := j + 1;
    }
    r := order[..j] + [k] + order[j..];
    BeforeTail(versions, order, j, k);
    assert order == order[..j] + order[j..];
  }

  lemma BeforeTail(versions: map<string, nat>, order: seq<string>, j: nat, k: string)
    requires Sorted(versions, order) && k in versions
    requires j < |order| ==> !Before(versions, order[j], k)
    ensures forall i :: j <= i < |order| ==> Before(versions, k, order[i])
  {
    forall i | j <= i < |order| ensures Before(versions, k, order[i]) {
      KeyOrder.NotAfterTotal(versions[order[j]], order[j], versions[k], k);
      if i > j {
        KeyOrder.NotAfterTransitive(versions[k], k, versions[order[j]], order[j], versions[order[i]], order[i]);
      }
    }
  }

  method SortKeys(versions: map<string, nat>) returns (order: seq<string>)
    ensures Sorted(versions, order)
    ensures forall k :: k in order <==> k in versions
  {
    order := [];
    var todo := versions.Keys;
    while todo != {}
      invariant todo <= versions.Keys
      invariant Sorted(versions, order)
      invariant forall k :: k in order <==> k in versions && k !in todo
    {
      var k :| k in todo;
      order := Insert(versions, order, k);
      todo := todo - {k};
    }
  }
}

/** The cache and its remote as the robot runs them, method by method. */
module BrainCache {
  import opened Options
  import opened BrainModel
  import opened BrainProtocol
  import KeyOrder
  import VersionSort

  predicate PutOk(faults: seq<bool>) { faults == [] || !faults[0] }
  function Rest(faults: seq<bool>): seq<bool> { if faults == [] then [] else faults[1..] }

  /** A remote backend; `faults` says which of the coming writes will fail. */
  class RemoteStore {
    var records: Remote
    var faults: seq<bool>

    constructor (records: Remote, faults: seq<bool>)
      ensures this.records == records && this.faults == faults
    {
      this.records, this.faults := records, faults;
    }

    method Get(key: Key) returns (record: Option<Record>)
      ensures record == if key in records then Some(records[key]) else None
    {
      if key in records { record := Some(records[key]); } else { record := None; }
    }

    method Put(key: Key, record: Record) returns (ok: bool)
      modifies this
      ensures ok == PutOk(old(faults)) && faults == Rest(old(faults))
      ensures records == if ok then old(records)[key := record] else old(records)
    {
      ok := PutOk(faults);
      faults := Rest(faults);
      if ok { records := records[key := record]; }
    }

    /** `Delete` stores a tombstone. */
    method Delete(key: Key, tombstone: Record) returns (ok: bool)
      modifies this
      ensures ok == PutOk(old(faults)) && faults == Rest(old(faults))
      ensures records == if ok then old(records)[key := tombstone.(deleted := true)] else old(records)
    {
      ok := Put(key, tombstone.(deleted := true));
    }
  }

  /** Whether a sync of this entry gets as far as writing to the remote. */
  predicate PutAttempted(c: Cache, k: Key, version: nat) {
    && k in c.outbox && c.outbox[k].version == version
    && k in c.metas && (c.metas[k].deleted || k in c.payloads)
  }

  predicate KeyPutAttempted(c: Cache, k: Key) {
    k in c.outbox && PutAttempted(c, k, c.outbox[k].version)
  }

  function FaultsAfter(attempted: bool, faults: seq<bool>): seq<bool> {
    if attempted then Rest(faults) else faults
  }

  /** What a local write of `key` does once the lock key's immediate sync is included. */
  function WriteThrough(c: Cache, r: Remote, key: Key, putOk: bool): SyncResult {
    if key == LOCK_KEY then SyncKey(c, r, key, putOk) else SyncResult(c, r, true)
  }

  predicate ValidKey(key: Key) {
    key != [] && forall c :: c in key ==> IsWordCharacter(c) || c in ":-"
  }

  predicate IsWordCharacter(c: char) {
    'a' <= c <= 'z' || 'A' <= c <= 'Z' || '0' <= c <= '9' || c == '_'
  }

  const LOWER := "abcdefghijklmnopqrstuvwxyz"
  const UPPER := "ABCDEFGHIJKLMNOPQRSTUVWXYZ"
  const DIGITS := "0123456789"

  lemma WordCharactersExactly(c: char)
    ensures IsWordCharacter(c) <==> c in LOWER || c in UPPER || c in DIGITS || c == '_'
  {
    InLower(c);
    InUpper(c);
    InDigits(c);
  }

  lemma InLower(c: char)
    ensures c in LOWER <==> 'a' <= c <= 'z'
  {}

  lemma InUpper(c: char)
    ensures c in UPPER <==> 'A' <= c <= 'Z'
  {}

  lemma InDigits(c: char)
    ensures c in DIGITS <==> '0' <= c <= '9'
  {}

  /** Parts and a separator make a key, and a key never holds a character that is not one of these. */
  lemma JoinedKeyExactly(a: Key, separator: string, b: Key)
    requires a != "" && b != ""
    ensures ValidKey(a + separator + b) <==>
              ValidKey(a) && ValidKey(b) && forall c :: c in separator ==> IsWordCharacter(c) || c in ":-"
  {
    var key := a + separator + b;
    forall c ensures c in key <==> c in a || c in separator || c in b {}
  }

  datatype Lookup = InvalidKey | NotFound | Found(payload: Payload)

  class CachedBrain {
    const remote: RemoteStore
    /** Whether the directory holds a control record. */
    var present: bool
    var control: Control
    var metas: map<Key, Meta>
    var payloads: map<Key, Payload>
    var outbox: map<Key, Entry>
    var stopped: bool

    function Dir(): Cache
      reads this
    {
      Cache(control, metas, payloads, outbox)
    }

    /** A new cache on an empty directory. */
    constructor (remote: RemoteStore)
      ensures this.remote == remote && !present && !stopped
      ensures metas == map[] && payloads == map[] && outbox == map[]
    {
      this.remote := remote;
      present, stopped := false, false;
      control := Control(false, 1, None, 0, None, None);
      metas, payloads, outbox := map[], map[], map[];
    }

    // ---- reads ----

    method Retrieve(key: Key) returns (found: Lookup)
      ensures !ValidKey(key) ==> found == InvalidKey
      ensures ValidKey(key) ==> found == if key in View(Dir()) then Found(View(Dir())[key]) else NotFound
    {
      if !ValidKey(key) { return InvalidKey; }
      if key !in metas || metas[key].deleted || key !in payloads { return NotFound; }
      return Found(payloads[key]);
    }

    /** The live keys, each once, in order. */
    method List() returns (keys: seq<Key>)
      requires WellFormed(Dir())
      ensures forall k :: k in keys <==> k in View(Dir())
      ensures forall i, j :: 0 <= i < j < |keys| ==> KeyOrder.Alphabetical(keys[i], keys[j]) && keys[i] != keys[j]
    {
      var live: map<Key, nat> := map k | k in metas && !metas[k].deleted :: 0;
      keys := VersionSort.SortKeys(live);
      forall i, j | 0 <= i < j < |keys| ensures KeyOrder.Alphabetical(keys[i], keys[j]) && keys[i] != keys[j] {
        assert VersionSort.Before(live, keys[i], keys[j]);
        KeyOrder.LeqExactly(keys[i], keys[j]);
      }
    }

    // ---- local writes ----

    method ReserveVersion() returns (version: nat)
      modifies this`control
      ensures version == ReservedVersion(old(Dir()))
      ensures control == old(control).(nextVersion := version + 1)
      ensures version == LatestVersion(old(Dir())) + 1 == LatestVersion(Dir())
    {
      version := control.nextVersion;
      if version == 0 { version := 1; }
      control := control.(nextVersion := version + 1);
    }

    method Store(key: Key, blob: Payload) returns (ok: bool)
      modifies this, remote
      ensures present == old(present) && stopped == old(stopped)
      ensures stopped ==>
                && !ok && Dir() == old(Dir())
                && remote.records == old(remote.records) && remote.faults == old(remote.faults)
      ensures !stopped ==>
                var putOk := PutOk(old(remote.faults));
                var s := WriteThrough(Stored(old(Dir()), key, blob), old(remote.records), key, putOk);
                && ok == s.ok && Dir() == s.cache && remote.records == s.remote
                && remote.faults == FaultsAfter(key == LOCK_KEY, old(remote.faults))
    {
      if stopped { return false; }
      var version := ReserveVersion();
      payloads := payloads[key := blob];
      metas := metas[key := Meta(version, SumOf(blob), false)];
      outbox := outbox[key := Entry(version, false)];
      ok := true;
      if key == LOCK_KEY { ok := SyncKeyNow(key); }
    }

    method Delete(key: Key) returns (ok: bool)
      modifies this, remote
      ensures present == old(present) && stopped == old(stopped)
      ensures var s := WriteThrough(Removed(old(Dir()), key), old(remote.records), key, PutOk(old(remote.faults)));
        && ok == s.ok && Dir() == s.cache && remote.records == s.remote
        && remote.faults == FaultsAfter(key == LOCK_KEY, old(remote.faults))
    {
      var version := ReserveVersion();
      payloads := payloads - {key};
      metas := metas[key := Meta(version, NoSum, true)];
      outbox := outbox[key := Entry(version, true)];
      ok := true;
      if key == LOCK_KEY { ok := SyncKeyNow(key); }
    }

    // ---- pushing ----

    /** The pending entry with the lowest version; among equals, the lowest key. */
    method NextOutboxEntry() returns (next: Option<Pick>)
      ensures next.None? <==> outbox == map[]
      ensures next.Some? ==> IsNext(Dir(), next.value.key) && outbox[next.value.key].version == next.value.version
    {
      var versions := map k | k in outbox :: outbox[k].version;
      assert versions.Keys == outbox.Keys;
      var order := VersionSort.SortKeys(versions);
      if |order| == 0 {
        assert versions.Keys == {};
        return None;
      }
      assert order[0] in order && order[0] in versions;
      forall j | j in outbox ensures outbox[order[0]].version <= outbox[j].version {
        assert j in versions && j in order;
        var i :| 0 <= i < |order| && order[i] == j;
        if i > 0 { assert VersionSort.Before(versions, order[0], order[i]); }
      }
      return Some(Pick(order[0], outbox[order[0]].version));
    }

    method SyncOutboxEntry(key: Key, version: nat) returns (ok: bool)
      modifies this, remote
      ensures present == old(present) && stopped == old(stopped)
      ensures var s := SyncEntry(old(Dir()), old(remote.records), key, version, PutOk(old(remote.faults)));
        ok == s.ok && Dir() == s.cache && remote.records == s.remote
      ensures remote.faults == FaultsAfter(PutAttempted(old(Dir()), key, version), old(remote.faults))
    {
      if key !in outbox || outbox[key].version != version { return true; }
      if key !in metas {
        outbox := outbox - {key};
        return true;
      }
      var meta := metas[key];
      if meta.deleted {
        var put := remote.Delete(key, Record(true, meta.version, meta.checksum, meta.deleted, Blob([])));
        if !put { return false; }
      } else {
        if key !in payloads { return false; }
        var payload := payloads[key];
        var sum := if meta.checksum == NoSum then SumOf(payload) else meta.checksum;
        var put := remote.Put(key, Record(true, meta.version, sum, false, payload));
        if !put { return false; }
      }
      var checkpointVersion := CheckpointVersion(control);
      if key != LOCK_KEY {
        control := control.(lastCloudWrite := Some(CloudWrite(key, meta.version, meta.checksum, meta.deleted)));
      }
      if meta.version >= checkpointVersion {
        control := control.(checkpoint := Some(Checkpoint(key, meta.version, meta.checksum)));
      }
      outbox := outbox - {key};
      ok := true;
    }

    method SyncKeyNow(key: Key) returns (ok: bool)
      modifies this, remote
      ensures present == old(present) && stopped == old(stopped)
      ensures var s := SyncKey(old(Dir()), old(remote.records), key, PutOk(old(remote.faults)));
        ok == s.ok && Dir() == s.cache && remote.records == s.remote
      ensures remote.faults == FaultsAfter(KeyPutAttempted(old(Dir()), key), old(remote.faults))
    {
      if key !in outbox { return true; }
      ok := SyncOutboxEntry(key, outbox[key].version);
    }

    /**
      Push everything pending, lowest version first, retrying after each failed
      write.  Finitely many writes fail, so it returns, and then nothing is
      pending and the remote holds every pending record as the cache had it.
     */
    method Flush()
      requires WellFormed(Dir())
      modifies this, remote
      ensures present == old(present) && stopped == old(stopped)
      ensures outbox == map[] && metas == old(metas) && payloads == old(payloads)
      ensures remote.records == AllPushed(old(Dir()), old(remote.records))
      ensures control.(checkpoint := None, lastCloudWrite := None)
               == old(control).(checkpoint := None, lastCloudWrite := None)
      ensures old(OwnerOK(Node(Dir(), Up, {}), remote.records)) ==>
                OwnerOK(Node(Dir(), Up, {}), remote.records)
    {
      ghost var c0, r0 := Dir(), remote.records;
      while true
        invariant present == old(present) && stopped == old(stopped)
        invariant FlushInv(c0, r0, Dir(), remote.records)
        decreases |outbox|, |remote.faults|
      {
        var next := NextOutboxEntry();
        if next.None? {
          FlushedAll(c0, r0, Dir(), remote.records);
          return;
        }
        ghost var c, r, f := Dir(), remote.records, remote.faults;
        SyncOfPending(c, r, next.value.key, PutOk(f));
        FlushStep(c0, r0, c, r, next.value.key);
        var ok := SyncKeyNow(next.value.key);
      }
    }

    /** A graceful shutdown: flush, then refuse further stores. */
    method Shutdown()
      requires WellFormed(Dir())
      modifies this, remote
      ensures stopped && outbox == map[] && metas == old(metas) && payloads == old(payloads)
      ensures remote.records == AllPushed(old(Dir()), old(remote.records))
    {
      Flush();
      stopped := true;
    }

    // ---- opening ----

    method VerifyRemoteRecord(key: Key, version: nat, sum: Checksum, deleted: bool, checkDeleted: bool)
      returns (ok: bool)
      ensures ok <==> RemoteMatches(remote.records, key, version, sum)
                      && (checkDeleted ==> remote.records[key].deleted == deleted)
    {
      var record := remote.Get(key);
      if record.None? || !record.value.v3 { return false; }
      return record.value.version == version && record.value.checksum == sum
             && (!checkDeleted || record.value.deleted == deleted);
    }

    /** Copy one remote record, and let the counter and the checkpoint follow its version. */
    method CopyRecord(key: Key, record: Record) returns (ok: bool)
      modifies this`control, this`metas, this`payloads
      ensures ok <==> record.deleted || record.checksum == SumOf(record.payload)
      ensures ok ==> Dir() == Copied(old(Dir()), key, record)
      ensures control.complete == old(control).complete
    {
      if !record.deleted {
        if record.checksum != SumOf(record.payload) { return false; }
        payloads := payloads[key := record.payload];
      }
      metas := metas[key := MetaOf(record)];
      if record.version >= control.nextVersion { control := control.(nextVersion := record.version + 1); }
      if record.version >= CheckpointVersion(control) {
        control := control.(checkpoint := Some(Checkpoint(key, record.version, record.checksum)));
      }
      ok := true;
    }

    /** Copy the whole remote into a new directory; an unusable record leaves it incomplete. */
    method HydrateFromRemote(nonce: Id) returns (ok: bool)
      requires !present && metas == map[] && payloads == map[] && outbox == map[]
      modifies this
      ensures present && stopped == old(stopped)
      ensures ok <==> Hydratable(remote.records)
      ensures ok ==> Dir() == Hydrated(remote.records, nonce)
      ensures !ok ==> !control.complete
    {
      var records := remote.records;
      control := Control(false, 1, None, nonce, None, None);
      present := true;
      if k :| k in records && !records[k].v3 { return false; }
      var versions := map k | k in records :: records[k].version;
      assert versions.Keys == records.Keys;
      var order := VersionSort.SortKeys(versions);
      ok := CopyAll(records, order, versions, nonce);
      if ok {
        control := control.(complete := true);
        CopyComplete(records, versions, order, nonce);
      }
    }

    /** Copy the records in order, stopping at the first that is unusable. */
    method CopyAll(records: Remote, order: seq<Key>, ghost versions: map<Key, nat>, nonce: Id) returns (ok: bool)
      requires versions == map k | k in records :: records[k].version
      requires VersionSort.Sorted(versions, order) && forall k :: k in order <==> k in versions
      requires forall k :: k in records ==> records[k].v3
      requires Dir() == Cache(Control(false, 1, None, nonce, None, None), map[], map[], map[])
      modifies this`control, this`metas, this`payloads
      ensures ok <==> forall j :: 0 <= j < |order| ==> order[j] in records && Usable(records[order[j]])
      ensures ok ==> (forall k :: k in order ==> k in records) && Dir() == CopyOf(records, order, nonce)
      ensures !control.complete
    {
      assert forall j :: 0 <= j < |order| ==> order[j] in order && order[j] in versions;
      for i := 0 to |order|
        invariant !control.complete
        invariant forall j :: 0 <= j < i ==> Usable(records[order[j]])
        invariant Dir() == CopyOf(records, order[..i], nonce)
      {
        CopyStep(records, versions, order, i, nonce);
        ok := CopyRecord(order[i], records[order[i]]);
        if !ok { return; }
      }
      assert order[..|order|] == order;
      ok := true;
    }

    method OpenRemote(nonce: Id) returns (ok: bool)
      requires !present ==> metas == map[] && payloads == map[] && outbox == map[]
      modifies this
      ensures present && stopped == old(stopped)
      ensures old(present) ==>
                && ok == OpenAllowed(old(Dir()), remote.records)
                && control == old(control).(nextVersion := ReservedVersion(old(Dir())))
                && metas == old(metas) && payloads == old(payloads) && outbox == old(outbox)
      ensures !old(present) ==> ok == Hydratable(remote.records)
      ensures !old(present) && ok ==> Dir() == Hydrated(remote.records, nonce)
      ensures !old(present) && !ok ==> !control.complete
    {
      if !present {
        ok := HydrateFromRemote(nonce);
        return;
      }
      if control.nextVersion == 0 { control := control.(nextVersion := 1); }
      if !control.complete { return false; }
      if control.checkpoint.Some? {
        var cp := control.checkpoint.value;
        ok := VerifyRemoteRecord(cp.key, cp.version, cp.checksum, false, false);
      } else {
        ok := true;
      }
    }

    // ---- the instance lock ----

    method VerifyLastCloudWrite() returns (ok: bool)
      ensures ok <==> LastCloudWriteHolds(Dir(), remote.records)
    {
      if control.lastCloudWrite.None? { return true; }
      var w := control.lastCloudWrite.value;
      ok := VerifyRemoteRecord(w.key, w.version, w.checksum, w.deleted, true);
    }

    method ReadBrainLockForStartup() returns (lock: LockRead)
      ensures lock == ReadLock(remote.records)
    {
      var record := remote.Get(LOCK_KEY);
      if record.None? || record.value.deleted { return NoLock; }
      match record.value.payload
      case LockBlob(l) => return FoundLock(l);
      case Blob(_) => return BadLock;
    }

    method WriteBrainLock(state: string, id: Id) returns (ok: bool)
      requires !stopped
      modifies this, remote
      ensures present == old(present) && stopped == old(stopped)
      ensures var s := LockWritten(old(Dir()), old(remote.records), state, id, PutOk(old(remote.faults)));
        ok == s.ok && Dir() == s.cache && remote.records == s.remote
    {
      if state == HELD { control := control.(activeLockID := Some(id)); }
      var version := if control.nextVersion == 0 then 0 else control.nextVersion - 1;
      var lock := LockData(state, control.activeLockID, Some(control.nonce), version);
      ok := Store(LOCK_KEY, LockBlob(lock));
    }

    /**
      Acquire the instance lock and replay the outbox.  It fails, changing
      nothing, exactly when the lock or the last cloud write forbids it; it also
      fails when the lock write itself does.  On success nothing is pending, the
      remote holds everything the cache had pending, and a cache that was ready
      to lock is a sound owner.
     */
    method AcquireBrainLock(id: Id) returns (ok: bool)
      requires WellFormed(Dir()) && !stopped
      modifies this, remote
      ensures var c, r := old(Dir()), old(remote.records);
        var s := LockWritten(c, r, HELD, id, PutOk(old(remote.faults)));
        && ok == (AcquireAllowed(c, r) && s.ok)
        && (!AcquireAllowed(c, r) ==> Dir() == c && remote.records == r)
        && (AcquireAllowed(c, r) && !ok ==> Dir() == s.cache && remote.records == s.remote)
        && (ok ==>
              && WellFormed(s.cache)
              && outbox == map[] && metas == s.cache.metas && payloads == s.cache.payloads
              && remote.records == AllPushed(s.cache, s.remote))
        && (ok && ReadyToLock(c, r) ==> OwnerOK(Node(Dir(), Up, {}), remote.records))
        && (AcquireAllowed(c, r) && !ok && ReadyToLock(c, r) ==>
              && ReadyToLock(Dir(), remote.records) && remote.records == r
              && Pending(Dir()) == Pending(c) && LatestVersion(Dir()) == LatestVersion(c) + 1)
    {
      var read := ReadBrainLockForStartup();
      match read {
        case BadLock => return false;
        case NoLock =>
        case FoundLock(lock) =>
          if lock.state == "" || lock.state == HELD {
            var reclaim := control.activeLockID.Some? && lock.lockID == control.activeLockID
                           && lock.nonceHash == Some(control.nonce);
            if !reclaim { return false; }
          } else if lock.state == RELEASED {
            var local := if control.nextVersion == 0 then 0 else control.nextVersion - 1;
            if lock.databaseVersion > local { return false; }
          } else {
            return false;
          }
      }
      assert LockAllows(Dir(), remote.records);
      var verified := VerifyLastCloudWrite();
      if !verified { return false; }
      ghost var c, r := Dir(), remote.records;
      ok := WriteBrainLock(HELD, id);
      LockWriteKeepsWellFormed(c, r, HELD, id, PutOk(old(remote.faults)));
      if !ok {
        FailedLockWriteShape(c, r, HELD, id);
        if ReadyToLock(c, r) { FailedWriteKeepsReady(c, r, HELD, id); }
        return;
      }
      if ReadyToLock(c, r) { LockWriteMakesOwner(c, r, id); }
      Flush();
    }

    /** Release the lock: the record keeps this cache's lock ID and names its database version. */
    method ReleaseBrainLock() returns (ok: bool)
      requires !stopped
      modifies this, remote
      ensures var s := LockWritten(old(Dir()), old(remote.records), RELEASED, 0, PutOk(old(remote.faults)));
        ok == s.ok && Dir() == s.cache && remote.records == s.remote
      ensures old(OwnerOK(Node(Dir(), Up, {}), remote.records)) ==>
                && OwnerOK(Node(Dir(), Ending, {}), remote.records)
                && LockOf(remote.records) ==
                     if ok then LockData(RELEASED, control.activeLockID, Some(control.nonce), LatestVersion(old(Dir())))
                     else LockOf(old(remote.records))
    {
      ghost var c, r := Dir(), remote.records;
      ok := WriteBrainLock(RELEASED, 0);
      if OwnerOK(Node(c, Up, {}), r) {
        ReleaseKeepsOwner(Node(c, Up, {}), r);
        FailedReleaseKeepsOwner(Node(c, Up, {}), r);
        LockWriteShape(c, r, RELEASED, 0);
        FailedLockWriteShape(c, r, RELEASED, 0);
      }
    }
  }

  // ---- lemmas the methods use ----

  predicate Usable(record: Record) {
    record.v3 && (!record.deleted ==> record.checksum == SumOf(record.payload))
  }

  function MetaOf(record: Record): Meta {
    Meta(record.version, record.checksum, record.deleted)
  }

  function Copied(c: Cache, key: Key, record: Record): Cache {
    var control :=
      if record.version >= c.control.nextVersion then c.control.(nextVersion := record.version + 1) else c.control;
    Cache(if record.version >= CheckpointVersion(control)
          then control.(checkpoint := Some(Checkpoint(key, record.version, record.checksum))) else control,
          c.metas[key := MetaOf(record)],
          if record.deleted then c.payloads else c.payloads[key := record.payload],
          c.outbox)
  }

  /** A directory into which these keys have been copied, in version order; not complete yet. */
  function CopyOf(r: Remote, done: seq<Key>, nonce: Id): Cache
    requires forall k :: k in done ==> k in r
  {
    Cache(if done == [] then Control(false, 1, None, nonce, None, None)
          else var k := done[|done| - 1];
            Control(false, r[k].version + 1, Some(Checkpoint(k, r[k].version, r[k].checksum)), nonce, None, None),
          map k | k in done :: MetaOf(r[k]),
          map k | k in done && !r[k].deleted :: r[k].payload,
          map[])
  }

  lemma CopyStep(r: Remote, versions: map<Key, nat>, order: seq<Key>, i: nat, nonce: Id)
    requires versions == map k | k in r :: r[k].version
    requires VersionSort.Sorted(versions, order) && i < |order|
    requires forall k :: k in order ==> k in r
    ensures Copied(CopyOf(r, order[..i], nonce), order[i], r[order[i]]) == CopyOf(r, order[..i + 1], nonce)
  {
    var k := order[i];
    assert order[..i + 1] == order[..i] + [k];
    CopyStepMaps(r, order[..i], k);
    CopyStepControl(r, order[..i], k, nonce) by {
      if i > 0 { assert VersionSort.Before(versions, order[i - 1], k); }
    }
  }

  lemma CopyStepMaps(r: Remote, done: seq<Key>, k: Key)
    requires k in r && forall j :: j in done ==> j in r
    ensures (map j | j in done + [k] :: MetaOf(r[j])) == (map j | j in done :: MetaOf(r[j]))[k := MetaOf(r[k])]
    ensures var old' := map j | j in done && !r[j].deleted :: r[j].payload;
      (map j | j in done + [k] && !r[j].deleted :: r[j].payload) ==
      if r[k].deleted then old' else old'[k := r[k].payload]
  {}

  lemma CopyStepControl(r: Remote, done: seq<Key>, k: Key, nonce: Id)
    requires k in r && forall j :: j in done ==> j in r
    requires done != [] ==> r[done[|done| - 1]].version <= r[k].version
    ensures Copied(CopyOf(r, done, nonce), k, r[k]).control == CopyOf(r, done + [k], nonce).control
  {}

  lemma CopyComplete(r: Remote, versions: map<Key, nat>, order: seq<Key>, nonce: Id)
    requires versions == map k | k in r :: r[k].version
    requires VersionSort.Sorted(versions, order) && forall k :: k in order <==> k in versions
    requires forall k :: k in order ==> k in r
    ensures (forall j :: 0 <= j < |order| ==> Usable(r[order[j]])) <==> forall k :: k in r ==> Usable(r[k])
    ensures var c := CopyOf(r, order, nonce);
      c.(control := c.control.(complete := true)) == Hydrated(r, nonce)
  {
    assert versions.Keys == r.Keys;
    LastIsNewest(r, versions, order);
    CopyOfAllKeys(r, order) by { forall k | k in r ensures k in order { assert k in versions; } }
    forall j | 0 <= j < |order| ensures order[j] in r { assert order[j] in order; }
  }

  lemma CopyOfAllKeys(r: Remote, order: seq<Key>)
    requires forall k :: k in order <==> k in r
    ensures (map k | k in order :: MetaOf(r[k])) == map k | k in r :: Meta(r[k].version, r[k].checksum, r[k].deleted)
    ensures (map k | k in order && !r[k].deleted :: r[k].payload) == map k | k in r && !r[k].deleted :: r[k].payload
  {}

  lemma LastIsNewest(r: Remote, versions: map<Key, nat>, order: seq<Key>)
    requires versions == map k | k in r :: r[k].version
    requires VersionSort.Sorted(versions, order) && forall k :: k in order <==> k in versions
    ensures r == map[] <==> |order| == 0
    ensures |order| > 0 ==> order[|order| - 1] == Newest(r)
  {
    assert versions.Keys == r.Keys;
    if |order| == 0 {
      assert versions.Keys == {};
    } else {
      var last := order[|order| - 1];
      assert last in order && last in versions;
      forall k | k in r ensures Precedes(r, k, last) {
        assert k in versions && k in order;
        var i :| 0 <= i < |order| && order[i] == k;
        if i < |order| - 1 { assert VersionSort.Before(versions, order[i], last); }
        else { KeyOrder.LeqReflexive(last); }
      }
      NewestUnique(r, last, Newest(r));
    }
  }

  lemma LockWriteKeepsWellFormed(c: Cache, r: Remote, state: string, id: Id, putOk: bool)
    requires WellFormed(c)
    ensures WellFormed(LockWritten(c, r, state, id, putOk).cache)
  {
    var c1 := if state == HELD then c.(control := c.control.(activeLockID := Some(id))) else c;
    assert WellFormed(c1);
    var p := LockBlob(LockData(state, c1.control.activeLockID, Some(c1.control.nonce), LatestVersion(c1)));
    StoredWellFormed(c1, LOCK_KEY, p);
    PushedWellFormed(Stored(c1, LOCK_KEY, p), LOCK_KEY);
  }

  /** Part of the outbox of `c0` has been pushed, the rest is still as it was. */
  ghost predicate FlushedSoFar(c0: Cache, r0: Remote, c: Cache, r: Remote) {
    && WellFormed(c0)
    && c.metas == c0.metas && c.payloads == c0.payloads
    && c.outbox.Keys <= c0.outbox.Keys
    && (forall k :: k in c.outbox ==> c.outbox[k] == c0.outbox[k])
    && r == r0 + (map k | k in c0.outbox && k !in c.outbox :: Outgoing(c0, k))
    && c.control.(checkpoint := None, lastCloudWrite := None) == c0.control.(checkpoint := None, lastCloudWrite := None)
  }

  ghost predicate FlushInv(c0: Cache, r0: Remote, c: Cache, r: Remote) {
    && WellFormed(c) && FlushedSoFar(c0, r0, c, r)
    && (OwnerOK(Node(c0, Up, {}), r0) ==> OwnerOK(Node(c, Up, {}), r))
  }

  /** Syncing a pending key of a well-formed cache pushes it, unless the write fails. */
  lemma SyncOfPending(c: Cache, r: Remote, k: Key, putOk: bool)
    requires WellFormed(c) && k in c.outbox
    ensures SyncKey(c, r, k, putOk) ==
            if putOk then SyncResult(Pushed(c, k), r[k := Outgoing(c, k)], true) else SyncResult(c, r, false)
    ensures KeyPutAttempted(c, k)
    ensures |Pushed(c, k).outbox| < |c.outbox|
  {
    assert Pushed(c, k).outbox.Keys == c.outbox.Keys - {k};
    assert |c.outbox.Keys - {k}| < |c.outbox.Keys|;
  }

  lemma FlushStep(c0: Cache, r0: Remote, c: Cache, r: Remote, k: Key)
    requires FlushInv(c0, r0, c, r) && IsNext(c, k)
    ensures FlushInv(c0, r0, Pushed(c, k), r[k := Outgoing(c, k)])
  {
    PushedWellFormed(c, k);
    RemoteAfterFlushStep(c0, r0, c.outbox, r, k);
    if OwnerOK(Node(c0, Up, {}), r0) {
      NextMayBePushed(c, k);
      PushKeepsOwner(Node(c, Up, {}), r, k);
    }
  }

  lemma RemoteAfterFlushStep(c0: Cache, r0: Remote, pending: map<Key, Entry>, r: Remote, k: Key)
    requires WellFormed(c0) && pending.Keys <= c0.outbox.Keys && k in pending
    requires r == r0 + (map j | j in c0.outbox && j !in pending :: Outgoing(c0, j))
    ensures r[k := Outgoing(c0, k)] == r0 + (map j | j in c0.outbox && j !in pending - {k} :: Outgoing(c0, j))
  {
    var a := map j | j in c0.outbox && j !in pending :: Outgoing(c0, j);
    var b := map j | j in c0.outbox && j !in pending - {k} :: Outgoing(c0, j);
    assert b == a[k := Outgoing(c0, k)] by { OnePendingLess(c0, pending, k); }
    UpdateAfterUnion(r0, a, k, Outgoing(c0, k));
  }

  lemma OnePendingLess(c0: Cache, pending: map<Key, Entry>, k: Key)
    requires WellFormed(c0) && pending.Keys <= c0.outbox.Keys && k in pending
    ensures (map j | j in c0.outbox && j !in pending - {k} :: Outgoing(c0, j)) ==
            (map j | j in c0.outbox && j !in pending :: Outgoing(c0, j))[k := Outgoing(c0, k)]
  {}

  lemma UpdateAfterUnion<K, V>(m: map<K, V>, a: map<K, V>, k: K, v: V)
    ensures m + a[k := v] == (m + a)[k := v]
  {}

  lemma FlushedAll(c0: Cache, r0: Remote, c: Cache, r: Remote)
    requires FlushedSoFar(c0, r0, c, r) && c.outbox == map[]
    ensures r == AllPushed(c0, r0)
  {}
}
