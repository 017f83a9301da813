/** Suppressing queue triggers seen within the retention time, in a table pruned on every call. */
module QueueDedupe {

  const UUID_LENGTH := 36
  /** 140 seconds, in nanoseconds. */
  const RETENTION := 140_000_000_000

  /** A time on the monotonic clock. */
  type Time = int

  datatype Call = Call(key: string, now: Time)

  function Key(jobUUID: string, timestamp: string): string {
    jobUUID + ":" + timestamp
  }

  /** A parsed UUID always has 36 characters, so no two triggers share a key. */
  lemma KeysDiffer(uuid: string, timestamp: string, uuid': string, timestamp': string)
    requires |uuid| == |uuid'| == UUID_LENGTH && Key(uuid, timestamp) == Key(uuid', timestamp')
    ensures uuid == uuid' && timestamp == timestamp'
  {
    var k, k' := Key(uuid, timestamp), Key(uuid', timestamp');
    assert uuid == k[..UUID_LENGTH] && uuid' == k'[..UUID_LENGTH];
    assert timestamp == k[UUID_LENGTH + 1..] && timestamp' == k'[UUID_LENGTH + 1..];
  }

  // ---- the pruned table ----

  function Pruned(seen: map<string, Time>, now: Time): map<string, Time> {
    map k | k in seen && now < seen[k] :: seen[k]
  }

  function IsDuplicate(seen: map<string, Time>, c: Call): bool {
    c.key in seen && c.now < seen[c.key]
  }

  function Recorded(seen: map<string, Time>, c: Call): map<string, Time> {
    if IsDuplicate(seen, c) then Pruned(seen, c.now) else Pruned(seen, c.now)[c.key := c.now + RETENTION]
  }

  class Dedupe {
    var seen: map<string, Time>

    constructor ()
      ensures seen == map[]
    {
      seen := map[];
    }

    method RecordQueueDedupe(jobUUID: string, timestamp: string, now: Time) returns (duplicate: bool)
      modifies this
      ensures duplicate == IsDuplicate(old(seen), Call(Key(jobUUID, timestamp), now))
      ensures seen == Recorded(old(seen), Call(Key(jobUUID, timestamp), now))
    {
      var key := jobUUID + ":" + timestamp;
      var todo := seen.Keys;
      while todo != {}
        invariant todo <= seen.Keys <= old(seen).Keys
        invariant forall k :: k in seen ==> seen[k] == old(seen)[k]
        invariant forall k :: k in old(seen) && k !in todo ==> (k in seen <==> now < old(seen)[k])
      {
        var k :| k in todo;
        todo := todo - {k};
        if now >= seen[k] { seen := seen - {k}; }
      }
      assert seen == Pruned(old(seen), now);
      if key in seen && now < seen[key] { return true; }
      seen := seen[key := now + RETENTION];
      duplicate := false;
    }
  }

  // ---- sequences of calls ----

  /** The table before call `n`. */
  function TableBefore(calls: seq<Call>, n: nat): map<string, Time>
    requires n <= |calls|
  {
    if n == 0 then map[] else Recorded(TableBefore(calls, n - 1), calls[n - 1])
  }

  predicate Accepted(calls: seq<Call>, i: nat) {
    i < |calls| && !IsDuplicate(TableBefore(calls, i), calls[i])
  }

  /** Call `j` came after the retention of call `i`. */
  predicate Expired(calls: seq<Call>, i: nat, j: nat)
    requires i < |calls| && j < |calls|
  {
    calls[i].now + RETENTION <= calls[j].now
  }

  /** Call `i` was accepted for `key`, and no call between it and `n` came after its retention. */
  ghost predicate Live(calls: seq<Call>, i: nat, n: nat, key: string)
    requires n <= |calls|
  {
    i < n && Accepted(calls, i) && calls[i].key == key && forall j: nat :: i < j < n ==> !Expired(calls, i, j)
  }

  /** The table holds only live calls. */
  lemma {:induction false} TableHasLive(calls: seq<Call>, n: nat, key: string)
    requires n <= |calls| && key in TableBefore(calls, n)
    ensures exists i: nat :: Live(calls, i, n, key) && TableBefore(calls, n)[key] == calls[i].now + RETENTION
  {
    if key == calls[n - 1].key && !IsDuplicate(TableBefore(calls, n - 1), calls[n - 1]) {
      assert Live(calls, n - 1, n, key);
    } else {
      TableHasLive(calls, n - 1, key);
      var i: nat :| Live(calls, i, n - 1, key) && TableBefore(calls, n - 1)[key] == calls[i].now + RETENTION;
      assert Live(calls, i, n, key);
    }
  }

  /** The table holds every live call. */
  lemma {:induction false} LiveInTable(calls: seq<Call>, i: nat, n: nat, key: string)
    requires n <= |calls| && Live(calls, i, n, key)
    ensures key in TableBefore(calls, n) && TableBefore(calls, n)[key] == calls[i].now + RETENTION
  {
    if i < n - 1 {
      assert !Expired(calls, i, n - 1);
      LiveInTable(calls, i, n - 1, key);
    }
  }

  /** Call `i` was accepted for the key of call `n`, and no call since, call `n` included, came after its retention. */
  ghost predicate LiveAt(calls: seq<Call>, i: nat, n: nat)
    requires n < |calls|
  {
    i < n && Accepted(calls, i) && calls[i].key == calls[n].key && forall j: nat :: i < j <= n ==> !Expired(calls, i, j)
  }

  /** Whatever the clock does, a call is reported as a duplicate exactly when an earlier one for its key is live. */
  lemma DuplicateExactly(calls: seq<Call>, n: nat)
    requires n < |calls|
    ensures !Accepted(calls, n) <==> exists i: nat :: LiveAt(calls, i, n)
  {
    if !Accepted(calls, n) {
      TableHasLive(calls, n, calls[n].key);
      var i: nat :| Live(calls, i, n, calls[n].key) && TableBefore(calls, n)[calls[n].key] == calls[i].now + RETENTION;
      assert LiveAt(calls, i, n);
    }
    if i: nat :| LiveAt(calls, i, n) {
      assert !Expired(calls, i, n);
      LiveInTable(calls, i, n, calls[n].key);
    }
  }

  // ---- against a history that forgets nothing ----

  /** Call `i` was accepted for the key of call `n`, less than 140 seconds before it. */
  ghost predicate Remembered(calls: seq<Call>, i: nat, n: nat)
    requires n < |calls|
  {
    i < n && Accepted(calls, i) && calls[i].key == calls[n].key && !Expired(calls, i, n)
  }

  ghost predicate SeenBefore(calls: seq<Call>, n: nat)
    requires n < |calls|
  {
    exists i: nat :: Remembered(calls, i, n)
  }

  ghost predicate AgreesWithHistory(calls: seq<Call>) {
    forall n: nat :: n < |calls| ==> (!Accepted(calls, n) <==> SeenBefore(calls, n))
  }

  /** Call `i` is the last one accepted for the key of call `n`. */
  ghost predicate LastAccepted(calls: seq<Call>, i: nat, n: nat)
    requires n < |calls|
  {
    && i < n && Accepted(calls, i) && calls[i].key == calls[n].key
    && forall m: nat :: i < m < n && calls[m].key == calls[n].key ==> !Accepted(calls, m)
  }

  /** The clock passes the retention of call `i` at call `j` and is back within it at call `n`. */
  predicate FallsBack(times: seq<Time>, i: nat, j: nat, n: nat) {
    i < j < n < |times| && times[n] < times[i] + RETENTION <= times[j]
  }

  function Times(calls: seq<Call>): seq<Time> {
    seq(|calls|, i requires 0 <= i < |calls| => calls[i].now)
  }

  /** The last accepted call before `n` that a forgetting table should still have known. */
  ghost predicate Forgets(calls: seq<Call>) {
    exists i: nat, j: nat, n: nat :: FallsBack(Times(calls), i, j, n) && LastAccepted(calls, i, n)
  }

  lemma {:induction false} LastExists(calls: seq<Call>, i: nat, n: nat) returns (l: nat)
    requires i < n < |calls| && Accepted(calls, i) && calls[i].key == calls[n].key
    ensures i <= l && LastAccepted(calls, l, n)
    decreases n - i
  {
    if m: nat :| i < m < n && calls[m].key == calls[n].key && Accepted(calls, m) {
      l := LastExists(calls, m, n);
    } else {
      l := i;
    }
  }

  /**
    The pruned table answers as a full history would exactly when it never forgets a key's
    last accepted call too early.
   */
  lemma AgreesExactly(calls: seq<Call>)
    ensures AgreesWithHistory(calls) <==> !Forgets(calls)
  {
    if i: nat, j: nat, n: nat :| FallsBack(Times(calls), i, j, n) && LastAccepted(calls, i, n) {
      ForgottenIsAccepted(calls, i, j, n);
    }
    if !Forgets(calls) {
      forall n: nat | n < |calls| ensures !Accepted(calls, n) <==> SeenBefore(calls, n) {
        AgreesUpTo(calls, n);
      }
    }
  }

  lemma ForgottenIsAccepted(calls: seq<Call>, i: nat, j: nat, n: nat)
    requires FallsBack(Times(calls), i, j, n) && LastAccepted(calls, i, n)
    ensures Accepted(calls, n) && SeenBefore(calls, n)
  {
    assert Remembered(calls, i, n) && Expired(calls, i, j);
    DuplicateExactly(calls, n);
    DuplicateExactly(calls, i);
    assert forall l: nat :: LiveAt(calls, l, n) && l < i ==> LiveAt(calls, l, i);
  }

  lemma {:induction false} AgreesUpTo(calls: seq<Call>, n: nat)
    requires n < |calls| && !Forgets(calls)
    ensures !Accepted(calls, n) <==> SeenBefore(calls, n)
    decreases n
  {
    DuplicateExactly(calls, n);
    if i: nat :| Remembered(calls, i, n) {
      var l := LastExists(calls, i, n);
      if i < l {
        AgreesUpTo(calls, l);
        LaterExpiresLater(calls, i, l, n);
      }
      LastIsLive(calls, l, n);
    } else {
      assert forall i: nat :: LiveAt(calls, i, n) ==> Remembered(calls, i, n);
    }
  }

  lemma LaterExpiresLater(calls: seq<Call>, i: nat, l: nat, n: nat)
    requires i < l < n < |calls| && Remembered(calls, i, n) && LastAccepted(calls, l, n)
    requires !SeenBefore(calls, l)
    ensures Remembered(calls, l, n)
  {
    assert !Remembered(calls, i, l);
  }

  lemma LastIsLive(calls: seq<Call>, l: nat, n: nat)
    requires n < |calls| && !Forgets(calls) && LastAccepted(calls, l, n) && Remembered(calls, l, n)
    ensures LiveAt(calls, l, n)
  {
    forall j: nat | l < j <= n ensures !Expired(calls, l, j) {
      if j < n { assert !FallsBack(Times(calls), l, j, n); }
    }
  }

  /** Give calls `i` and `n` a key that no other call has. */
  lemma ForgottenKey(times: seq<Time>, i: nat, j: nat, n: nat) returns (calls: seq<Call>)
    requires FallsBack(times, i, j, n)
    ensures Times(calls) == times && Forgets(calls)
  {
    calls := seq(|times|, m requires 0 <= m < |times| => Call(if m == i || m == n then "a" else "", times[m]));
    assert Times(calls) == times;
    DuplicateExactly(calls, i);
    assert forall l: nat :: !LiveAt(calls, l, i);
    assert LastAccepted(calls, i, n);
  }

  /**
    On which clock readings the table can be trusted for every choice of keys:
    exactly those on which the clock never passes some call's retention and
    then falls back into it.
   */
  lemma AgreesOnEveryKeyExactly(times: seq<Time>)
    ensures (forall calls :: Times(calls) == times ==> AgreesWithHistory(calls))
            <==> forall i: nat, j: nat, n: nat :: !FallsBack(times, i, j, n)
  {
    if i: nat, j: nat, n: nat :| FallsBack(times, i, j, n) {
      var calls := ForgottenKey(times, i, j, n);
      AgreesExactly(calls);
    }
    if forall i: nat, j: nat, n: nat :: !FallsBack(times, i, j, n) {
      forall calls | Times(calls) == times ensures AgreesWithHistory(calls) { AgreesExactly(calls); }
    }
  }

  predicate Nondecreasing(calls: seq<Call>) {
    forall i, j :: 0 <= i < j < |calls| ==> calls[i].now <= calls[j].now
  }

  /**
    While time does not run backwards, a trigger is reported as a duplicate
    exactly when the same trigger was accepted less than 140 seconds before,
    although the table forgets expired entries on every call.
   */
  lemma PrunedEqualsFull(calls: seq<Call>)
    requires Nondecreasing(calls)
    ensures AgreesWithHistory(calls)
  {
    AgreesExactly(calls);
  }

  /** Two callers entering out of order: the second call makes the table forget the first too early. */
  lemma BackwardTimeForgets()
    ensures var calls := [Call("a", 0), Call("b", RETENTION), Call("a", RETENTION - 1)];
      Accepted(calls, 2) && SeenBefore(calls, 2)
  {
    var calls := [Call("a", 0), Call("b", RETENTION), Call("a", RETENTION - 1)];
    assert calls[0].key == "a" && calls[1].key == "b" && "a" != "b";
    assert Accepted(calls, 0);
    DuplicateExactly(calls, 2);
    assert Remembered(calls, 0, 2) && Expired(calls, 0, 1);
  }
}
