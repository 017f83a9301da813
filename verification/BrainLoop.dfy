/**
  The brain event loop as one key sees it: who holds the key, who waits for it,
  what the provider stores under it, and everything the loop has answered.
 */
module BrainLoopModel {
  import opened Options

  type Datum = seq<bv8>
  type Request = nat
  /** A lock token; `NO_TOKEN` is the empty string. */
  type Token = nat
  const NO_TOKEN: Token := 0

  datatype MemState = NewMemory | Seen | Available
  datatype Memory = Memory(state: MemState, token: Token, waiters: seq<Request>)

  datatype Entry =
    | Arrived(req: Request)
    | Granted(req: Request, token: Token, value: Option<Datum>)
    | Refused(req: Request)
    | ReadOnly(req: Request, value: Option<Datum>)
    | ReadFailed(req: Request)
    | Stored(token: Token, datum: Datum)
    | StoreFailed(token: Token)
    | LockExpired(token: Token)
    | DatumNotFound(token: Token)

  datatype KeyState = KeyState(mem: Option<Memory>, value: Option<Datum>, log: seq<Entry>)

  /** `token` is the random token drawn if one is, `ok` whether the provider succeeds. */
  datatype Event =
    | Checkout(req: Request, rw: bool, token: Token, ok: bool)
    | Checkin(held: Token, token: Token, ok: bool)
    | Update(held: Token, datum: Datum, storeOk: bool, token: Token, ok: bool)
    | Tick(token: Token, ok: bool)

  function Answer(req: Request, token: Token, value: Option<Datum>, ok: bool): Entry {
    if ok then Granted(req, token, value) else Refused(req)
  }

  function TokenOf(token: Token, ok: bool): Token {
    if ok then token else NO_TOKEN
  }

  function ReplyToWaiter(s: KeyState, token: Token, ok: bool): KeyState
    requires s.mem.Some? && s.mem.value.waiters != []
  {
    var m := s.mem.value;
    s.(mem := Some(Memory(NewMemory, TokenOf(token, ok), m.waiters[1..])),
       log := s.log + [Answer(m.waiters[0], token, s.value, ok)])
  }

  function PassOn(s: KeyState, token: Token, ok: bool): KeyState
    requires s.mem.Some?
  {
    if s.mem.value.waiters != [] then ReplyToWaiter(s, token, ok) else s.(mem := None)
  }

  function Step(s: KeyState, e: Event): KeyState {
    match e
    case Checkout(req, rw, token, ok) =>
      if !rw then s.(log := s.log + [if ok then ReadOnly(req, s.value) else ReadFailed(req)])
      else if s.mem.None? then
        KeyState(if ok then Some(Memory(NewMemory, token, [])) else None, s.value,
                 s.log + [Arrived(req), Answer(req, token, s.value, ok)])
      else if s.mem.value.state.Available? then
        KeyState(Some(s.mem.value.(state := NewMemory, token := TokenOf(token, ok))), s.value,
                 s.log + [Arrived(req), Answer(req, token, s.value, ok)])
      else
        KeyState(Some(s.mem.value.(waiters := s.mem.value.waiters + [req])), s.value, s.log + [Arrived(req)])
    case Checkin(held, token, ok) =>
      if s.mem.None? || s.mem.value.token != held then s else PassOn(s, token, ok)
    case Update(held, datum, storeOk, token, ok) =>
      if s.mem.None? then s.(log := s.log + [DatumNotFound(held)])
      else if s.mem.value.token != held then s.(log := s.log + [LockExpired(held)])
      else
        var s' := if storeOk then s.(value := Some(datum), log := s.log + [Stored(held, datum)])
                  else s.(log := s.log + [StoreFailed(held)]);
        PassOn(s', token, ok)
    case Tick(token, ok) =>
      if s.mem.None? then s
      else match s.mem.value.state
        case NewMemory => s.(mem := Some(s.mem.value.(state := Seen)))
        case Seen => if s.mem.value.waiters != [] then ReplyToWaiter(s, token, ok)
                     else s.(mem := Some(s.mem.value.(state := Available)))
        case Available => s
  }
}

/** What every sequence of events keeps, for any one key. */
module BrainLoopTheorems {
  import opened Options
  import opened BrainLoopModel

  /** Tokens are drawn at random, so a drawn token is new; callers never send an empty one. */
  predicate Enabled(s: KeyState, e: Event) {
    && e.token != NO_TOKEN && (forall i :: 0 <= i < |s.log| && s.log[i].Granted? ==> s.log[i].token != e.token)
    && (e.Checkin? || e.Update? ==> e.held != NO_TOKEN)
  }

  predicate IsRun(s: KeyState, es: seq<Event>)
    decreases |es|
  {
    es == [] || (Enabled(s, es[0]) && IsRun(Step(s, es[0]), es[1..]))
  }

  function After(s: KeyState, es: seq<Event>): KeyState
    decreases |es|
  {
    if es == [] then s else After(Step(s, es[0]), es[1..])
  }

  function Fresh(value: Option<Datum>): KeyState {
    KeyState(None, value, [])
  }

  // ---- reading a history ----

  /** Read-write requests in the order they arrived. */
  function Arrivals(log: seq<Entry>): seq<Request> {
    if log == [] then []
    else
      var rest, e := Arrivals(log[..|log| - 1]), log[|log| - 1];
      if e.Arrived? then rest + [e.req] else rest
  }

  /** Read-write requests in the order they were answered. */
  function Answers(log: seq<Entry>): seq<Request> {
    if log == [] then []
    else
      var rest, e := Answers(log[..|log| - 1]), log[|log| - 1];
      if e.Granted? || e.Refused? then rest + [e.req] else rest
  }

  /** The last datum stored, or `initial` before any. */
  function LastStored(log: seq<Entry>, initial: Option<Datum>): Option<Datum> {
    if log == [] then initial
    else
      var e := log[|log| - 1];
      if e.Stored? then Some(e.datum) else LastStored(log[..|log| - 1], initial)
  }

  /** The position of the last grant or store. */
  function LastTurn(log: seq<Entry>): (at: Option<nat>)
    ensures at.Some? ==> at.value < |log| && (log[at.value].Granted? || log[at.value].Stored?)
    ensures at.Some? ==> forall j :: at.value < j < |log| ==> !log[j].Granted? && !log[j].Stored?
    ensures at.None? ==> forall j :: 0 <= j < |log| ==> !log[j].Granted? && !log[j].Stored?
  {
    if log == [] then None
    else
      var e := log[|log| - 1];
      if e.Granted? || e.Stored? then Some(|log| - 1)
      else
        var before := LastTurn(log[..|log| - 1]);
        assert forall j :: 0 <= j < |log| - 1 ==> log[..|log| - 1][j] == log[j];
        before
  }

  lemma Snoc(log: seq<Entry>, e: Entry, initial: Option<Datum>)
    ensures Arrivals(log + [e]) == if e.Arrived? then Arrivals(log) + [e.req] else Arrivals(log)
    ensures Answers(log + [e]) == if e.Granted? || e.Refused? then Answers(log) + [e.req] else Answers(log)
    ensures LastStored(log + [e], initial) == if e.Stored? then Some(e.datum) else LastStored(log, initial)
    ensures LastTurn(log + [e]) == if e.Granted? || e.Stored? then Some(|log|) else LastTurn(log)
  {
    assert (log + [e])[..|log|] == log;
  }

  // ---- the invariant ----

  /** `log[n]` stores with the token of the last grant, which read the value it replaces. */
  ghost predicate StoreFollowsItsGrant(log: seq<Entry>, n: nat, initial: Option<Datum>)
    requires n < |log| && log[n].Stored?
  {
    exists m :: 0 <= m < n
      && log[m].Granted? && log[m].token == log[n].token
      && log[m].value == LastStored(log[..n], initial)
      && forall j :: m < j < n ==> !log[j].Granted? && !log[j].Stored?
  }

  ghost predicate Serial(log: seq<Entry>, initial: Option<Datum>) {
    forall n :: 0 <= n < |log| && log[n].Stored? ==> StoreFollowsItsGrant(log, n, initial)
  }

  ghost predicate TokenIsLatest(s: KeyState) {
    s.mem.Some? && s.mem.value.token != NO_TOKEN ==>
      var at := LastTurn(s.log);
      && at.Some? && s.log[at.value].Granted?
      && s.log[at.value].token == s.mem.value.token && s.log[at.value].value == s.value
  }

  ghost predicate GrantsDiffer(log: seq<Entry>) {
    forall i, j :: 0 <= i < j < |log| && log[i].Granted? && log[j].Granted? ==> log[i].token != log[j].token
  }

  lemma {:induction false} RunKeepsGrantsDiffer(s: KeyState, es: seq<Event>)
    requires IsRun(s, es) && GrantsDiffer(s.log)
    ensures GrantsDiffer(After(s, es).log)
    decreases |es|
  {
    if es != [] {
      StepGrantsOnce(s, es[0]);
      RunKeepsGrantsDiffer(Step(s, es[0]), es[1..]);
    }
  }

  /** One event appends at most one grant, and that with the token drawn for it. */
  lemma StepGrantsOnce(s: KeyState, e: Event)
    requires Enabled(s, e) && GrantsDiffer(s.log)
    ensures GrantsDiffer(Step(s, e).log)
  {
    var log' := Step(s, e).log;
    assert forall i, j ::
      |s.log| <= i < |log'| && |s.log| <= j < |log'| && log'[i].Granted? && log'[j].Granted? ==> i == j;
    assert forall i :: |s.log| <= i < |log'| && log'[i].Granted? ==> log'[i].token == e.token;
    assert forall i :: 0 <= i < |s.log| ==> log'[i] == s.log[i];
  }

  ghost predicate Inv(s: KeyState, initial: Option<Datum>) {
    && Serial(s.log, initial)
    && s.value == LastStored(s.log, initial)
    && TokenIsLatest(s)
    && Arrivals(s.log) == Answers(s.log) + (if s.mem.Some? then s.mem.value.waiters else [])
    && (s.mem.Some? && s.mem.value.state.Available? ==> s.mem.value.waiters == [])
  }

  lemma SerialSnoc(log: seq<Entry>, e: Entry, initial: Option<Datum>)
    requires Serial(log, initial)
    requires e.Stored? ==>
               var at := LastTurn(log);
               && at.Some? && log[at.value].Granted?
               && log[at.value].token == e.token && log[at.value].value == LastStored(log, initial)
    ensures Serial(log + [e], initial)
  {
    var log' := log + [e];
    forall n | 0 <= n < |log'| && log'[n].Stored? ensures StoreFollowsItsGrant(log', n, initial) {
      assert log'[..n] == log[..n];
      if n < |log| {
        assert StoreFollowsItsGrant(log, n, initial);
        var m :| 0 <= m < n && log[m].Granted? && log[m].token == log[n].token
          && log[m].value == LastStored(log[..n], initial)
          && forall j :: m < j < n ==> !log[j].Granted? && !log[j].Stored?;
        assert log'[m] == log[m];
      } else {
        assert log[..n] == log;
        var m := LastTurn(log).value;
        assert log'[m] == log[m];
      }
    }
  }

  lemma AnswerKeepsInv(s: KeyState, token: Token, ok: bool, initial: Option<Datum>)
    requires Serial(s.log, initial) && s.value == LastStored(s.log, initial) && s.mem.Some?
    requires s.mem.value.waiters != []
    requires Arrivals(s.log) == Answers(s.log) + s.mem.value.waiters
    ensures Inv(ReplyToWaiter(s, token, ok), initial)
  {
    var w := s.mem.value.waiters;
    var a := Answer(w[0], token, s.value, ok);
    Snoc(s.log, a, initial);
    SerialSnoc(s.log, a, initial);
    assert Answers(s.log) + w == Answers(s.log) + [w[0]] + w[1..];
  }

  lemma LogKeepsInv(s: KeyState, e: Entry, initial: Option<Datum>)
    requires Inv(s, initial) && !e.Arrived? && !e.Granted? && !e.Refused? && !e.Stored?
    ensures Inv(s.(log := s.log + [e]), initial)
  {
    Snoc(s.log, e, initial);
    SerialSnoc(s.log, e, initial);
  }

  lemma CheckoutKeepsInv(s: KeyState, e: Event, initial: Option<Datum>)
    requires Inv(s, initial) && Enabled(s, e) && e.Checkout? && e.rw
    ensures Inv(Step(s, e), initial)
  {
    var log1 := s.log + [Arrived(e.req)];
    Snoc(s.log, Arrived(e.req), initial);
    SerialSnoc(s.log, Arrived(e.req), initial);
    if s.mem.None? || s.mem.value.state.Available? {
      var a := Answer(e.req, e.token, s.value, e.ok);
      Snoc(log1, a, initial);
      SerialSnoc(log1, a, initial);
      assert s.log + [Arrived(e.req), a] == log1 + [a];
      assert Arrivals(s.log) == Answers(s.log);
      assert Step(s, e).log == log1 + [a];
    } else {
      assert Answers(s.log) + s.mem.value.waiters + [e.req] == Answers(s.log) + (s.mem.value.waiters + [e.req]);
    }
  }

  lemma UpdateKeepsInv(s: KeyState, e: Event, initial: Option<Datum>)
    requires Inv(s, initial) && Enabled(s, e) && e.Update?
    ensures Inv(Step(s, e), initial)
  {
    if s.mem.None? {
      LogKeepsInv(s, DatumNotFound(e.held), initial);
    } else if s.mem.value.token != e.held {
      LogKeepsInv(s, LockExpired(e.held), initial);
    } else {
      var entry := if e.storeOk then Stored(e.held, e.datum) else StoreFailed(e.held);
      Snoc(s.log, entry, initial);
      SerialSnoc(s.log, entry, initial);
      var s' := s.(value := if e.storeOk then Some(e.datum) else s.value, log := s.log + [entry]);
      if s.mem.value.waiters != [] { AnswerKeepsInv(s', e.token, e.ok, initial); }
    }
  }

  lemma StepKeepsInv(s: KeyState, e: Event, initial: Option<Datum>)
    requires Inv(s, initial) && Enabled(s, e)
    ensures Inv(Step(s, e), initial)
  {
    match e
    case Checkout(req, rw, token, ok) =>
      if rw { CheckoutKeepsInv(s, e, initial); }
      else { LogKeepsInv(s, if ok then ReadOnly(req, s.value) else ReadFailed(req), initial); }
    case Checkin(held, token, ok) =>
      if s.mem.Some? && s.mem.value.waiters != [] { AnswerKeepsInv(s, token, ok, initial); }
    case Update(_, _, _, _, _) => UpdateKeepsInv(s, e, initial);
    case Tick(token, ok) =>
      if s.mem.Some? && s.mem.value.waiters != [] { AnswerKeepsInv(s, token, ok, initial); }
  }

  lemma {:induction false} RunKeepsInv(s: KeyState, es: seq<Event>, initial: Option<Datum>)
    requires Inv(s, initial) && IsRun(s, es)
    ensures Inv(After(s, es), initial)
    decreases |es|
  {
    if es != [] {
      StepKeepsInv(s, es[0], initial);
      RunKeepsInv(Step(s, es[0]), es[1..], initial);
    }
  }

  // ---- the properties ----

  /**
    No update is lost: every datum the loop stores was stored with the token of
    the latest grant, the only one that ever carried it; nothing was granted or
    stored since, and the grant handed out exactly the value being replaced.
   */
  lemma LostUpdateFreedom(initial: Option<Datum>, es: seq<Event>, n: nat)
    requires IsRun(Fresh(initial), es)
    requires var log := After(Fresh(initial), es).log; n < |log| && log[n].Stored?
    ensures var log := After(Fresh(initial), es).log;
      exists m :: 0 <= m < n && IsTurnOf(log, m, n, initial)
  {
    RunKeepsInv(Fresh(initial), es, initial);
    RunKeepsGrantsDiffer(Fresh(initial), es);
    var log := After(Fresh(initial), es).log;
    assert StoreFollowsItsGrant(log, n, initial);
    var m :| 0 <= m < n && log[m].Granted? && log[m].token == log[n].token
      && log[m].value == LastStored(log[..n], initial)
      && forall j :: m < j < n ==> !log[j].Granted? && !log[j].Stored?;
    assert IsTurnOf(log, m, n, initial);
  }

  /** `log[m]` is the one grant of the token that `log[n]` stores with, and nobody's turn came between. */
  ghost predicate IsTurnOf(log: seq<Entry>, m: nat, n: nat, initial: Option<Datum>)
    requires m < n < |log| && log[n].Stored?
  {
    && log[m].Granted? && log[m].token == log[n].token
    && log[m].value == LastStored(log[..n], initial)
    && (forall j :: m < j < n ==> !log[j].Granted? && !log[j].Stored?)
    && (forall j :: 0 <= j < |log| && log[j].Granted? && log[j].token == log[n].token ==> j == m)
  }

  /** A token stores at most once. */
  lemma TokenStoresOnce(initial: Option<Datum>, es: seq<Event>, a: nat, b: nat)
    requires IsRun(Fresh(initial), es)
    requires var log := After(Fresh(initial), es).log;
      a < |log| && b < |log| && log[a].Stored? && log[b].Stored? && log[a].token == log[b].token
    ensures a == b
  {
    var log := After(Fresh(initial), es).log;
    LostUpdateFreedom(initial, es, a);
    LostUpdateFreedom(initial, es, b);
    var m :| 0 <= m < a && IsTurnOf(log, m, a, initial);
    assert log[m].Granted?;
  }

  /** The provider holds what the last accepted update stored. */
  lemma ProviderHoldsLastStored(initial: Option<Datum>, es: seq<Event>)
    requires IsRun(Fresh(initial), es)
    ensures var s := After(Fresh(initial), es); s.value == LastStored(s.log, initial)
  {
    RunKeepsInv(Fresh(initial), es, initial);
  }

  /** Read-write requests are answered in arrival order, each once; the rest are waiting, in order. */
  lemma FirstComeFirstServed(initial: Option<Datum>, es: seq<Event>)
    requires IsRun(Fresh(initial), es)
    ensures var s := After(Fresh(initial), es);
      && Arrivals(s.log) == Answers(s.log) + (if s.mem.Some? then s.mem.value.waiters else [])
      && (s.mem.Some? && s.mem.value.state.Available? ==> s.mem.value.waiters == [])
  {
    RunKeepsInv(Fresh(initial), es, initial);
  }

  // ---- leases ----

  predicate IsOwn(e: Event, token: Token) {
    (e.Checkin? || e.Update?) && e.held == token
  }

  function Ticks(es: seq<Event>): nat {
    if es == [] then 0 else (if es[0].Tick? then 1 else 0) + Ticks(es[1..])
  }

  /** Ticks a holder can still see before another request can take the key. */
  function LeaseLeft(m: Memory): nat {
    match m.state
    case NewMemory => 1
    case Seen => 0
    case Available => 0
  }

  /** A holder keeps its token until its own checkin or update, or the second tick after the grant. */
  lemma {:induction false} LeaseHolds(s: KeyState, es: seq<Event>)
    requires IsRun(s, es)
    requires s.mem.Some? && s.mem.value.token != NO_TOKEN && !s.mem.value.state.Available?
    requires Ticks(es) <= LeaseLeft(s.mem.value)
    requires forall i :: 0 <= i < |es| ==> !IsOwn(es[i], s.mem.value.token)
    ensures var s' := After(s, es); s'.mem.Some? && s'.mem.value.token == s.mem.value.token
    decreases |es|
  {
    if es != [] {
      assert !IsOwn(es[0], s.mem.value.token);
      var s1 := Step(s, es[0]);
      assert s1.mem.Some? && s1.mem.value.token == s.mem.value.token;
      LeaseHolds(s1, es[1..]);
    }
  }

  /** A new grant, by whatever event, leaves its token in a new lease: one tick cannot end it. */
  lemma GrantOpensLease(s: KeyState, e: Event, req: Request, value: Option<Datum>)
    requires Enabled(s, e)
    requires |Step(s, e).log| > |s.log| && Step(s, e).log[|Step(s, e).log| - 1] == Granted(req, e.token, value)
    ensures var m := Step(s, e).mem; m.Some? && m.value.token == e.token && LeaseLeft(m.value) == 1
    ensures value == Step(s, e).value
  {}

  // ---- what each event gives back ----

  function Waiters(s: KeyState): seq<Request> {
    if s.mem.Some? then s.mem.value.waiters else []
  }

  /** The key is held, or was last held, under this token. */
  predicate IsCurrent(s: KeyState, token: Token) {
    s.mem.Some? && s.mem.value.token == token
  }

  /** Nobody holds the key, or its holder has let two ticks go by: the next read-write request is answered at once. */
  predicate IsOpen(s: KeyState) {
    s.mem.None? || s.mem.value.state.Available?
  }

  /** The turn of the current token is over: the first waiter has its answer, or the key is nobody's. */
  ghost predicate HandedOver(s: KeyState, s': KeyState) {
    && (if Waiters(s) == [] then s'.mem.None? && Answers(s'.log) == Answers(s.log)
        else
          && Answers(s'.log) == Answers(s.log) + [Waiters(s)[0]]
          && s'.mem.Some? && s'.mem.value.state.NewMemory? && Waiters(s') == Waiters(s)[1..])
    && Arrivals(s'.log) == Arrivals(s.log)
  }

  lemma PassOnHandsOver(s: KeyState, token: Token, ok: bool)
    requires s.mem.Some?
    ensures HandedOver(s, PassOn(s, token, ok))
  {
    if s.mem.value.waiters != [] { Snoc(s.log, Answer(s.mem.value.waiters[0], token, s.value, ok), None); }
  }

  /** A checkin with the current token gives the key to the first waiter, or back; with another it does nothing. */
  lemma CheckinHandsOver(initial: Option<Datum>, before: seq<Event>, e: Event)
    requires IsRun(Fresh(initial), before) && e.Checkin?
    ensures var s := After(Fresh(initial), before);
      var s' := Step(s, e);
      && (if IsCurrent(s, e.held) then HandedOver(s, s') else s' == s)
      && LastStored(s'.log, initial) == LastStored(s.log, initial)
  {
    var s := After(Fresh(initial), before);
    if IsCurrent(s, e.held) {
      PassOnHandsOver(s, e.token, e.ok);
      if Waiters(s) != [] { Snoc(s.log, Answer(Waiters(s)[0], e.token, s.value, e.ok), initial); }
    }
  }

  /** What an update is answered: the outcome of the store, or why there was none. */
  function UpdateAnswer(s: KeyState, e: Event): Entry
    requires e.Update?
  {
    if !IsCurrent(s, e.held) then (if s.mem.Some? then LockExpired(e.held) else DatumNotFound(e.held))
    else if e.storeOk then Stored(e.held, e.datum)
    else StoreFailed(e.held)
  }

  /** An update with the current token stores, if the provider can, and gives the key away; another changes nothing. */
  lemma UpdateHandsOver(initial: Option<Datum>, before: seq<Event>, e: Event)
    requires IsRun(Fresh(initial), before) && Enabled(After(Fresh(initial), before), e) && e.Update?
    ensures var s := After(Fresh(initial), before);
      var s' := Step(s, e);
      && s.log + [UpdateAnswer(s, e)] <= s'.log
      && LastStored(s'.log, initial) ==
           (if IsCurrent(s, e.held) && e.storeOk then Some(e.datum) else LastStored(s.log, initial))
      && s'.value == LastStored(s'.log, initial)
      && (if IsCurrent(s, e.held) then HandedOver(s, s')
          else s'.mem == s.mem && s'.log == s.log + [UpdateAnswer(s, e)])
  {
    var s := After(Fresh(initial), before);
    RunKeepsInv(Fresh(initial), before, initial);
    StepKeepsInv(s, e, initial);
    var entry := UpdateAnswer(s, e);
    Snoc(s.log, entry, initial);
    if IsCurrent(s, e.held) {
      var s1 := s.(value := if e.storeOk then Some(e.datum) else s.value, log := s.log + [entry]);
      PassOnHandsOver(s1, e.token, e.ok);
      if Waiters(s) != [] { Snoc(s1.log, Answer(Waiters(s)[0], e.token, s1.value, e.ok), initial); }
    }
  }

  /**
    A read-only request gets the last datum stored and changes nothing.  A
    read-write one is answered at once when the key is open, with the last datum
    and a new lease or with a failure; otherwise it becomes the last waiter.
   */
  lemma CheckoutAnswered(initial: Option<Datum>, before: seq<Event>, e: Event)
    requires IsRun(Fresh(initial), before) && e.Checkout?
    ensures var s := After(Fresh(initial), before);
      var s' := Step(s, e);
      var last := LastStored(s.log, initial);
      if !e.rw then s' == s.(log := s.log + [if e.ok then ReadOnly(e.req, last) else ReadFailed(e.req)])
      else if IsOpen(s) then
        && s'.log == s.log + [Arrived(e.req), if e.ok then Granted(e.req, e.token, last) else Refused(e.req)]
        && Waiters(s') == [] && s'.value == s.value
        && (e.ok ==> IsCurrent(s', e.token) && !IsOpen(s'))
        && (!e.ok && s.mem.None? ==> s'.mem.None?)
        && (!e.ok && s.mem.Some? ==> IsCurrent(s', NO_TOKEN))
      else
        && s'.log == s.log + [Arrived(e.req)] && s'.value == s.value
        && Waiters(s') == Waiters(s) + [e.req] && s'.mem == Some(s.mem.value.(waiters := Waiters(s')))
  {
    RunKeepsInv(Fresh(initial), before, initial);
  }

  /** Two ticks without a word from the holder open the key when nobody waits for it. */
  lemma {:induction false} TwoTicksOpen(s: KeyState, es: seq<Event>)
    requires IsRun(s, es) && Waiters(s) == []
    requires forall i :: 0 <= i < |es| ==> !(es[i].Checkout? && es[i].rw)
    requires Ticks(es) >= (if IsOpen(s) then 0 else if s.mem.value.state.NewMemory? then 2 else 1)
    ensures IsOpen(After(s, es)) && Waiters(After(s, es)) == []
    decreases |es|
  {
    if es != [] {
      assert !(es[0].Checkout? && es[0].rw);
      TwoTicksOpen(Step(s, es[0]), es[1..]);
    }
  }

  // ---- a token that is not current any more ----

  /** `token` was granted once and is not current: it never will be again. */
  ghost predicate IsGone(s: KeyState, token: Token) {
    && token != NO_TOKEN && !IsCurrent(s, token)
    && exists i :: 0 <= i < |s.log| && s.log[i].Granted? && s.log[i].token == token
  }

  lemma StepKeepsGone(s: KeyState, e: Event, token: Token)
    requires Enabled(s, e) && IsGone(s, token)
    ensures IsGone(Step(s, e), token)
    ensures forall n :: |s.log| <= n < |Step(s, e).log| ==> !StoresWith(Step(s, e).log[n], token)
  {
    var i :| 0 <= i < |s.log| && s.log[i].Granted? && s.log[i].token == token;
    assert e.token != token;
    StepExtendsLog(s, e);
    assert Step(s, e).log[i] == s.log[i];
  }

  /** An update with this token got as far as the provider. */
  predicate StoresWith(e: Entry, token: Token) {
    (e.Stored? || e.StoreFailed?) && e.token == token
  }

  lemma {:induction false} GoneForever(s: KeyState, es: seq<Event>, token: Token)
    requires IsRun(s, es) && IsGone(s, token)
    ensures IsGone(After(s, es), token)
    ensures forall n :: |s.log| <= n < |After(s, es).log| ==> !StoresWith(After(s, es).log[n], token)
    decreases |es|
  {
    if es != [] {
      var s1 := Step(s, es[0]);
      StepKeepsGone(s, es[0], token);
      GoneForever(s1, es[1..], token);
      StepExtendsLog(s, es[0]);
      RunExtendsLog(s1, es[1..]);
      forall n | |s.log| <= n < |s1.log| ensures After(s, es).log[n] == s1.log[n] {}
    }
  }

  /** In no continuation is anything stored with a token that its holder has checked in or updated with. */
  lemma SpentTokenStoresNothing(initial: Option<Datum>, before: seq<Event>, e: Event, es: seq<Event>)
    requires IsRun(Fresh(initial), before)
    requires var s := After(Fresh(initial), before);
      && Enabled(s, e) && (e.Checkin? || e.Update?) && IsCurrent(s, e.held) && IsRun(Step(s, e), es)
    ensures var s' := Step(After(Fresh(initial), before), e);
      forall n :: |s'.log| <= n < |After(s', es).log| ==> !StoresWith(After(s', es).log[n], e.held)
  {
    var s := After(Fresh(initial), before);
    RunKeepsInv(Fresh(initial), before, initial);
    var at := LastTurn(s.log).value;
    assert s.log[at].Granted? && s.log[at].token == e.held;
    StepExtendsLog(s, e);
    assert Step(s, e).log[at] == s.log[at];
    assert IsGone(Step(s, e), e.held);
    GoneForever(Step(s, e), es, e.held);
  }

  /** Nor with one whose key has since been granted to another request. */
  lemma OvertakenTokenStoresNothing(initial: Option<Datum>, before: seq<Event>, i: nat, j: nat, es: seq<Event>)
    requires IsRun(Fresh(initial), before)
    requires var s := After(Fresh(initial), before);
      IsRun(s, es) && i < j < |s.log| && s.log[i].Granted? && s.log[i].token != NO_TOKEN && s.log[j].Granted?
    ensures var s := After(Fresh(initial), before);
      forall n :: |s.log| <= n < |After(s, es).log| ==> !StoresWith(After(s, es).log[n], s.log[i].token)
  {
    var s := After(Fresh(initial), before);
    RunKeepsInv(Fresh(initial), before, initial);
    RunKeepsGrantsDiffer(Fresh(initial), before);
    assert IsGone(s, s.log[i].token);
    GoneForever(s, es, s.log[i].token);
  }

  // ---- bounded waiting ----

  /** How many ticks at most until the request at position `p` of the waiters is answered. */
  function Rank(m: Memory, p: nat): nat {
    2 * p + (if m.state.NewMemory? then 2 else 1)
  }

  /** A request at position `p` is answered within `2p + 2` ticks, whatever else happens. */
  lemma {:induction false} BoundedWaiting(s: KeyState, es: seq<Event>, p: nat)
    requires IsRun(s, es) && s.mem.Some? && !s.mem.value.state.Available?
    requires p < |s.mem.value.waiters| && Ticks(es) >= Rank(s.mem.value, p)
    ensures |Answers(After(s, es).log)| >= |Answers(s.log)| + p + 1
    decreases |es|
  {
    var e := es[0];
    var s1 := Step(s, e);
    StepAnswers(s, e);
    var answered := |Answers(s1.log)| - |Answers(s.log)|;
    if answered > p {
      AnswersGrow(s1, es[1..]);
    } else {
      BoundedWaiting(s1, es[1..], p - answered);
    }
  }

  /** The first waiter has been answered or nobody, and the rest have a lower rank if a tick has passed. */
  ghost predicate Progress(s: KeyState, s1: KeyState, ticks: nat)
    requires s.mem.Some?
  {
    && s1.mem.Some? && !s1.mem.value.state.Available?
    && var answered := |Answers(s1.log)| - |Answers(s.log)|;
    && 0 <= answered <= 1
    && |s1.mem.value.waiters| >= |s.mem.value.waiters| - answered
    && forall p: nat :: answered <= p ==> Rank(s1.mem.value, p - answered) + ticks <= Rank(s.mem.value, p)
  }

  lemma StepAnswers(s: KeyState, e: Event)
    requires s.mem.Some? && !s.mem.value.state.Available? && s.mem.value.waiters != []
    ensures Progress(s, Step(s, e), if e.Tick? then 1 else 0)
  {
    match e
    case Checkout(req, rw, token, ok) => CheckoutAnswers(s, req, rw, token, ok);
    case Checkin(held, token, ok) => ReplyProgress(s, s, token, ok);
    case Update(held, datum, storeOk, token, ok) =>
      if s.mem.value.token != held {
        Snoc(s.log, LockExpired(held), None);
      } else {
        var entry := if storeOk then Stored(held, datum) else StoreFailed(held);
        Snoc(s.log, entry, None);
        ReplyProgress(s, s.(value := if storeOk then Some(datum) else s.value, log := s.log + [entry]), token, ok);
      }
    case Tick(token, ok) => ReplyProgress(s, s, token, ok);
  }

  lemma CheckoutAnswers(s: KeyState, req: Request, rw: bool, token: Token, ok: bool)
    requires s.mem.Some? && !s.mem.value.state.Available? && s.mem.value.waiters != []
    ensures Progress(s, Step(s, Checkout(req, rw, token, ok)), 0)
  {
    if rw { Snoc(s.log, Arrived(req), None); }
    else { Snoc(s.log, if ok then ReadOnly(req, s.value) else ReadFailed(req), None); }
  }

  lemma ReplyProgress(s: KeyState, s0: KeyState, token: Token, ok: bool)
    requires s.mem.Some? && !s.mem.value.state.Available? && s.mem.value.waiters != []
    requires s0.mem == s.mem && Answers(s0.log) == Answers(s.log)
    ensures Progress(s, ReplyToWaiter(s0, token, ok), 0)
    ensures s.mem.value.state.Seen? ==> Progress(s, ReplyToWaiter(s0, token, ok), 1)
  {
    Snoc(s0.log, Answer(s.mem.value.waiters[0], token, s0.value, ok), None);
  }

  lemma {:induction false} AnswersGrow(s: KeyState, es: seq<Event>)
    ensures |Answers(After(s, es).log)| >= |Answers(s.log)|
    decreases |es|
  {
    if es != [] {
      StepExtendsLog(s, es[0]);
      AnswersOfPrefix(s.log, Step(s, es[0]).log);
      AnswersGrow(Step(s, es[0]), es[1..]);
    }
  }

  lemma StepExtendsLog(s: KeyState, e: Event)
    ensures s.log <= Step(s, e).log
  {}

  lemma {:induction false} AnswersOfPrefix(a: seq<Entry>, b: seq<Entry>)
    requires a <= b
    ensures |Answers(a)| <= |Answers(b)|
    decreases |b|
  {
    if a != b { AnswersOfPrefix(a, b[..|b| - 1]); }
  }

  lemma {:induction false} ArrivalsOfPrefix(a: seq<Entry>, b: seq<Entry>)
    requires a <= b
    ensures Arrivals(a) <= Arrivals(b)
    decreases |b|
  {
    if a == b { assert a == b; } else { ArrivalsOfPrefix(a, b[..|b| - 1]); }
  }

  lemma {:induction false} RunExtendsLog(s: KeyState, es: seq<Event>)
    ensures s.log <= After(s, es).log
    decreases |es|
  {
    if es != [] {
      StepExtendsLog(s, es[0]);
      RunExtendsLog(Step(s, es[0]), es[1..]);
    }
  }

  /** The very request at position `p` has its answer, at its place in the order, within `2p + 2` ticks. */
  lemma WaiterIsAnswered(initial: Option<Datum>, before: seq<Event>, es: seq<Event>, p: nat)
    requires IsRun(Fresh(initial), before)
    requires var s := After(Fresh(initial), before);
      && IsRun(s, es) && s.mem.Some? && p < |s.mem.value.waiters| && Ticks(es) >= 2 * p + 2
    ensures var s := After(Fresh(initial), before);
      var i := |Answers(s.log)| + p;
      i < |Answers(After(s, es).log)| && Answers(After(s, es).log)[i] == s.mem.value.waiters[p]
  {
    var s := After(Fresh(initial), before);
    var s' := After(s, es);
    RunKeepsInv(Fresh(initial), before, initial);
    RunKeepsInv(s, es, initial);
    BoundedWaiting(s, es, p);
    RunExtendsLog(s, es);
    ArrivalsOfPrefix(s.log, s'.log);
    var i := |Answers(s.log)| + p;
    assert Arrivals(s.log)[i] == s.mem.value.waiters[p];
    assert Arrivals(s'.log)[i] == Answers(s'.log)[i];
  }
}

/** The loop itself: one method per event, over all keys. */
module BrainLoop {
  import opened Options
  import opened BrainLoopModel

  type Key = string

  class BrainLoop {
    var memories: map<Key, Memory>
    /** What the brain provider holds. */
    var provider: map<Key, Datum>
    /** Everything that happened to each key, answers included. */
    ghost var history: map<Key, seq<Entry>>

    /** The loop as `key` sees it. */
    ghost function At(key: Key): KeyState
      reads this
    {
      KeyState(if key in memories then Some(memories[key]) else None,
               if key in provider then Some(provider[key]) else None,
               if key in history then history[key] else [])
    }

    constructor (provider: map<Key, Datum>)
      ensures forall k :: At(k) == KeyState(None, if k in provider then Some(provider[k]) else None, [])
    {
      memories := map[];
      this.provider := provider;
      history := map[];
    }

    ghost method Record(key: Key, e: Entry)
      modifies this`history
      ensures history == old(history)[key := old(At(key)).log + [e]]
    {
      history := history[key := At(key).log + [e]];
    }

    method GetDatum(key: Key, rw: bool, token: Token, ok: bool) returns (lt: Token, value: Option<Datum>, ret: bool)
      ensures ret == ok && lt == (if ok && rw then token else NO_TOKEN)
      ensures value == if ok then At(key).value else None
    {
      if !ok { return NO_TOKEN, None, false; }
      lt := if rw then token else NO_TOKEN;
      value := if key in provider then Some(provider[key]) else None;
      ret := true;
    }

    method ReplyToWaiter(key: Key, token: Token, ok: bool)
      requires key in memories && memories[key].waiters != []
      modifies this
      ensures At(key) == BrainLoopModel.ReplyToWaiter(old(At(key)), token, ok)
      ensures forall k :: k != key ==> At(k) == old(At(k))
      ensures memories.Keys == old(memories).Keys && provider == old(provider)
    {
      var m := memories[key];
      var creq := m.waiters[0];
      var lt, value, ret := GetDatum(key, true, token, ok);
      memories := memories[key := Memory(NewMemory, lt, m.waiters[1..])];
      Record(key, if ret then Granted(creq, lt, value) else Refused(creq));
    }

    method Checkout(key: Key, req: Request, rw: bool, token: Token, ok: bool)
      modifies this
      ensures At(key) == Step(old(At(key)), Event.Checkout(req, rw, token, ok))
      ensures forall k :: k != key ==> At(k) == old(At(k))
    {
      var lt, value, ret := GetDatum(key, rw, token, ok);
      if !rw {
        Record(key, if ret then ReadOnly(req, value) else ReadFailed(req));
        return;
      }
      Record(key, Arrived(req));
      if key !in memories {
        if ret { memories := memories[key := Memory(NewMemory, lt, [])]; }
        Record(key, if ret then Granted(req, lt, value) else Refused(req));
      } else if memories[key].state.Available? {
        memories := memories[key := memories[key].(state := NewMemory, token := lt)];
        Record(key, if ret then Granted(req, lt, value) else Refused(req));
      } else {
        memories := memories[key := memories[key].(waiters := memories[key].waiters + [req])];
      }
    }

    method Checkin(key: Key, held: Token, token: Token, ok: bool)
      modifies this
      ensures At(key) == Step(old(At(key)), Event.Checkin(held, token, ok))
      ensures forall k :: k != key ==> At(k) == old(At(k))
    {
      if key !in memories { return; }
      if held != memories[key].token { return; }
      if |memories[key].waiters| > 0 {
        ReplyToWaiter(key, token, ok);
        return;
      }
      memories := memories - {key};
    }

    method Update(key: Key, held: Token, datum: Datum, storeOk: bool, token: Token, ok: bool)
      modifies this
      ensures At(key) == Step(old(At(key)), Event.Update(held, datum, storeOk, token, ok))
      ensures forall k :: k != key ==> At(k) == old(At(k))
    {
      if key !in memories {
        Record(key, DatumNotFound(held));
        return;
      }
      if held != memories[key].token {
        Record(key, LockExpired(held));
        return;
      }
      if storeOk { provider := provider[key := datum]; }
      Record(key, if storeOk then Stored(held, datum) else StoreFailed(held));
      if |memories[key].waiters| > 0 {
        ReplyToWaiter(key, token, ok);
        return;
      }
      memories := memories - {key};
    }

    /** One tick of the brain ticker; the keys are visited in no particular order. */
    method Tick(tokens: Key -> Token, oks: Key -> bool)
      modifies this
      ensures forall k :: At(k) == Step(old(At(k)), Event.Tick(tokens(k), oks(k)))
    {
      var todo := memories.Keys;
      while todo != {}
        invariant memories.Keys == old(memories).Keys && todo <= memories.Keys
        invariant forall k :: At(k) == if k in old(memories) && k !in todo
                                       then Step(old(At(k)), Event.Tick(tokens(k), oks(k))) else old(At(k))
      {
        var k :| k in todo;
        TickOne(k, tokens(k), oks(k));
        todo := todo - {k};
      }
    }

    method TickOne(key: Key, token: Token, ok: bool)
      requires key in memories
      modifies this
      ensures At(key) == Step(old(At(key)), Event.Tick(token, ok))
      ensures forall k :: k != key ==> At(k) == old(At(k))
      ensures memories.Keys == old(memories).Keys
    {
      var m := memories[key];
      match m.state
      case NewMemory => memories := memories[key := m.(state := Seen)];
      case Seen =>
        if |m.waiters| > 0 {
          ReplyToWaiter(key, token, ok);
        } else {
          memories := memories[key := m.(state := Available)];
        }
      case Available =>
    }
  }
}
