/**
  Serialized external API calls and kill requests on one worker, as interleaved
  steps.  `serializeAPICalls` is `holder`; a section under the worker mutex is
  one step.
 */
module KillHandshake {
  import opened Options

  type Thread = nat
  /** What a kill reports. */
  type Outcome = nat

  /** Where a thread is; the ones from `BeginCheck` to `Unlocking`, and from `AskLocked` on, hold the API mutex. */
  datatype Pc =
    | Idle
    | BeginWait          // begin: waiting for the API mutex
    | BeginCheck         // begin: about to read the pending flag
    | InCall             // begin returned true
    | Clearing           // about to take the pending flag, refusing or finishing
    | Killing            // took it; about to kill
    | Publishing(r: Outcome)  // killed; about to publish the result
    | Unlocking          // about to unlock and return
    | AskWait(since: nat)     // request: flag set; waiting for the API mutex
    | AskLocked(since: nat)   // request: about to look at the flags
    | AskKilling(since: nat)  // request: took the flag itself; about to kill
    | AskReturning(since: nat)

  /** The worker fields the handshake uses. */
  datatype Flags = Flags(pending: bool, ready: bool, result: Outcome)

  /** What a request finds: a result, nothing left to do, or the kill to carry out. */
  datatype Report = Done(result: Outcome) | Stale | Mine

  /** What has happened: a request was made, a process killed, a result published, a request told what to do. */
  datatype Entry =
    | Asked(t: Thread)
    | Killed(t: Thread, outcome: Outcome)
    | Published(t: Thread, outcome: Outcome)
    | Told(t: Thread, report: Report)

  /** `asked` and `kills` count requests made and kills whose result has been published or returned. */
  datatype State =
    State(flags: Flags, holder: Option<Thread>, pcs: map<Thread, Pc>, asked: nat, kills: nat, log: seq<Entry>)

  datatype Choice = Call | Kill

  function At(s: State, t: Thread): Pc {
    if t in s.pcs then s.pcs[t] else Idle
  }

  predicate HoldsMutex(pc: Pc) {
    !pc.Idle? && !pc.BeginWait? && !pc.AskWait?
  }

  function Start(): State {
    State(Flags(false, false, 0), None, map[], 0, 0, [])
  }

  // ---- the sections under the worker mutex ----

  function Ask(f: Flags): Flags {
    f.(pending := true, ready := false)
  }

  function Take(f: Flags): Flags {
    f.(pending := false)
  }

  function Publish(f: Flags, r: Outcome): Flags {
    f.(result := r, ready := true)
  }

  /** A ready result is consumed; failing that, the pending flag is taken. */
  function Decide(f: Flags): Flags {
    if f.ready then f.(ready := false) else f.(pending := false)
  }

  /** Whether the request must kill the process itself. */
  predicate MustKill(f: Flags) {
    !f.ready && f.pending
  }

  function ReportOf(f: Flags): Report {
    if f.ready then Done(f.result) else if f.pending then Mine else Stale
  }

  // ---- one step of one thread ----

  /** A thread waiting for the mutex can step only when it is free. */
  predicate CanStep(s: State, t: Thread) {
    At(s, t).BeginWait? || At(s, t).AskWait? ==> s.holder.None?
  }

  function Goto(s: State, t: Thread, pc: Pc): State {
    s.(pcs := s.pcs[t := pc])
  }

  function Log(s: State, e: Entry): State {
    s.(log := s.log + [e])
  }

  /** `choice` is what an idle thread starts, `r` the outcome of a kill. */
  function Step(s: State, t: Thread, choice: Choice, r: Outcome): State {
    match At(s, t)
    case Idle =>
      if choice.Call? then Goto(s, t, BeginWait)
      else Goto(Log(s, Asked(t)).(flags := Ask(s.flags), asked := s.asked + 1), t, AskWait(s.kills))
    case BeginWait => Goto(s.(holder := Some(t)), t, BeginCheck)
    case BeginCheck => Goto(s, t, if s.flags.pending then Clearing else InCall)
    case InCall => Goto(s, t, Clearing)
    case Clearing => if s.flags.pending then Goto(s.(flags := Take(s.flags)), t, Killing) else Goto(s, t, Unlocking)
    case Killing => Goto(Log(s, Killed(t, r)), t, Publishing(r))
    case Publishing(res) =>
      Goto(Log(s, Published(t, res)).(flags := Publish(s.flags, res), kills := s.kills + 1), t, Unlocking)
    case Unlocking => Goto(s.(holder := None), t, Idle)
    case AskWait(since) => Goto(s.(holder := Some(t)), t, AskLocked(since))
    case AskLocked(since) =>
      Goto(Log(s, Told(t, ReportOf(s.flags))).(flags := Decide(s.flags)), t,
           if MustKill(s.flags) then AskKilling(since) else AskReturning(since))
    case AskKilling(since) => Goto(Log(s, Killed(t, r)).(kills := s.kills + 1), t, AskReturning(since))
    case AskReturning(_) => Goto(s.(holder := None), t, Idle)
  }

  /** The step at which the process group is killed. */
  predicate IsKill(s: State, t: Thread) {
    At(s, t).Killing? || At(s, t).AskKilling?
  }

  datatype Move = Move(t: Thread, choice: Choice, r: Outcome)

  predicate IsRun(s: State, ms: seq<Move>)
    decreases |ms|
  {
    ms == [] || (CanStep(s, ms[0].t) && IsRun(Step(s, ms[0].t, ms[0].choice, ms[0].r), ms[1..]))
  }

  function After(s: State, ms: seq<Move>): State
    decreases |ms|
  {
    if ms == [] then s else After(Step(s, ms[0].t, ms[0].choice, ms[0].r), ms[1..])
  }

  // ---- the invariant ----

  predicate IsUndecided(pc: Pc) { pc.AskWait? || pc.AskLocked? }

  /** Kill requests that have not looked at the flags yet. */
  function Undecided(s: State): set<Thread> {
    set t | t in s.pcs && IsUndecided(s.pcs[t])
  }

  function HolderPc(s: State): Pc {
    if s.holder.Some? then At(s, s.holder.value) else Idle
  }

  /** A pending flag taken whose result is not published yet. */
  function InFlight(s: State): nat {
    if HolderPc(s).Killing? || HolderPc(s).Publishing? then 1 else 0
  }

  function TakenByRequest(s: State): nat {
    if HolderPc(s).AskKilling? then 1 else 0
  }

  function Count(b: bool): nat { if b then 1 else 0 }

  ghost predicate MutexOK(s: State) {
    forall t: Thread :: HoldsMutex(At(s, t)) <==> s.holder == Some(t)
  }

  /** Flags and results in flight never outnumber the requests that can still pick them up. */
  ghost predicate NoSurplus(s: State) {
    Count(s.flags.pending) + Count(s.flags.ready) + InFlight(s) <= |Undecided(s)|
  }

  /** No more kills than requests. */
  ghost predicate KillsAsked(s: State) {
    s.kills + InFlight(s) + TakenByRequest(s) + Count(s.flags.pending) <= s.asked
  }

  /** A request still waiting has a kill behind it, or one on the way. */
  ghost predicate KillOnTheWay(s: State) {
    forall t :: t in s.pcs && IsUndecided(s.pcs[t]) ==>
      && (s.pcs[t].since < s.kills || s.flags.pending || InFlight(s) + TakenByRequest(s) == 1)
      && (s.flags.ready ==> s.pcs[t].since < s.kills)
      && s.pcs[t].since <= s.kills
  }

  ghost predicate KillBeforeReturn(s: State) {
    forall t :: t in s.pcs ==>
      && (s.pcs[t].AskReturning? ==> s.pcs[t].since < s.kills)
      && (s.pcs[t].AskKilling? ==> s.pcs[t].since <= s.kills)
  }

  ghost predicate Inv(s: State) {
    MutexOK(s) && NoSurplus(s) && KillsAsked(s) && KillOnTheWay(s) && KillBeforeReturn(s)
  }

  lemma UndecidedAfter(s: State, s': State, t: Thread)
    requires s'.pcs == s.pcs[t := At(s', t)]
    ensures |Undecided(s')| == |Undecided(s)| + Count(IsUndecided(At(s', t))) - Count(IsUndecided(At(s, t)))
  {
    if IsUndecided(At(s', t)) {
      assert Undecided(s') == Undecided(s) + {t};
    } else {
      assert Undecided(s') == Undecided(s) - {t};
    }
  }

  lemma StepKeepsMutex(s: State, t: Thread, choice: Choice, r: Outcome)
    requires MutexOK(s) && CanStep(s, t)
    ensures MutexOK(Step(s, t, choice, r))
  {
    var s' := Step(s, t, choice, r);
    forall u: Thread ensures HoldsMutex(At(s', u)) <==> s'.holder == Some(u) {
      if u != t { assert At(s', u) == At(s, u); }
      assert HoldsMutex(At(s, u)) <==> s.holder == Some(u);
      assert HoldsMutex(At(s, t)) <==> s.holder == Some(t);
    }
  }

  /** Only the mutex holder is ever between taking the flag and publishing. */
  lemma OthersKeepHolder(s: State, t: Thread, choice: Choice, r: Outcome)
    requires MutexOK(s) && CanStep(s, t)
    ensures s.holder.Some? && s.holder.value != t ==>
              HolderPc(Step(s, t, choice, r)) == HolderPc(s) && (At(s, t).Idle?)
    ensures s.holder == Some(t) ==> HolderPc(s) == At(s, t)
    ensures s.holder.None? ==> At(s, t).Idle? || At(s, t).BeginWait? || At(s, t).AskWait?
  {
    assert HoldsMutex(At(s, t)) <==> s.holder == Some(t);
  }

  lemma StepKeepsNoSurplus(s: State, t: Thread, choice: Choice, r: Outcome)
    requires MutexOK(s) && NoSurplus(s) && CanStep(s, t)
    ensures NoSurplus(Step(s, t, choice, r))
  {
    OthersKeepHolder(s, t, choice, r);
    UndecidedAfter(s, Step(s, t, choice, r), t);
  }

  lemma StepKeepsKillsAsked(s: State, t: Thread, choice: Choice, r: Outcome)
    requires Inv(s) && CanStep(s, t)
    ensures KillsAsked(Step(s, t, choice, r))
  {
    OthersKeepHolder(s, t, choice, r);
  }

  lemma StepKeepsKillOnTheWay(s: State, t: Thread, choice: Choice, r: Outcome)
    requires Inv(s) && CanStep(s, t)
    ensures KillOnTheWay(Step(s, t, choice, r))
  {
    OthersKeepHolder(s, t, choice, r);
  }

  lemma StepKeepsKillBeforeReturn(s: State, t: Thread, choice: Choice, r: Outcome)
    requires Inv(s) && CanStep(s, t)
    ensures KillBeforeReturn(Step(s, t, choice, r))
  {
    OthersKeepHolder(s, t, choice, r);
  }

  lemma StepKeepsInv(s: State, t: Thread, choice: Choice, r: Outcome)
    requires Inv(s) && CanStep(s, t)
    ensures Inv(Step(s, t, choice, r))
  {
    StepKeepsMutex(s, t, choice, r);
    StepKeepsNoSurplus(s, t, choice, r);
    StepKeepsKillsAsked(s, t, choice, r);
    StepKeepsKillOnTheWay(s, t, choice, r);
    StepKeepsKillBeforeReturn(s, t, choice, r);
  }

  lemma {:induction false} RunKeepsInv(s: State, ms: seq<Move>)
    requires Inv(s) && IsRun(s, ms)
    ensures Inv(After(s, ms))
    decreases |ms|
  {
    if ms != [] {
      StepKeepsInv(s, ms[0].t, ms[0].choice, ms[0].r);
      RunKeepsInv(Step(s, ms[0].t, ms[0].choice, ms[0].r), ms[1..]);
    }
  }

  lemma RunInv(ms: seq<Move>)
    requires IsRun(Start(), ms)
    ensures Inv(After(Start(), ms))
  {
    RunKeepsInv(Start(), ms);
  }

  // ---- the properties ----

  /** No process is killed while a serialized API call is in progress. */
  lemma NoKillDuringCall(ms: seq<Move>, killer: Thread, caller: Thread)
    requires IsRun(Start(), ms) && IsKill(After(Start(), ms), killer)
    ensures !At(After(Start(), ms), caller).InCall?
  {
    RunInv(ms);
    var s := After(Start(), ms);
    assert HoldsMutex(At(s, killer)) && (HoldsMutex(At(s, caller)) <==> s.holder == Some(caller));
  }

  /** Pending, ready and in-flight together never count more than the undecided requests. */
  lemma FlagsBoundedByRequests(ms: seq<Move>)
    requires IsRun(Start(), ms)
    ensures var s := After(Start(), ms);
      && Count(s.flags.pending) + Count(s.flags.ready) + InFlight(s) <= |Undecided(s)|
      && s.kills + InFlight(s) + TakenByRequest(s) + Count(s.flags.pending) <= s.asked
  {
    RunInv(ms);
  }

  /** With no request left to decide, nothing is left behind and the next API call is let in. */
  lemma NothingLeftToRefuse(ms: seq<Move>, t: Thread, choice: Choice, r: Outcome)
    requires IsRun(Start(), ms)
    requires forall u :: u in After(Start(), ms).pcs ==> !IsUndecided(After(Start(), ms).pcs[u])
    ensures var s := After(Start(), ms);
      && !s.flags.pending && !s.flags.ready && InFlight(s) == 0
      && (At(s, t).BeginCheck? ==> At(Step(s, t, choice, r), t).InCall?)
  {
    RunInv(ms);
    assert Undecided(After(Start(), ms)) == {};
  }

  /** A request returns only after a kill was published or carried out since the request was made. */
  lemma RequestSeesKill(ms: seq<Move>, t: Thread)
    requires IsRun(Start(), ms) && At(After(Start(), ms), t).AskReturning?
    ensures At(After(Start(), ms), t).since < After(Start(), ms).kills
  {
    RunInv(ms);
  }

  // ---- whose outcome a request gets ----

  /** `j` is the last entry that publishes, and nobody has asked since. */
  ghost predicate IsLatestResult(log: seq<Entry>, j: nat, outcome: Outcome) {
    && j < |log| && log[j].Published? && log[j].outcome == outcome
    && forall i :: j < i < |log| ==> !log[i].Published? && !log[i].Asked?
  }

  ghost predicate ResultOK(s: State) {
    s.flags.ready ==> exists j: nat :: IsLatestResult(s.log, j, s.flags.result)
  }

  /** `i` is the last kill before `n`, by this thread and with this outcome. */
  ghost predicate IsLastKill(log: seq<Entry>, i: nat, n: nat, t: Thread, outcome: Outcome) {
    i < n <= |log| && log[i] == Killed(t, outcome) && forall j :: i < j < n ==> !log[j].Killed?
  }

  /** What is published, or about to be, is the outcome of the last kill. */
  ghost predicate PublishesKills(s: State) {
    && (forall n :: 0 <= n < |s.log| && s.log[n].Published? ==>
          exists i: nat :: IsLastKill(s.log, i, n, s.log[n].t, s.log[n].outcome))
    && (forall t :: t in s.pcs && s.pcs[t].Publishing? ==>
          exists i: nat :: IsLastKill(s.log, i, |s.log|, t, s.pcs[t].r))
  }

  /** `a` is the last request of `t` before `n`. */
  ghost predicate IsLastAsk(log: seq<Entry>, a: nat, n: nat, t: Thread) {
    a < n <= |log| && log[a] == Asked(t) && forall j :: a < j < n ==> log[j] != Asked(t)
  }

  /** Entry `n` tells a request the outcome that was published last, after the request was made. */
  ghost predicate ToldItsResult(log: seq<Entry>, n: nat)
    requires n < |log| && log[n].Told? && log[n].report.Done?
  {
    exists a: nat, j: nat ::
      IsLastAsk(log, a, n, log[n].t) && a < j && IsLatestResult(log[..n], j, log[n].report.result)
  }

  ghost predicate ReportsOK(s: State) {
    && (forall t :: t in s.pcs && IsUndecided(s.pcs[t]) ==> exists a: nat :: IsLastAsk(s.log, a, |s.log|, t))
    && (forall n :: 0 <= n < |s.log| && s.log[n].Told? && s.log[n].report.Done? ==> ToldItsResult(s.log, n))
  }

  ghost predicate Honest(s: State) {
    Inv(s) && ResultOK(s) && PublishesKills(s) && ReportsOK(s)
  }

  lemma StepKeepsResult(s: State, t: Thread, choice: Choice, r: Outcome)
    requires Honest(s) && CanStep(s, t)
    ensures ResultOK(Step(s, t, choice, r))
  {
    var s' := Step(s, t, choice, r);
    if At(s, t).Publishing? {
      assert IsLatestResult(s'.log, |s.log|, s'.flags.result);
    } else if s'.flags.ready {
      var j: nat :| IsLatestResult(s.log, j, s.flags.result);
      assert IsLatestResult(s'.log, j, s'.flags.result);
    }
  }

  lemma StepKeepsPublished(s: State, t: Thread, choice: Choice, r: Outcome)
    requires Honest(s) && CanStep(s, t)
    ensures PublishesKills(Step(s, t, choice, r))
  {
    var s' := Step(s, t, choice, r);
    OthersKeepHolder(s, t, choice, r);
    forall n | 0 <= n < |s'.log| && s'.log[n].Published?
      ensures exists i: nat :: IsLastKill(s'.log, i, n, s'.log[n].t, s'.log[n].outcome)
    {
      var u, x := s'.log[n].t, s'.log[n].outcome;
      var i: nat :| IsLastKill(s.log, i, n, u, x);
      assert IsLastKill(s'.log, i, n, u, x);
    }
    forall u | u in s'.pcs && s'.pcs[u].Publishing?
      ensures exists i: nat :: IsLastKill(s'.log, i, |s'.log|, u, s'.pcs[u].r)
    {
      StepKeepsPublisher(s, t, choice, r, u);
    }
  }

  lemma StepKeepsPublisher(s: State, t: Thread, choice: Choice, r: Outcome, u: Thread)
    requires MutexOK(s) && PublishesKills(s) && CanStep(s, t)
    requires u in Step(s, t, choice, r).pcs && Step(s, t, choice, r).pcs[u].Publishing?
    ensures var s' := Step(s, t, choice, r); exists i: nat :: IsLastKill(s'.log, i, |s'.log|, u, s'.pcs[u].r)
  {
    var s' := Step(s, t, choice, r);
    if u == t {
      assert IsLastKill(s'.log, |s.log|, |s'.log|, t, r);
    } else {
      PublisherIsAlone(s, t, choice, r, u);
      var i: nat :| IsLastKill(s.log, i, |s.log|, u, s.pcs[u].r);
      assert IsLastKill(s'.log, i, |s'.log|, u, s.pcs[u].r);
    }
  }

  /** Nobody kills while another thread is about to publish. */
  lemma PublisherIsAlone(s: State, t: Thread, choice: Choice, r: Outcome, u: Thread)
    requires MutexOK(s) && CanStep(s, t) && u != t && u in s.pcs && s.pcs[u].Publishing?
    ensures s.log <= Step(s, t, choice, r).log
    ensures forall j :: |s.log| <= j < |Step(s, t, choice, r).log| ==> !Step(s, t, choice, r).log[j].Killed?
  {
    assert HoldsMutex(At(s, u)) && (HoldsMutex(At(s, t)) <==> s.holder == Some(t));
  }

  lemma StepKeepsReports(s: State, t: Thread, choice: Choice, r: Outcome)
    requires Honest(s) && CanStep(s, t)
    ensures ReportsOK(Step(s, t, choice, r))
  {
    var s' := Step(s, t, choice, r);
    forall u | u in s'.pcs && IsUndecided(s'.pcs[u]) ensures exists a: nat :: IsLastAsk(s'.log, a, |s'.log|, u) {
      StepKeepsAsk(s, t, choice, r, u);
    }
    forall n | 0 <= n < |s'.log| && s'.log[n].Told? && s'.log[n].report.Done? ensures ToldItsResult(s'.log, n) {
      if n < |s.log| { OldReportStays(s.log, s'.log, n); } else { NewReportIsTold(s, t); }
    }
  }

  lemma OldReportStays(log: seq<Entry>, log': seq<Entry>, n: nat)
    requires log <= log' && n < |log| && log[n].Told? && log[n].report.Done? && ToldItsResult(log, n)
    ensures ToldItsResult(log', n)
  {
    var a: nat, j: nat :| IsLastAsk(log, a, n, log[n].t) && a < j && IsLatestResult(log[..n], j, log[n].report.result);
    assert log'[..n] == log[..n] && log'[n] == log[n];
    assert forall k :: 0 <= k < n ==> log'[k] == log[k];
    assert IsLastAsk(log', a, n, log'[n].t) && IsLatestResult(log'[..n], j, log'[n].report.result);
  }

  lemma NewReportIsTold(s: State, t: Thread)
    requires ResultOK(s) && ReportsOK(s) && At(s, t).AskLocked? && s.flags.ready
    ensures ToldItsResult(s.log + [Told(t, Done(s.flags.result))], |s.log|)
  {
    var log' := s.log + [Told(t, Done(s.flags.result))];
    var a: nat :| IsLastAsk(s.log, a, |s.log|, t);
    var j: nat :| IsLatestResult(s.log, j, s.flags.result);
    assert log'[..|s.log|] == s.log && log'[|s.log|] == Told(t, Done(s.flags.result));
    assert a < j by { assert s.log[a].Asked?; }
    assert IsLastAsk(log', a, |s.log|, t);
  }

  lemma StepKeepsAsk(s: State, t: Thread, choice: Choice, r: Outcome, u: Thread)
    requires ReportsOK(s)
    requires u in Step(s, t, choice, r).pcs && IsUndecided(Step(s, t, choice, r).pcs[u])
    ensures exists a: nat :: IsLastAsk(Step(s, t, choice, r).log, a, |Step(s, t, choice, r).log|, u)
  {
    var s' := Step(s, t, choice, r);
    if u == t && At(s, t).Idle? {
      assert IsLastAsk(s'.log, |s.log|, |s'.log|, t);
    } else {
      var a: nat :| IsLastAsk(s.log, a, |s.log|, u);
      NoNewAsk(s, t, choice, r, u);
      LastAskStays(s.log, s'.log, a, u);
    }
  }

  lemma NoNewAsk(s: State, t: Thread, choice: Choice, r: Outcome, u: Thread)
    requires !(u == t && At(s, t).Idle?)
    ensures s.log <= Step(s, t, choice, r).log
    ensures forall j :: |s.log| <= j < |Step(s, t, choice, r).log| ==> Step(s, t, choice, r).log[j] != Asked(u)
  {}

  lemma LastAskStays(log: seq<Entry>, log': seq<Entry>, a: nat, u: Thread)
    requires IsLastAsk(log, a, |log|, u) && log <= log'
    requires forall j :: |log| <= j < |log'| ==> log'[j] != Asked(u)
    ensures IsLastAsk(log', a, |log'|, u)
  {}

  lemma {:induction false} RunStaysHonest(s: State, ms: seq<Move>)
    requires Honest(s) && IsRun(s, ms)
    ensures Honest(After(s, ms))
    decreases |ms|
  {
    if ms != [] {
      var m := ms[0];
      StepKeepsInv(s, m.t, m.choice, m.r);
      StepKeepsResult(s, m.t, m.choice, m.r);
      StepKeepsPublished(s, m.t, m.choice, m.r);
      StepKeepsReports(s, m.t, m.choice, m.r);
      RunStaysHonest(Step(s, m.t, m.choice, m.r), ms[1..]);
    }
  }

  /** A kill is logged, with the outcome it had and the thread that carried it out. */
  lemma KillIsLogged(s: State, t: Thread, choice: Choice, r: Outcome)
    ensures s.log <= Step(s, t, choice, r).log
    ensures if IsKill(s, t) then Step(s, t, choice, r).log == s.log + [Killed(t, r)]
            else forall n :: |s.log| <= n < |Step(s, t, choice, r).log| ==> !Step(s, t, choice, r).log[n].Killed?
  {}

  /** A ready result is that of the last kill a call carried out, and nobody has asked for another since. */
  lemma ReadyResultIsLastKill(ms: seq<Move>)
    requires IsRun(Start(), ms) && After(Start(), ms).flags.ready
    ensures var s := After(Start(), ms);
      exists i: nat, j: nat, t :: IsLastKill(s.log, i, j, t, s.flags.result) && IsLatestResult(s.log, j, s.flags.result)
  {
    RunStaysHonest(Start(), ms);
    var s := After(Start(), ms);
    var j: nat :| IsLatestResult(s.log, j, s.flags.result);
    var i: nat :| IsLastKill(s.log, i, j, s.log[j].t, s.log[j].outcome);
    assert IsLastKill(s.log, i, j, s.log[j].t, s.flags.result);
  }

  /** A request that is handed a result gets the outcome of a kill, published after it asked. */
  lemma RequestGetsKillOutcome(ms: seq<Move>, n: nat)
    requires IsRun(Start(), ms)
    requires var log := After(Start(), ms).log; n < |log| && log[n].Told? && log[n].report.Done?
    ensures var log := After(Start(), ms).log;
      exists a: nat, i: nat, j: nat, u ::
        && IsLastAsk(log, a, n, log[n].t) && a < j < n
        && log[j] == Published(u, log[n].report.result) && IsLastKill(log, i, j, u, log[n].report.result)
  {
    RunStaysHonest(Start(), ms);
    var log := After(Start(), ms).log;
    assert ToldItsResult(log, n);
    var a: nat, j: nat :| IsLastAsk(log, a, n, log[n].t) && a < j && IsLatestResult(log[..n], j, log[n].report.result);
    assert log[j] == log[..n][j];
    var i: nat :| IsLastKill(log, i, j, log[j].t, log[j].outcome);
    assert log[j] == Published(log[j].t, log[n].report.result);
  }

  // ---- calls and pending kills ----

  /** A call is let in exactly when no kill is pending; a refused call goes on to carry it out. */
  lemma CallLetInExactly(s: State, t: Thread, choice: Choice, r: Outcome)
    requires At(s, t).BeginCheck?
    ensures At(Step(s, t, choice, r), t).InCall? <==> !s.flags.pending
    ensures At(Step(s, t, choice, r), t).Clearing? <==> s.flags.pending
  {}

  /** Moves of `t` until the result of a pending kill is published. */
  function MovesLeft(pc: Pc): nat {
    match pc
    case InCall => 4
    case Clearing => 3
    case Killing => 2
    case Publishing(_) => 1
    case _ => 0
  }

  function MovesOf(ms: seq<Move>, t: Thread): nat {
    if ms == [] then 0 else (if ms[0].t == t then 1 else 0) + MovesOf(ms[1..], t)
  }

  /** The thread is in a call or ending one, and a kill is pending, or it is carrying one out. */
  predicate Serves(s: State, t: Thread) {
    var pc := At(s, t);
    pc.Killing? || pc.Publishing? || ((pc.InCall? || pc.Clearing?) && s.flags.pending)
  }

  /** A kill pending while a call is in progress is carried out and published when the call ends, whatever others do. */
  lemma {:induction false} CallEndServesKill(s: State, ms: seq<Move>, t: Thread)
    requires Inv(s) && IsRun(s, ms) && Serves(s, t) && MovesOf(ms, t) >= MovesLeft(At(s, t))
    ensures exists n :: |s.log| <= n < |After(s, ms).log| && PublishedBy(After(s, ms).log, n, t)
    decreases |ms|
  {
    var m := ms[0];
    var s1 := Step(s, m.t, m.choice, m.r);
    StepKeepsInv(s, m.t, m.choice, m.r);
    RunExtendsLog(s1, ms[1..]);
    if m.t == t && At(s, t).Publishing? {
      assert After(s, ms).log[|s.log|] == s1.log[|s.log|] == Published(t, At(s, t).r);
      assert PublishedBy(After(s, ms).log, |s.log|, t);
    } else {
      StepServes(s, m, t);
      CallEndServesKill(s1, ms[1..], t);
      var n :| |s1.log| <= n < |After(s1, ms[1..]).log| && PublishedBy(After(s1, ms[1..]).log, n, t);
      assert PublishedBy(After(s, ms).log, n, t);
    }
  }

  predicate PublishedBy(log: seq<Entry>, n: nat, t: Thread) {
    n < |log| && log[n].Published? && log[n].t == t
  }

  lemma StepServes(s: State, m: Move, t: Thread)
    requires Inv(s) && CanStep(s, m.t) && Serves(s, t) && !(m.t == t && At(s, t).Publishing?)
    ensures var s1 := Step(s, m.t, m.choice, m.r);
      && Serves(s1, t) && s.log <= s1.log
      && MovesLeft(At(s1, t)) + (if m.t == t then 1 else 0) <= MovesLeft(At(s, t))
  {
    assert HoldsMutex(At(s, t)) && (HoldsMutex(At(s, m.t)) <==> s.holder == Some(m.t));
  }

  lemma {:induction false} RunExtendsLog(s: State, ms: seq<Move>)
    ensures s.log <= After(s, ms).log
    decreases |ms|
  {
    if ms != [] { RunExtendsLog(Step(s, ms[0].t, ms[0].choice, ms[0].r), ms[1..]); }
  }

  // ---- nobody is stuck ----

  /** Moves until a thread that has or can take the mutex is idle, at most. */
  function StepsLeft(pc: Pc): nat {
    match pc
    case Idle => 0
    case Unlocking => 1
    case AskReturning(_) => 1
    case Publishing(_) => 2
    case AskKilling(_) => 2
    case Killing => 3
    case AskLocked(_) => 3
    case Clearing => 4
    case AskWait(_) => 4
    case InCall => 5
    case BeginCheck => 6
    case BeginWait => 7
  }

  /** Nobody else is in the way. */
  predicate HasTheMutex(s: State, t: Thread) { s.holder.None? || s.holder == Some(t) }

  lemma {:induction false} RunsAppend(s: State, ms: seq<Move>, more: seq<Move>)
    requires IsRun(s, ms) && IsRun(After(s, ms), more)
    ensures IsRun(s, ms + more) && After(s, ms + more) == After(After(s, ms), more)
    decreases |ms|
  {
    if ms == [] {
      assert ms + more == more;
    } else {
      var m := ms[0];
      assert (ms + more)[0] == m && (ms + more)[1..] == ms[1..] + more;
      RunsAppend(Step(s, m.t, m.choice, m.r), ms[1..], more);
    }
  }

  lemma {:induction false} FinishAlone(s: State, t: Thread) returns (more: seq<Move>)
    requires MutexOK(s) && HasTheMutex(s, t)
    ensures IsRun(s, more) && MutexOK(After(s, more)) && After(s, more).holder.None? && At(After(s, more), t).Idle?
    ensures forall u :: u != t ==> At(After(s, more), u) == At(s, u)
    decreases StepsLeft(At(s, t))
  {
    more := [];
    assert HoldsMutex(At(s, t)) <==> s.holder == Some(t);
    if !At(s, t).Idle? {
      StepKeepsMutex(s, t, Call, 0);
      var rest := FinishAlone(Step(s, t, Call, 0), t);
      more := [Move(t, Call, 0)] + rest;
      assert more[1..] == rest;
    }
  }

  /** From every reachable state every thread can get back to idle: no call and no request is stuck. */
  lemma NoDeadlock(ms: seq<Move>, t: Thread)
    requires IsRun(Start(), ms)
    ensures exists more :: IsRun(Start(), ms + more) && At(After(Start(), ms + more), t).Idle?
  {
    RunInv(ms);
    var s := After(Start(), ms);
    var first: seq<Move> := [];
    if s.holder.Some? { first := FinishAlone(s, s.holder.value); }
    var rest := FinishAlone(After(s, first), t);
    RunsAppend(s, first, rest);
    RunsAppend(Start(), ms, first + rest);
  }

  // ---- the worker's own sections ----

  /**
    The worker's fields, changed only in sections under its mutex, and the state
    of the whole handshake that they are part of.  Every method is one step of
    the thread that runs it, so `Inv` holds after any sequence of calls.
   */
  class Worker {
    var externalKillPending: bool
    var externalKillResultReady: bool
    var externalKillResult: Outcome
    ghost var state: State

    ghost predicate Valid()
      reads this
    {
      Inv(state) && state.flags == Flags(externalKillPending, externalKillResultReady, externalKillResult)
    }

    constructor ()
      ensures Valid() && state == Start()
    {
      externalKillPending, externalKillResultReady, externalKillResult := false, false, 0;
      state := Start();
    }

    /** A step that leaves the worker's fields alone: on the API mutex, or the kill itself. */
    ghost method OtherStep(t: Thread, choice: Choice, r: Outcome)
      requires Valid() && CanStep(state, t) && Step(state, t, choice, r).flags == state.flags
      modifies this`state
      ensures Valid() && state == Step(old(state), t, choice, r)
    {
      StepKeepsInv(state, t, choice, r);
      state := Step(state, t, choice, r);
    }

    /** The section of `beginSerializedExternalAPICall`: may the call go ahead? */
    method ReadPending(t: Thread) returns (pending: bool)
      requires Valid() && At(state, t).BeginCheck?
      modifies this`state
      ensures Valid() && state == Step(old(state), t, Call, 0)
      ensures if pending then At(state, t).Clearing? else At(state, t).InCall?
    {
      StepKeepsInv(state, t, Call, 0);
      pending := externalKillPending;
      state := Step(state, t, Call, 0);
    }

    /** First section of a kill request. */
    method RequestKill(t: Thread)
      requires Valid() && At(state, t).Idle?
      modifies this
      ensures Valid() && state == Step(old(state), t, Kill, 0)
    {
      StepKeepsInv(state, t, Kill, 0);
      externalKillPending := true;
      externalKillResultReady := false;
      state := Step(state, t, Kill, 0);
    }

    /** Second section of a kill request: take a ready result, report a stale request, or take the flag. */
    method DecideKill(t: Thread) returns (report: Report)
      requires Valid() && At(state, t).AskLocked?
      modifies this
      ensures Valid() && state == Step(old(state), t, Kill, 0)
      ensures state.log == old(state).log + [Told(t, report)]
      ensures report.Mine? <==> At(state, t).AskKilling?
      ensures !report.Mine? ==> At(state, t).AskReturning? && At(state, t).since < state.kills
    {
      StepKeepsInv(state, t, Kill, 0);
      state := Step(state, t, Kill, 0);
      if externalKillResultReady {
        externalKillResultReady := false;
        return Done(externalKillResult);
      }
      if !externalKillPending { return Stale; }
      externalKillPending := false;
      report := Mine;
    }

    /** First section of `killPendingExternalProcessForAPIUnlock`. */
    method TakePending(t: Thread) returns (taken: bool)
      requires Valid() && At(state, t).Clearing?
      modifies this
      ensures Valid() && state == Step(old(state), t, Call, 0)
      ensures if taken then At(state, t).Killing? else At(state, t).Unlocking?
    {
      StepKeepsInv(state, t, Call, 0);
      state := Step(state, t, Call, 0);
      if !externalKillPending { return false; }
      externalKillPending := false;
      taken := true;
    }

    /** Its last section. */
    method PublishResult(t: Thread, result: Outcome)
      requires Valid() && At(state, t) == Publishing(result)
      modifies this
      ensures Valid() && state == Step(old(state), t, Call, 0)
    {
      StepKeepsInv(state, t, Call, 0);
      state := Step(state, t, Call, 0);
      externalKillResult := result;
      externalKillResultReady := true;
    }
  }
}
