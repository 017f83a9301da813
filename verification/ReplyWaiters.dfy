/**
  Plugins waiting for a user's reply: the shared waiter lists, each waiter's
  one-slot channel, and the sends that a goroutine has decided on and not made
  yet.  Every section under the lock, and every channel operation, is one step.
 */
module ReplyWaiters {
  import opened Options

  type Waiter = nat
  /** A protocol, user, channel and thread; one list of waiters each. */
  type Matcher = nat
  type Task = nat

  datatype Reply = Text(matched: bool, text: string) | Retry | Interrupted
  datatype Info = Info(matcher: Matcher, task: Task)
  datatype Phase = Selecting | Draining | Returned

  /** What a prompt gives its plugin in the end. */
  datatype Outcome = Ok(text: string) | UseDefault | NotMatched | RetryPrompt | WasInterrupted | TimeoutExpired

  /**
    What has happened: a prompt message went out, a user's text was taken for a
    list, a waiter's timeout or a task's interrupt took lists away, a prompt returned.
   */
  datatype Entry =
    | Prompted(matcher: Matcher, waiter: Waiter)
    | Delivered(list: seq<Waiter>, text: Reply)
    | TimedOut(waiter: Waiter, list: seq<Waiter>)
    | Stopped(task: Task, lists: map<Matcher, seq<Waiter>>)
    | Came(waiter: Waiter, outcome: Outcome)

  /** `sending` holds replies on their way, `channel` every reply ever put into a channel. */
  datatype State = State(
    lists: map<Matcher, seq<Waiter>>,
    info: map<Waiter, Info>,
    phase: map<Waiter, Phase>,
    sending: map<Waiter, Reply>,
    channel: map<Waiter, Reply>,
    shutdown: bool,
    log: seq<Entry>)

  datatype Event =
    | Prompt(w: Waiter, info: Info, sendOk: bool)
    | Message(matcher: Matcher, reply: Reply)
    | Send(w: Waiter)
    | Timeout(w: Waiter)
    | InterruptTask(task: Task)
    | Shutdown
    | Quit(w: Waiter)
    | Receive(w: Waiter)

  function Start(): State {
    State(map[], map[], map[], map[], map[], false, [])
  }

  predicate Enabled(s: State, e: Event) {
    match e
    case Prompt(w, _, _) => w !in s.info
    case Message(_, reply) => reply.Text?
    case Send(w) => w in s.sending && w !in s.channel
    case Timeout(w) => w in s.phase && s.phase[w] == Selecting && w in s.info
    case InterruptTask(task) => task != 0
    case Shutdown => true
    case Quit(w) => s.shutdown && w in s.phase && s.phase[w] == Selecting && w in s.info
    case Receive(w) => w in s.channel && w in s.phase && s.phase[w] != Returned
  }

  /** Replies for a removed list: `first` for the head, a retry for everybody else. */
  function Answers(list: seq<Waiter>, first: Reply): map<Waiter, Reply> {
    map w | w in list :: if w == list[0] then first else Retry
  }

  /** On a timeout the head is not sent anything. */
  function Retries(list: seq<Waiter>): map<Waiter, Reply> {
    map w | w in list && w != list[0] :: Retry
  }

  /** What the plugin gets for a reply; an unmatched "=" asks for the default, an unmatched "-" gives up. */
  function OutcomeOf(r: Reply): Outcome {
    match r
    case Interrupted => WasInterrupted
    case Retry => RetryPrompt
    case Text(matched, text) =>
      if matched then Ok(text)
      else if text == "=" then UseDefault
      else if text == "-" then WasInterrupted
      else NotMatched
  }

  /** The lists an interrupt of the task takes away. */
  function TakenBy(s: State, task: Task): map<Matcher, seq<Waiter>> {
    map m | m in s.lists && HasTask(s, s.lists[m], task) :: s.lists[m]
  }

  predicate HasTask(s: State, list: seq<Waiter>, task: Task) {
    ListHasTask(s.info, list, task)
  }

  predicate InList(s: State, w: Waiter) {
    w in s.info && s.info[w].matcher in s.lists && w in s.lists[s.info[w].matcher]
  }

  /** Replies an interrupt puts into the channels of every list with a waiter of the task. */
  function Interrupts(s: State, task: Task): map<Waiter, Reply> {
    map w | w in s.info && InList(s, w) && HasTask(s, s.lists[s.info[w].matcher], task) && w !in s.channel ::
      if s.info[w].task == task then Interrupted else Retry
  }

  function Step(s: State, e: Event): State
    requires Enabled(s, e)
  {
    match e
    case Prompt(w, info, sendOk) =>
      if s.shutdown then s
      else if info.matcher in s.lists then
        s.(lists := s.lists[info.matcher := s.lists[info.matcher] + [w]], info := s.info[w := info],
           phase := s.phase[w := Selecting])
      else if !sendOk then s
      else s.(lists := s.lists[info.matcher := [w]], info := s.info[w := info], phase := s.phase[w := Selecting],
              log := s.log + [Prompted(info.matcher, w)])
    case Message(m, reply) =>
      if m !in s.lists then s
      else s.(lists := s.lists - {m}, sending := s.sending + Answers(s.lists[m], reply),
              log := s.log + [Delivered(s.lists[m], reply)])
    case Send(w) => s.(sending := s.sending - {w}, channel := s.channel[w := s.sending[w]])
    case Timeout(w) =>
      var m := s.info[w].matcher;
      if m in s.lists then
        s.(lists := s.lists - {m}, sending := s.sending + Retries(s.lists[m]), phase := s.phase[w := Returned],
           log := s.log + [TimedOut(w, s.lists[m]), Came(w, TimeoutExpired)])
      else s.(phase := s.phase[w := Draining])
    case InterruptTask(task) =>
      s.(lists := map m | m in s.lists && !HasTask(s, s.lists[m], task) :: s.lists[m],
         channel := s.channel + Interrupts(s, task), log := s.log + [Stopped(task, TakenBy(s, task))])
    case Shutdown => s.(shutdown := true)
    case Quit(w) =>
      s.(lists := s.lists - {s.info[w].matcher}, phase := s.phase[w := Returned],
         log := s.log + [Came(w, WasInterrupted)])
    case Receive(w) => s.(phase := s.phase[w := Returned], log := s.log + [Came(w, OutcomeOf(s.channel[w]))])
  }

  predicate IsRun(s: State, es: seq<Event>)
    decreases |es|
  {
    es == [] || (Enabled(s, es[0]) && IsRun(Step(s, es[0]), es[1..]))
  }

  function After(s: State, es: seq<Event>): State
    requires IsRun(s, es)
    decreases |es|
  {
    if es == [] then s else After(Step(s, es[0]), es[1..])
  }

  lemma RunFrom(s: State, e: Event, es: seq<Event>)
    requires Enabled(s, e) && IsRun(Step(s, e), es)
    ensures IsRun(s, [e] + es) && After(s, [e] + es) == After(Step(s, e), es)
  {
    assert ([e] + es)[1..] == es;
  }

  // ---- the invariant ----

  ghost predicate ListOK(s: State, m: Matcher)
    requires m in s.lists
  {
    && s.lists[m] != []
    && (forall w :: w in s.lists[m] ==> w in s.info && s.info[w].matcher == m)
    && forall i, j :: 0 <= i < j < |s.lists[m]| ==> s.lists[m][i] != s.lists[m][j]
  }

  /** A waiter is in its list, being answered, or answered: at most one of the three. */
  ghost predicate WaiterOK(s: State, w: Waiter) {
    && (w in s.sending ==> w in s.info && !InList(s, w) && w !in s.channel)
    && (w in s.channel ==> w in s.info && !InList(s, w))
    && (w in s.info <==> w in s.phase)
    && (InList(s, w) ==> s.phase[w] == Selecting)
  }

  /** The user's text goes only to a waiter that headed its list when the text came. */
  ghost predicate TextOK(s: State, w: Waiter, reply: Reply) {
    reply.Text? ==> exists i :: 0 <= i < |s.log| && s.log[i].Delivered? && s.log[i].text == reply
                                && s.log[i].list != [] && s.log[i].list[0] == w
  }

  ghost predicate Inv(s: State) {
    && (forall m :: m in s.lists ==> ListOK(s, m))
    && (forall w: Waiter :: WaiterOK(s, w))
    && (forall w :: w in s.sending ==> TextOK(s, w, s.sending[w]))
    && (forall w :: w in s.channel ==> TextOK(s, w, s.channel[w]))
  }

  lemma TextStays(s: State, s': State, w: Waiter, reply: Reply)
    requires TextOK(s, w, reply) && s.log <= s'.log
    ensures TextOK(s', w, reply)
  {
    if reply.Text? {
      var i :| 0 <= i < |s.log| && s.log[i].Delivered? && s.log[i].text == reply
               && s.log[i].list != [] && s.log[i].list[0] == w;
      assert s'.log[i] == s.log[i];
    }
  }

  lemma LogGrows(s: State, e: Event)
    requires Enabled(s, e)
    ensures s.log <= Step(s, e).log
  {}

  lemma StepKeepsLists(s: State, e: Event, m: Matcher)
    requires Inv(s) && Enabled(s, e) && m in Step(s, e).lists
    ensures ListOK(Step(s, e), m)
  {
    if e.Prompt? {
      if m in s.lists {
        assert ListOK(s, m);
        if e.info.matcher == m { JoinedList(s, e, m); }
      }
    } else {
      LeftList(s, e, m);
      assert ListOK(s, m);
    }
  }

  lemma LeftList(s: State, e: Event, m: Matcher)
    requires Enabled(s, e) && !e.Prompt? && m in Step(s, e).lists
    ensures m in s.lists && Step(s, e).lists[m] == s.lists[m] && Step(s, e).info == s.info
  {}

  /** A new waiter joins at the end of its matcher's list. */
  lemma JoinedList(s: State, e: Event, m: Matcher)
    requires Inv(s) && Enabled(s, e) && e.Prompt? && e.info.matcher == m && m in s.lists
    ensures ListOK(Step(s, e), m)
  {
    assert ListOK(s, m);
    assert forall w :: w in s.lists[m] ==> w != e.w;
  }

  lemma StepKeepsWaiters(s: State, e: Event, w: Waiter)
    requires Inv(s) && Enabled(s, e)
    ensures WaiterOK(Step(s, e), w)
  {
    assert WaiterOK(s, w);
    match e
    case Prompt(v, info, _) => assert WaiterOK(s, v);
    case Message(m, _) => if m in s.lists { assert ListOK(s, m); }
    case Timeout(v) => if s.info[v].matcher in s.lists { assert ListOK(s, s.info[v].matcher); }
    case Receive(v) => assert WaiterOK(s, v);
    case _ =>
  }

  lemma StepKeepsTexts(s: State, e: Event)
    requires Inv(s) && Enabled(s, e)
    ensures var s' := Step(s, e);
      && (forall w :: w in s'.sending ==> TextOK(s', w, s'.sending[w]))
      && (forall w :: w in s'.channel ==> TextOK(s', w, s'.channel[w]))
  {
    var s' := Step(s, e);
    LogGrows(s, e);
    forall w | w in s'.sending ensures TextOK(s', w, s'.sending[w]) {
      if w in s.sending && s.sending[w] == s'.sending[w] { TextStays(s, s', w, s.sending[w]); }
      else if e.Message? { assert s'.log[|s.log|] == Delivered(s.lists[e.matcher], e.reply); }
    }
    forall w | w in s'.channel ensures TextOK(s', w, s'.channel[w]) {
      if w in s.channel && s.channel[w] == s'.channel[w] { TextStays(s, s', w, s.channel[w]); }
      else if e.Send? { TextStays(s, s', w, s.sending[w]); }
    }
  }

  lemma StepKeepsInv(s: State, e: Event)
    requires Inv(s) && Enabled(s, e)
    ensures Inv(Step(s, e))
  {
    forall m | m in Step(s, e).lists ensures ListOK(Step(s, e), m) { StepKeepsLists(s, e, m); }
    forall w: Waiter ensures WaiterOK(Step(s, e), w) { StepKeepsWaiters(s, e, w); }
    StepKeepsTexts(s, e);
  }

  lemma {:induction false} RunKeepsInv(s: State, es: seq<Event>)
    requires Inv(s) && IsRun(s, es)
    ensures Inv(After(s, es))
    decreases |es|
  {
    if es != [] {
      StepKeepsInv(s, es[0]);
      RunKeepsInv(Step(s, es[0]), es[1..]);
    }
  }

  // ---- the properties ----

  /** A channel is never full when a reply is to be sent to it. */
  lemma NoSendBlocks(es: seq<Event>, w: Waiter)
    requires IsRun(Start(), es) && w in After(Start(), es).sending
    ensures Enabled(After(Start(), es), Send(w))
  {
    RunKeepsInv(Start(), es);
    assert WaiterOK(After(Start(), es), w);
  }

  /** Once a waiter has been sent a reply, it is never sent another. */
  lemma {:induction false} AnsweredOnce(s: State, es: seq<Event>, w: Waiter)
    requires Inv(s) && IsRun(s, es) && w in s.channel
    ensures var s' := After(s, es); w in s'.channel && s'.channel[w] == s.channel[w] && w !in s'.sending
    decreases |es|
  {
    assert WaiterOK(s, w);
    if es != [] {
      StepKeepsInv(s, es[0]);
      AnsweredOnce(Step(s, es[0]), es[1..], w);
    }
  }

  /** The text of a user's message reaches only the waiter that headed the list it answered. */
  lemma OnlyHeadGetsText(es: seq<Event>, w: Waiter)
    requires IsRun(Start(), es) && w in After(Start(), es).channel && After(Start(), es).channel[w].Text?
    ensures var s := After(Start(), es);
      exists i :: 0 <= i < |s.log| && s.log[i].Delivered? && s.log[i].text == s.channel[w]
                  && s.log[i].list != [] && s.log[i].list[0] == w
  {
    RunKeepsInv(Start(), es);
    assert TextOK(After(Start(), es), w, After(Start(), es).channel[w]);
  }

  // ---- who is sent what ----

  /** The reply on its way to the waiter or in its channel. */
  function Sent(s: State, w: Waiter): Option<Reply> {
    if w in s.sending then Some(s.sending[w]) else if w in s.channel then Some(s.channel[w]) else None
  }

  predicate Mentions(e: Entry, w: Waiter, info: map<Waiter, Info>) {
    match e
    case Delivered(list, _) => w in list
    case TimedOut(_, list) => w in list
    case Stopped(_, lists) => w in info && info[w].matcher in lists && w in lists[info[w].matcher]
    case _ => false
  }

  /** What the entry owes the waiter: the text to the head, an interrupt to the task's own, else a retry. */
  function Due(e: Entry, w: Waiter, info: map<Waiter, Info>): Option<Reply> {
    if !Mentions(e, w, info) then None
    else match e
      case Delivered(list, text) => Some(if w == list[0] then text else Retry)
      case TimedOut(_, list) => if w == list[0] then None else Some(Retry)
      case Stopped(task, _) => Some(if info[w].task == task then Interrupted else Retry)
  }

  ghost predicate IsDue(s: State, w: Waiter, x: Reply) {
    exists i :: 0 <= i < |s.log| && Due(s.log[i], w, s.info) == Some(x)
  }

  /** Waiters that entries mention are known, and out of every list. */
  ghost predicate MentionsOK(s: State) {
    && (forall i, w :: 0 <= i < |s.log| && Mentions(s.log[i], w, s.info) ==> w in s.info && !InList(s, w))
    && (forall i, m, w ::
          0 <= i < |s.log| && s.log[i].Stopped? && m in s.log[i].lists && w in s.log[i].lists[m] ==> w in s.info)
  }

  /** A waiter has been sent a reply exactly when some entry owes it that one. */
  ghost predicate RepliesOK(s: State, w: Waiter) {
    forall x :: Sent(s, w) == Some(x) <==> IsDue(s, w, x)
  }

  lemma StepKeepsMentions(s: State, e: Event)
    requires Inv(s) && MentionsOK(s) && Enabled(s, e)
    ensures MentionsOK(Step(s, e))
  {
    var s' := Step(s, e);
    forall i, w | 0 <= i < |s'.log| && Mentions(s'.log[i], w, s'.info) ensures w in s'.info && !InList(s', w) {
      if i < |s.log| {
        assert s'.log[i] == s.log[i];
        OldMentionStays(s, e, i, w);
      } else {
        NewMentionIsKnown(s, e, i, w);
      }
    }
    forall i, m, w | 0 <= i < |s'.log| && s'.log[i].Stopped? && m in s'.log[i].lists && w in s'.log[i].lists[m]
      ensures w in s'.info
    {
      if i < |s.log| { assert s'.log[i] == s.log[i]; } else { assert ListOK(s, m); }
    }
  }

  lemma OldMentionStays(s: State, e: Event, i: nat, w: Waiter)
    requires Inv(s) && MentionsOK(s) && Enabled(s, e) && i < |s.log|
    requires Mentions(s.log[i], w, Step(s, e).info)
    ensures w in Step(s, e).info && !InList(Step(s, e), w)
  {
    assert Mentions(s.log[i], w, s.info);
    assert w in s.info && !InList(s, w);
  }

  lemma NewMentionIsKnown(s: State, e: Event, i: nat, w: Waiter)
    requires Inv(s) && Enabled(s, e) && |s.log| <= i < |Step(s, e).log|
    requires Mentions(Step(s, e).log[i], w, Step(s, e).info)
    ensures w in Step(s, e).info && !InList(Step(s, e), w)
  {
    if e.Message? && e.matcher in s.lists { assert ListOK(s, e.matcher); }
    if e.Timeout? && s.info[e.w].matcher in s.lists { assert ListOK(s, s.info[e.w].matcher); }
  }

  /** Entries added since `s` owe the waiter this reply. */
  ghost predicate NewlyDue(s: State, s': State, w: Waiter, x: Reply) {
    exists i :: |s.log| <= i < |s'.log| && Due(s'.log[i], w, s'.info) == Some(x)
  }

  /** The entries an event adds owe the waiter exactly what the event sends it. */
  lemma StepSendsDue(s: State, e: Event, w: Waiter, x: Reply)
    requires Inv(s) && Enabled(s, e)
    ensures Sent(Step(s, e), w) == Some(x) <==> Sent(s, w) == Some(x) || NewlyDue(s, Step(s, e), w, x)
  {
    assert WaiterOK(s, w);
    match e
    case Message(m, reply) => MessageSendsDue(s, m, reply, w, x);
    case Timeout(v) => TimeoutSendsDue(s, v, w, x);
    case InterruptTask(task) => InterruptSendsDue(s, task, w, x);
    case _ =>
  }

  lemma MessageSendsDue(s: State, m: Matcher, reply: Reply, w: Waiter, x: Reply)
    requires Inv(s) && reply.Text?
    ensures var s' := Step(s, Message(m, reply));
      Sent(s', w) == Some(x) <==> Sent(s, w) == Some(x) || NewlyDue(s, s', w, x)
  {
    var s' := Step(s, Message(m, reply));
    assert WaiterOK(s, w);
    if m in s.lists {
      assert ListOK(s, m);
      assert Due(s'.log[|s.log|], w, s'.info) == if w in s.lists[m] then Some(Answers(s.lists[m], reply)[w]) else None;
    }
  }

  lemma TimeoutSendsDue(s: State, v: Waiter, w: Waiter, x: Reply)
    requires Inv(s) && Enabled(s, Timeout(v))
    ensures var s' := Step(s, Timeout(v));
      Sent(s', w) == Some(x) <==> Sent(s, w) == Some(x) || NewlyDue(s, s', w, x)
  {
    var s', m := Step(s, Timeout(v)), s.info[v].matcher;
    assert WaiterOK(s, w);
    if m in s.lists {
      assert ListOK(s, m);
      assert Due(s'.log[|s.log|], w, s'.info) == if w in s.lists[m] && w != s.lists[m][0] then Some(Retry) else None;
      assert Due(s'.log[|s.log| + 1], w, s'.info) == None;
    }
  }

  lemma InterruptSendsDue(s: State, task: Task, w: Waiter, x: Reply)
    requires Inv(s) && task != 0
    ensures var s' := Step(s, InterruptTask(task));
      Sent(s', w) == Some(x) <==> Sent(s, w) == Some(x) || NewlyDue(s, s', w, x)
  {
    var s' := Step(s, InterruptTask(task));
    assert WaiterOK(s, w);
    assert Due(s'.log[|s.log|], w, s'.info) == if w in Interrupts(s, task) then Some(Interrupts(s, task)[w]) else None;
  }

  lemma StepKeepsReplies(s: State, e: Event, w: Waiter)
    requires Inv(s) && MentionsOK(s) && Enabled(s, e) && RepliesOK(s, w)
    ensures RepliesOK(Step(s, e), w)
  {
    var s' := Step(s, e);
    forall x ensures Sent(s', w) == Some(x) <==> IsDue(s', w, x) {
      StepSendsDue(s, e, w, x);
      OldDues(s, e, w);
      if IsDue(s, w, x) {
        var i :| 0 <= i < |s.log| && Due(s.log[i], w, s.info) == Some(x);
        assert Due(s'.log[i], w, s'.info) == Some(x);
      }
    }
  }

  /** An event does not change what older entries owe. */
  lemma OldDues(s: State, e: Event, w: Waiter)
    requires Inv(s) && MentionsOK(s) && Enabled(s, e)
    ensures var s' := Step(s, e);
      |s.log| <= |s'.log| && forall i :: 0 <= i < |s.log| ==> Due(s'.log[i], w, s'.info) == Due(s.log[i], w, s.info)
  {
    var s' := Step(s, e);
    forall i | 0 <= i < |s.log| ensures Due(s'.log[i], w, s'.info) == Due(s.log[i], w, s.info) {
      assert s'.log[i] == s.log[i];
    }
  }

  lemma {:induction false} RunKeepsReplies(s: State, es: seq<Event>)
    requires Inv(s) && MentionsOK(s) && IsRun(s, es) && forall w: Waiter :: RepliesOK(s, w)
    ensures var s' := After(s, es); MentionsOK(s') && forall w: Waiter :: RepliesOK(s', w)
    decreases |es|
  {
    if es != [] {
      StepKeepsInv(s, es[0]);
      StepKeepsMentions(s, es[0]);
      forall w: Waiter ensures RepliesOK(Step(s, es[0]), w) { StepKeepsReplies(s, es[0], w); }
      RunKeepsReplies(Step(s, es[0]), es[1..]);
    }
  }

  /** Exactly which reply each waiter has been sent, and none without a reason. */
  lemma RepliesExactly(es: seq<Event>, w: Waiter, x: Reply)
    requires IsRun(Start(), es)
    ensures Sent(After(Start(), es), w) == Some(x) <==> IsDue(After(Start(), es), w, x)
  {
    RunKeepsReplies(Start(), es);
    assert RepliesOK(After(Start(), es), w);
  }

  /** A user's text has been sent to the head of the list it was taken for, and a retry to everybody else in it. */
  lemma TextReachesHead(es: seq<Event>, i: nat)
    requires IsRun(Start(), es) && i < |After(Start(), es).log| && After(Start(), es).log[i].Delivered?
    ensures var s := After(Start(), es);
      var list := s.log[i].list;
      forall w :: w in list ==> Sent(s, w) == Some(if w == list[0] then s.log[i].text else Retry)
  {
    var s := After(Start(), es);
    forall w | w in s.log[i].list
      ensures Sent(s, w) == Some(if w == s.log[i].list[0] then s.log[i].text else Retry)
    {
      RepliesExactly(es, w, if w == s.log[i].list[0] then s.log[i].text else Retry);
      assert Due(s.log[i], w, s.info).Some?;
    }
  }

  /** An interrupt gives the task's own waiters `Interrupted` and their neighbours a retry. */
  lemma InterruptReachesTask(es: seq<Event>, i: nat, w: Waiter)
    requires IsRun(Start(), es) && i < |After(Start(), es).log| && After(Start(), es).log[i].Stopped?
    requires Mentions(After(Start(), es).log[i], w, After(Start(), es).info)
    ensures var s := After(Start(), es);
      Sent(s, w) == Some(if s.info[w].task == s.log[i].task then Interrupted else Retry)
  {
    var s := After(Start(), es);
    RepliesExactly(es, w, if s.info[w].task == s.log[i].task then Interrupted else Retry);
    assert Due(s.log[i], w, s.info).Some?;
  }

  /** An interrupt takes away exactly the lists with a waiter of the task, and answers everybody in them at once. */
  lemma InterruptTakesExactly(s: State, task: Task, m: Matcher)
    requires Inv(s) && task != 0 && m in s.lists
    ensures var s' := Step(s, InterruptTask(task));
      && (m in s'.lists <==> forall w :: w in s.lists[m] ==> s.info[w].task != task)
      && (m in s'.lists ==> s'.lists[m] == s.lists[m])
      && (m !in s'.lists ==> forall w :: w in s.lists[m] ==>
            w in s'.channel && s'.channel[w] == if s.info[w].task == task then Interrupted else Retry)
  {
    assert ListOK(s, m);
    forall w | w in s.lists[m] ensures InList(s, w) && WaiterOK(s, w) {}
  }

  // ---- what each event does to whom ----

  /**
    A new waiter is admitted unless the robot is shutting down or its own prompt
    cannot be sent; it is then the last in its matcher's list.
   */
  lemma PromptJoins(s: State, w: Waiter, info: Info, sendOk: bool)
    requires Inv(s) && w !in s.info
    ensures var s', m := Step(s, Prompt(w, info, sendOk)), info.matcher;
      && (InList(s', w) <==> !s.shutdown && (m in s.lists || sendOk))
      && (InList(s', w) ==> s'.lists[m] == (if m in s.lists then s.lists[m] else []) + [w] && s'.phase[w] == Selecting)
      && (!InList(s', w) ==> s' == s)
      && (s'.log != s.log <==> InList(s', w) && s'.lists[m] == [w])
      && forall v :: Sent(s', v) == Sent(s, v) && (v != w ==> (InList(s', v) <==> InList(s, v)))
  {
    assert WaiterOK(s, w);
    if info.matcher in s.lists { assert ListOK(s, info.matcher); }
  }

  /** A message takes its matcher's list away and answers everybody in it and nobody else. */
  lemma MessageAnswers(s: State, m: Matcher, reply: Reply, w: Waiter)
    requires Inv(s) && reply.Text?
    ensures var s' := Step(s, Message(m, reply));
      && s'.lists == s.lists - {m}
      && Sent(s', w) == if m in s.lists && w in s.lists[m] then Some(if w == s.lists[m][0] then reply else Retry)
                        else Sent(s, w)
  {
    if m in s.lists { assert ListOK(s, m); }
    assert WaiterOK(s, w);
  }

  /** A timeout that finds a list takes it away, returns, and lets everybody but the head retry. */
  lemma TimeoutTakesList(s: State, w: Waiter, x: Waiter)
    requires Inv(s) && Enabled(s, Timeout(w)) && s.info[w].matcher in s.lists
    ensures var s', m := Step(s, Timeout(w)), s.info[w].matcher;
      && s'.lists == s.lists - {m} && s'.phase == s.phase[w := Returned]
      && Sent(s', x) == if x in s.lists[m] && x != s.lists[m][0] then Some(Retry) else Sent(s, x)
  {
    assert ListOK(s, s.info[w].matcher);
    assert WaiterOK(s, x);
  }

  /** A reply on its way gets into the channel unchanged. */
  lemma SendDelivers(s: State, w: Waiter, x: Waiter)
    requires Inv(s) && Enabled(s, Send(w))
    ensures var s' := Step(s, Send(w));
      w in s'.channel && w !in s'.sending && Sent(s', x) == Sent(s, x) && s'.phase == s.phase
  {
    assert WaiterOK(s, x);
  }

  /** A waiter that has been sent a reply, and has not returned, can take it and return with its outcome. */
  lemma ReplyComesThrough(s: State, w: Waiter) returns (es: seq<Event>)
    requires Inv(s) && Sent(s, w).Some? && w in s.phase && s.phase[w] != Returned
    ensures IsRun(s, es) && After(s, es).log == s.log + [Came(w, OutcomeOf(Sent(s, w).value))]
    ensures After(s, es).phase == s.phase[w := Returned]
  {
    assert WaiterOK(s, w);
    if w in s.sending {
      var s1 := Step(s, Send(w));
      es := [Send(w), Receive(w)];
      assert es[1..] == [Receive(w)] && es[1..][1..] == [];
      assert After(s, es) == After(s1, es[1..]) == Step(s1, Receive(w));
    } else {
      es := [Receive(w)];
      assert es[1..] == [];
    }
  }

  /**
    A user's message can always come through: the head of the list returns with
    what the user wrote, and each of the others with a retry.
   */
  lemma MessageComesThrough(s: State, m: Matcher, matched: bool, text: string, w: Waiter) returns (es: seq<Event>)
    requires Inv(s) && m in s.lists && w in s.lists[m]
    ensures IsRun(s, [Message(m, Text(matched, text))] + es)
    ensures var s' := After(s, [Message(m, Text(matched, text))] + es);
      && w in s'.phase && s'.phase[w] == Returned
      && Came(w, if w == s.lists[m][0] then OutcomeOf(Text(matched, text)) else RetryPrompt) in s'.log
  {
    var e := Message(m, Text(matched, text));
    var s1 := Step(s, e);
    assert ListOK(s, m) && WaiterOK(s, w);
    StepKeepsInv(s, e);
    MessageAnswers(s, m, Text(matched, text), w);
    es := ReplyComesThrough(s1, w);
    RunFrom(s, e, es);
  }

  /** An interrupt of its task can always come through to a listed waiter. */
  lemma InterruptComesThrough(s: State, w: Waiter) returns (es: seq<Event>)
    requires Inv(s) && InList(s, w) && s.info[w].task != 0
    ensures IsRun(s, [InterruptTask(s.info[w].task)] + es)
    ensures Came(w, WasInterrupted) in After(s, [InterruptTask(s.info[w].task)] + es).log
  {
    var e, m := InterruptTask(s.info[w].task), s.info[w].matcher;
    assert ListOK(s, m) && WaiterOK(s, w);
    StepKeepsInv(s, e);
    InterruptTakesExactly(s, e.task, m);
    es := ReplyComesThrough(Step(s, e), w);
    RunFrom(s, e, es);
  }

  /** After a shutdown every prompt that still waits for a reply can return, interrupted. */
  lemma ShutdownReleases(s: State, w: Waiter)
    requires Inv(s) && w in s.phase && s.phase[w] == Selecting
    ensures var es := [Shutdown, Quit(w)];
      && IsRun(s, es)
      && After(s, es).phase == s.phase[w := Returned]
      && After(s, es).log == s.log + [Came(w, WasInterrupted)]
      && !InList(After(s, es), w)
  {
    assert WaiterOK(s, w);
    var es := [Shutdown, Quit(w)];
    var s1 := Step(s, Shutdown);
    assert es[1..] == [Quit(w)] && es[1..][1..] == [];
    assert After(s, es) == After(s1, es[1..]) == Step(s1, Quit(w));
  }

  // ---- what a prompt returns ----

  /** Why a prompt returned with this outcome. */
  ghost predicate CameFor(s: State, w: Waiter, o: Outcome) {
    || (o == TimeoutExpired && exists i :: 0 <= i < |s.log| && s.log[i].TimedOut? && s.log[i].waiter == w)
    || (o == WasInterrupted && s.shutdown)
    || (w in s.channel && o == OutcomeOf(s.channel[w]))
  }

  /** Prompts return once, with an outcome they have a reason for. */
  ghost predicate OutcomesOK(s: State) {
    ReasonsOK(s) && ReturnsLogged(s) && CameOnce(s.log)
  }

  ghost predicate ReasonsOK(s: State) {
    forall i :: 0 <= i < |s.log| && s.log[i].Came? ==>
      && s.log[i].waiter in s.phase && s.phase[s.log[i].waiter] == Returned
      && CameFor(s, s.log[i].waiter, s.log[i].outcome)
  }

  ghost predicate ReturnsLogged(s: State) {
    forall w :: w in s.phase && s.phase[w] == Returned ==> exists i :: CameAt(s.log, i, w)
  }

  ghost predicate CameOnce(log: seq<Entry>) {
    forall i, j :: 0 <= i < j < |log| && log[i].Came? && log[j].Came? ==> log[i].waiter != log[j].waiter
  }

  ghost predicate CameAt(log: seq<Entry>, i: int, w: Waiter) {
    0 <= i < |log| && log[i].Came? && log[i].waiter == w
  }

  lemma CameForStays(s: State, e: Event, w: Waiter, o: Outcome)
    requires Inv(s) && Enabled(s, e) && CameFor(s, w, o)
    ensures CameFor(Step(s, e), w, o)
  {
    var s' := Step(s, e);
    assert WaiterOK(s, w);
    LogGrows(s, e);
    if i :| 0 <= i < |s.log| && s.log[i].TimedOut? && s.log[i].waiter == w {
      assert s'.log[i] == s.log[i];
    }
  }

  lemma StepKeepsReasons(s: State, e: Event)
    requires Inv(s) && ReasonsOK(s) && Enabled(s, e)
    ensures ReasonsOK(Step(s, e))
  {
    var s' := Step(s, e);
    LogGrows(s, e);
    forall i | 0 <= i < |s'.log| && s'.log[i].Came?
      ensures s'.log[i].waiter in s'.phase && s'.phase[s'.log[i].waiter] == Returned
      ensures CameFor(s', s'.log[i].waiter, s'.log[i].outcome)
    {
      if i < |s.log| {
        assert s'.log[i] == s.log[i] && WaiterOK(s, s.log[i].waiter);
        CameForStays(s, e, s.log[i].waiter, s.log[i].outcome);
      } else if e.Timeout? {
        assert s'.log[|s.log|].TimedOut?;
      }
    }
  }

  lemma StepKeepsReturns(s: State, e: Event)
    requires Inv(s) && ReturnsLogged(s) && Enabled(s, e)
    ensures ReturnsLogged(Step(s, e))
  {
    var s' := Step(s, e);
    LogGrows(s, e);
    forall w | w in s'.phase && s'.phase[w] == Returned ensures exists i :: CameAt(s'.log, i, w) {
      if w in s.phase && s.phase[w] == Returned {
        var i :| CameAt(s.log, i, w);
        assert CameAt(s'.log, i, w);
      } else {
        assert CameAt(s'.log, |s'.log| - 1, w);
      }
    }
  }

  lemma StepComesOnce(s: State, e: Event)
    requires Inv(s) && ReasonsOK(s) && CameOnce(s.log) && Enabled(s, e)
    ensures CameOnce(Step(s, e).log)
  {
    var s' := Step(s, e);
    LogGrows(s, e);
    assert forall i :: 0 <= i < |s.log| ==> s'.log[i] == s.log[i];
    assert forall i :: |s.log| <= i < |s'.log| && s'.log[i].Came? ==>
      s'.log[i].waiter in s.phase && s.phase[s'.log[i].waiter] != Returned;
  }

  lemma {:induction false} RunKeepsOutcomes(s: State, es: seq<Event>)
    requires Inv(s) && OutcomesOK(s) && IsRun(s, es)
    ensures OutcomesOK(After(s, es))
    decreases |es|
  {
    if es != [] {
      StepKeepsInv(s, es[0]);
      StepKeepsReasons(s, es[0]);
      StepKeepsReturns(s, es[0]);
      StepComesOnce(s, es[0]);
      RunKeepsOutcomes(Step(s, es[0]), es[1..]);
    }
  }

  /** A prompt returns once; with `Ok` only the matching text of a message taken for the list it headed. */
  lemma OkIsTheUsersText(es: seq<Event>, i: nat)
    requires IsRun(Start(), es)
    requires var log := After(Start(), es).log; i < |log| && log[i].Came? && log[i].outcome.Ok?
    ensures var log := After(Start(), es).log;
      && (exists j :: 0 <= j < |log| && log[j].Delivered? && log[j].text == Text(true, log[i].outcome.text)
                      && log[j].list != [] && log[j].list[0] == log[i].waiter)
      && (forall j :: 0 <= j < |log| && log[j].Came? && log[j].waiter == log[i].waiter ==> j == i)
  {
    RunKeepsOutcomes(Start(), es);
    RunKeepsInv(Start(), es);
    var s := After(Start(), es);
    assert CameFor(s, s.log[i].waiter, s.log[i].outcome);
    OnlyHeadGetsText(es, s.log[i].waiter);
  }

  /** Which replies give which outcome. */
  lemma OutcomesExactly(x: Reply)
    ensures OutcomeOf(x).Ok? <==> exists text :: x == Text(true, text) && OutcomeOf(x) == Ok(text)
    ensures OutcomeOf(x) == UseDefault <==> x == Text(false, "=")
    ensures OutcomeOf(x) == WasInterrupted <==> x == Interrupted || x == Text(false, "-")
    ensures OutcomeOf(x) == NotMatched <==> x.Text? && !x.matched && x.text != "=" && x.text != "-"
    ensures OutcomeOf(x) == RetryPrompt <==> x == Retry
    ensures OutcomeOf(x) != TimeoutExpired
  {
    if x.Text? && x.matched { assert x == Text(true, x.text); }
  }

  /** Taking a reply ends the prompt with the outcome of that reply. */
  lemma ReplyEndsPrompt(s: State, w: Waiter)
    requires Inv(s) && Enabled(s, Receive(w))
    ensures var s' := Step(s, Receive(w));
      && Sent(s, w).Some? && s'.phase[w] == Returned
      && s'.log == s.log + [Came(w, OutcomeOf(Sent(s, w).value))]
  {
    assert WaiterOK(s, w);
  }

  // ---- prompt messages ----

  ghost predicate WasPrompted(s: State, m: Matcher, w: Waiter) {
    Prompted(m, w) in s.log
  }

  /** In each list, the head and only the head sent its prompt to the user. */
  ghost predicate PromptsOK(s: State) {
    && (forall m, w :: WasPrompted(s, m, w) ==> w in s.info)
    && forall m, w :: m in s.lists && w in s.lists[m] ==> (WasPrompted(s, m, w) <==> w == s.lists[m][0])
  }

  lemma StepKeepsPrompts(s: State, e: Event)
    requires Inv(s) && PromptsOK(s) && Enabled(s, e)
    ensures PromptsOK(Step(s, e))
  {
    var s' := Step(s, e);
    forall m, w ensures WasPrompted(s', m, w) <==>
        WasPrompted(s, m, w) || (e.Prompt? && e.w == w && e.info.matcher == m && !s.shutdown && m !in s.lists
            && e.sendOk)
    {
      PromptedNow(s, e, m, w);
    }
    forall m, w | m in s'.lists && w in s'.lists[m] ensures WasPrompted(s', m, w) <==> w == s'.lists[m][0] {
      if m in s.lists { assert ListOK(s, m); }
    }
  }

  lemma PromptedNow(s: State, e: Event, m: Matcher, w: Waiter)
    requires Enabled(s, e)
    ensures WasPrompted(Step(s, e), m, w) <==>
              WasPrompted(s, m, w) || (e.Prompt? && e.w == w && e.info.matcher == m && !s.shutdown && m !in s.lists
                  && e.sendOk)
  {}

  lemma {:induction false} RunKeepsPrompts(s: State, es: seq<Event>)
    requires Inv(s) && PromptsOK(s) && IsRun(s, es)
    ensures PromptsOK(After(s, es))
    decreases |es|
  {
    if es != [] {
      StepKeepsInv(s, es[0]);
      StepKeepsPrompts(s, es[0]);
      RunKeepsPrompts(Step(s, es[0]), es[1..]);
    }
  }

  /** Exactly one of a list's waiters has prompted the user: its head. */
  lemma OnePromptPerList(es: seq<Event>, m: Matcher, w: Waiter)
    requires IsRun(Start(), es)
    requires m in After(Start(), es).lists && w in After(Start(), es).lists[m]
    ensures var s := After(Start(), es); Prompted(m, w) in s.log <==> w == s.lists[m][0]
  {
    RunKeepsPrompts(Start(), es);
    assert WasPrompted(After(Start(), es), m, w) <==> w == After(Start(), es).lists[m][0];
  }

  // ---- who is left without an answer ----

  /**
    The waiter has not returned, no reply is in its channel, on its way, or
    possible through its list, and no shutdown signal can release it.
   */
  ghost predicate Abandoned(s: State, w: Waiter) {
    && w in s.phase && s.phase[w] != Returned
    && !InList(s, w) && w !in s.sending && w !in s.channel
    && !(s.shutdown && s.phase[w] == Selecting)
  }

  /** A waiter that timed out after its list was gone, with no reply coming, never returns. */
  lemma {:induction false} HopelessForever(s: State, es: seq<Event>, w: Waiter)
    requires Inv(s) && IsRun(s, es)
    requires w in s.phase && s.phase[w] == Draining && w !in s.sending && w !in s.channel
    ensures var s' := After(s, es); w in s'.phase && s'.phase[w] == Draining
    decreases |es|
  {
    if es != [] {
      assert WaiterOK(s, w);
      HopelessStep(s, es[0], w);
      StepKeepsInv(s, es[0]);
      HopelessForever(Step(s, es[0]), es[1..], w);
    }
  }

  lemma HopelessStep(s: State, e: Event, w: Waiter)
    requires Inv(s) && Enabled(s, e)
    requires w in s.phase && s.phase[w] == Draining && w !in s.sending && w !in s.channel
    ensures var s' := Step(s, e);
      w in s'.phase && s'.phase[w] == Draining && w !in s'.sending && w !in s'.channel
  {
    assert WaiterOK(s, w);
    if e.Message? && e.matcher in s.lists { assert ListOK(s, e.matcher); }
    if e.Timeout? && s.info[e.w].matcher in s.lists { assert ListOK(s, s.info[e.w].matcher); }
  }

  /**
    A timeout that takes a list away abandons exactly its head, and only when someone else
    timed out before a shutdown.
   */
  lemma TimeoutAbandonsExactly(s: State, w: Waiter, x: Waiter)
    requires Inv(s) && Enabled(s, Timeout(w)) && s.info[w].matcher in s.lists
    requires x in s.lists[s.info[w].matcher]
    ensures Abandoned(Step(s, Timeout(w)), x) <==> !s.shutdown && x == s.lists[s.info[w].matcher][0] && x != w
  {
    assert WaiterOK(s, x);
    assert ListOK(s, s.info[w].matcher);
  }

  ghost predicate NoneAbandoned(s: State) {
    forall w: Waiter :: !Abandoned(s, w)
  }

  /**
    Before a shutdown, a timeout that finds a list is its head's; after one, a
    timeout that finds no list has a reply coming.
   */
  predicate SafeTimeout(s: State, e: Event)
    requires Enabled(s, e)
  {
    e.Timeout? ==>
      var m := s.info[e.w].matcher;
      if s.shutdown then m in s.lists || e.w in s.sending || e.w in s.channel
      else m in s.lists && s.lists[m] != [] ==> s.lists[m][0] == e.w
  }

  lemma UnsafeTimeoutAbandons(s: State, e: Event)
    requires Inv(s) && Enabled(s, e) && !SafeTimeout(s, e)
    ensures !NoneAbandoned(Step(s, e))
  {
    var m := s.info[e.w].matcher;
    assert WaiterOK(s, e.w);
    if s.shutdown {
      assert Abandoned(Step(s, e), e.w);
    } else {
      assert ListOK(s, m);
      TimeoutAbandonsExactly(s, e.w, s.lists[m][0]);
    }
  }

  lemma StepAbandonsNone(s: State, e: Event, w: Waiter)
    requires Inv(s) && NoneAbandoned(s) && Enabled(s, e) && SafeTimeout(s, e)
    ensures !Abandoned(Step(s, e), w)
  {
    assert !Abandoned(s, w) && WaiterOK(s, w);
    if e.Timeout? && s.info[e.w].matcher in s.lists { assert ListOK(s, s.info[e.w].matcher); }
    if e.Message? && e.matcher in s.lists { assert ListOK(s, e.matcher); }
  }

  predicate SafeTimeouts(s: State, es: seq<Event>)
    requires IsRun(s, es)
    decreases |es|
  {
    es == [] || (SafeTimeout(s, es[0]) && SafeTimeouts(Step(s, es[0]), es[1..]))
  }

  ghost predicate NeverAbandoned(s: State, es: seq<Event>)
    requires IsRun(s, es)
    decreases |es|
  {
    NoneAbandoned(s) && (es == [] || NeverAbandoned(Step(s, es[0]), es[1..]))
  }

  /** All through a run, shutdown included, every waiter can still return exactly when every timeout is a safe one. */
  lemma {:induction false} NobodyAbandoned(s: State, es: seq<Event>)
    requires Inv(s) && NoneAbandoned(s) && IsRun(s, es)
    ensures NeverAbandoned(s, es) <==> SafeTimeouts(s, es)
    decreases |es|
  {
    if es != [] {
      var s1 := Step(s, es[0]);
      StepKeepsInv(s, es[0]);
      if SafeTimeout(s, es[0]) {
        forall w: Waiter ensures !Abandoned(s1, w) { StepAbandonsNone(s, es[0], w); }
        NobodyAbandoned(s1, es[1..]);
      } else {
        UnsafeTimeoutAbandons(s, es[0]);
      }
    }
  }

  lemma FourEvents(s: State, s1: State, s2: State, s3: State, es: seq<Event>)
    requires |es| == 4
    requires Enabled(s, es[0]) && s1 == Step(s, es[0])
    requires Enabled(s1, es[1]) && s2 == Step(s1, es[1])
    requires Enabled(s2, es[2]) && s3 == Step(s2, es[2])
    requires Enabled(s3, es[3])
    ensures IsRun(s, es) && After(s, es) == Step(s3, es[3])
  {
    RunFrom(s3, es[3], []);
    RunFrom(s2, es[2], [es[3]] + []);
    RunFrom(s1, es[1], [es[2]] + ([es[3]] + []));
    RunFrom(s, es[0], [es[1]] + ([es[2]] + ([es[3]] + [])));
    assert es == [es[0]] + ([es[1]] + ([es[2]] + ([es[3]] + [])));
  }

  /** Two prompts, the second timing out first: the first then waits for a reply that never comes. */
  lemma MixedTimeoutsStrandTheHead()
    ensures var es := [Prompt(1, Info(7, 1), true), Prompt(2, Info(7, 2), true), Timeout(2), Timeout(1)];
      && IsRun(Start(), es)
      && var s := After(Start(), es);
      && Inv(s) && s.phase[1] == Draining && 1 !in s.sending && 1 !in s.channel
  {
    var es := [Prompt(1, Info(7, 1), true), Prompt(2, Info(7, 2), true), Timeout(2), Timeout(1)];
    var s1 := Step(Start(), es[0]);
    assert s1 == State(map[7 := [1]], map[1 := Info(7, 1)], map[1 := Selecting], map[], map[], false, [Prompted(7, 1)]);
    var s2 := Step(s1, es[1]);
    assert [1] + [2] == [1, 2];
    assert s2 == State(map[7 := [1, 2]], map[1 := Info(7, 1), 2 := Info(7, 2)], map[1 := Selecting, 2 := Selecting],
                       map[], map[], false, [Prompted(7, 1)]);
    var s3 := Step(s2, es[2]);
    assert Retries([1, 2]) == map[2 := Retry];
    assert s3 == State(map[], map[1 := Info(7, 1), 2 := Info(7, 2)], map[1 := Selecting, 2 := Returned],
                       map[2 := Retry], map[], false, [Prompted(7, 1), TimedOut(2, [1, 2]), Came(2, TimeoutExpired)]);
    var s4 := Step(s3, es[3]);
    assert s4 == s3.(phase := map[1 := Draining, 2 := Returned]);
    FourEvents(Start(), s1, s2, s3, es);
    RunKeepsInv(Start(), es);
  }

  // ---- the table itself ----

  /**
    The shared lists, with the sends the goroutine that took a list goes on to
    make.  Every method is one event of the model.
   */
  class ReplyTable {
    var lists: map<Matcher, seq<Waiter>>
    var info: map<Waiter, Info>
    var sending: map<Waiter, Reply>
    var channel: map<Waiter, Reply>
    var stopping: bool
    ghost var phase: map<Waiter, Phase>
    ghost var log: seq<Entry>

    ghost function View(): State
      reads this
    {
      State(lists, info, phase, sending, channel, stopping, log)
    }

    ghost predicate Valid()
      reads this
    {
      Inv(View())
    }

    constructor ()
      ensures Valid() && View() == Start()
    {
      lists, info, sending, channel, stopping := map[], map[], map[], map[], false;
      phase, log := map[], [];
    }

    /** `promptInternal` up to its wait: join the waiters, or prompt the user and open a list. */
    method AddWaiter(m: Matcher, w: Waiter, task: Task, sendOk: bool) returns (waiting: bool, prompted: bool)
      requires Valid() && w !in info
      modifies this
      ensures Valid() && View() == Step(old(View()), Prompt(w, Info(m, task), sendOk))
      ensures waiting <==> w in info
      ensures prompted <==> log == old(log) + [Prompted(m, w)]
    {
      StepKeepsInv(View(), Prompt(w, Info(m, task), sendOk));
      if stopping { return false, false; }
      if m in lists {
        lists := lists[m := lists[m] + [w]];
        info, phase := info[w := Info(m, task)], phase[w := Selecting];
        return true, false;
      }
      if !sendOk { return false, false; }
      lists := lists[m := [w]];
      info, phase, log := info[w := Info(m, task)], phase[w := Selecting], log + [Prompted(m, w)];
      return true, true;
    }

    /** One send of a goroutine that took a list away: the channel has room. */
    method Deliver(w: Waiter)
      requires Valid() && w in sending
      modifies this
      ensures Valid() && Enabled(old(View()), Send(w)) && View() == Step(old(View()), Send(w))
    {
      assert WaiterOK(View(), w);
      StepKeepsInv(View(), Send(w));
      channel := channel[w := sending[w]];
      sending := sending - {w};
    }

    /** The waiter takes its reply out of the channel. */
    method TakeReply(w: Waiter) returns (outcome: Outcome)
      requires Valid() && Enabled(View(), Receive(w))
      modifies this
      ensures Valid() && View() == Step(old(View()), Receive(w))
      ensures log == old(log) + [Came(w, outcome)]
    {
      StepKeepsInv(View(), Receive(w));
      phase := phase[w := Returned];
      outcome := Read(channel[w]);
      log := log + [Came(w, outcome)];
    }

    /** The end of `promptInternal`. */
    static method Read(reply: Reply) returns (outcome: Outcome)
      ensures outcome == OutcomeOf(reply)
    {
      if reply == Interrupted { return WasInterrupted; }
      if reply == Retry { return RetryPrompt; }
      if !reply.matched {
        if reply.text == "=" { return UseDefault; }
        if reply.text == "-" { return WasInterrupted; }
        return NotMatched;
      }
      outcome := Ok(reply.text);
    }

    /** The waiter sees the shutdown signal. */
    method QuitWaiting(w: Waiter)
      requires Valid() && Enabled(View(), Quit(w))
      modifies this
      ensures Valid() && View() == Step(old(View()), Quit(w))
    {
      StepKeepsInv(View(), Quit(w));
      lists := lists - {info[w].matcher};
      phase, log := phase[w := Returned], log + [Came(w, WasInterrupted)];
    }

    /** Send the user's reply to the head of a removed list and a retry to the rest. */
    method AnswerAll(list: seq<Waiter>, first: Reply)
      requires forall i, j :: 0 <= i < j < |list| ==> list[i] != list[j]
      modifies this`sending
      ensures sending == old(sending) + Answers(list, first)
    {
      assert sending == old(sending) + AnswersTo(list, first, 0);
      for i := 0 to |list|
        invariant sending == old(sending) + AnswersTo(list, first, i)
      {
        AnswerOneMore(list, first, i, old(sending));
        sending := sending[list[i] := if i == 0 then first else Retry];
      }
      assert list[..|list|] == list;
    }

    /** Send a retry to everybody in a removed list but its head. */
    method RetryAll(list: seq<Waiter>)
      requires forall i, j :: 0 <= i < j < |list| ==> list[i] != list[j]
      modifies this`sending
      ensures sending == old(sending) + Retries(list)
    {
      for i := 0 to |list|
        invariant sending == old(sending) + RetriesTo(list, i)
      {
        RetryOneMore(list, i, old(sending));
        if i != 0 { sending := sending[list[i] := Retry]; }
      }
      assert list[..|list|] == list;
    }

    /** The reply-delivery part of `handleMessage`. */
    method HandleMessage(m: Matcher, matched: bool, text: string) returns (waitingForReply: bool)
      requires Valid()
      modifies this
      ensures Valid() && View() == Step(old(View()), Message(m, Text(matched, text)))
      ensures waitingForReply <==> m in old(lists)
    {
      StepKeepsInv(View(), Message(m, Text(matched, text)));
      if m !in lists { return false; }
      assert ListOK(View(), m);
      var list := lists[m];
      lists := lists - {m};
      AnswerAll(list, Text(matched, text));
      log := log + [Delivered(list, Text(matched, text))];
      waitingForReply := true;
    }

    /** A prompt's timer fired: take the list away if there is one, and let the others retry. */
    method PromptTimeout(w: Waiter) returns (found: bool)
      requires Valid() && Enabled(View(), Timeout(w))
      modifies this
      ensures Valid() && View() == Step(old(View()), Timeout(w))
      ensures found <==> phase[w] == Returned
    {
      StepKeepsInv(View(), Timeout(w));
      var m := info[w].matcher;
      if m !in lists {
        phase := phase[w := Draining];
        return false;
      }
      assert ListOK(View(), m);
      var list := lists[m];
      lists := lists - {m};
      RetryAll(list);
      phase, log := phase[w := Returned], log + [TimedOut(w, list), Came(w, TimeoutExpired)];
      found := true;
    }

    /** Take away every list with a waiter of the task, answering its waiters on the spot. */
    method InterruptReplyWaitersForTask(task: Task) returns (interrupted: bool)
      requires Valid()
      modifies this
      ensures Valid() && View() == if task == 0 then old(View()) else Step(old(View()), InterruptTask(task))
      ensures interrupted <==> task != 0 && exists m :: m in old(lists) && ListHasTask(info, old(lists)[m], task)
    {
      if task == 0 { return false; }
      ghost var s := View();
      StepKeepsInv(s, InterruptTask(task));
      assert forall m :: m in lists ==> ListOK(s, m);
      interrupted := TakeLists(task);
      log := log + [Stopped(task, TakenBy(s, task))];
      InterruptsAgree(s, task);
    }

    method TakeLists(task: Task) returns (interrupted: bool)
      requires forall m, w :: m in lists && w in lists[m] ==> w in info && info[w].matcher == m
      modifies this`lists, this`channel
      ensures interrupted <==> AnyHasTask(info, old(lists), old(lists).Keys, task)
      ensures lists == ListsAfter(info, old(lists), old(lists).Keys, task)
      ensures channel == old(channel) + InterruptsOf(info, old(lists), old(lists).Keys, task, old(channel))
    {
      interrupted := false;
      var todo := lists.Keys;
      ghost var done: set<Matcher> := {};
      while todo != {}
        invariant todo + done == old(lists).Keys && todo !! done
        invariant lists == ListsAfter(info, old(lists), done, task)
        invariant interrupted <==> AnyHasTask(info, old(lists), done, task)
        invariant channel == old(channel) + InterruptsOf(info, old(lists), done, task, old(channel))
      {
        var m :| m in todo;
        OneMoreInterrupted(info, old(lists), done, m, task, old(channel));
        OneMoreTaken(info, old(lists), done, m, task);
        if ListHasTask(info, lists[m], task) {
          interrupted := true;
          var list := lists[m];
          lists := lists - {m};
          SendNow(list, task);
        }
        todo := todo - {m};
        done := done + {m};
      }
      assert done == old(lists).Keys;
    }

    /** Put a reply into each channel of the list that is empty. */
    method SendNow(list: seq<Waiter>, task: Task)
      requires forall w :: w in list ==> w in info
      modifies this`channel
      ensures channel == old(channel) + NewReplies(list, task, info, old(channel))
    {
      for i := 0 to |list|
        invariant channel == old(channel) + NewReplies(list[..i], task, info, old(channel))
      {
        assert list[..i + 1] == list[..i] + [list[i]];
        if list[i] !in channel {
          channel := channel[list[i] := if info[list[i]].task == task then Interrupted else Retry];
        }
      }
      assert list[..|list|] == list;
    }
  }

  function NewReplies(list: seq<Waiter>, task: Task, info: map<Waiter, Info>, channel: map<Waiter, Reply>)
    : map<Waiter, Reply>
    requires forall w :: w in list ==> w in info
  {
    map w | w in list && w !in channel :: if info[w].task == task then Interrupted else Retry
  }

  /** The replies that taking away the lists of `ms` with a waiter of the task puts into empty channels. */
  function InterruptsOf(info: map<Waiter, Info>, lists: map<Matcher, seq<Waiter>>, ms: set<Matcher>, task: Task,
                        channel: map<Waiter, Reply>)
    : map<Waiter, Reply>
    requires ms <= lists.Keys
  {
    map w | w in info && info[w].matcher in ms && w in lists[info[w].matcher]
            && ListHasTask(info, lists[info[w].matcher], task) && w !in channel ::
      if info[w].task == task then Interrupted else Retry
  }

  /** The lists left once those of `ms` with a waiter of the task are gone. */
  function ListsAfter(info: map<Waiter, Info>, lists: map<Matcher, seq<Waiter>>, ms: set<Matcher>, task: Task)
    : map<Matcher, seq<Waiter>>
  {
    map m | m in lists && !(m in ms && ListHasTask(info, lists[m], task)) :: lists[m]
  }

  ghost predicate AnyHasTask(info: map<Waiter, Info>, lists: map<Matcher, seq<Waiter>>, ms: set<Matcher>, task: Task)
    requires ms <= lists.Keys
  {
    exists m :: m in ms && ListHasTask(info, lists[m], task)
  }

  lemma OneMoreTaken(info: map<Waiter, Info>, lists: map<Matcher, seq<Waiter>>, ms: set<Matcher>, m: Matcher,
                     task: Task)
    requires ms <= lists.Keys && m in lists && m !in ms
    ensures m in ListsAfter(info, lists, ms, task) && ListsAfter(info, lists, ms, task)[m] == lists[m]
    ensures ListsAfter(info, lists, ms + {m}, task) ==
            if ListHasTask(info, lists[m], task) then ListsAfter(info, lists, ms, task) - {m}
            else ListsAfter(info, lists, ms, task)
    ensures AnyHasTask(info, lists, ms + {m}, task) <==>
              AnyHasTask(info, lists, ms, task) || ListHasTask(info, lists[m], task)
  {}

  lemma OneMoreInterrupted(info: map<Waiter, Info>, lists: map<Matcher, seq<Waiter>>, ms: set<Matcher>, m: Matcher,
                           task: Task, channel: map<Waiter, Reply>)
    requires ms <= lists.Keys && m in lists && m !in ms
    requires forall m, w :: m in lists && w in lists[m] ==> w in info && info[w].matcher == m
    ensures var c := channel + InterruptsOf(info, lists, ms, task, channel);
      channel + InterruptsOf(info, lists, ms + {m}, task, channel) ==
      if ListHasTask(info, lists[m], task) then c + NewReplies(lists[m], task, info, c) else c
  {
    var before := InterruptsOf(info, lists, ms, task, channel);
    var after := InterruptsOf(info, lists, ms + {m}, task, channel);
    if ListHasTask(info, lists[m], task) {
      var now := NewReplies(lists[m], task, info, channel);
      RepliesOfList(info, lists, ms, m, task, channel);
      StillEmpty(info, lists, ms, m, task, channel);
      UnionAssociates(channel, before, now);
    } else {
      assert before == after;
    }
  }

  lemma UnionAssociates<K, V>(a: map<K, V>, b: map<K, V>, c: map<K, V>)
    ensures (a + b) + c == a + (b + c)
  {}

  lemma RepliesOfList(info: map<Waiter, Info>, lists: map<Matcher, seq<Waiter>>, ms: set<Matcher>, m: Matcher,
                      task: Task, channel: map<Waiter, Reply>)
    requires ms <= lists.Keys && m in lists && m !in ms && ListHasTask(info, lists[m], task)
    requires forall m, w :: m in lists && w in lists[m] ==> w in info && info[w].matcher == m
    ensures InterruptsOf(info, lists, ms + {m}, task, channel) ==
            InterruptsOf(info, lists, ms, task, channel) + NewReplies(lists[m], task, info, channel)
  {}

  /** Answering the lists of `ms` puts nothing into the channels of another list. */
  lemma StillEmpty(info: map<Waiter, Info>, lists: map<Matcher, seq<Waiter>>, ms: set<Matcher>, m: Matcher,
                   task: Task, channel: map<Waiter, Reply>)
    requires ms <= lists.Keys && m in lists && m !in ms
    requires forall m, w :: m in lists && w in lists[m] ==> w in info && info[w].matcher == m
    ensures NewReplies(lists[m], task, info, channel + InterruptsOf(info, lists, ms, task, channel)) ==
            NewReplies(lists[m], task, info, channel)
  {}

  /** The model's interrupt event is this one. */
  lemma InterruptsAgree(s: State, task: Task)
    requires task != 0
    ensures Interrupts(s, task) == InterruptsOf(s.info, s.lists, s.lists.Keys, task, s.channel)
    ensures Step(s, InterruptTask(task)).lists == ListsAfter(s.info, s.lists, s.lists.Keys, task)
  {}

  /** The answers for the first `n` waiters of `list`. */
  function AnswersTo(list: seq<Waiter>, first: Reply, n: nat): map<Waiter, Reply>
    requires n <= |list|
  {
    map w | w in list[..n] :: if w == list[0] then first else Retry
  }

  function RetriesTo(list: seq<Waiter>, n: nat): map<Waiter, Reply>
    requires n <= |list|
  {
    map w | w in list[..n] && w != list[0] :: Retry
  }

  lemma AnswerOneMore(list: seq<Waiter>, first: Reply, i: nat, before: map<Waiter, Reply>)
    requires i < |list| && forall i, j :: 0 <= i < j < |list| ==> list[i] != list[j]
    ensures before + AnswersTo(list, first, i + 1) ==
            (before + AnswersTo(list, first, i))[list[i] := if i == 0 then first else Retry]
  {
    assert list[..i + 1] == list[..i] + [list[i]];
  }

  lemma RetryOneMore(list: seq<Waiter>, i: nat, before: map<Waiter, Reply>)
    requires i < |list| && forall i, j :: 0 <= i < j < |list| ==> list[i] != list[j]
    ensures before + RetriesTo(list, i + 1) ==
            if i == 0 then before + RetriesTo(list, i) else (before + RetriesTo(list, i))[list[i] := Retry]
  {
    assert list[..i + 1] == list[..i] + [list[i]];
  }

  predicate ListHasTask(info: map<Waiter, Info>, list: seq<Waiter>, task: Task) {
    exists w :: w in list && w in info && info[w].task == task
  }
}
