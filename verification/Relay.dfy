/**
 * The event relay of the HTTP API: the ask task puts events on a queue, the response generator takes them
 * off with a timeout and streams them. Both take their steps in any order.
 */
module Relay {
  import opened Text
  import opened QueryCaching
  import opened Answers
  import opened RequestMetrics

  datatype Task = Running | Returned | Raised | Cancelled

  /** Where the generator is: at the top of its loop, waiting on an empty queue, or with its timer gone off. */
  datatype Wait = Ready | Waiting | TimedOut

  /** `script` is what the task does when nothing stops it; `at` is how far it has come. */
  datatype State = State(
    script: seq<Effect>, at: nat, task: Task, cancelRequested: bool, queue: seq<Event>,
    wait: Wait, delivered: seq<Event>, samples: seq<Sample>, open: bool, connected: bool)

  datatype Action =
    | Produce     // the task performs its next effect; an event goes to the back of the queue
    | Finish      // the task returns
    | Raise       // an exception escapes the task
    | Stop        // a requested cancellation takes effect
    | Receive     // the generator takes the front event and streams it
    | Suspend     // the queue is empty, so the generator waits
    | Fire        // half a second has passed: the wait is given up
    | WakeUp      // the generator handles the timeout
    | Disconnect  // the client goes away and the generator is closed

  function Init(script: seq<Effect>): State {
    State(script, 0, Running, false, [], Ready, [], [], true, true)
  }

  /**
   * The timer may go off in the very moment an event arrives, and the task may go on, and even end, before the
   * timeout is handled. Such an event stays on the queue.
   */
  predicate Enabled(s: State, a: Action) {
    match a
    case Produce => s.task.Running? && s.at < |s.script|
    case Finish => s.task.Running? && s.at == |s.script|
    case Raise => s.task.Running? && s.at < |s.script|
    case Stop => s.task.Running? && s.cancelRequested
    case Receive => s.open && s.queue != [] && !s.wait.TimedOut?
    case Suspend => s.open && s.queue == [] && s.wait.Ready?
    case Fire => s.open && s.wait.Waiting?
    case WakeUp => s.open && s.wait.TimedOut?
    case Disconnect => s.open
  }

  /** What the metrics record of a `done` event: only an `ok` answer is no error. */
  function SampleOf(e: Event): Sample
    requires e.Done?
  {
    Sample(e.latency, e.tokens, e.cached, e.status == Ok)
  }

  /** The samples of all `done` events among these. */
  function DoneSamples(events: seq<Event>): seq<Sample> {
    if events == [] then []
    else
      var init, e := DoneSamples(events[..|events| - 1]), events[|events| - 1];
      if e.Done? then init + [SampleOf(e)] else init
  }

  /** Leaving the loop runs the generator's last block: a task still running is asked to cancel. */
  function Close(s: State): State {
    s.(open := false, cancelRequested := s.cancelRequested || s.task.Running?)
  }

  function Apply(s: State, a: Action): State
    requires Enabled(s, a)
  {
    match a
    case Produce =>
      var e := s.script[s.at];
      s.(at := s.at + 1, queue := if e.Emit? then s.queue + [e.event] else s.queue)
    case Finish => s.(task := Returned)
    case Raise => s.(task := Raised)
    case Stop => s.(task := Cancelled)
    case Receive =>
      var e := s.queue[0];
      var t := s.(queue := s.queue[1..], wait := Ready, delivered := s.delivered + [e]);
      if e.Done? then Close(t.(samples := s.samples + [SampleOf(e)])) else t
    case Suspend => s.(wait := Waiting)
    case Fire => s.(wait := TimedOut)
    case WakeUp => if !s.task.Running? && s.queue == [] then Close(s) else s.(wait := Ready)
    case Disconnect => Close(s).(connected := false)
  }

  /** The state after the actions, if each was enabled in turn. */
  function Exec(s: State, actions: seq<Action>): Option<State> {
    if actions == [] then Some(s)
    else
      var before := Exec(s, actions[..|actions| - 1]);
      var a := actions[|actions| - 1];
      if before.Some? && Enabled(before.value, a) then Some(Apply(before.value, a)) else None
  }

  function Produced(s: State): seq<Event>
    requires s.at <= |s.script|
  {
    Emitted(s.script[..s.at])
  }

  predicate HasDone(events: seq<Event>) { exists i :: 0 <= i < |events| && events[i].Done? }

  /** In a run's log `done` can only be the very last effect. */
  ghost predicate DoneComesLast(script: seq<Effect>) {
    forall i | 0 <= i < |script| :: script[i].Emit? && script[i].event.Done? ==> i == |script| - 1
  }

  lemma AskShapeEndsWithDone(script: seq<Effect>)
    requires AskShape(script)
    ensures DoneComesLast(script)
  {
    if opening, insight :| Opening(opening) && script == opening + [Emit(Cached(insight))] {
    } else {
      var body, r, key, record :| UncachedLog(script, body, r, key, record);
      assert forall i | 0 <= i < |body| :: script[i] in body;
    }
  }

  // ---- The invariant --------------------------------------------------------------------------

  ghost predicate Inv(s: State) {
    && DoneComesLast(s.script)
    && s.at <= |s.script|
    && (s.task.Returned? ==> s.at == |s.script|)
    && Produced(s) == s.delivered + s.queue
    && (HasDone(Produced(s)) ==> s.at == |s.script|)
    && (forall i | 0 <= i < |Produced(s)| - 1 :: !Produced(s)[i].Done?)
    && s.samples == DoneSamples(s.delivered) && |s.samples| == (if HasDone(s.delivered) then 1 else 0)
    && (HasDone(s.delivered) ==> s.queue == [] && !s.open)
    && (s.open ==> !s.cancelRequested && s.connected)
    && (!s.open && s.connected ==> s.queue == [] && (HasDone(s.delivered) || !s.task.Running?))
    && (s.cancelRequested && s.connected ==> HasDone(s.delivered))
    && (s.task.Cancelled? ==> s.cancelRequested)
  }

  lemma InitInv(script: seq<Effect>)
    requires DoneComesLast(script)
    ensures Inv(Init(script))
  {
  }

  lemma HasDoneSnoc(events: seq<Event>, e: Event)
    ensures HasDone(events + [e]) <==> HasDone(events) || e.Done?
  {
    if HasDone(events) {
      var i :| 0 <= i < |events| && events[i].Done?;
      assert (events + [e])[i].Done?;
    }
    if e.Done? {
      assert (events + [e])[|events|].Done?;
    }
  }

  lemma HasDoneInPrefix(a: seq<Event>, b: seq<Event>)
    requires HasDone(a)
    ensures HasDone(a + b)
  {
    var i :| 0 <= i < |a| && a[i].Done?;
    assert (a + b)[i].Done?;
  }

  lemma ProduceInv(s: State)
    requires Inv(s) && Enabled(s, Produce)
    ensures Inv(Apply(s, Produce))
  {
    var t, e := Apply(s, Produce), s.script[s.at];
    if HasDone(s.delivered) {
      HasDoneInPrefix(s.delivered, s.queue);
    }
    assert s.script[..t.at][..s.at] == s.script[..s.at];
    if e.Emit? {
      HasDoneSnoc(Produced(s), e.event);
      assert Produced(t) == Produced(s) + [e.event];
      assert s.delivered + s.queue + [e.event] == t.delivered + t.queue;
      assert Produced(s) != [] ==> !Produced(s)[|Produced(s)| - 1].Done?;
    }
  }

  lemma ReceiveInv(s: State)
    requires Inv(s) && Enabled(s, Receive)
    ensures Inv(Apply(s, Receive))
  {
    var t, e := Apply(s, Receive), s.queue[0];
    assert s.queue == [e] + s.queue[1..];
    assert t.delivered + t.queue == s.delivered + s.queue;
    HasDoneSnoc(s.delivered, e);
    assert t.delivered[..|s.delivered|] == s.delivered;
    assert e == Produced(s)[|s.delivered|];
    if e.Done? {
      assert s.queue[1..] == [];
    }
  }

  /** Every step of either side keeps it. */
  lemma StepInv(s: State, a: Action)
    requires Inv(s) && Enabled(s, a)
    ensures Inv(Apply(s, a)) && Apply(s, a).script == s.script
  {
    match a
    case Produce => ProduceInv(s);
    case Receive => ReceiveInv(s);
    case _ =>
  }

  lemma {:induction false} ReachableInv(script: seq<Effect>, actions: seq<Action>)
    requires AskShape(script) && Exec(Init(script), actions).Some?
    ensures Inv(Exec(Init(script), actions).value) && Exec(Init(script), actions).value.script == script
  {
    if actions == [] {
      AskShapeEndsWithDone(script);
      InitInv(script);
    } else {
      ReachableInv(script, actions[..|actions| - 1]);
      StepInv(Exec(Init(script), actions[..|actions| - 1]).value, actions[|actions| - 1]);
    }
  }

  // ---- What holds on every interleaving -------------------------------------------------------

  /** Events arrive in order, none lost or invented; all of them when the generator exits by itself. */
  lemma DeliveryIsFaithful(script: seq<Effect>, actions: seq<Action>)
    requires AskShape(script) && Exec(Init(script), actions).Some?
    ensures
      var s := Exec(Init(script), actions).value;
      && s.at <= |script|
      && s.delivered <= Emitted(script[..s.at])
      && (!s.open && s.connected ==> s.delivered == Emitted(script[..s.at]))
      && (!s.open && s.connected && s.task.Returned? ==> s.delivered == Emitted(script))
  {
    ReachableInv(script, actions);
    var s := Exec(Init(script), actions).value;
    assert script[..|script|] == script;
  }

  /** One sample is recorded exactly when a `done` was delivered, which with the client there means: was produced. */
  lemma MetricsRecordedOnce(script: seq<Effect>, actions: seq<Action>)
    requires AskShape(script) && Exec(Init(script), actions).Some?
    ensures
      var s := Exec(Init(script), actions).value;
      && s.at <= |script|
      && s.samples == DoneSamples(s.delivered) && |s.samples| == (if HasDone(s.delivered) then 1 else 0)
      && (!s.open && s.connected ==> (|s.samples| == 1 <==> HasDone(Emitted(script[..s.at]))))
  {
    ReachableInv(script, actions);
    var s := Exec(Init(script), actions).value;
    AppendNone(s.delivered, s.queue);
  }

  lemma AppendNone<T>(a: seq<T>, b: seq<T>)
    ensures b == [] ==> a + b == a
  {
  }

  /** While the client stays, cancellation is requested only after everything, audit and store included, is done. */
  lemma CancellationComesAfterTheAudit(script: seq<Effect>, actions: seq<Action>)
    requires AskShape(script) && Exec(Init(script), actions).Some?
    ensures
      var s := Exec(Init(script), actions).value;
      && (s.connected && s.cancelRequested ==> s.at == |script|)
      && (s.connected && s.task.Cancelled? ==> s.at == |script|)
      && (HasDone(s.delivered) ==> s.at == |script| && AuditedBeforeTheEnd(script))
  {
    ReachableInv(script, actions);
    var s := Exec(Init(script), actions).value;
    if HasDone(s.delivered) {
      DeliveredDoneWasProduced(s);
      AuditPrecedesDone(script);
    }
  }

  lemma DeliveredDoneWasProduced(s: State)
    requires Inv(s) && HasDone(s.delivered)
    ensures s.at == |s.script| && HasDone(Emitted(s.script))
  {
    var i :| 0 <= i < |s.delivered| && s.delivered[i].Done?;
    assert Produced(s)[i].Done?;
    assert s.script[..|s.script|] == s.script;
  }

  /** The audit attempt is among the effects before the last, and so is the store of an answer that may be stored. */
  ghost predicate AuditedBeforeTheEnd(script: seq<Effect>) {
    exists body, r, key, record ::
      UncachedLog(script, body, r, key, record)
      && script[|script| - 1] == Emit(DoneOf(r)) && script[|body|] == Audit(record) && |body| < |script| - 1
      && (Storable(r.status, r.sql) ==> script[|script| - 2] == Store(key, PayloadOf(r)))
  }

  lemma AuditPrecedesDone(script: seq<Effect>)
    requires AskShape(script) && HasDone(Emitted(script))
    ensures AuditedBeforeTheEnd(script)
  {
    if opening, insight :| Opening(opening) && script == opening + [Emit(Cached(insight))] {
      CachedHitHasNoDone(opening, insight);
    } else {
      var body, r, key, record :| UncachedLog(script, body, r, key, record);
      ClosingIndices(body, r, key, record);
    }
  }

  lemma ClosingIndices(body: seq<Effect>, r: AskResult, key: string, record: AuditRecord)
    ensures
      var script := body + Closing(r, key, record, true);
      && |body| < |script| - 1 && script[|body|] == Audit(record) && script[|script| - 1] == Emit(DoneOf(r))
      && (Storable(r.status, r.sql) ==> script[|script| - 2] == Store(key, PayloadOf(r)))
  {
    var closing := Closing(r, key, record, true);
    assert closing[0] == Audit(record) && closing[|closing| - 1] == Emit(DoneOf(r));
    assert Storable(r.status, r.sql) ==> closing[1] == Store(key, PayloadOf(r)) && |closing| == 3;
  }

  lemma CachedHitHasNoDone(opening: seq<Effect>, insight: string)
    requires Opening(opening)
    ensures !HasDone(Emitted(opening + [Emit(Cached(insight))]))
  {
    ProjectionsOfConcat(opening, [Emit(Cached(insight))]);
    assert [Introspect][..0] == [] && [Emit(Cached(insight))][..0] == [];
    assert Emitted(opening) == [] && Emitted([Emit(Cached(insight))]) == [Cached(insight)];
  }

  // ---- The end of a run -----------------------------------------------------------------------

  /** Turns of the generator's loop: an event streamed or a timeout handled. */
  function Turns(actions: seq<Action>): nat {
    if actions == [] then 0
    else Turns(actions[..|actions| - 1]) + if actions[|actions| - 1] in {Receive, WakeUp} then 1 else 0
  }

  /**
   * One turn per waiting event; a last one, unless `done` is waiting, after which the generator leaves its loop;
   * and one more if the current wait may still be given up beside a waiting event.
   */
  function TurnsLeft(s: State): nat {
    if !s.open then 0
    else
      |s.queue| + (if HasDone(s.queue) then 0 else 1) + if s.queue != [] && !s.wait.Ready? then 1 else 0
  }

  /** The last turn takes three steps: to wait, to be woken by the timer, and to handle that. */
  function StepsLeft(s: State): nat {
    if !s.open then 0
    else
      var fromTop := |s.queue| + if HasDone(s.queue) then 0 else 3;
      match s.wait
      case Ready => fromTop
      case Waiting => if s.queue == [] then 2 else fromTop + 2
      case TimedOut => if s.queue == [] then 1 else fromTop + 1
  }

  lemma HasDoneFirst(events: seq<Event>)
    requires events != []
    ensures HasDone(events) <==> events[0].Done? || HasDone(events[1..])
  {
    if HasDone(events) {
      var i :| 0 <= i < |events| && events[i].Done?;
      assert i > 0 ==> events[1..][i - 1].Done?;
    }
    if HasDone(events[1..]) {
      var i :| 0 <= i < |events[1..]| && events[1..][i].Done?;
      assert events[i + 1].Done?;
    }
  }

  /** Receiving `done` leaves nothing behind; receiving anything else leaves it where it is. */
  lemma ReceiveFromQueue(s: State)
    requires Inv(s) && s.queue != []
    ensures s.queue[0].Done? ==> s.queue[1..] == []
    ensures HasDone(s.queue) <==> s.queue[0].Done? || HasDone(s.queue[1..])
  {
    HasDoneFirst(s.queue);
    assert s.queue[0] == Produced(s)[|s.delivered|];
  }

  /** One step after the task's end, whoever takes it. */
  lemma DrainStep(s: State, a: Action)
    requires Inv(s) && !s.task.Running? && Enabled(s, a)
    ensures
      var t := Apply(s, a);
      && Inv(t) && !t.task.Running?
      && 1 + StepsLeft(t) <= StepsLeft(s)
      && (if a in {Receive, WakeUp} then 1 else 0) + TurnsLeft(t) <= TurnsLeft(s)
  {
    StepInv(s, a);
    hide Inv, DoneSamples, HasDone;
    if a.Receive? {
      ReceiveFromQueue(s);
    }
    NoDoneInNothing();
  }

  lemma NoDoneInNothing()
    ensures !HasDone([])
  {
  }

  /** Whatever the schedule, every step uses up the steps left and every turn the turns left. */
  lemma {:induction false} EndedTaskDrains(s: State, actions: seq<Action>)
    requires Inv(s) && !s.task.Running? && Exec(s, actions).Some?
    ensures
      var t := Exec(s, actions).value;
      && !t.task.Running? && Inv(t)
      && |actions| + StepsLeft(t) <= StepsLeft(s)
      && Turns(actions) + TurnsLeft(t) <= TurnsLeft(s)
  {
    hide Inv, Enabled, Apply, TurnsLeft, StepsLeft;
    if actions == [] {
    } else {
      var init, a := actions[..|actions| - 1], actions[|actions| - 1];
      EndedTaskDrains(s, init);
      DrainStep(Exec(s, init).value, a);
    }
  }

  lemma ExecNone(s: State)
    ensures Exec(s, []) == Some(s)
  {
  }

  lemma ExecStep(s: State, actions: seq<Action>, a: Action)
    ensures Exec(s, actions + [a])
            == if Exec(s, actions).Some? && Enabled(Exec(s, actions).value, a)
               then Some(Apply(Exec(s, actions).value, a)) else None
  {
    assert (actions + [a])[..|actions|] == actions;
  }

  lemma {:induction false} ExecConcat(s: State, a: seq<Action>, b: seq<Action>)
    requires Exec(s, a).Some?
    ensures Exec(s, a + b) == Exec(Exec(s, a).value, b)
  {
    hide Exec, Enabled, Apply;
    if b == [] {
      AppendNone(a, b);
      ExecNone(Exec(s, a).value);
    } else {
      var n := |b| - 1;
      ExecConcat(s, a, b[..n]);
      ExecStep(s, a + b[..n], b[n]);
      ExecStep(Exec(s, a).value, b[..n], b[n]);
      assert b == b[..n] + [b[n]] && a + b == a + b[..n] + [b[n]];
    }
  }

  lemma TurnsConcat(a: Action, rest: seq<Action>)
    ensures Turns([a] + rest) == (if a in {Receive, WakeUp} then 1 else 0) + Turns(rest)
  {
    if rest == [] {
      assert [a] + rest == [a] && [a][..0] == [];
    } else {
      TurnsConcat(a, rest[..|rest| - 1]);
      assert ([a] + rest)[..|rest|] == [a] + rest[..|rest| - 1];
    }
  }

  /** The slowest step of the generator: it lets the timer go off whenever it waits. It always has a step. */
  function SlowStep(s: State): (a: Action)
    requires s.open
    ensures Enabled(s, a)
  {
    match s.wait
    case TimedOut => WakeUp
    case Waiting => Fire
    case Ready => if s.queue == [] then Suspend else Receive
  }

  lemma SlowStepLeads(s: State)
    requires Inv(s) && s.open && s.connected && !s.task.Running?
    ensures
      var t := Apply(s, SlowStep(s));
      && t.connected && !t.task.Running? && t.at == s.at <= |s.script| && t.script == s.script
      && 1 + StepsLeft(t) == StepsLeft(s)
      && (if SlowStep(s) in {Receive, WakeUp} then 1 else 0) + TurnsLeft(t) == TurnsLeft(s)
  {
    assert s.at <= |s.script|;
    hide DoneSamples, HasDone;
    if SlowStep(s).Receive? {
      ReceiveFromQueue(s);
    }
    NoDoneInNothing();
  }

  lemma ClosedIsDelivered(s: State)
    requires Inv(s) && !s.open && s.connected && !s.task.Running?
    ensures s.delivered == Produced(s) && |s.samples| == if HasDone(Produced(s)) then 1 else 0
  {
    AppendNone(s.delivered, s.queue);
  }

  lemma SameProduced(s: State, t: State)
    requires t.at == s.at <= |s.script| && t.script == s.script
    ensures Produced(t) == Produced(s)
  {
  }

  /**
   * From any state a run can reach, once the task has ended, the generator's own steps alone bring it to its end
   * with everything delivered that was ever produced; at its slowest it takes all the turns and steps left.
   */
  lemma {:induction false} EndedTaskIsDelivered(s: State) returns (actions: seq<Action>)
    requires Inv(s) && s.connected && !s.task.Running?
    ensures forall a | a in actions :: a in {Receive, Suspend, Fire, WakeUp}
    ensures Turns(actions) == TurnsLeft(s) && |actions| == StepsLeft(s)
    ensures Exec(s, actions).Some?
    ensures
      var t := Exec(s, actions).value;
      && !t.open && t.connected && t.delivered == Produced(s)
      && |t.samples| == if HasDone(Produced(s)) then 1 else 0
    decreases StepsLeft(s)
  {
    hide Inv, Exec, Apply, Produced, DoneSamples, HasDone;
    if !s.open {
      actions := [];
      ExecNone(s);
      ClosedIsDelivered(s);
    } else {
      var a := SlowStep(s);
      var t := Apply(s, a);
      StepInv(s, a);
      SlowStepLeads(s);
      SameProduced(s, t);
      var rest := EndedTaskIsDelivered(t);
      actions := [a] + rest;
      ExecNone(s);
      ExecStep(s, [], a);
      assert [] + [a] == [a];
      ExecConcat(s, [a], rest);
      TurnsConcat(a, rest);
    }
  }

  /**
   * The generator exits within one turn more than events are waiting, on every schedule, if and only if it is not
   * caught with its wait given up, or about to be, beside waiting events none of which is `done`.
   */
  lemma ExitsWithinQueueLength(s: State)
    requires Inv(s) && s.open && s.connected && !s.task.Running?
    ensures (forall actions | Exec(s, actions).Some? :: Turns(actions) <= |s.queue| + 1)
            <==> !(s.queue != [] && !s.wait.Ready? && !HasDone(s.queue))
  {
    hide Inv, Exec, Turns, StepsLeft;
    forall actions | Exec(s, actions).Some? ensures Turns(actions) <= TurnsLeft(s) { EndedTaskDrains(s, actions); }
    var slowest := EndedTaskIsDelivered(s);
    assert Exec(s, slowest).Some? && Turns(slowest) == TurnsLeft(s);
  }

  /** So a run that ends by itself and is no cache hit always drains that fast: its `done` is still waiting. */
  lemma FinishedRunDrainsInTime(script: seq<Effect>, before: seq<Action>, actions: seq<Action>)
    requires AskShape(script) && HasDone(Emitted(script))
    requires Exec(Init(script), before).Some?
    requires
      var s := Exec(Init(script), before).value;
      s.open && s.task.Returned? && Exec(s, actions).Some?
    ensures Turns(actions) <= |Exec(Init(script), before).value.queue| + 1
  {
    var s := Exec(Init(script), before).value;
    ReachableInv(script, before);
    assert script[..|script|] == script;
    DoneIsStillWaiting(s);
    EndedTaskDrains(s, actions);
  }

  lemma DoneIsStillWaiting(s: State)
    requires Inv(s) && s.open && HasDone(Produced(s))
    ensures HasDone(s.queue)
  {
    HasDoneInEither(s.delivered, s.queue);
  }

  lemma HasDoneInEither(a: seq<Event>, b: seq<Event>)
    requires HasDone(a + b)
    ensures HasDone(a) || HasDone(b)
  {
    var i :| 0 <= i < |a + b| && (a + b)[i].Done?;
    if i < |a| {
      assert a[i].Done?;
    } else {
      assert b[i - |a|].Done?;
    }
  }

  /**
   * The exception occurs: a cache hit whose event arrives, and whose task returns, between the timer and the
   * wake-up. One event is waiting, and the generator takes three turns.
   */
  lemma ExtraWakeUp(insight: string) returns (before: seq<Action>, after: seq<Action>)
    ensures
      var script := [Emit(Cached(insight))];
      && AskShape(script) && Exec(Init(script), before).Some?
      && var s := Exec(Init(script), before).value;
         && s.task.Returned? && |s.queue| == 1
         && Exec(s, after).Some? && Turns(after) == 3
         && Exec(Init(script), before + after) == Exec(s, after)
         && !Exec(s, after).value.open && Exec(s, after).value.delivered == [Cached(insight)]
  {
    var script := [Emit(Cached(insight))];
    assert AskShape(script) by { assert Opening([]) && script == [] + [Emit(Cached(insight))]; }
    before := LateHit(insight);
    var s := Exec(Init(script), before).value;
    ReachableInv(script, before);
    after := EndedTaskIsDelivered(s);
    ExecConcat(Init(script), before, after);
    assert !HasDone(s.queue);
    CachedHitHasNoDone([], insight);
    assert script[..1] == script && script[..0] == [] && Emitted(script) == [Cached(insight)];
  }

  lemma LateHit(insight: string) returns (actions: seq<Action>)
    ensures
      var script := [Emit(Cached(insight))];
      Exec(Init(script), actions)
      == Some(Init(script).(at := 1, task := Returned, queue := [Cached(insight)], wait := TimedOut))
  {
    hide Exec;
    var s := Init([Emit(Cached(insight))]);
    ExecNone(s);
    ExecStep(s, [], Suspend);
    ExecStep(s, [] + [Suspend], Fire);
    ExecStep(s, [] + [Suspend] + [Fire], Produce);
    ExecStep(s, [] + [Suspend] + [Fire] + [Produce], Finish);
    assert [] + [Cached(insight)] == [Cached(insight)];
    actions := [] + [Suspend] + [Fire] + [Produce] + [Finish];
  }
}
