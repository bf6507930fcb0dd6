/** COMPLETED drops whatever alert is active. When that is the alert that completed, and a run on which it is
    not. */
module SchedulerCompletions {
  import opened AlertTypes
  import opened AlertLifecycle
  import opened AlertQueue
  import opened SchedulerModel
  import opened SchedulerConsistency
  import opened SchedulerQuiet
  import opened SchedulerWakeups
  import opened SchedulerPopulation
  import opened ClosedScheduler

  predicate CompletionPending(inbox: seq<Sent>) {
    exists i :: 0 <= i < |inbox| && inbox[i].state == HasCompleted
  }

  /** A waiting COMPLETED is the active alert's, and nothing before it lets that alert go or requeues it. */
  ghost predicate OwnCompletions(s: SchedulerView, inbox: seq<Sent>) {
    forall i :: 0 <= i < |inbox| && inbox[i].state == HasCompleted ==>
      IsActiveToken(s, inbox[i].token) && !DropPending(s, inbox[..i]) && !SnoozePending(inbox[..i])
  }

  predicate SameActiveToken(s: SchedulerView, t: SchedulerView) {
    s.active.Some? && t.active.Some? && t.active.value.data.token == s.active.value.data.token
  }

  /** What a change of the scheduler has to respect while a COMPLETED waits. */
  lemma OwnCompletionsIff(s: SchedulerView, t: SchedulerView, inbox: seq<Sent>)
    requires OwnCompletions(s, inbox)
    ensures OwnCompletions(t, inbox) <==> (CompletionPending(inbox) ==> SameActiveToken(s, t))
  {
    if CompletionPending(inbox) {
      var i :| 0 <= i < |inbox| && inbox[i].state == HasCompleted;
      assert IsActiveToken(s, inbox[i].token);
      if SameActiveToken(s, t) {
        forall k | 0 <= k < |inbox| && inbox[k].state == HasCompleted
          ensures IsActiveToken(t, inbox[k].token) && !DropPending(t, inbox[..k])
        {
          assert IsActiveToken(s, inbox[k].token) && !DropPending(s, inbox[..k]);
          DropsByToken(s, t, inbox[..k]);
        }
      }
    }
  }

  lemma CompletionFindsActive(s: SchedulerView, inbox: seq<Sent>)
    requires OwnCompletions(s, inbox) && CompletionPending(inbox)
    ensures s.active.Some?
  {
  }

  predicate CompletionFits(s: SchedulerView, inbox: seq<Sent>, n: Sent) {
    n.state == HasCompleted ==>
      IsActiveToken(s, n.token) && !DropPending(s, inbox) && !SnoozePending(inbox)
  }

  lemma CompletionAppendIff(s: SchedulerView, inbox: seq<Sent>, n: Sent)
    requires OwnCompletions(s, inbox)
    ensures OwnCompletions(s, inbox + [n]) <==> CompletionFits(s, inbox, n)
  {
    var more := inbox + [n];
    assert more[|inbox|] == n && more[..|inbox|] == inbox;
    forall i | 0 <= i < |inbox|
      ensures more[i] == inbox[i] && more[..i] == inbox[..i]
    {
    }
  }

  lemma CompletionTail(s: SchedulerView, inbox: seq<Sent>)
    requires OwnCompletions(s, inbox) && inbox != []
    ensures OwnCompletions(s, inbox[1..])
    ensures CompletionPending(inbox[1..]) ==> !Drops(s, inbox[0]) && inbox[0].state != HasSnoozed
  {
    var tail := inbox[1..];
    forall i | 0 <= i < |tail| && tail[i].state == HasCompleted
      ensures IsActiveToken(s, tail[i].token) && !DropPending(s, tail[..i]) && !SnoozePending(tail[..i])
      ensures !Drops(s, inbox[0]) && inbox[0].state != HasSnoozed
    {
      var before := inbox[..i + 1];
      assert inbox[i + 1] == tail[i] && before[0] == inbox[0] && before[1..] == tail[..i];
      PendingTail(s, before, tail[i].token);
      SnoozeTail(before);
    }
  }

  lemma SnoozeTail(inbox: seq<Sent>)
    requires inbox != []
    ensures SnoozePending(inbox[1..]) || inbox[0].state == HasSnoozed ==> SnoozePending(inbox)
  {
    if SnoozePending(inbox[1..]) {
      var i :| 0 <= i < |inbox[1..]| && inbox[1..][i].state == HasSnoozed;
      assert inbox[i + 1] == inbox[1..][i];
    }
  }

  /** Handling a COMPLETED of this kind removes its own alert and no other. */
  lemma OwnCompletionDropsItsAlert(s: SchedulerView, inbox: seq<Sent>, env: Env, parse: TimeParser, token: string)
    requires Consistent(s, parse) && OwnCompletions(s, inbox) && inbox != [] && inbox[0].state == HasCompleted
    ensures var t := OnAlertStateChange(s, inbox[0], env);
            Knows(t, token) <==> Knows(s, token) && token != inbox[0].token
  {
    assert IsActiveToken(s, inbox[0].token);
    NoteKnows(s, inbox[0], env, parse, token);
  }

  // ------------------------------------------------------------------- events

  predicate ReportsCompletion(a: AlertView, c: Callback) {
    && c.Rendered? && a.wiring.hasObserver
    && (c.event == RendererCompleted || (c.event == RendererStopped && a.control.hasTimerExpired))
  }

  lemma CallbackCompletes(a: AlertView, c: Callback)
    ensures var out := Reports(a, c);
            && |out| <= 1
            && (out != [] ==> out[0].token == a.data.token)
            && (out != [] && out[0].state == HasCompleted <==> ReportsCompletion(a, c))
  {
    CallbackReports(a, c);
    match c
    case Rendered(event, reason) => EventCompletes(a, event, reason);
    case DelayedRestart => assert CallBack(a, c).wiring.notifications == a.wiring.notifications;
    case MaxTimerFired => assert CallBack(a, c).wiring.notifications == a.wiring.notifications;
  }

  lemma EventCompletes(a: AlertView, event: RendererState, reason: string)
    ensures var out := Outgoing(a, OnRendererStateChange(a, event, reason));
            out != [] && out[0].state == HasCompleted <==> ReportsCompletion(a, Rendered(event, reason))
  {
    match event
    case RendererStarted => NotifyReports(a, a, Started, "");
    case RendererStopped => StopCompletes(a);
    case RendererCompleted => NotifyReports(a, WithState(a, Completed), HasCompleted, "");
    case RendererError => NotifyReports(a, a, Failed, reason);
    case _ =>
  }

  lemma StopCompletes(a: AlertView)
    ensures var out := Outgoing(a, OnRendererStopped(a));
            out != [] && out[0].state == HasCompleted <==> a.wiring.hasObserver && a.control.hasTimerExpired
  {
    if a.control.hasTimerExpired {
      NotifyReports(a, WithState(a, Completed), HasCompleted, "");
    } else if a.control.state == Stopping {
      NotifyReports(a, WithState(a, Stopped), HasStopped, StopReasonText(a.control.stopReason));
    } else if a.control.state == Snoozing {
      NotifyReports(a, WithState(a, Snoozed), HasSnoozed, "");
    }
  }

  /** What a waiting COMPLETED asks of an event: that the active alert is not deleted, and that a further
      COMPLETED comes from it, with nothing waiting that lets it go or requeues it. */
  ghost predicate KeepsCompletions(x: System, e: Event, env: Env, parse: TimeParser)
    requires Occurs(x, e, env, parse)
  {
    match e
    case DeleteAllDirective(tokens) =>
      DeleteAlertsOk(x.s, tokens, env) && x.s.active.Some? && x.s.active.value.data.token in tokens ==>
        !CompletionPending(x.inbox)
    case ActiveCallback(c) =>
      ReportsCompletion(x.s.active.value, c) ==> !DropPending(x.s, x.inbox) && !SnoozePending(x.inbox)
    case QueuedCallback(i, c) => !ReportsCompletion(x.s.queue[i], c)
    case LateCallback(a, c) => forall n :: n in Reports(a, c) ==> CompletionFits(x.s, x.inbox, n)
    case _ => true
  }

  lemma KeptToken(s: SchedulerView, t: SchedulerView, inbox: seq<Sent>)
    requires OwnCompletions(s, inbox) && (s.active.Some? ==> SameActiveToken(s, t))
    ensures OwnCompletions(t, inbox)
  {
    if CompletionPending(inbox) {
      CompletionFindsActive(s, inbox);
    }
    OwnCompletionsIff(s, t, inbox);
  }

  lemma ActiveReport(s: SchedulerView, inbox: seq<Sent>, c: Callback)
    requires OwnCompletions(s, inbox) && s.active.Some?
    ensures var a := s.active.value;
            OwnCompletions(s.(active := Some(CallBack(a, c))), inbox + Reports(a, c)) <==>
              (ReportsCompletion(a, c) ==> !DropPending(s, inbox) && !SnoozePending(inbox))
  {
    var a := s.active.value;
    var t, out := s.(active := Some(CallBack(a, c))), Reports(a, c);
    CallbackFrame(a, c);
    CallbackCompletes(a, c);
    KeptToken(s, t, inbox);
    DropsByToken(s, t, inbox);
    OneReport(inbox, out);
    if out != [] {
      CompletionAppendIff(t, inbox, out[0]);
    }
  }

  lemma OtherReport(s: SchedulerView, t: SchedulerView, inbox: seq<Sent>, a: AlertView, c: Callback)
    requires OwnCompletions(s, inbox) && t.active == s.active
    ensures OwnCompletions(t, inbox + Reports(a, c)) <==>
              forall n :: n in Reports(a, c) ==> CompletionFits(t, inbox, n)
  {
    var out := Reports(a, c);
    CallbackCompletes(a, c);
    OwnCompletionsIff(s, t, inbox);
    if CompletionPending(inbox) {
      CompletionFindsActive(s, inbox);
    }
    OneReport(inbox, out);
    if out != [] {
      CompletionAppendIff(t, inbox, out[0]);
      assert out[0] in out;
      assert forall n :: n in out ==> n == out[0];
    }
  }

  lemma QueuedReport(s: SchedulerView, inbox: seq<Sent>, i: nat, c: Callback, parse: TimeParser)
    requires Consistent(s, parse) && OwnCompletions(s, inbox) && i < |s.queue|
    ensures var a := s.queue[i];
            OwnCompletions(s.(queue := s.queue[i := CallBack(a, c)]), inbox + Reports(a, c)) <==>
              !ReportsCompletion(a, c)
  {
    var a := s.queue[i];
    var t, out := s.(queue := s.queue[i := CallBack(a, c)]), Reports(a, c);
    OtherReport(s, t, inbox, a, c);
    CallbackCompletes(a, c);
    assert a in s.queue;
    if out != [] {
      assert out[0] in out && !IsActiveToken(t, out[0].token);
      assert forall n :: n in out ==> n == out[0];
    }
  }

  lemma DeletedActive(s: SchedulerView, inbox: seq<Sent>, tokens: seq<string>, env: Env, parse: TimeParser)
    requires Consistent(s, parse) && OwnCompletions(s, inbox)
    ensures OwnCompletions(DeleteAlerts(s, tokens, env), inbox) <==>
              (DeleteAlertsOk(s, tokens, env) && s.active.Some? && s.active.value.data.token in tokens ==>
                 !CompletionPending(inbox))
  {
    var t := DeleteAlerts(s, tokens, env);
    if DeleteAlertsOk(s, tokens, env) {
      DeleteAlertsQueue(s, tokens, env, parse);
      OwnCompletionsIff(s, t, inbox);
      if CompletionPending(inbox) {
        CompletionFindsActive(s, inbox);
      }
    }
  }

  lemma HandledCompletions(s: SchedulerView, inbox: seq<Sent>, env: Env)
    requires OwnCompletions(s, inbox) && inbox != [] && (inbox[0].state == HasSnoozed ==> s.active.Some?)
    ensures OwnCompletions(OnAlertStateChange(s, inbox[0], env), inbox[1..])
  {
    var n, tail := inbox[0], inbox[1..];
    var t := OnAlertStateChange(s, n, env);
    CompletionTail(s, inbox);
    if CompletionPending(tail) {
      CompletionFindsActive(s, tail);
      match n.state
      case HasStopped => StoppedActive(s, n, env);
      case Failed => FailedActive(s, n, env);
      case _ =>
    }
    OwnCompletionsIff(s, t, tail);
  }

  /** No other event changes the token of an active alert. */
  lemma TokenStays(x: System, e: Event, env: Env, parse: TimeParser)
    requires Occurs(x, e, env, parse) && Survives(x, e) && LeavesInbox(e) && !e.DeleteAllDirective?
    requires x.s.active.Some?
    ensures SameActiveToken(x.s, Next(x, e, env, parse).s)
  {
    var s := x.s;
    match e
    case SetAlertDirective(_, _, a) => ScheduleKeepsEar(s, a, env, parse);
    case ScheduleCall(_, _, a) => ScheduleKeepsEar(s, a, env, parse);
    case ReloadEvent(shouldSchedule) => ReloadKeepsEar(s, shouldSchedule, env, parse);
    case DeleteDirective(token) => DeletionKeepsToken(s, token, env);
    case FocusEvent(focus) => FocusFrame(s.active.value, focus);
    case ClearEvent(reason) => NotifyDeletedFrame(StopTimer(DeactivateActive(s, reason)), s.queue);
    case _ =>
  }

  lemma DeletionKeepsToken(s: SchedulerView, token: string, env: Env)
    requires s.active.Some?
    ensures SameActiveToken(s, DeleteAlert(s, token, env))
  {
    if !IsActiveToken(s, token) && Queued(s, token).Some? {
      var a := Queued(s, token).value;
      EraseAlertFrame(s, a, env);
      SetTimerFrame(EraseAlert(s, a, env).(queue := Remove(s.queue, a)), env);
    }
  }

  /** Every event keeps the waiting COMPLETED with their own alert exactly when it respects them. */
  lemma EventKeepsCompletionsIff(x: System, e: Event, env: Env, parse: TimeParser)
    requires Consistent(x.s, parse) && OwnCompletions(x.s, x.inbox)
    requires Occurs(x, e, env, parse) && Survives(x, e)
    ensures var y := Next(x, e, env, parse);
            OwnCompletions(y.s, y.inbox) <==> KeepsCompletions(x, e, env, parse)
  {
    if LeavesInbox(e) && !e.DeleteAllDirective? {
      InboxLeft(x, e, env, parse);
      if x.s.active.Some? {
        TokenStays(x, e, env, parse);
      }
      KeptToken(x.s, Next(x, e, env, parse).s, x.inbox);
    } else {
      match e
      case DeleteAllDirective(tokens) => DeletedActive(x.s, x.inbox, tokens, env, parse);
      case ActiveCallback(c) => ActiveReport(x.s, x.inbox, c);
      case QueuedCallback(i, c) => QueuedReport(x.s, x.inbox, i, c, parse);
      case LateCallback(a, c) => OtherReport(x.s, x.s, x.inbox, a, c);
      case TakeNote => HandledCompletions(x.s, x.inbox, env);
    }
  }

  /** A calm run that respects the waiting COMPLETED. */
  ghost predicate Respectful(x: System, run: seq<Happening>, parse: TimeParser)
    decreases |run|
  {
    run == [] ||
    (var h := run[0];
     && Occurs(x, h.event, h.env, parse) && Working(h.env)
     && (Survives(x, h.event) ==>
           && Calm(x, h.event, h.env, parse) && KeepsCompletions(x, h.event, h.env, parse)
           && Respectful(Next(x, h.event, h.env, parse), run[1..], parse)))
  }

  /** In every state such a run reaches, each waiting COMPLETED will remove its own alert. */
  lemma {:induction false} RunKeepsOwnCompletions(x: System, run: seq<Happening>, parse: TimeParser)
    requires Good(x, parse) && OwnCompletions(x.s, x.inbox) && Respectful(x, run, parse)
    ensures SurvivesAll(x, run, parse)
    ensures var y := After(x, run, parse);
            Good(y, parse) && OwnCompletions(y.s, y.inbox)
    decreases |run|
  {
    if run != [] {
      EventKeepsGoodIff(x, run[0].event, run[0].env, parse);
      EventKeepsCompletionsIff(x, run[0].event, run[0].env, parse);
      RunKeepsOwnCompletions(Next(x, run[0].event, run[0].env, parse), run[1..], parse);
    }
  }

  // ----------------------------------------------------------------- the witness

  const COMPLETE := Rendered(RendererCompleted, "")

  function CompletedNote(a: AlertView): Sent {
    Sent(a.data.token, a.data.alertType, HasCompleted, "")
  }

  lemma CompletePart(a: AlertView)
    requires a.wiring.hasObserver
    ensures var b := CallBack(a, COMPLETE);
            && b.data == a.data && b.wiring.hasObserver
            && Reports(a, COMPLETE) == [CompletedNote(a)] && !ReportsSnooze(a, COMPLETE)
  {
    NotifyReports(a, WithState(a, Completed), HasCompleted, "");
  }

  /** The renderer reports completion twice. */
  lemma CompletedTwice(x: System, env: Env, parse: TimeParser)
    requires Good(x, parse) && x.inbox == [] && x.s.active.Some? && x.s.active.value.wiring.hasObserver && Working(env)
    ensures var e, n := ActiveCallback(COMPLETE), CompletedNote(x.s.active.value);
            && Occurs(x, e, env, parse) && Survives(x, e) && Calm(x, e, env, parse)
            && var y := Next(x, e, env, parse);
               && Occurs(y, e, env, parse) && Survives(y, e) && Calm(y, e, env, parse)
               && var z := Next(y, e, env, parse);
                  && z.inbox == [n, n] && z.s.queue == x.s.queue && z.s.focus == x.s.focus && z.s.active.Some?
                  && Good(z, parse)
  {
    var a := x.s.active.value;
    var e := ActiveCallback(COMPLETE);
    CompletePart(a);
    CompletePart(CallBack(a, COMPLETE));
    EventKeepsGoodIff(x, e, env, parse);
    var y := System(x.s.(active := Some(CallBack(a, COMPLETE))), [CompletedNote(a)]);
    assert [] + [CompletedNote(a)] == [CompletedNote(a)];
    assert Next(x, e, env, parse) == y;
    EventKeepsGoodIff(y, e, env, parse);
    assert [CompletedNote(a)] + [CompletedNote(a)] == [CompletedNote(a), CompletedNote(a)];
  }

  lemma CompletionTaken(x: System, env: Env, parse: TimeParser)
    requires Good(x, parse) && x.inbox != [] && x.inbox[0].state == HasCompleted && Working(env)
    ensures Survives(x, TakeNote) && Occurs(x, TakeNote, env, parse) && Calm(x, TakeNote, env, parse)
    ensures var y := Next(x, TakeNote, env, parse);
            && y == System(OnCompleted(x.s, x.inbox[0], env), x.inbox[1..])
            && y.s.active == None && y.s.queue == x.s.queue && y.s.focus == x.s.focus && Good(y, parse)
  {
    CompletedActive(x.s, x.inbox[0], env);
    CompletedOnlyDrops(x.s, x.inbox[0], env);
    EventKeepsGoodIff(x, TakeNote, env, parse);
  }

  /** With nothing active, a gain or change of focus activates the head. */
  lemma HeadActivated(x: System, focus: FocusState, env: Env, parse: TimeParser)
    requires Good(x, parse) && x.s.active == None && x.s.queue != [] && Working(env)
    requires focus != NoFocus && focus != x.s.focus
    ensures var e := FocusEvent(focus);
            && Occurs(x, e, env, parse) && Survives(x, e) && Calm(x, e, env, parse)
            && var y := Next(x, e, env, parse);
               && y.inbox == x.inbox && IsActiveToken(y.s, x.s.queue[0].data.token)
               && y.s.queue == x.s.queue[1..] && Good(y, parse)
  {
    EventKeepsGoodIff(x, FocusEvent(focus), env, parse);
    ActivateNextFrame(x.s.(focus := focus), env);
  }

  /** The renderer reports completion twice; the first report lets the alert go, a change of focus activates the
      head of the queue, and the second report lets that alert go, which nobody completed. Every event of the run
      is calm. */
  lemma SecondCompletionDropsTheHead(x: System, focus: FocusState, env: Env, parse: TimeParser)
    requires Good(x, parse) && x.inbox == [] && x.s.active.Some? && x.s.active.value.wiring.hasObserver && Working(env)
    requires x.s.queue != [] && focus != NoFocus && focus != x.s.focus
    ensures var e, n := ActiveCallback(COMPLETE), CompletedNote(x.s.active.value);
            && Occurs(x, e, env, parse) && Survives(x, e)
            && var x1 := Next(x, e, env, parse);
               && Occurs(x1, e, env, parse) && Survives(x1, e)
               && var x2 := Next(x1, e, env, parse);
                  && Good(x2, parse) && x2.inbox == [n, n]
                  && HeadDroppedFrom(x2, focus, x.s.queue[0].data.token, env, parse)
  {
    CompletedTwice(x, env, parse);
    var x1 := Next(x, ActiveCallback(COMPLETE), env, parse);
    var x2 := Next(x1, ActiveCallback(COMPLETE), env, parse);
    TwoCompletionsDropTheHead(x2, focus, env, parse);
  }

  /** From here, handling a notification, a change of focus and handling another first activate the alert with
      the token and then let it go, all calmly. */
  ghost predicate HeadDroppedFrom(x: System, focus: FocusState, token: string, env: Env, parse: TimeParser) {
    && Occurs(x, TakeNote, env, parse) && Survives(x, TakeNote) && Calm(x, TakeNote, env, parse)
    && var y := Next(x, TakeNote, env, parse);
       && Occurs(y, FocusEvent(focus), env, parse) && Survives(y, FocusEvent(focus))
       && Calm(y, FocusEvent(focus), env, parse)
       && var z := Next(y, FocusEvent(focus), env, parse);
          && IsActiveToken(z.s, token)
          && Occurs(z, TakeNote, env, parse) && Survives(z, TakeNote) && Calm(z, TakeNote, env, parse)
          && !Knows(Next(z, TakeNote, env, parse).s, token)
  }

  lemma TwoCompletionsDropTheHead(x: System, focus: FocusState, env: Env, parse: TimeParser)
    requires Good(x, parse) && |x.inbox| == 2 && Working(env)
    requires x.inbox[0].state == HasCompleted && x.inbox[1].state == HasCompleted
    requires x.s.queue != [] && focus != NoFocus && focus != x.s.focus
    ensures HeadDroppedFrom(x, focus, x.s.queue[0].data.token, env, parse)
  {
    CompletionTaken(x, env, parse);
    var y := Next(x, TakeNote, env, parse);
    HeadActivated(y, focus, env, parse);
    var z := Next(y, FocusEvent(focus), env, parse);
    assert z.inbox[0] == x.inbox[1];
    CompletionTaken(z, env, parse);
    NoteKnows(z.s, z.inbox[0], env, parse, x.s.queue[0].data.token);
  }
}
