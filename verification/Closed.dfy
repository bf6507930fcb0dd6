/** The scheduler together with the notifications its alerts have sent and it has not handled yet. Alerts enter
    by SetAlert directives and by loading, notifications by callbacks on alerts, and they are handled in the order
    in which they were sent. */
module ClosedScheduler {
  import opened AlertTypes
  import opened AlertLifecycle
  import opened AlertObject
  import AlertRuns
  import opened AlertRecords
  import opened AlertQueue
  import opened SchedulerModel
  import opened SchedulerConsistency
  import opened SchedulerQuiet
  import opened SchedulerWakeups
  import opened SchedulerRuns
  import opened SchedulerPopulation
  import opened SchedulerReload
  import Agent = AlertsCapabilityAgent

  datatype System = System(s: SchedulerView, inbox: seq<Sent>)

  /** A SetAlert directive asks whether its alert is active and then calls for a snooze or a schedule; the calls
      also come as events of their own, since others may come between the question and the call. A late callback
      reaches an alert that the scheduler has let go of. */
  datatype Event =
    | SetAlertDirective(payload: AlertPayload, alertType: string, alert: AlertView)
    | SnoozeCall(token: string, iso: string)
    | ScheduleCall(payload: AlertPayload, alertType: string, alert: AlertView)
    | ReloadEvent(shouldSchedule: bool)
    | DeleteDirective(token: string)
    | DeleteAllDirective(tokens: seq<string>)
    | FocusEvent(focus: FocusState)
    | LocalStopEvent
    | ClearEvent(reason: StopReason)
    | TimerEvent
    | ActiveCallback(callback: Callback)
    | QueuedCallback(index: nat, callback: Callback)
    | LateCallback(alert: AlertView, callback: Callback)
    | TakeNote

  /** What an alert sent between two of its states. */
  function Outgoing(a: AlertView, b: AlertView): seq<Sent> {
    var before, after := a.wiring.notifications, b.wiring.notifications;
    if |before| <= |after| then
      seq(|after| - |before|, i requires 0 <= i < |after| - |before| =>
        Sent(b.data.token, b.data.alertType, after[|before| + i].state, after[|before| + i].reason))
    else []
  }

  function Reports(a: AlertView, c: Callback): seq<Sent> {
    Outgoing(a, CallBack(a, c))
  }

  /** The operation of the scheduler that an event amounts to. */
  function Underlying(x: System, e: Event): Option<Op>
    requires e.TakeNote? ==> x.inbox != []
  {
    match e
    case SetAlertDirective(_, _, a) =>
      Some(if Agent.IsRinging(x.s, a.data.token) then Op.DoSnooze(a.data.token, a.content.timePoint.iso)
           else DoSchedule(a))
    case SnoozeCall(token, iso) => Some(Op.DoSnooze(token, iso))
    case ScheduleCall(_, _, a) => Some(DoSchedule(a))
    case ReloadEvent(shouldSchedule) => Some(DoReload(shouldSchedule))
    case DeleteDirective(token) => Some(DoDelete(token))
    case DeleteAllDirective(tokens) => Some(DoDeleteAll(tokens))
    case FocusEvent(focus) => Some(DoFocus(focus))
    case LocalStopEvent => Some(DoLocalStop)
    case ClearEvent(reason) => Some(DoClear(reason))
    case TimerEvent => Some(DoTimer)
    case ActiveCallback(c) => Some(DoActiveCallback(c))
    case QueuedCallback(i, c) => Some(DoQueuedCallback(i, c))
    case LateCallback(_, _) => None
    case TakeNote => Some(DoNote(x.inbox[0]))
  }

  /** What the world can do. That a handled SNOOZED finds an active alert is not asked for: it is proved. */
  ghost predicate Occurs(x: System, e: Event, env: Env, parse: TimeParser) {
    match e
    case SetAlertDirective(payload, alertType, a) => Agent.ParsedFrom(payload, alertType, a, parse)
    case ScheduleCall(payload, alertType, a) => Agent.ParsedFrom(payload, alertType, a, parse)
    case ReloadEvent(_) => IsScan(x.s.rows, env.scan)
    case ActiveCallback(_) => x.s.active.Some?
    case QueuedCallback(i, _) => i < |x.s.queue|
    case TakeNote => x.inbox != []
    case _ => true
  }

  /** The event runs into no null pointer. */
  predicate Survives(x: System, e: Event) {
    e.TakeNote? && x.inbox != [] && x.inbox[0].state == HasSnoozed ==> x.s.active.Some?
  }

  ghost function Next(x: System, e: Event, env: Env, parse: TimeParser): System
    requires Occurs(x, e, env, parse) && Survives(x, e)
  {
    var s := x.s;
    match e
    case SetAlertDirective(_, _, a) => x.(s := Agent.SetAlert(s, a, env, parse))
    case SnoozeCall(token, iso) => x.(s := SnoozeAlert(s, token, iso, parse))
    case ScheduleCall(_, _, a) => x.(s := ScheduleAlert(s, a, env, parse))
    case ReloadEvent(shouldSchedule) => x.(s := ReloadAlerts(s, shouldSchedule, env, parse))
    case DeleteDirective(token) => x.(s := DeleteAlert(s, token, env))
    case DeleteAllDirective(tokens) => x.(s := DeleteAlerts(s, tokens, env))
    case FocusEvent(focus) => x.(s := UpdateFocus(s, focus, env))
    case LocalStopEvent => x.(s := DeactivateActive(s, LocalStop))
    case ClearEvent(reason) => x.(s := ClearData(s, reason, env))
    case TimerEvent => x.(s := OnTimer(s))
    case ActiveCallback(c) =>
      System(s.(active := Some(CallBack(s.active.value, c))), x.inbox + Reports(s.active.value, c))
    case QueuedCallback(i, c) =>
      System(s.(queue := s.queue[i := CallBack(s.queue[i], c)]), x.inbox + Reports(s.queue[i], c))
    case LateCallback(a, c) => x.(inbox := x.inbox + Reports(a, c))
    case TakeNote => System(OnAlertStateChange(s, x.inbox[0], env), x.inbox[1..])
  }

  // ------------------------------------------------------------ what may wait

  /** The alert sends neither STOPPED nor SNOOZED any more, unless it is stopped or snoozed again. */
  predicate Resting(a: AlertView) {
    !Ringing(a) && (a.control.hasTimerExpired || (a.control.state != Stopping && a.control.state != Snoozing))
  }

  /** Handling the notification lets the active alert go. */
  predicate Drops(s: SchedulerView, n: Sent) {
    s.active.Some? &&
    (n.state == HasCompleted || ((n.state == HasStopped || n.state == Failed) && n.token == s.active.value.data.token))
  }

  predicate SnoozePending(inbox: seq<Sent>) {
    exists i :: 0 <= i < |inbox| && inbox[i].state == HasSnoozed
  }

  predicate StopPending(inbox: seq<Sent>, token: string) {
    exists i :: 0 <= i < |inbox| && inbox[i].state == HasStopped && inbox[i].token == token
  }

  predicate DropPending(s: SchedulerView, inbox: seq<Sent>) {
    exists i :: 0 <= i < |inbox| && Drops(s, inbox[i])
  }

  /** A SNOOZED waits for the active alert, alone, before anything that would let that alert go. */
  ghost predicate SnoozeWaits(s: SchedulerView, inbox: seq<Sent>) {
    forall i :: 0 <= i < |inbox| && inbox[i].state == HasSnoozed ==>
      && IsActiveToken(s, inbox[i].token) && Resting(s.active.value)
      && !DropPending(s, inbox[..i])
      && !SnoozePending(inbox[i + 1..])
      && !StopPending(inbox, inbox[i].token)
  }

  /** A STOPPED never waits for a queued alert. */
  ghost predicate StopWaits(s: SchedulerView, inbox: seq<Sent>) {
    forall i :: 0 <= i < |inbox| && inbox[i].state == HasStopped ==> NoToken(s.queue, inbox[i].token)
  }

  ghost predicate InboxOk(s: SchedulerView, inbox: seq<Sent>) {
    SnoozeWaits(s, inbox) && StopWaits(s, inbox)
  }

  ghost predicate Good(x: System, parse: TimeParser) {
    Invariant(x.s, parse) && InboxOk(x.s, x.inbox)
  }

  // ---------------------------------------------------------- changes of a part

  /** The active alert of the new state has the token of the old one, and rests. */
  predicate SnoozeStays(s: SchedulerView, t: SchedulerView) {
    && s.active.Some? && t.active.Some?
    && t.active.value.data.token == s.active.value.data.token && Resting(t.active.value)
  }

  lemma SnoozeFindsActive(s: SchedulerView, inbox: seq<Sent>)
    requires SnoozeWaits(s, inbox) && SnoozePending(inbox)
    ensures s.active.Some? && Resting(s.active.value)
  {
  }

  lemma SnoozeWaitsIff(s: SchedulerView, t: SchedulerView, inbox: seq<Sent>)
    requires SnoozeWaits(s, inbox)
    ensures SnoozeWaits(t, inbox) <==> (SnoozePending(inbox) ==> SnoozeStays(s, t))
  {
    if SnoozePending(inbox) {
      var i :| 0 <= i < |inbox| && inbox[i].state == HasSnoozed;
      assert IsActiveToken(s, inbox[i].token);
      if SnoozeStays(s, t) {
        forall k | 0 <= k < |inbox| && inbox[k].state == HasSnoozed
          ensures IsActiveToken(t, inbox[k].token) && !DropPending(t, inbox[..k])
        {
          assert IsActiveToken(s, inbox[k].token) && !DropPending(s, inbox[..k]);
          SameDrops(s, t, inbox[..k]);
        }
      }
    }
  }

  lemma SameDrops(s: SchedulerView, t: SchedulerView, inbox: seq<Sent>)
    requires SnoozeStays(s, t)
    ensures DropPending(s, inbox) <==> DropPending(t, inbox)
  {
    assert forall n: Sent :: Drops(s, n) <==> Drops(t, n);
  }

  /** What a change of the scheduler has to respect while notifications wait. */
  lemma InboxKeptIff(s: SchedulerView, t: SchedulerView, inbox: seq<Sent>)
    requires InboxOk(s, inbox)
    ensures InboxOk(t, inbox) <==> (SnoozePending(inbox) ==> SnoozeStays(s, t)) && StopWaits(t, inbox)
  {
    SnoozeWaitsIff(s, t, inbox);
  }

  lemma FewerTokens(s: SchedulerView, t: SchedulerView, inbox: seq<Sent>)
    requires StopWaits(s, inbox) && forall x :: x in t.queue ==> !NoToken(s.queue, x.data.token)
    ensures StopWaits(t, inbox)
  {
  }

  /** When a notification may be appended. */
  ghost predicate Fits(s: SchedulerView, inbox: seq<Sent>, n: Sent) {
    && (n.state == HasSnoozed ==>
          && IsActiveToken(s, n.token) && Resting(s.active.value)
          && !DropPending(s, inbox) && !SnoozePending(inbox) && !StopPending(inbox, n.token))
    && (n.state == HasStopped ==>
          NoToken(s.queue, n.token) && (SnoozePending(inbox) ==> !IsActiveToken(s, n.token)))
  }

  lemma PendingAppend(s: SchedulerView, inbox: seq<Sent>, n: Sent, token: string)
    ensures SnoozePending(inbox + [n]) <==> SnoozePending(inbox) || n.state == HasSnoozed
    ensures StopPending(inbox + [n], token) <==>
              StopPending(inbox, token) || (n.state == HasStopped && n.token == token)
    ensures DropPending(s, inbox + [n]) <==> DropPending(s, inbox) || Drops(s, n)
  {
    var more := inbox + [n];
    assert more[|inbox|] == n;
    assert forall i :: 0 <= i < |inbox| ==> more[i] == inbox[i];
  }

  lemma SnoozeWaitsAppend(s: SchedulerView, inbox: seq<Sent>, n: Sent)
    requires InboxOk(s, inbox) && Fits(s, inbox, n)
    ensures SnoozeWaits(s, inbox + [n])
  {
    var more := inbox + [n];
    forall i | 0 <= i < |more| && more[i].state == HasSnoozed
      ensures IsActiveToken(s, more[i].token) && Resting(s.active.value)
      ensures !DropPending(s, more[..i]) && !SnoozePending(more[i + 1..]) && !StopPending(more, more[i].token)
    {
      PendingAppend(s, inbox, n, more[i].token);
      if i < |inbox| {
        assert more[i] == inbox[i] && more[..i] == inbox[..i] && more[i + 1..] == inbox[i + 1..] + [n];
        PendingAppend(s, inbox[i + 1..], n, more[i].token);
        assert SnoozePending(inbox);
      } else {
        assert more[i] == n && more[..i] == inbox && more[i + 1..] == [];
      }
    }
  }

  lemma StopWaitsAppendIff(s: SchedulerView, inbox: seq<Sent>, n: Sent)
    requires StopWaits(s, inbox)
    ensures StopWaits(s, inbox + [n]) <==> (n.state == HasStopped ==> NoToken(s.queue, n.token))
  {
    var more := inbox + [n];
    assert more[|inbox|] == n;
    assert forall i :: 0 <= i < |inbox| ==> more[i] == inbox[i];
  }

  lemma AppendIff(s: SchedulerView, inbox: seq<Sent>, n: Sent)
    requires InboxOk(s, inbox)
    ensures InboxOk(s, inbox + [n]) <==> Fits(s, inbox, n)
  {
    var more := inbox + [n];
    StopWaitsAppendIff(s, inbox, n);
    if Fits(s, inbox, n) {
      SnoozeWaitsAppend(s, inbox, n);
    }
    if InboxOk(s, more) {
      assert more[|inbox|] == n && more[..|inbox|] == inbox;
      PendingAppend(s, inbox, n, n.token);
      if SnoozePending(inbox) {
        var i :| 0 <= i < |inbox| && inbox[i].state == HasSnoozed;
        assert more[i] == inbox[i] && more[i + 1..] == inbox[i + 1..] + [n];
        PendingAppend(s, inbox[i + 1..], n, n.token);
        PendingAppend(s, inbox, n, inbox[i].token);
      }
    }
  }

  lemma TailOk(s: SchedulerView, inbox: seq<Sent>)
    requires InboxOk(s, inbox) && inbox != []
    ensures InboxOk(s, inbox[1..])
    ensures SnoozePending(inbox[1..]) ==> !Drops(s, inbox[0]) && inbox[0].state != HasSnoozed
    ensures inbox[0].state == HasSnoozed ==> !StopPending(inbox[1..], inbox[0].token)
  {
    var tail := inbox[1..];
    forall i | 0 <= i < |tail| && tail[i].state == HasSnoozed
      ensures IsActiveToken(s, tail[i].token) && Resting(s.active.value)
      ensures !DropPending(s, tail[..i]) && !SnoozePending(tail[i + 1..]) && !StopPending(tail, tail[i].token)
      ensures !Drops(s, inbox[0]) && inbox[0].state != HasSnoozed
    {
      assert inbox[i + 1] == tail[i] && inbox[i + 2..] == tail[i + 1..];
      assert inbox[..i + 1][0] == inbox[0] && inbox[..i + 1][1..] == tail[..i];
      PendingTail(s, inbox[..i + 1], tail[i].token);
      PendingTail(s, inbox, tail[i].token);
      assert inbox[0].state == HasSnoozed ==> SnoozePending(inbox[0 + 1..]);
    }
    PendingTail(s, inbox, inbox[0].token);
  }

  lemma PendingTail(s: SchedulerView, inbox: seq<Sent>, token: string)
    requires inbox != []
    ensures StopPending(inbox[1..], token) ==> StopPending(inbox, token)
    ensures DropPending(s, inbox[1..]) || Drops(s, inbox[0]) ==> DropPending(s, inbox)
  {
    if StopPending(inbox[1..], token) {
      var i :| 0 <= i < |inbox[1..]| && inbox[1..][i].state == HasStopped && inbox[1..][i].token == token;
      assert inbox[i + 1] == inbox[1..][i];
    }
    if DropPending(s, inbox[1..]) {
      var i :| 0 <= i < |inbox[1..]| && Drops(s, inbox[1..][i]);
      assert inbox[i + 1] == inbox[1..][i];
    }
  }

  // ------------------------------------------------------------------ reports

  /** A callback reports at most one thing: a snooze exactly when the renderer stops a snoozing alert, a stop
      exactly when it stops a stopping one, neither after the timer has expired. */
  lemma CallbackReports(a: AlertView, c: Callback)
    ensures var out := Reports(a, c);
            && |out| <= 1
            && (out != [] ==> out[0].token == a.data.token)
            && (out != [] && out[0].state == HasSnoozed <==> ReportsSnooze(a, c))
            && (out != [] && out[0].state == HasStopped <==> ReportsStop(a, c))
  {
    CallbackFrame(a, c);
    match c
    case Rendered(event, reason) => EventReports(a, event, reason);
    case DelayedRestart => assert CallBack(a, c).wiring.notifications == a.wiring.notifications;
    case MaxTimerFired => assert CallBack(a, c).wiring.notifications == a.wiring.notifications;
  }

  predicate IsRendererStop(c: Callback) {
    c.Rendered? && c.event == RendererStopped
  }

  predicate ReportsSnooze(a: AlertView, c: Callback) {
    IsRendererStop(c) && a.wiring.hasObserver && !a.control.hasTimerExpired && a.control.state == Snoozing
  }

  predicate ReportsStop(a: AlertView, c: Callback) {
    IsRendererStop(c) && a.wiring.hasObserver && !a.control.hasTimerExpired && a.control.state == Stopping
  }

  lemma NotifyReports(a: AlertView, b: AlertView, state: ObserverState, reason: string)
    requires b.wiring == a.wiring && b.data == a.data
    ensures Outgoing(a, Notify(b, state, reason)) ==
              if a.wiring.hasObserver then [Sent(a.data.token, a.data.alertType, state, reason)] else []
  {
  }

  lemma EventReports(a: AlertView, event: RendererState, reason: string)
    ensures var out := Outgoing(a, OnRendererStateChange(a, event, reason));
            && |out| <= 1
            && (out != [] && out[0].state == HasSnoozed <==> ReportsSnooze(a, Rendered(event, reason)))
            && (out != [] && out[0].state == HasStopped <==> ReportsStop(a, Rendered(event, reason)))
  {
    match event
    case RendererStarted => NotifyReports(a, a, Started, "");
    case RendererStopped => StopReports(a);
    case RendererCompleted => NotifyReports(a, WithState(a, Completed), HasCompleted, "");
    case RendererError => NotifyReports(a, a, Failed, reason);
    case _ =>
  }

  lemma StopReports(a: AlertView)
    ensures var out := Outgoing(a, OnRendererStopped(a));
            && |out| <= 1
            && (out != [] && out[0].state == HasSnoozed <==> ReportsSnooze(a, Rendered(RendererStopped, "")))
            && (out != [] && out[0].state == HasStopped <==> ReportsStop(a, Rendered(RendererStopped, "")))
  {
    if a.control.hasTimerExpired {
      NotifyReports(a, WithState(a, Completed), HasCompleted, "");
    } else if a.control.state == Stopping {
      NotifyReports(a, WithState(a, Stopped), HasStopped, StopReasonText(a.control.stopReason));
    } else if a.control.state == Snoozing {
      NotifyReports(a, WithState(a, Snoozed), HasSnoozed, "");
    }
  }

  /** A resting alert keeps resting, and an alert that reports a snooze rests from then on. */
  lemma CallbackRests(a: AlertView, c: Callback)
    ensures Resting(a) || ReportsSnooze(a, c) ==> Resting(CallBack(a, c))
  {
    match c
    case Rendered(event, reason) => EventRests(a, event, reason);
    case _ =>
  }

  lemma EventRests(a: AlertView, event: RendererState, reason: string)
    ensures Resting(a) ==> Resting(OnRendererStateChange(a, event, reason))
    ensures event == RendererStopped && !a.control.hasTimerExpired && a.control.state == Snoozing ==>
              Resting(OnRendererStateChange(a, event, reason))
  {
    if event == RendererStopped {
      assert OnRendererStateChange(a, event, reason) == OnRendererStopped(a);
    } else {
      AlertRuns.OtherEventsOwed(a, event, reason);
    }
  }

  // -------------------------------------------------------------------- events

  /** Stopping the active alert, or snoozing it again, makes it send a notification behind a SNOOZED that waits,
      unless its timer has expired. */
  predicate StopsCalmly(x: System) {
    SnoozePending(x.inbox) && x.s.active.Some? ==> x.s.active.value.control.hasTimerExpired
  }

  /** No alert that a reload of these alerts queues has a STOPPED waiting. */
  predicate NoStopWaitsFor(s: SchedulerView, inbox: seq<Sent>, loaded: seq<AlertView>, shouldSchedule: bool, now: int) {
    forall i :: 0 <= i < |loaded| && (shouldSchedule ==> Stays(s, loaded[i], now)) ==>
      !StopPending(inbox, loaded[i].data.token)
  }

  /** What the waiting notifications ask of an event from outside. */
  ghost predicate Orderly(x: System, e: Event, env: Env, parse: TimeParser)
    requires Occurs(x, e, env, parse)
  {
    match e
    case SetAlertDirective(_, _, a) => WouldStore(x.s, a, env) ==> !StopPending(x.inbox, a.data.token)
    case SnoozeCall(token, iso) => IsActiveToken(x.s, token) && parse(iso).Some? ==> StopsCalmly(x)
    case ScheduleCall(_, _, a) => WouldStore(x.s, a, env) ==> !StopPending(x.inbox, a.data.token)
    case ReloadEvent(shouldSchedule) =>
      env.now.Some? ==>
        NoStopWaitsFor(x.s, x.inbox, LoadRows(x.s.rows, env.scan, parse), shouldSchedule, env.now.value)
    case DeleteDirective(token) => IsActiveToken(x.s, token) ==> StopsCalmly(x)
    case DeleteAllDirective(tokens) =>
      DeleteAlertsOk(x.s, tokens, env) && x.s.active.Some? && x.s.active.value.data.token in tokens ==>
        !SnoozePending(x.inbox)
    case FocusEvent(focus) => focus == NoFocus && x.s.focus != NoFocus ==> StopsCalmly(x)
    case LocalStopEvent => StopsCalmly(x)
    case ClearEvent(_) => StopsCalmly(x)
    case ActiveCallback(c) => ReportsSnooze(x.s.active.value, c) ==> !DropPending(x.s, x.inbox)
    case QueuedCallback(i, c) => !ReportsSnooze(x.s.queue[i], c) && !ReportsStop(x.s.queue[i], c)
    case LateCallback(a, c) => forall n :: n in Reports(a, c) ==> Fits(x.s, x.inbox, n)
    case TimerEvent => true
    case TakeNote => true
  }

  /** What the scheduler's own invariant asks of an event: nothing of the handling of a notification but the
      disk's answer. */
  ghost predicate MeetsGuard(x: System, e: Event, env: Env, parse: TimeParser)
    requires Occurs(x, e, env, parse) && Survives(x, e)
  {
    match e
    case ReloadEvent(shouldSchedule) =>
      env.now.Some? && !shouldSchedule ==> !LoadsActive(x.s, env, parse) && !LoadsRinging(x.s, env, parse)
    case ClearEvent(_) => x.s.active.None? || !env.bulkDisk
    case TakeNote => x.inbox[0].state == HasSnoozed ==> RowTakesTime(x.s, env)
    case _ => true
  }

  /** What a caller, the renderer and the disk have to respect. */
  ghost predicate Calm(x: System, e: Event, env: Env, parse: TimeParser)
    requires Occurs(x, e, env, parse) && Survives(x, e)
  {
    Orderly(x, e, env, parse) && MeetsGuard(x, e, env, parse)
  }

  /** The same queue and the same active alert, or one that rests as well. */
  lemma NothingQueued(s: SchedulerView, t: SchedulerView, inbox: seq<Sent>)
    requires InboxOk(s, inbox)
    requires t.active == s.active || (SnoozePending(inbox) ==> SnoozeStays(s, t))
    requires forall x :: x in t.queue ==> !NoToken(s.queue, x.data.token)
    ensures InboxOk(t, inbox)
  {
    if SnoozePending(inbox) {
      SnoozeFindsActive(s, inbox);
    }
    FewerTokens(s, t, inbox);
    InboxKeptIff(s, t, inbox);
  }

  lemma QueueHasOwnTokens(q: seq<AlertView>)
    ensures forall x :: x in q ==> !NoToken(q, x.data.token)
  {
  }

  lemma DeactivationIff(s: SchedulerView, inbox: seq<Sent>, reason: StopReason)
    requires InboxOk(s, inbox)
    ensures InboxOk(DeactivateActive(s, reason), inbox) <==> StopsCalmly(System(s, inbox))
  {
    var t := DeactivateActive(s, reason);
    QueueHasOwnTokens(s.queue);
    FewerTokens(s, t, inbox);
    InboxKeptIff(s, t, inbox);
    if SnoozePending(inbox) {
      SnoozeFindsActive(s, inbox);
    }
  }

  /** The queue has a token exactly when it is known and not the active one's. */
  lemma QueuedTokens(s: SchedulerView, token: string, parse: TimeParser)
    requires Consistent(s, parse)
    ensures !NoToken(s.queue, token) <==> Knows(s, token) && !IsActiveToken(s, token)
  {
  }

  lemma SetAlertIff(s: SchedulerView, inbox: seq<Sent>, a: AlertView, env: Env, parse: TimeParser)
    requires Consistent(s, parse) && InboxOk(s, inbox) && Coherent(a.content.timePoint, parse)
    ensures InboxOk(Agent.SetAlert(s, a, env, parse), inbox) <==>
              (WouldStore(s, a, env) ==> !StopPending(inbox, a.data.token))
  {
    var t := Agent.SetAlert(s, a, env, parse);
    if Agent.IsRinging(s, a.data.token) {
      ActiveTokenIsNotRescheduled(s, a, env, parse);
      QueuedProperties(s, a.data.token);
      if SnoozePending(inbox) {
        SnoozeFindsActive(s, inbox);
      }
      QueueHasOwnTokens(s.queue);
      NothingQueued(s, t, inbox);
    } else {
      ScheduleIff(s, inbox, a, env, parse);
    }
  }

  lemma ScheduleIff(s: SchedulerView, inbox: seq<Sent>, a: AlertView, env: Env, parse: TimeParser)
    requires Consistent(s, parse) && InboxOk(s, inbox) && Coherent(a.content.timePoint, parse)
    ensures InboxOk(ScheduleAlert(s, a, env, parse), inbox) <==>
              (WouldStore(s, a, env) ==> !StopPending(inbox, a.data.token))
  {
    var t := ScheduleAlert(s, a, env, parse);
    ScheduleKeepsIff(s, a, env, parse);
    ScheduleKeepsEar(s, a, env, parse);
    ScheduledTokens(s, t, inbox, a, env, parse);
    if SnoozePending(inbox) {
      SnoozeFindsActive(s, inbox);
    }
    InboxKeptIff(s, t, inbox);
  }

  lemma SnoozeIff(s: SchedulerView, inbox: seq<Sent>, token: string, iso: string, parse: TimeParser)
    requires InboxOk(s, inbox)
    ensures InboxOk(SnoozeAlert(s, token, iso, parse), inbox) <==>
              (IsActiveToken(s, token) && parse(iso).Some? ==> StopsCalmly(System(s, inbox)))
  {
    var t := SnoozeAlert(s, token, iso, parse);
    QueueHasOwnTokens(s.queue);
    FewerTokens(s, t, inbox);
    InboxKeptIff(s, t, inbox);
    if SnoozePending(inbox) {
      SnoozeFindsActive(s, inbox);
    }
  }

  lemma ScheduledToken(s: SchedulerView, a: AlertView, env: Env, parse: TimeParser, token: string)
    requires Consistent(s, parse) && Consistent(ScheduleAlert(s, a, env, parse), parse)
    ensures var t := ScheduleAlert(s, a, env, parse);
            !NoToken(t.queue, token) <==>
              !NoToken(s.queue, token) || (WouldStore(s, a, env) && token == a.data.token)
  {
    var t := ScheduleAlert(s, a, env, parse);
    ScheduleKeepsEar(s, a, env, parse);
    ScheduleKnows(s, a, env, parse, token);
    QueuedTokens(s, token, parse);
    QueuedTokens(t, token, parse);
    if IsActiveToken(s, a.data.token) {
      assert Owns(s.rows, s.active.value);
      assert HasToken(s.rows, a.data.token);
    }
  }

  lemma ScheduledTokens(s: SchedulerView, t: SchedulerView, inbox: seq<Sent>, a: AlertView, env: Env,
                        parse: TimeParser)
    requires Consistent(s, parse) && Consistent(t, parse) && t == ScheduleAlert(s, a, env, parse)
    requires StopWaits(s, inbox)
    ensures StopWaits(t, inbox) <==> (WouldStore(s, a, env) ==> !StopPending(inbox, a.data.token))
  {
    if !StopWaits(t, inbox) {
      var i :| 0 <= i < |inbox| && inbox[i].state == HasStopped && !NoToken(t.queue, inbox[i].token);
      ScheduledToken(s, a, env, parse, inbox[i].token);
    } else if StopPending(inbox, a.data.token) {
      var i :| 0 <= i < |inbox| && inbox[i].state == HasStopped && inbox[i].token == a.data.token;
      ScheduledToken(s, a, env, parse, inbox[i].token);
    }
  }

  lemma ReloadIff(s: SchedulerView, inbox: seq<Sent>, shouldSchedule: bool, env: Env, parse: TimeParser)
    requires Consistent(s, parse) && InboxOk(s, inbox) && IsScan(s.rows, env.scan) && env.now.Some?
    ensures var loaded := LoadRows(s.rows, env.scan, parse);
            InboxOk(ReloadAlerts(s, shouldSchedule, env, parse), inbox) <==>
              NoStopWaitsFor(s, inbox, loaded, shouldSchedule, env.now.value)
  {
    var t, loaded := ReloadAlerts(s, shouldSchedule, env, parse), LoadRows(s.rows, env.scan, parse);
    ReloadKeepsEar(s, shouldSchedule, env, parse);
    if SnoozePending(inbox) {
      SnoozeFindsActive(s, inbox);
    }
    InboxKeptIff(s, t, inbox);
    forall token
      ensures !NoToken(t.queue, token) <==> Queues(s, loaded, shouldSchedule, env.now.value, token)
    {
      ReloadedTokens(s, shouldSchedule, env, parse, token);
    }
    TokensWait(t, inbox, loaded, shouldSchedule, s, env.now.value);
  }

  /** A reload of these alerts queues one with the token. */
  predicate Queues(s: SchedulerView, loaded: seq<AlertView>, shouldSchedule: bool, now: int, token: string) {
    exists i :: 0 <= i < |loaded| && (shouldSchedule ==> Stays(s, loaded[i], now)) && loaded[i].data.token == token
  }

  lemma TokensWait(t: SchedulerView, inbox: seq<Sent>, loaded: seq<AlertView>, shouldSchedule: bool, s: SchedulerView,
                   now: int)
    requires forall token :: !NoToken(t.queue, token) <==> Queues(s, loaded, shouldSchedule, now, token)
    ensures StopWaits(t, inbox) <==> NoStopWaitsFor(s, inbox, loaded, shouldSchedule, now)
  {
    if StopWaits(t, inbox) {
      forall i | 0 <= i < |loaded| && (shouldSchedule ==> Stays(s, loaded[i], now))
        ensures !StopPending(inbox, loaded[i].data.token)
      {
        assert Queues(s, loaded, shouldSchedule, now, loaded[i].data.token);
        assert !NoToken(t.queue, loaded[i].data.token);
      }
    } else {
      var k :| 0 <= k < |inbox| && inbox[k].state == HasStopped && !NoToken(t.queue, inbox[k].token);
      var i :| 0 <= i < |loaded| && (shouldSchedule ==> Stays(s, loaded[i], now))
               && loaded[i].data.token == inbox[k].token;
      assert StopPending(inbox, loaded[i].data.token);
    }
  }

  lemma ReloadedTokens(s: SchedulerView, shouldSchedule: bool, env: Env, parse: TimeParser, token: string)
    requires Consistent(s, parse) && IsScan(s.rows, env.scan) && env.now.Some?
    ensures var loaded := LoadRows(s.rows, env.scan, parse);
            !NoToken(ReloadAlerts(s, shouldSchedule, env, parse).queue, token) <==>
              Queues(s, loaded, shouldSchedule, env.now.value, token)
  {
    var q, loaded := ReloadAlerts(s, shouldSchedule, env, parse).queue, LoadRows(s.rows, env.scan, parse);
    if shouldSchedule {
      ReloadSplits(s, env, parse);
      if i :| 0 <= i < |loaded| && Stays(s, loaded[i], env.now.value) && loaded[i].data.token == token {
        assert Stays(s.(queue := []), loaded[i], env.now.value);
        assert Renewed(loaded[i]) in q;
      }
    } else {
      LoadIsOk(s.rows, env.scan, parse);
      InsertAllMembers(loaded, s.rows, parse);
      if i :| 0 <= i < |loaded| && loaded[i].data.token == token {
        assert Connect(loaded[i]) in q;
      }
    }
  }

  lemma DeleteIff(s: SchedulerView, inbox: seq<Sent>, token: string, env: Env)
    requires InboxOk(s, inbox)
    ensures InboxOk(DeleteAlert(s, token, env), inbox) <==> (IsActiveToken(s, token) ==> StopsCalmly(System(s, inbox)))
  {
    if IsActiveToken(s, token) {
      DeactivationIff(s, inbox, AvsStop);
    } else {
      QueueHasOwnTokens(s.queue);
      if Queued(s, token).Some? {
        var a := Queued(s, token).value;
        EraseQueuedOnlyDrops(s, a, env);
        EraseAlertFrame(s, a, env);
        SetTimerFrame(EraseAlert(s, a, env).(queue := Remove(s.queue, a)), env);
      }
      NothingQueued(s, DeleteAlert(s, token, env), inbox);
    }
  }

  lemma DeleteAllIff(s: SchedulerView, inbox: seq<Sent>, tokens: seq<string>, env: Env, parse: TimeParser)
    requires Consistent(s, parse) && InboxOk(s, inbox)
    ensures InboxOk(DeleteAlerts(s, tokens, env), inbox) <==>
              (DeleteAlertsOk(s, tokens, env) && s.active.Some? && s.active.value.data.token in tokens ==>
                 !SnoozePending(inbox))
  {
    var t := DeleteAlerts(s, tokens, env);
    QueueHasOwnTokens(s.queue);
    if DeleteAlertsOk(s, tokens, env) {
      DeleteAlertsQueue(s, tokens, env, parse);
      FewerTokens(s, t, inbox);
      InboxKeptIff(s, t, inbox);
      if SnoozePending(inbox) {
        SnoozeFindsActive(s, inbox);
      }
    }
  }

  lemma FocusIff(s: SchedulerView, inbox: seq<Sent>, focus: FocusState, env: Env)
    requires InboxOk(s, inbox)
    ensures InboxOk(UpdateFocus(s, focus, env), inbox) <==>
              (focus == NoFocus && s.focus != NoFocus ==> StopsCalmly(System(s, inbox)))
  {
    var t := UpdateFocus(s, focus, env);
    QueueHasOwnTokens(s.queue);
    if s.focus == focus {
    } else if focus == NoFocus {
      DeactivationIff(s.(focus := focus), inbox, LocalStop);
      NothingQueued(s, s.(focus := focus), inbox);
    } else if s.active.None? {
      if SnoozePending(inbox) {
        SnoozeFindsActive(s, inbox);
      }
      if s.queue != [] {
        ActivateNextFrame(s.(focus := focus), env);
        assert s.queue == [s.queue[0]] + s.queue[1..];
      }
      NothingQueued(s, t, inbox);
    } else {
      FocusFrame(s.active.value, focus);
      if SnoozePending(inbox) {
        SnoozeFindsActive(s, inbox);
        assert SetFocusState(s.active.value, focus).control.hasTimerExpired == s.active.value.control.hasTimerExpired;
      }
      NothingQueued(s, t, inbox);
    }
  }

  lemma ClearIff(s: SchedulerView, inbox: seq<Sent>, reason: StopReason, env: Env)
    requires InboxOk(s, inbox)
    ensures InboxOk(ClearData(s, reason, env), inbox) <==> StopsCalmly(System(s, inbox))
  {
    var t := ClearData(s, reason, env);
    NotifyDeletedFrame(StopTimer(DeactivateActive(s, reason)), s.queue);
    FewerTokens(s, t, inbox);
    InboxKeptIff(s, t, inbox);
    if SnoozePending(inbox) {
      SnoozeFindsActive(s, inbox);
    }
  }

  // ----------------------------------------------------------------- callbacks

  lemma OneReport(inbox: seq<Sent>, out: seq<Sent>)
    requires |out| <= 1
    ensures inbox + out == if out == [] then inbox else inbox + [out[0]]
  {
  }

  lemma ActiveCallbackIff(s: SchedulerView, inbox: seq<Sent>, c: Callback, parse: TimeParser)
    requires Consistent(s, parse) && InboxOk(s, inbox) && s.active.Some?
    ensures var a := s.active.value;
            InboxOk(s.(active := Some(CallBack(a, c))), inbox + Reports(a, c)) <==>
              (ReportsSnooze(a, c) ==> !DropPending(s, inbox))
  {
    var a := s.active.value;
    var b, out := CallBack(a, c), Reports(a, c);
    var t := s.(active := Some(b));
    CallbackFrame(a, c);
    CallbackReports(a, c);
    CallbackRests(a, c);
    if SnoozePending(inbox) {
      SnoozeFindsActive(s, inbox);
    }
    QueueHasOwnTokens(s.queue);
    NothingQueued(s, t, inbox);
    OneReport(inbox, out);
    if out != [] {
      AppendIff(t, inbox, out[0]);
      if Resting(b) && Resting(a) {
        SameDrops(s, t, inbox);
      }
      StopsAreDrops(s, inbox);
      DropsByToken(s, t, inbox);
    }
  }

  lemma DropsByToken(s: SchedulerView, t: SchedulerView, inbox: seq<Sent>)
    requires s.active.Some? && t.active.Some? && t.active.value.data.token == s.active.value.data.token
    ensures DropPending(s, inbox) <==> DropPending(t, inbox)
  {
    assert forall n: Sent :: Drops(s, n) <==> Drops(t, n);
  }

  lemma StopsAreDrops(s: SchedulerView, inbox: seq<Sent>)
    requires s.active.Some?
    ensures StopPending(inbox, s.active.value.data.token) ==> DropPending(s, inbox)
  {
    if StopPending(inbox, s.active.value.data.token) {
      var i :| 0 <= i < |inbox| && inbox[i].state == HasStopped && inbox[i].token == s.active.value.data.token;
      assert Drops(s, inbox[i]);
    }
  }

  lemma QueuedCallbackIff(s: SchedulerView, inbox: seq<Sent>, i: nat, c: Callback, parse: TimeParser)
    requires Consistent(s, parse) && InboxOk(s, inbox) && i < |s.queue|
    ensures var a := s.queue[i];
            InboxOk(s.(queue := s.queue[i := CallBack(a, c)]), inbox + Reports(a, c)) <==>
              !ReportsSnooze(a, c) && !ReportsStop(a, c)
  {
    var a := s.queue[i];
    var b, out := CallBack(a, c), Reports(a, c);
    var t := s.(queue := s.queue[i := b]);
    CallbackFrame(a, c);
    CallbackReports(a, c);
    ReplaceSorted(s.queue, i, b);
    assert a in s.queue && t.queue[i] == b && b in t.queue;
    forall x | x in t.queue
      ensures !NoToken(s.queue, x.data.token)
    {
      assert x == b || x in s.queue;
    }
    NothingQueued(s, t, inbox);
    OneReport(inbox, out);
    if out != [] {
      AppendIff(t, inbox, out[0]);
      assert !NoToken(t.queue, out[0].token) && !IsActiveToken(t, out[0].token);
    }
  }

  lemma LateCallbackIff(s: SchedulerView, inbox: seq<Sent>, a: AlertView, c: Callback)
    requires InboxOk(s, inbox)
    ensures InboxOk(s, inbox + Reports(a, c)) <==> forall n :: n in Reports(a, c) ==> Fits(s, inbox, n)
  {
    var out := Reports(a, c);
    CallbackReports(a, c);
    OneReport(inbox, out);
    if out != [] {
      AppendIff(s, inbox, out[0]);
      assert out[0] in out;
      assert forall n :: n in out ==> n == out[0];
    }
  }

  // ------------------------------------------------------------------- handling

  lemma HandledInbox(s: SchedulerView, inbox: seq<Sent>, env: Env, parse: TimeParser)
    requires Consistent(s, parse) && InboxOk(s, inbox) && inbox != []
    requires inbox[0].state == HasSnoozed ==> s.active.Some?
    ensures InboxOk(OnAlertStateChange(s, inbox[0], env), inbox[1..])
  {
    var n, tail := inbox[0], inbox[1..];
    var t := OnAlertStateChange(s, n, env);
    TailOk(s, inbox);
    QueueHasOwnTokens(s.queue);
    if SnoozePending(tail) {
      SnoozeFindsActive(s, tail);
    }
    match n.state
    case HasSnoozed => HandledSnooze(s, inbox, env, parse);
    case HasStopped =>
      StoppedOnlyDrops(s, n, env);
      StoppedActive(s, n, env);
      NothingQueued(s, t, tail);
    case HasCompleted =>
      CompletedOnlyDrops(s, n, env);
      CompletedActive(s, n, env);
      NothingQueued(s, t, tail);
    case Failed =>
      ErrorOnlyDrops(s, n, env);
      FailedActive(s, n, env);
      NothingQueued(s, t, tail);
    case _ => NothingQueued(s, t, tail);
  }

  lemma FailedActive(s: SchedulerView, n: Sent, env: Env)
    ensures OnError(s, n, env).active == if IsActiveToken(s, n.token) then None else s.active
  {
    if IsActiveToken(s, n.token) {
      SetTimerFrame(DropActive(s, env), env);
    } else if Queued(s, n.token).Some? {
      var a := Queued(s, n.token).value;
      EraseAlertFrame(s, a, env);
      SetTimerFrame(EraseAlert(s, a, env).(queue := Remove(s.queue, a)), env);
    }
  }

  lemma HandledSnooze(s: SchedulerView, inbox: seq<Sent>, env: Env, parse: TimeParser)
    requires Consistent(s, parse) && InboxOk(s, inbox) && inbox != []
    requires inbox[0].state == HasSnoozed && s.active.Some?
    ensures InboxOk(OnSnoozed(s, inbox[0], env), inbox[1..])
  {
    var n, tail, a := inbox[0], inbox[1..], s.active.value;
    var t := OnSnoozed(s, n, env);
    TailOk(s, inbox);
    var u := ModifyAlert(s, a, env);
    SetTimerFrame(u.(queue := Insert(u.queue, a), active := None, sent := u.sent + [n]), env);
    InsertNew(s.queue, a);
    assert IsActiveToken(s, inbox[0].token);
    forall i | 0 <= i < |tail| && tail[i].state == HasStopped
      ensures NoToken(t.queue, tail[i].token)
    {
      assert NoToken(s.queue, tail[i].token);
      assert StopPending(tail, tail[i].token);
    }
    InboxKeptIff(s, t, tail);
  }

  // ------------------------------------------------------------------- theorems

  /** No handled SNOOZED runs into a null pointer. */
  lemma GoodSurvives(x: System, e: Event, parse: TimeParser)
    requires Good(x, parse)
    ensures Survives(x, e)
  {
    if e.TakeNote? && x.inbox != [] && x.inbox[0].state == HasSnoozed {
      assert IsActiveToken(x.s, x.inbox[0].token);
    }
  }

  lemma DirectiveInboxIff(x: System, e: Event, env: Env, parse: TimeParser)
    requires Good(x, parse) && Occurs(x, e, env, parse) && Survives(x, e)
    requires e.SetAlertDirective? || e.SnoozeCall? || e.ScheduleCall?
    ensures InboxOk(Next(x, e, env, parse).s, x.inbox) <==> Orderly(x, e, env, parse)
  {
    match e
    case SetAlertDirective(_, _, a) => SetAlertIff(x.s, x.inbox, a, env, parse);
    case SnoozeCall(token, iso) => SnoozeIff(x.s, x.inbox, token, iso, parse);
    case ScheduleCall(_, _, a) => ScheduleIff(x.s, x.inbox, a, env, parse);
  }

  lemma DeletionInboxIff(x: System, e: Event, env: Env, parse: TimeParser)
    requires Good(x, parse) && Occurs(x, e, env, parse) && Survives(x, e)
    requires e.ReloadEvent? || e.DeleteDirective? || e.DeleteAllDirective?
    ensures InboxOk(Next(x, e, env, parse).s, x.inbox) <==> Orderly(x, e, env, parse)
  {
    match e
    case ReloadEvent(shouldSchedule) =>
      if env.now.Some? {
        ReloadIff(x.s, x.inbox, shouldSchedule, env, parse);
      } else {
        QueueHasOwnTokens(x.s.queue);
        NothingQueued(x.s, ReloadAlerts(x.s, shouldSchedule, env, parse), x.inbox);
      }
    case DeleteDirective(token) => DeleteIff(x.s, x.inbox, token, env);
    case DeleteAllDirective(tokens) => DeleteAllIff(x.s, x.inbox, tokens, env, parse);
  }

  lemma StopInboxIff(x: System, e: Event, env: Env, parse: TimeParser)
    requires Good(x, parse) && Occurs(x, e, env, parse) && Survives(x, e)
    requires e.FocusEvent? || e.LocalStopEvent? || e.ClearEvent? || e.TimerEvent?
    ensures InboxOk(Next(x, e, env, parse).s, x.inbox) <==> Orderly(x, e, env, parse)
  {
    match e
    case FocusEvent(focus) => FocusIff(x.s, x.inbox, focus, env);
    case LocalStopEvent => DeactivationIff(x.s, x.inbox, LocalStop);
    case ClearEvent(reason) => ClearIff(x.s, x.inbox, reason, env);
    case TimerEvent =>
      QueueHasOwnTokens(x.s.queue);
      NothingQueued(x.s, OnTimer(x.s), x.inbox);
  }

  lemma CallbackInboxIff(x: System, e: Event, env: Env, parse: TimeParser)
    requires Good(x, parse) && Occurs(x, e, env, parse) && Survives(x, e)
    requires e.ActiveCallback? || e.QueuedCallback? || e.LateCallback? || e.TakeNote?
    ensures var y := Next(x, e, env, parse);
            InboxOk(y.s, y.inbox) <==> Orderly(x, e, env, parse)
  {
    match e
    case ActiveCallback(c) => ActiveCallbackIff(x.s, x.inbox, c, parse);
    case QueuedCallback(i, c) => QueuedCallbackIff(x.s, x.inbox, i, c, parse);
    case LateCallback(a, c) => LateCallbackIff(x.s, x.inbox, a, c);
    case TakeNote => HandledInbox(x.s, x.inbox, env, parse);
  }

  predicate LeavesInbox(e: Event) {
    !e.ActiveCallback? && !e.QueuedCallback? && !e.LateCallback? && !e.TakeNote?
  }

  lemma InboxLeft(x: System, e: Event, env: Env, parse: TimeParser)
    requires Occurs(x, e, env, parse) && Survives(x, e) && LeavesInbox(e)
    ensures Next(x, e, env, parse).inbox == x.inbox
  {
  }

  /** The waiting notifications stay in order exactly when the event is orderly. */
  lemma InboxIff(x: System, e: Event, env: Env, parse: TimeParser)
    requires Good(x, parse) && Occurs(x, e, env, parse) && Survives(x, e)
    ensures var y := Next(x, e, env, parse);
            InboxOk(y.s, y.inbox) <==> Orderly(x, e, env, parse)
  {
    if LeavesInbox(e) {
      InboxLeft(x, e, env, parse);
      if e.SetAlertDirective? || e.SnoozeCall? || e.ScheduleCall? {
        DirectiveInboxIff(x, e, env, parse);
      } else if e.ReloadEvent? || e.DeleteDirective? || e.DeleteAllDirective? {
        DeletionInboxIff(x, e, env, parse);
      } else {
        StopInboxIff(x, e, env, parse);
      }
    } else {
      CallbackInboxIff(x, e, env, parse);
    }
  }

  lemma NoteGuards(s: SchedulerView, inbox: seq<Sent>, env: Env, parse: TimeParser)
    requires InboxOk(s, inbox) && inbox != [] && Enabled(s, DoNote(inbox[0]), env)
    ensures Safe(s, DoNote(inbox[0]), env, parse) <==>
              (inbox[0].state == HasSnoozed ==> RowTakesTime(s, env))
    ensures Gentle(s, DoNote(inbox[0]), env, parse)
  {
    QueuedProperties(s, inbox[0].token);
  }

  /** An event other than a late callback is an operation of the scheduler. */
  lemma EventIsStep(x: System, e: Event, env: Env, parse: TimeParser)
    requires Occurs(x, e, env, parse) && Survives(x, e) && !e.LateCallback?
    ensures Enabled(x.s, Underlying(x, e).value, env)
    ensures Next(x, e, env, parse).s == Step(x.s, Underlying(x, e).value, env, parse)
  {
  }

  lemma CallIsSafe(x: System, e: Event, env: Env, parse: TimeParser)
    requires Occurs(x, e, env, parse) && (e.SetAlertDirective? || e.ScheduleCall?)
    ensures Enabled(x.s, Underlying(x, e).value, env)
    ensures Safe(x.s, Underlying(x, e).value, env, parse) && Gentle(x.s, Underlying(x, e).value, env, parse)
  {
  }

  /** An event meets the guards of its operation exactly when it meets its own. */
  lemma GuardIff(x: System, e: Event, env: Env, parse: TimeParser)
    requires Good(x, parse) && Occurs(x, e, env, parse) && Survives(x, e) && !e.LateCallback?
    requires Enabled(x.s, Underlying(x, e).value, env)
    ensures MeetsGuard(x, e, env, parse) <==>
              Safe(x.s, Underlying(x, e).value, env, parse) && Gentle(x.s, Underlying(x, e).value, env, parse)
  {
    if e.TakeNote? {
      NoteGuards(x.s, x.inbox, env, parse);
    } else if e.SetAlertDirective? || e.ScheduleCall? {
      CallIsSafe(x, e, env, parse);
    }
  }

  lemma InvariantIff(x: System, e: Event, env: Env, parse: TimeParser)
    requires Good(x, parse) && Occurs(x, e, env, parse) && Survives(x, e) && Working(env)
    ensures Invariant(Next(x, e, env, parse).s, parse) <==> MeetsGuard(x, e, env, parse)
  {
    if !e.LateCallback? {
      EventIsStep(x, e, env, parse);
      GuardIff(x, e, env, parse);
      StepInvariantIff(x.s, Underlying(x, e).value, env, parse);
    }
  }

  lemma StepInvariantIff(s: SchedulerView, op: Op, env: Env, parse: TimeParser)
    requires Invariant(s, parse) && Enabled(s, op, env) && Working(env)
    ensures Invariant(Step(s, op, env, parse), parse) <==> Safe(s, op, env, parse) && Gentle(s, op, env, parse)
  {
    StepKeepsConsistencyIff(s, op, env, parse);
    StepKeepsQuietIff(s, op, env, parse);
    StepKeepsFocusAgreement(s, op, env, parse);
    StepLosesNoWakeup(s, op, env, parse);
  }

  /** Every event keeps the scheduler's invariant and the order of the waiting notifications exactly when it is
      calm, and runs into no null pointer. */
  lemma EventKeepsGoodIff(x: System, e: Event, env: Env, parse: TimeParser)
    requires Good(x, parse) && Occurs(x, e, env, parse) && Working(env)
    ensures Survives(x, e) && (Good(Next(x, e, env, parse), parse) <==> Calm(x, e, env, parse))
  {
    GoodSurvives(x, e, parse);
    InboxIff(x, e, env, parse);
    InvariantIff(x, e, env, parse);
  }

  datatype Happening = Happening(event: Event, env: Env)

  /** A run whose events are possible and, as far as it survives, calm. */
  ghost predicate Calmly(x: System, run: seq<Happening>, parse: TimeParser)
    decreases |run|
  {
    run == [] ||
    (var h := run[0];
     && Occurs(x, h.event, h.env, parse) && Working(h.env)
     && (Survives(x, h.event) ==>
           Calm(x, h.event, h.env, parse) && Calmly(Next(x, h.event, h.env, parse), run[1..], parse)))
  }

  ghost predicate SurvivesAll(x: System, run: seq<Happening>, parse: TimeParser)
    decreases |run|
  {
    run == [] ||
    (var h := run[0];
     && Occurs(x, h.event, h.env, parse) && Survives(x, h.event)
     && SurvivesAll(Next(x, h.event, h.env, parse), run[1..], parse))
  }

  ghost function After(x: System, run: seq<Happening>, parse: TimeParser): System
    requires SurvivesAll(x, run, parse)
    decreases |run|
  {
    if run == [] then x else After(Next(x, run[0].event, run[0].env, parse), run[1..], parse)
  }

  /** A calm run never meets a null pointer, and every state it reaches satisfies the scheduler's invariant,
      although nothing is assumed of the notifications it handles. */
  lemma {:induction false} CalmRunKeepsGood(x: System, run: seq<Happening>, parse: TimeParser)
    requires Good(x, parse) && Calmly(x, run, parse)
    ensures SurvivesAll(x, run, parse) && Good(After(x, run, parse), parse)
    decreases |run|
  {
    if run != [] {
      EventKeepsGoodIff(x, run[0].event, run[0].env, parse);
      CalmRunKeepsGood(Next(x, run[0].event, run[0].env, parse), run[1..], parse);
    }
  }

  lemma InitiallyGood(rows: Rows, limit: int, parse: TimeParser)
    requires RowsOk(rows, parse) && QuietRows(rows)
    ensures Good(System(InitialView(rows, limit), []), parse)
  {
    InitialInvariant(rows, limit, parse);
  }
}
