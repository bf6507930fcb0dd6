/** Runs on which the guards of the scheduler's theorems fail, each reached from a state in which everything is in
    order. */
module SchedulerFailures {
  import opened AlertTypes
  import opened AlertLifecycle
  import opened AlertObject
  import opened AlertRecords
  import opened AlertQueue
  import opened SchedulerModel
  import opened SchedulerConsistency
  import opened SchedulerUpdates
  import opened SchedulerMirror
  import opened SchedulerPopulation
  import opened ClosedScheduler
  import Agent = AlertsCapabilityAgent

  const STOP := Rendered(RendererStopped, "")

  lemma RunOne(x: System, h: Happening, rest: seq<Happening>, parse: TimeParser)
    requires Occurs(x, h.event, h.env, parse) && Survives(x, h.event)
    requires SurvivesAll(Next(x, h.event, h.env, parse), rest, parse)
    ensures SurvivesAll(x, [h] + rest, parse)
    ensures After(x, [h] + rest, parse) == After(Next(x, h.event, h.env, parse), rest, parse)
  {
    assert ([h] + rest)[1..] == rest;
  }

  // -------------------------------------------------- a stop behind a snooze

  /** The active alert once it is snoozed and stopped by the renderer, then stopped locally, then stopped by the
      renderer again. */
  function NowSnoozed(a: AlertView, iso: string, parse: TimeParser): AlertView {
    OnRendererStopped(Snooze(a, iso, parse))
  }

  function ThenStopping(a: AlertView, iso: string, parse: TimeParser): AlertView {
    Deactivate(NowSnoozed(a, iso, parse), LocalStop)
  }

  function ThenStopped(a: AlertView, iso: string, parse: TimeParser): AlertView {
    OnRendererStopped(ThenStopping(a, iso, parse))
  }

  lemma SnoozedPart(a: AlertView, iso: string, parse: TimeParser)
    requires a.wiring.hasObserver && !a.control.hasTimerExpired && parse(iso).Some?
    ensures var a1, a2 := Snooze(a, iso, parse), NowSnoozed(a, iso, parse);
            && a2.control == a1.control.(state := Snoozed) && a2.data == a.data && a2.content == a1.content
            && a1.content.timePoint == TimePoint(iso, parse(iso).value)
            && a2.wiring.hasObserver && a2.wiring.hasRenderer == a.wiring.hasRenderer
            && Reports(a1, STOP) == [Sent(a.data.token, a.data.alertType, HasSnoozed, "")]
            && CallBack(a1, STOP) == a2
  {
    var a1 := Snooze(a, iso, parse);
    NotifyReports(a1, WithState(a1, Snoozed), HasSnoozed, "");
  }

  lemma StoppedPart(a: AlertView)
    requires a.wiring.hasObserver && !a.control.hasTimerExpired
    ensures var a1 := Deactivate(a, LocalStop);
            var a2 := OnRendererStopped(a1);
            && a2.data == a.data && a2.content == a.content && a2.wiring.hasRenderer == a.wiring.hasRenderer
            && Reports(a1, STOP) == [Sent(a.data.token, a.data.alertType, HasStopped, StopReasonText(LocalStop))]
            && CallBack(a1, STOP) == a2
  {
    var a1 := Deactivate(a, LocalStop);
    NotifyReports(a1, WithState(a1, Stopped), HasStopped, StopReasonText(LocalStop));
  }

  function SnoozeNote(a: AlertView): Sent {
    Sent(a.data.token, a.data.alertType, HasSnoozed, "")
  }

  function StopNote(a: AlertView): Sent {
    Sent(a.data.token, a.data.alertType, HasStopped, StopReasonText(LocalStop))
  }

  /** Handling the two notifications, the snooze first: the alert is requeued, and then loses its row. */
  lemma HandledInOrder(s: SchedulerView, a: AlertView, env: Env, parse: TimeParser)
    requires Consistent(s, parse) && s.active == Some(a) && env.disk(a.data.token)
    ensures var t := OnSnoozed(s, SnoozeNote(a), env);
            && Consistent(t, parse) && !NoToken(t.queue, a.data.token)
            && !Consistent(OnStopped(t, StopNote(a), env), parse)
  {
    var t := OnSnoozed(s, SnoozeNote(a), env);
    SnoozedKeepsIff(s, SnoozeNote(a), env, parse);
    var u := ModifyAlert(s, a, env);
    SetTimerFrame(u.(queue := Insert(u.queue, a), active := None, sent := u.sent + [SnoozeNote(a)]), env);
    InsertNew(s.queue, a);
    assert a in t.queue && t.active == None;
    QueuedProperties(t, a.data.token);
    StoppedKeepsIff(t, StopNote(a), env, parse);
  }

  function FirstFour(payload: AlertPayload, alertType: string, d: AlertView, env: Env): seq<Happening> {
    [Happening(SetAlertDirective(payload, alertType, d), env)] + ([Happening(ActiveCallback(STOP), env)] +
      ([Happening(LocalStopEvent, env)] + [Happening(ActiveCallback(STOP), env)]))
  }

  /** A ringing alert is snoozed, the renderer stops, a local stop follows, the renderer stops again: the alert
      has sent SNOOZED and then STOPPED. */
  lemma StopBehindSnooze(x: System, payload: AlertPayload, alertType: string, d: AlertView, env: Env, parse: TimeParser)
    requires x.inbox == [] && Agent.ParsedFrom(payload, alertType, d, parse)
    requires Agent.IsRinging(x.s, d.data.token)
    requires x.s.active.value.wiring.hasObserver && !x.s.active.value.control.hasTimerExpired
    ensures var run := FirstFour(payload, alertType, d, env);
            && SurvivesAll(x, run, parse)
            && var a := x.s.active.value;
               After(x, run, parse) == System(x.s.(active := Some(ThenStopped(a, d.content.timePoint.iso, parse))),
                                              [SnoozeNote(a), StopNote(a)])
  {
    var a, iso := x.s.active.value, d.content.timePoint.iso;
    var h1, h2 := Happening(SetAlertDirective(payload, alertType, d), env), Happening(ActiveCallback(STOP), env);
    var h3 := Happening(LocalStopEvent, env);
    SnoozedPart(a, iso, parse);
    var x1 := System(x.s.(active := Some(Snooze(a, iso, parse))), []);
    var x2 := System(x.s.(active := Some(NowSnoozed(a, iso, parse))), [SnoozeNote(a)]);
    assert Next(x, h1.event, env, parse) == x1;
    assert Next(x1, h2.event, env, parse) == x2;
    StoppedLocally(x2, NowSnoozed(a, iso, parse), env, parse);
    RunOne(x1, h2, [h3] + [h2], parse);
    RunOne(x, h1, [h2] + ([h3] + [h2]), parse);
  }

  lemma StoppedLocally(x: System, a: AlertView, env: Env, parse: TimeParser)
    requires x.s.active == Some(a) && a.wiring.hasObserver && !a.control.hasTimerExpired
    requires x.inbox == [SnoozeNote(a)]
    ensures var run := [Happening(LocalStopEvent, env)] + [Happening(ActiveCallback(STOP), env)];
            && SurvivesAll(x, run, parse)
            && After(x, run, parse) == System(x.s.(active := Some(OnRendererStopped(Deactivate(a, LocalStop)))),
                                              [SnoozeNote(a), StopNote(a)])
  {
    var h1, h2 := Happening(LocalStopEvent, env), Happening(ActiveCallback(STOP), env);
    var a1 := Deactivate(a, LocalStop);
    StoppedPart(a);
    var x1 := System(x.s.(active := Some(a1)), x.inbox);
    var x2 := System(x.s.(active := Some(OnRendererStopped(a1))), [SnoozeNote(a), StopNote(a)]);
    assert Next(x, h1.event, env, parse) == x1;
    assert [SnoozeNote(a)] + [StopNote(a)] == [SnoozeNote(a), StopNote(a)];
    assert Next(x1, h2.event, env, parse) == x2;
    assert SurvivesAll(x2, [], parse) && After(x2, [], parse) == x2;
    assert [h2] + [] == [h2];
    RunOne(x1, h2, [], parse);
    RunOne(x, h1, [h2], parse);
  }

  /** Handled in the order in which they were sent, the two notifications leave the alert queued without a row:
      the state is still in order after the first and no longer after the second. */
  lemma LocalStopBehindSnoozeStrands(x: System, payload: AlertPayload, alertType: string, d: AlertView, env: Env,
                                     parse: TimeParser)
    requires Good(x, parse) && x.inbox == [] && Agent.ParsedFrom(payload, alertType, d, parse)
    requires Agent.IsRinging(x.s, d.data.token) && env.disk(d.data.token)
    requires x.s.active.value.wiring.hasObserver && !x.s.active.value.control.hasTimerExpired
    ensures SurvivesAll(x, FirstFour(payload, alertType, d, env), parse)
    ensures var x4 := After(x, FirstFour(payload, alertType, d, env), parse);
            && Survives(x4, TakeNote) && x4.inbox != []
            && var x5 := Next(x4, TakeNote, env, parse);
               && Consistent(x5.s, parse) && Survives(x5, TakeNote) && x5.inbox != []
               && !Consistent(Next(x5, TakeNote, env, parse).s, parse)
  {
    var a, iso := x.s.active.value, d.content.timePoint.iso;
    StopBehindSnooze(x, payload, alertType, d, env, parse);
    StoppedAlert(a, iso, parse);
    ActiveReplaced(x.s, ThenStopped(a, iso, parse), parse);
    BothHandled(x.s.(active := Some(ThenStopped(a, iso, parse))), ThenStopped(a, iso, parse), env, parse);
  }

  lemma StoppedAlert(a: AlertView, iso: string, parse: TimeParser)
    requires a.wiring.hasObserver && !a.control.hasTimerExpired && parse(iso).Some?
    ensures var b := ThenStopped(a, iso, parse);
            && b.data == a.data && b.content.timePoint == TimePoint(iso, parse(iso).value)
            && b.wiring.hasRenderer == a.wiring.hasRenderer
            && SnoozeNote(b) == SnoozeNote(a) && StopNote(b) == StopNote(a)
  {
    SnoozedPart(a, iso, parse);
    StoppedPart(NowSnoozed(a, iso, parse));
  }

  lemma ActiveReplaced(s: SchedulerView, b: AlertView, parse: TimeParser)
    requires Consistent(s, parse) && s.active.Some? && b.data == s.active.value.data
    requires b.wiring.hasRenderer == s.active.value.wiring.hasRenderer && Coherent(b.content.timePoint, parse)
    ensures Consistent(s.(active := Some(b)), parse)
  {
  }

  lemma BothHandled(s: SchedulerView, a: AlertView, env: Env, parse: TimeParser)
    requires Consistent(s, parse) && s.active == Some(a) && env.disk(a.data.token)
    ensures var x := System(s, [SnoozeNote(a), StopNote(a)]);
            && Survives(x, TakeNote)
            && var y := Next(x, TakeNote, env, parse);
               && Consistent(y.s, parse) && Survives(y, TakeNote) && y.inbox != []
               && !Consistent(Next(y, TakeNote, env, parse).s, parse)
  {
    HandledInOrder(s, a, env, parse);
    assert [SnoozeNote(a), StopNote(a)][1..] == [StopNote(a)];
    SnoozeTaken(System(s, [SnoozeNote(a), StopNote(a)]), env, parse);
    StopTaken(System(OnSnoozed(s, SnoozeNote(a), env), [StopNote(a)]), env, parse);
  }

  lemma SnoozeTaken(x: System, env: Env, parse: TimeParser)
    requires x.inbox != [] && x.inbox[0].state == HasSnoozed && x.s.active.Some?
    ensures Next(x, TakeNote, env, parse) == System(OnSnoozed(x.s, x.inbox[0], env), x.inbox[1..])
  {
  }

  lemma StopTaken(x: System, env: Env, parse: TimeParser)
    requires x.inbox != [] && x.inbox[0].state == HasStopped
    ensures Survives(x, TakeNote)
    ensures Next(x, TakeNote, env, parse) == System(OnStopped(x.s, x.inbox[0], env), x.inbox[1..])
  {
  }

  // ------------------------------------------------- a snooze behind an error

  function ErrorNote(a: AlertView, reason: string): Sent {
    Sent(a.data.token, a.data.alertType, Failed, reason)
  }

  /** A rendering failure that is not retried is reported and leaves the alert ringing. */
  predicate ReportsError(a: AlertView) {
    Ringing(a) && a.wiring.hasObserver && (a.content.assets.assetPlayOrderItems == [] || a.control.hasRenderingFailed)
  }

  lemma ErrorPart(a: AlertView, reason: string)
    requires ReportsError(a)
    ensures var b := Notify(a, Failed, reason);
            && CallBack(a, Rendered(RendererError, reason)) == b
            && Reports(a, Rendered(RendererError, reason)) == [ErrorNote(a, reason)]
            && b.data == a.data && b.content == a.content && b.control == a.control && b.wiring.hasObserver
  {
    NotifyReports(a, a, Failed, reason);
  }

  /** The alert fails, is snoozed before the failure is handled, and the renderer stops. */
  lemma SnoozeBehindError(x: System, reason: string, payload: AlertPayload, alertType: string, d: AlertView, env: Env,
                          parse: TimeParser)
    requires x.inbox == [] && Agent.ParsedFrom(payload, alertType, d, parse)
    requires Agent.IsRinging(x.s, d.data.token) && ReportsError(x.s.active.value)
    requires !x.s.active.value.control.hasTimerExpired
    ensures var a := x.s.active.value;
            var run := [Happening(ActiveCallback(Rendered(RendererError, reason)), env)] +
                       ([Happening(SetAlertDirective(payload, alertType, d), env)] + [Happening(ActiveCallback(STOP), env)]);
            && SurvivesAll(x, run, parse)
            && After(x, run, parse).inbox == [ErrorNote(a, reason), SnoozeNote(a)]
            && IsActiveToken(After(x, run, parse).s, a.data.token)
  {
    var a, iso := x.s.active.value, d.content.timePoint.iso;
    var b := Notify(a, Failed, reason);
    var h1 := Happening(ActiveCallback(Rendered(RendererError, reason)), env);
    var h2, h3 := Happening(SetAlertDirective(payload, alertType, d), env), Happening(ActiveCallback(STOP), env);
    ErrorPart(a, reason);
    SnoozedPart(b, iso, parse);
    var x1 := System(x.s.(active := Some(b)), [ErrorNote(a, reason)]);
    var x2 := System(x.s.(active := Some(Snooze(b, iso, parse))), [ErrorNote(a, reason)]);
    var x3 := System(x.s.(active := Some(NowSnoozed(b, iso, parse))), [ErrorNote(a, reason), SnoozeNote(a)]);
    assert Next(x, h1.event, env, parse) == x1;
    assert Next(x1, h2.event, env, parse) == x2;
    assert [ErrorNote(a, reason)] + [SnoozeNote(a)] == [ErrorNote(a, reason), SnoozeNote(a)];
    assert Next(x2, h3.event, env, parse) == x3;
    assert SurvivesAll(x3, [], parse) && After(x3, [], parse) == x3;
    assert [h3] + [] == [h3];
    RunOne(x2, h3, [], parse);
    RunOne(x1, h2, [h3], parse);
    RunOne(x, h1, [h2] + [h3], parse);
  }

  /** Handling the failure lets the alert go, and handling the snooze then finds no active alert. */
  lemma SnoozeBehindErrorFindsNothing(x: System, reason: string, a: AlertView, env: Env, parse: TimeParser)
    requires x.inbox == [ErrorNote(a, reason), SnoozeNote(a)] && IsActiveToken(x.s, a.data.token)
    ensures Survives(x, TakeNote)
    ensures var y := Next(x, TakeNote, env, parse);
            Occurs(y, TakeNote, env, parse) && !Survives(y, TakeNote)
  {
    FailedActive(x.s, x.inbox[0], env);
    assert x.inbox[1..] == [SnoozeNote(a)];
    ErrorTaken(x, env, parse);
  }

  lemma ErrorTaken(x: System, env: Env, parse: TimeParser)
    requires x.inbox != [] && x.inbox[0].state == Failed
    ensures Survives(x, TakeNote)
    ensures Next(x, TakeNote, env, parse) == System(OnError(x.s, x.inbox[0], env), x.inbox[1..])
  {
    assert OnAlertStateChange(x.s, x.inbox[0], env) == OnError(x.s, x.inbox[0], env);
  }

  // ------------------------------------------------------- the other guards

  /** A bulk deletion of the active alert while its SNOOZED waits: the handler then finds no active alert. */
  lemma DeleteAllBehindSnoozeFindsNothing(x: System, tokens: seq<string>, env: Env, parse: TimeParser)
    requires Good(x, parse) && x.inbox != [] && x.inbox[0].state == HasSnoozed
    requires DeleteAlertsOk(x.s, tokens, env) && x.inbox[0].token in tokens
    ensures var y := Next(x, DeleteAllDirective(tokens), env, parse);
            Occurs(y, TakeNote, env, parse) && !Survives(y, TakeNote)
  {
    assert IsActiveToken(x.s, x.inbox[0].token);
    DeleteAlertsQueue(x.s, tokens, env, parse);
  }

  /** A reload without scheduling, of a table that loads completely, queues the active alert's token as well. */
  lemma UnscheduledReloadQueuesActive(s: SchedulerView, env: Env, parse: TimeParser)
    requires Consistent(s, parse) && s.active.Some? && env.now.Some? && IsFullScan(s.rows, env.scan)
    requires forall id :: id in s.rows ==> Loadable(s.rows[id])
    ensures var t := ReloadAlerts(s, false, env, parse);
            IsActiveToken(t, s.active.value.data.token) && !NoToken(t.queue, s.active.value.data.token)
            && !Consistent(t, parse)
  {
    var a := s.active.value;
    LoadIsCompleteIff(s.rows, env.scan, parse);
    var b := AlertOf(a.data.dbId, s.rows[a.data.dbId], parse);
    assert b in LoadRows(s.rows, env.scan, parse) && b.data.token == a.data.token;
    assert LoadsActive(s, env, parse);
    ReloadKeepsIff(s, false, env, parse);
    ReloadedTokens(s, false, env, parse, a.data.token);
    var i :| 0 <= i < |LoadRows(s.rows, env.scan, parse)| && LoadRows(s.rows, env.scan, parse)[i] == b;
    assert Queues(s, LoadRows(s.rows, env.scan, parse), false, env.now.value, a.data.token);
  }

  /** A snooze to another time that the disk does not take: the queued alert and its row have different times. */
  lemma UnstoredSnoozeDisagrees(s: SchedulerView, iso: string, note: Sent, env: Env, parse: TimeParser)
    requires Consistent(s, parse) && s.active.Some? && Backed(s.rows, s.active.value)
    requires parse(iso).Some? && TimePoint(iso, parse(iso).value) != s.active.value.content.timePoint
    requires !env.disk(s.active.value.data.token)
    ensures var t := SnoozeAlert(s, s.active.value.data.token, iso, parse);
            Consistent(t, parse) && t.active.Some? && !Consistent(OnSnoozed(t, note, env), parse)
  {
    var t := SnoozeAlert(s, s.active.value.data.token, iso, parse);
    SnoozedKeepsIff(t, note, env, parse);
  }

  /** A successful update with other assets: the row takes the new time and keeps the old assets, and these are
      what the next load brings back. */
  lemma UpdatedAssetsAreLost(s: SchedulerView, a: AlertView, iso: string, c: AssetConfiguration, env: Env,
                             parse: TimeParser)
    requires Consistent(s, parse) && Mirrored(s) && a in s.queue
    requires UpdateOk(s, a, iso, c, env, parse) && Stored(c) != Stored(a.content.assets)
    ensures var t := UpdateAlert(s, a, iso, c, env, parse);
            && a.data.dbId in t.rows
            && UpdatedAlert(s, a, iso, c, env, parse).content.assets == c
            && !Mirrored(t)
            && var b := AlertOf(a.data.dbId, t.rows[a.data.dbId], parse);
               && b.data.token == a.data.token
               && b.content.timePoint == UpdatedAlert(s, a, iso, c, env, parse).content.timePoint
               && b.content.assets == Stored(a.content.assets) && b.content.assets != Stored(c)
  {
    UpdateIsATransaction(s, a, iso, c, env, parse);
    UpdatedAlertIsAllOrNothing(s, a, iso, c, env, parse);
    assert InMemory(s, a);
    var t, b := UpdateAlert(s, a, iso, c, env, parse), UpdatedAlert(s, a, iso, c, env, parse);
    RekeyedIff(s.rows[a.data.dbId].assets.assets);
    assert InMemory(t, b);
  }
}
