/** The asset maps the program builds, in memory and on record: in each of them every asset lies under its own id,
    but for the empty ones that the indexing operator inserts. */
module SchedulerMaps {
  import opened AlertTypes
  import opened AlertLifecycle
  import opened AlertObject
  import opened AlertRecords
  import opened AlertQueue
  import opened SchedulerModel
  import opened SchedulerConsistency
  import opened SchedulerQuiet
  import opened SchedulerMirror
  import opened ClosedScheduler
  import Agent = AlertsCapabilityAgent
  import AssetParsing

  predicate BuiltAlert(a: AlertView) {
    Built(a.content.assets.assets)
  }

  ghost predicate BuiltQueue(q: seq<AlertView>) {
    forall a :: a in q ==> BuiltAlert(a)
  }

  predicate BuiltRows(rows: Rows) {
    forall id :: id in rows ==> Built(rows[id].assets.assets)
  }

  ghost predicate AllBuilt(s: SchedulerView) {
    BuiltQueue(s.queue) && (s.active.Some? ==> BuiltAlert(s.active.value)) && BuiltRows(s.rows)
  }

  // ------------------------------------------------------------------ sources

  /** An alert that a directive describes has every asset under its own id. */
  lemma ParsedAlertIsBuilt(payload: AlertPayload, alertType: string, a: AlertView, parse: TimeParser)
    requires Agent.ParsedFrom(payload, alertType, a, parse)
    ensures BuiltAlert(a) && UnderOwnIds(a.content.assets.assets)
  {
    if AssetParsing.Acceptable(payload.assets, NO_ASSETS) {
      ParsedIsBuilt(payload.assets, NO_ASSETS, a.content.assets);
    }
  }

  /** So a directive takes the stored assets out of step with memory only by handing a queued alert others. */
  lemma DirectiveDriftsIff(s: SchedulerView, payload: AlertPayload, alertType: string, a: AlertView, env: Env,
                           parse: TimeParser)
    requires Agent.ParsedFrom(payload, alertType, a, parse)
    ensures Drifts(s, DoSchedule(a), env, parse) <==> ChangesAssets(s, a, env, parse)
  {
    ParsedAlertIsBuilt(payload, alertType, a, parse);
  }

  lemma {:induction false} LoadedAreBuilt(rows: Rows, scan: seq<int>, parse: TimeParser)
    requires BuiltRows(rows)
    ensures BuiltQueue(LoadRows(rows, scan, parse))
  {
    if scan != [] && scan[0] in rows && Loadable(rows[scan[0]]) {
      var id: int := scan[0];
      assert id in rows;
      BuiltIsKept(rows[id].assets.assets, []);
      LoadedAreBuilt(rows, scan[1..], parse);
    }
  }

  // --------------------------------------------------------------- operations

  lemma StartedIsBuilt(a: AlertView)
    requires BuiltAlert(a)
    ensures BuiltAlert(StartRenderer(a))
  {
    BuiltIsKept(a.content.assets.assets, RequestedIds(a));
  }

  lemma ActivatedIsBuilt(a: AlertView, focus: FocusState, timerStarts: bool)
    requires BuiltAlert(a)
    ensures BuiltAlert(Activate(SetFocusState(a, focus), timerStarts))
  {
    FocusFrame(a, focus);
    if !Ringing(a) {
      StartedIsBuilt(BeginActivation(SetFocusState(a, focus), timerStarts));
    }
  }

  lemma CallbackIsBuilt(a: AlertView, c: Callback)
    requires BuiltAlert(a)
    ensures BuiltAlert(CallBack(a, c))
  {
    match c
    case Rendered(event, reason) => EventContent(a, event, reason);
    case DelayedRestart =>
      if a.control.pendingRestarts > 0 {
        StartedIsBuilt(TakeRestart(a));
      }
    case _ =>
  }

  lemma UpdatedIsBuilt(s: SchedulerView, a: AlertView, iso: string, c: AssetConfiguration, env: Env,
                       parse: TimeParser)
    requires BuiltAlert(a) && Built(c.assets)
    ensures BuiltAlert(UpdatedAlert(s, a, iso, c, env, parse))
  {
    var b := UpdatedAlert(s, a, iso, c, env, parse);
    assert b.content.assets == a.content.assets || b.content.assets == c;
  }

  lemma ReinsertIsBuilt(s: SchedulerView, a: AlertView, env: Env)
    requires AllBuilt(s) && BuiltAlert(a)
    ensures AllBuilt(Reinsert(s, a, env))
  {
    ReinsertFrame(s, a, env);
    InsertMembers(s.queue, a);
  }

  lemma ScheduleIsBuilt(s: SchedulerView, a: AlertView, env: Env, parse: TimeParser)
    requires AllBuilt(s) && BuiltAlert(a)
    ensures AllBuilt(ScheduleAlert(s, a, env, parse))
  {
    QueuedProperties(s, a.data.token);
    if SchedulerModel.Acceptable(s, a, env) {
      match Queued(s, a.data.token)
      case Some(before) =>
        var iso, c := a.content.timePoint.iso, a.content.assets;
        var b := UpdatedAlert(s, before, iso, c, env, parse);
        UpdatedIsBuilt(s, before, iso, c, env, parse);
        RemoveOnlyDrops(s.queue, before);
        var rows := if UpdateOk(s, before, iso, c, env, parse) then Modified(s.rows, b) else s.rows;
        ReinsertIsBuilt(s.(queue := Remove(s.queue, before), rows := rows), b, env);
      case None =>
        var id := NextId(s.rows);
        ReinsertIsBuilt(s.(rows := s.rows[id := RecordOf(a)]), Connect(a.(data := a.data.(dbId := id))), env);
    }
  }

  lemma {:induction false} ReloadAllIsBuilt(s: SchedulerView, alerts: seq<AlertView>, now: int, env: Env)
    requires AllBuilt(s) && BuiltQueue(alerts)
    ensures AllBuilt(ReloadAll(s, alerts, now, env))
  {
    if alerts != [] {
      var n := |alerts| - 1;
      ReloadAllIsBuilt(s, alerts[..n], now, env);
      assert alerts[n] in alerts;
      var t := ReloadAll(s, alerts[..n], now, env);
      ReloadOneFrame(t, alerts[n], now, env);
      InsertMembers(t.queue, Renewed(alerts[n]));
    }
  }

  lemma {:induction false} InsertAllIsBuilt(q: seq<AlertView>, alerts: seq<AlertView>)
    requires BuiltQueue(q) && BuiltQueue(alerts)
    ensures BuiltQueue(InsertAll(q, alerts))
  {
    if alerts != [] {
      var n := |alerts| - 1;
      InsertAllIsBuilt(q, alerts[..n]);
      assert alerts[n] in alerts;
      InsertMembers(InsertAll(q, alerts[..n]), Connect(alerts[n]));
    }
  }

  lemma ReloadIsBuilt(s: SchedulerView, shouldSchedule: bool, env: Env, parse: TimeParser)
    requires AllBuilt(s)
    ensures AllBuilt(ReloadAlerts(s, shouldSchedule, env, parse))
  {
    if env.now.Some? {
      var loaded := LoadRows(s.rows, env.scan, parse);
      LoadedAreBuilt(s.rows, env.scan, parse);
      var s1 := StopTimer(s.(wake := s.wake.(shouldSchedule := shouldSchedule))).(queue := []);
      if shouldSchedule {
        ReloadAllIsBuilt(s1, loaded, env.now.value, env);
        SetTimerFrame(ReloadAll(s1, loaded, env.now.value, env), env);
      } else {
        InsertAllIsBuilt([], loaded);
      }
    }
  }

  lemma DroppedIsBuilt(s: SchedulerView, t: SchedulerView)
    requires AllBuilt(s) && OnlyDrops(s, t)
    ensures AllBuilt(t)
  {
  }

  lemma {:induction false} RemoveAllOnlyDrops(s: SchedulerView, alerts: seq<AlertView>)
    ensures forall x :: x in RemoveAll(s, alerts).queue ==> x in s.queue
  {
    if alerts != [] {
      var n := |alerts| - 1;
      RemoveAllOnlyDrops(s, alerts[..n]);
      RemoveOnlyDrops(RemoveAll(s, alerts[..n]).queue, alerts[n]);
    }
  }

  lemma DeleteAlertsIsBuilt(s: SchedulerView, tokens: seq<string>, env: Env)
    requires AllBuilt(s)
    ensures AllBuilt(DeleteAlerts(s, tokens, env))
  {
    if DeleteAlertsOk(s, tokens, env) {
      var list := Named(s, tokens);
      var t := s.(rows := BulkErased(s.rows, list, env.bulkDisk),
                  active := if s.active.Some? && s.active.value.data.token in tokens then None else s.active);
      if list != [] {
        EraseAllLeaves(s.rows, list);
      }
      RemoveAllOnlyDrops(t, list);
      RemoveAllFrame(t, list);
      SetTimerFrame(RemoveAll(t, list), env);
      DroppedIsBuilt(s, DeleteAlerts(s, tokens, env));
    }
  }

  lemma DeleteIsBuilt(s: SchedulerView, token: string, env: Env)
    requires AllBuilt(s)
    ensures AllBuilt(DeleteAlert(s, token, env))
  {
    if !IsActiveToken(s, token) && Queued(s, token).Some? {
      EraseQueuedOnlyDrops(s, Queued(s, token).value, env);
      DroppedIsBuilt(s, DeleteAlert(s, token, env));
    }
  }

  lemma FocusIsBuilt(s: SchedulerView, focus: FocusState, env: Env)
    requires AllBuilt(s)
    ensures AllBuilt(UpdateFocus(s, focus, env))
  {
    if s.active.None? && s.queue != [] {
      ActivatedIsBuilt(s.queue[0], focus, env.maxTimerStarts);
    } else if s.active.Some? {
      FocusFrame(s.active.value, focus);
    }
  }

  lemma NoteIsBuilt(s: SchedulerView, n: Sent, env: Env)
    requires AllBuilt(s) && Enabled(s, DoNote(n), env)
    ensures AllBuilt(OnAlertStateChange(s, n, env))
  {
    var t := OnAlertStateChange(s, n, env);
    match n.state
    case HasStopped =>
      StoppedOnlyDrops(s, n, env);
      DroppedIsBuilt(s, t);
    case HasCompleted =>
      CompletedOnlyDrops(s, n, env);
      DroppedIsBuilt(s, t);
    case Failed =>
      ErrorOnlyDrops(s, n, env);
      DroppedIsBuilt(s, t);
    case HasSnoozed =>
      var a := s.active.value;
      var u := ModifyAlert(s, a, env);
      InsertMembers(s.queue, a);
      SetTimerFrame(u.(queue := Insert(u.queue, a), active := None, sent := u.sent + [n]), env);
    case _ =>
  }

  // ------------------------------------------------------------------- theorem

  lemma CallIsBuilt(x: System, e: Event, env: Env, parse: TimeParser)
    requires AllBuilt(x.s) && Occurs(x, e, env, parse) && Survives(x, e)
    requires e.SetAlertDirective? || e.SnoozeCall? || e.ScheduleCall?
    ensures AllBuilt(Next(x, e, env, parse).s)
  {
    match e
    case SetAlertDirective(payload, alertType, a) =>
      ParsedAlertIsBuilt(payload, alertType, a, parse);
      if !Agent.IsRinging(x.s, a.data.token) {
        ScheduleIsBuilt(x.s, a, env, parse);
      }
    case ScheduleCall(payload, alertType, a) =>
      ParsedAlertIsBuilt(payload, alertType, a, parse);
      ScheduleIsBuilt(x.s, a, env, parse);
    case _ =>
  }

  lemma DeletionIsBuilt(x: System, e: Event, env: Env, parse: TimeParser)
    requires AllBuilt(x.s) && Occurs(x, e, env, parse) && Survives(x, e)
    requires e.ReloadEvent? || e.DeleteDirective? || e.DeleteAllDirective? || e.FocusEvent? || e.ClearEvent?
    ensures AllBuilt(Next(x, e, env, parse).s)
  {
    match e
    case ReloadEvent(shouldSchedule) => ReloadIsBuilt(x.s, shouldSchedule, env, parse);
    case DeleteDirective(token) => DeleteIsBuilt(x.s, token, env);
    case DeleteAllDirective(tokens) => DeleteAlertsIsBuilt(x.s, tokens, env);
    case FocusEvent(focus) => FocusIsBuilt(x.s, focus, env);
    case ClearEvent(reason) => NotifyDeletedFrame(StopTimer(DeactivateActive(x.s, reason)), x.s.queue);
  }

  /** Every event, calm or not, leaves only such maps. */
  lemma EventKeepsBuilt(x: System, e: Event, env: Env, parse: TimeParser)
    requires AllBuilt(x.s) && Occurs(x, e, env, parse) && Survives(x, e)
    ensures AllBuilt(Next(x, e, env, parse).s)
  {
    if e.SetAlertDirective? || e.SnoozeCall? || e.ScheduleCall? {
      CallIsBuilt(x, e, env, parse);
    } else if e.ReloadEvent? || e.DeleteDirective? || e.DeleteAllDirective? || e.FocusEvent? || e.ClearEvent? {
      DeletionIsBuilt(x, e, env, parse);
    } else {
      match e
      case ActiveCallback(c) => CallbackIsBuilt(x.s.active.value, c);
      case QueuedCallback(i, c) => CallbackIsBuilt(x.s.queue[i], c);
      case TakeNote => NoteIsBuilt(x.s, x.inbox[0], env);
      case _ =>
    }
  }

  /** In every state that any run of events reaches, each map is such a map, and a load of any row loses no asset
      and invents none. */
  lemma {:induction false} RunKeepsBuilt(x: System, run: seq<Happening>, parse: TimeParser)
    requires AllBuilt(x.s) && SurvivesAll(x, run, parse)
    ensures var t := After(x, run, parse).s;
            && AllBuilt(t)
            && forall id :: id in t.rows ==> OneEach(t.rows[id].assets.assets)
    decreases |run|
  {
    if run != [] {
      EventKeepsBuilt(x, run[0].event, run[0].env, parse);
      RunKeepsBuilt(Next(x, run[0].event, run[0].env, parse), run[1..], parse);
    } else {
      forall id | id in x.s.rows
        ensures OneEach(x.s.rows[id].assets.assets)
      {
        BuiltHasOneEach(x.s.rows[id].assets.assets);
      }
    }
  }

  /** A new scheduler over an empty table starts there. */
  lemma InitiallyBuilt(limit: int)
    ensures AllBuilt(InitialView(map[], limit))
  {
  }
}
