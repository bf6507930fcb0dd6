/** No lost wakeup: whenever something waits and nothing is active, the head of the queue is going to be
    announced or has been. */
module SchedulerWakeups {
  import opened AlertTypes
  import opened AlertOrdering
  import opened AlertLifecycle
  import opened AlertRecords
  import opened AlertQueue
  import opened SchedulerModel
  import opened SchedulerConsistency
  import opened SchedulerQuiet

  /** The timer is armed for this alert's time, or this alert, at this time, has been announced. */
  predicate Served(s: SchedulerView, head: AlertView) {
    || s.wake.timer == Some(Alarm(head.data.token, head.data.alertType, head.content.timePoint.unix))
    || s.wake.announced == Some(KeyOf(head))
  }

  predicate Awake(s: SchedulerView) {
    s.wake.shouldSchedule && s.active.None? && s.queue != [] ==> Served(s, s.queue[0])
  }

  /** An announcement that is counted on was submitted to the executor. */
  predicate Recorded(s: SchedulerView) {
    s.wake.announced.Some? ==>
      exists i :: 0 <= i < |s.sent| && s.sent[i].token == s.wake.announced.value.token
                  && s.sent[i].state == ReadyToStart
  }

  /** An armed timer means that nothing was announced since it was set. */
  predicate Wakeful(s: SchedulerView) {
    Awake(s) && Recorded(s) && (s.wake.timer.Some? ==> s.wake.announced.None?)
  }

  /** The clock answers and timers start. */
  predicate Working(env: Env) {
    env.now.Some? && env.timerClock.Some? && env.timerStarts
  }

  /** Setting the timer serves a waiting head exactly when the clock answers and, for an alert that is not
      due yet, the timer starts. */
  lemma SetTimerServesHeadIff(s: SchedulerView, env: Env)
    requires s.wake.shouldSchedule && s.active.None? && s.queue != []
    ensures Served(SetTimerForNextAlert(s, env), s.queue[0]) <==>
              env.timerClock.Some?
              && (s.queue[0].content.timePoint.unix <= env.timerClock.value || env.timerStarts)
  {
  }

  lemma SetTimerWakes(s: SchedulerView, env: Env)
    requires Working(env) && Recorded(s) && (s.wake.timer.Some? ==> s.wake.announced.None?)
    ensures Wakeful(SetTimerForNextAlert(s, env))
  {
    var t := SetTimerForNextAlert(s, env);
    SetTimerFrame(s, env);
    if s.wake.shouldSchedule && s.active.None? && s.queue != [] {
      SetTimerServesHeadIff(s, env);
      if t.wake.announced.Some? {
        assert t.sent[|s.sent|].state == ReadyToStart;
      }
    }
  }

  /** The state changed neither its announcement nor its earlier notifications, and armed no timer. */
  predicate Grew(s: SchedulerView, t: SchedulerView) {
    && s.sent <= t.sent && t.wake.announced == s.wake.announced
    && (t.wake.timer == s.wake.timer || t.wake.timer.None?)
  }

  lemma GrewKeepsRecord(s: SchedulerView, t: SchedulerView)
    requires Recorded(s) && Grew(s, t)
    ensures Recorded(t)
  {
    if s.wake.announced.Some? {
      var i :| 0 <= i < |s.sent| && s.sent[i].token == s.wake.announced.value.token
               && s.sent[i].state == ReadyToStart;
      assert t.sent[i] == s.sent[i];
    }
  }

  lemma ReinsertWakes(s: SchedulerView, u: SchedulerView, a: AlertView, env: Env)
    requires Working(env) && Wakeful(s)
    requires Grew(s, u) && u.active == s.active
    ensures Wakeful(Reinsert(u, a, env))
  {
    GrewKeepsRecord(s, u);
    if u.active.None? {
      SetTimerWakes(u.(queue := Insert(u.queue, a)), env);
    }
  }

  lemma ScheduleWakes(s: SchedulerView, a: AlertView, env: Env, parse: TimeParser)
    requires Working(env) && Wakeful(s)
    ensures Wakeful(ScheduleAlert(s, a, env, parse))
  {
    if Acceptable(s, a, env) {
      match Queued(s, a.data.token)
      case Some(before) =>
        var iso, c := a.content.timePoint.iso, a.content.assets;
        var b := UpdatedAlert(s, before, iso, c, env, parse);
        var rows := if UpdateOk(s, before, iso, c, env, parse) then Modified(s.rows, b) else s.rows;
        ReinsertWakes(s, s.(queue := Remove(s.queue, before), rows := rows), b, env);
      case None =>
        var id := NextId(s.rows);
        ReinsertWakes(s, s.(rows := s.rows[id := RecordOf(a)]),
                      Connect(a.(data := a.data.(dbId := id))), env);
    }
  }

  lemma {:induction false} ReloadAllGrows(s: SchedulerView, alerts: seq<AlertView>, now: int, env: Env)
    ensures s.sent <= ReloadAll(s, alerts, now, env).sent
  {
    if alerts != [] {
      ReloadAllGrows(s, alerts[..|alerts| - 1], now, env);
    }
  }

  lemma ReloadWakes(s: SchedulerView, shouldSchedule: bool, env: Env, parse: TimeParser)
    requires Working(env) && Wakeful(s)
    ensures Wakeful(ReloadAlerts(s, shouldSchedule, env, parse))
  {
    var loaded := LoadRows(s.rows, env.scan, parse);
    var s1 := StopTimer(s.(wake := s.wake.(shouldSchedule := shouldSchedule))).(queue := []);
    if shouldSchedule {
      var s2 := ReloadAll(s1, loaded, env.now.value, env);
      ReloadAllKeepsActive(s1, loaded, env.now.value, env);
      ReloadAllGrows(s1, loaded, env.now.value, env);
      GrewKeepsRecord(s, s2);
      if s2.active.None? {
        SetTimerWakes(s2, env);
      }
    } else {
      GrewKeepsRecord(s, ReloadAlerts(s, shouldSchedule, env, parse));
    }
  }

  lemma EraseQueuedWakes(s: SchedulerView, a: AlertView, env: Env)
    requires Working(env) && Wakeful(s)
    ensures Wakeful(EraseQueued(s, a, env))
  {
    var t := EraseAlert(s, a, env).(queue := Remove(s.queue, a));
    GrewKeepsRecord(s, t);
    SetTimerWakes(t, env);
  }

  lemma DeleteAlertsWakes(s: SchedulerView, tokens: seq<string>, env: Env)
    requires Working(env) && Wakeful(s)
    ensures Wakeful(DeleteAlerts(s, tokens, env))
  {
    if DeleteAlertsOk(s, tokens, env) {
      var list := Named(s, tokens);
      var t := s.(rows := BulkErased(s.rows, list, env.bulkDisk),
                  active := if s.active.Some? && s.active.value.data.token in tokens then None else s.active);
      RemoveAllFrame(t, list);
      GrewKeepsRecord(s, RemoveAll(t, list));
      SetTimerWakes(RemoveAll(t, list), env);
    }
  }

  lemma FocusWakes(s: SchedulerView, focus: FocusState, env: Env)
    requires Wakeful(s)
    ensures Wakeful(UpdateFocus(s, focus, env))
  {
    GrewKeepsRecord(s, UpdateFocus(s, focus, env));
  }

  lemma DroppedWakes(s: SchedulerView, u: SchedulerView, env: Env)
    requires Working(env) && Wakeful(s) && Grew(s, u)
    ensures Wakeful(SetTimerForNextAlert(u, env))
  {
    GrewKeepsRecord(s, u);
    SetTimerWakes(u, env);
  }

  lemma StoppedWakes(s: SchedulerView, note: Sent, env: Env)
    requires Working(env) && Wakeful(s)
    ensures Wakeful(OnStopped(s, note, env))
    ensures Wakeful(OnCompleted(s, note, env))
  {
    var t := s.(sent := s.sent + [note]);
    DroppedWakes(s, DropActive(t, env), env);
    DroppedWakes(s, t, env);
    if Queued(t, note.token).Some? {
      DroppedWakes(s, EraseAlert(t, Queued(t, note.token).value, env), env);
    }
  }

  lemma ErrorWakes(s: SchedulerView, note: Sent, env: Env)
    requires Working(env) && Wakeful(s)
    ensures Wakeful(OnError(s, note, env))
  {
    var t :=
      if IsActiveToken(s, note.token) then SetTimerForNextAlert(DropActive(s, env), env)
      else match Queued(s, note.token)
           case Some(a) => EraseQueued(s, a, env)
           case None => s;
    DroppedWakes(s, DropActive(s, env), env);
    if Queued(s, note.token).Some? {
      EraseQueuedWakes(s, Queued(s, note.token).value, env);
    }
    GrewKeepsRecord(t, OnError(s, note, env));
  }

  lemma SnoozedWakes(s: SchedulerView, note: Sent, env: Env)
    requires Working(env) && Wakeful(s) && s.active.Some?
    ensures Wakeful(OnSnoozed(s, note, env))
  {
    var u := ModifyAlert(s, s.active.value, env);
    DroppedWakes(s, u.(queue := Insert(u.queue, s.active.value), active := None, sent := u.sent + [note]), env);
  }

  lemma NoteWakes(s: SchedulerView, note: Sent, env: Env)
    requires Working(env) && Wakeful(s) && Enabled(s, DoNote(note), env)
    ensures Wakeful(OnAlertStateChange(s, note, env))
  {
    match note.state
    case HasStopped => StoppedWakes(s, note, env);
    case HasCompleted => StoppedWakes(s, note, env);
    case HasSnoozed => SnoozedWakes(s, note, env);
    case Failed => ErrorWakes(s, note, env);
    case Started => GrewKeepsRecord(s, OnStarted(s, note, env));
    case _ => GrewKeepsRecord(s, OnAlertStateChange(s, note, env));
  }

  lemma TimerWakes(s: SchedulerView)
    requires Wakeful(s)
    ensures Wakeful(OnTimer(s))
  {
    var t := OnTimer(s);
    if s.wake.timer.Some? {
      assert t.sent[|s.sent|].state == ReadyToStart;
    }
  }

  lemma ClearWakes(s: SchedulerView, reason: StopReason, env: Env)
    requires Wakeful(s)
    ensures Wakeful(ClearData(s, reason, env))
  {
    NotifyDeletedFrame(StopTimer(DeactivateActive(s, reason)), s.queue);
    GrewKeepsRecord(s, ClearData(s, reason, env));
  }

  /** After every operation in a working environment, if scheduling is on, nothing is active and something is
      queued, the timer is armed for the head at its own time or the head has been announced as ready. */
  lemma StepLosesNoWakeup(s: SchedulerView, op: Op, env: Env, parse: TimeParser)
    requires Working(env) && Wakeful(s) && Enabled(s, op, env)
    ensures Wakeful(Step(s, op, env, parse))
  {
    match op
    case DoSchedule(a) => ScheduleWakes(s, a, env, parse);
    case DoReload(shouldSchedule) => ReloadWakes(s, shouldSchedule, env, parse);
    case DoDelete(token) =>
      if !IsActiveToken(s, token) && Queued(s, token).Some? {
        EraseQueuedWakes(s, Queued(s, token).value, env);
      }
    case DoDeleteAll(tokens) => DeleteAlertsWakes(s, tokens, env);
    case DoFocus(focus) => FocusWakes(s, focus, env);
    case DoClear(reason) => ClearWakes(s, reason, env);
    case DoNote(note) => NoteWakes(s, note, env);
    case DoTimer => TimerWakes(s);
    case DoQueuedCallback(i, c) => CallbackFrame(s.queue[i], c);
    case _ =>
  }
}
