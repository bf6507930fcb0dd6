/** Which alerts may ring: only the active one, and it hears the focus the scheduler has. */
module SchedulerQuiet {
  import opened AlertTypes
  import opened AlertLifecycle
  import opened AlertRecords
  import opened AlertQueue
  import opened SchedulerModel
  import opened SchedulerConsistency

  ghost predicate QuietQueue(q: seq<AlertView>) {
    forall a :: a in q ==> !Ringing(a)
  }

  /** An alert that is being activated is never on record as such. */
  ghost predicate QuietRows(rows: Rows) {
    forall id :: id in rows ==> rows[id].state != Activating
  }

  /** No queued alert is ringing, and no row says that its alert is being activated. */
  ghost predicate Quiet(s: SchedulerView) {
    QuietQueue(s.queue) && QuietRows(s.rows)
  }

  lemma ScheduleIsQuietIff(s: SchedulerView, a: AlertView, env: Env, parse: TimeParser)
    requires Consistent(s, parse) && Quiet(s)
    ensures Quiet(ScheduleAlert(s, a, env, parse)) <==> WouldStore(s, a, env) ==> !Ringing(a)
  {
    QueuedProperties(s, a.data.token);
    if Acceptable(s, a, env) {
      match Queued(s, a.data.token)
      case Some(before) =>
        if !IsActiveToken(s, a.data.token) {
          UpdateIsQuiet(s, before, a.content.timePoint.iso, a.content.assets, env, parse);
        }
      case None =>
        if StoreOk(s.rows, a, env.disk(a.data.token)) {
          var id := NextId(s.rows);
          var rows := s.rows[id := RecordOf(a)];
          var b := Connect(a.(data := a.data.(dbId := id)));
          ReinsertFrame(s.(rows := rows), b, env);
          InsertNew(s.queue, b);
        }
    }
  }

  lemma UpdateIsQuiet(s: SchedulerView, a: AlertView, iso: string, c: AssetConfiguration, env: Env,
                      parse: TimeParser)
    requires Consistent(s, parse) && Quiet(s) && a in s.queue
    ensures Quiet(UpdateAlert(s, a, iso, c, env, parse))
  {
    var b := UpdatedAlert(s, a, iso, c, env, parse);
    UpdatedAlertTime(s, a, iso, c, env, parse);
    var rows := if UpdateOk(s, a, iso, c, env, parse) then Modified(s.rows, b) else s.rows;
    RemoveMember(s.queue, a, a);
    var q := Remove(s.queue, a);
    ReinsertFrame(s.(queue := q, rows := rows), b, env);
    InsertMembers(q, b);
  }

  lemma {:induction false} ReloadAllIsQuiet(s: SchedulerView, alerts: seq<AlertView>, now: int, env: Env)
    requires Quiet(s) && forall i :: 0 <= i < |alerts| ==> alerts[i].control.state != Activating
    ensures Quiet(ReloadAll(s, alerts, now, env))
  {
    if alerts != [] {
      var n := |alerts| - 1;
      ReloadAllIsQuiet(s, alerts[..n], now, env);
      var t := ReloadAll(s, alerts[..n], now, env);
      ReloadOneFrame(t, alerts[n], now, env);
      InsertMembers(t.queue, Renewed(alerts[n]));
    }
  }

  /** Only the scheduling reload sets alerts again that were stored as active. */
  ghost predicate LoadsRinging(s: SchedulerView, env: Env, parse: TimeParser) {
    !QuietQueue(LoadRows(s.rows, env.scan, parse))
  }

  lemma UnscheduledReloadIsQuietIff(rows: Rows, loaded: seq<AlertView>, parse: TimeParser)
    requires RowsOk(rows, parse) && LoadedOk(loaded, rows, parse)
    ensures QuietQueue(InsertAll([], loaded)) <==> QuietQueue(loaded)
  {
    InsertAllMembers(loaded, rows, parse);
    var q := InsertAll([], loaded);
    if QuietQueue(loaded) {
      forall a | a in q
        ensures !Ringing(a)
      {
        var i :| 0 <= i < |loaded| && a == Connect(loaded[i]);
        assert loaded[i] in loaded;
      }
    } else {
      var i :| 0 <= i < |loaded| && Ringing(loaded[i]);
      assert Connect(loaded[i]) in q && Ringing(Connect(loaded[i]));
    }
  }

  lemma ReloadIsQuietIff(s: SchedulerView, shouldSchedule: bool, env: Env, parse: TimeParser)
    requires Consistent(s, parse) && Quiet(s) && IsScan(s.rows, env.scan)
    ensures Quiet(ReloadAlerts(s, shouldSchedule, env, parse)) <==>
            !(env.now.Some? && !shouldSchedule && LoadsRinging(s, env, parse))
  {
    if env.now.Some? {
      var loaded := LoadRows(s.rows, env.scan, parse);
      LoadedAlerts(s.rows, env.scan, parse);
      if shouldSchedule {
        var s1 := StopTimer(s.(wake := s.wake.(shouldSchedule := shouldSchedule))).(queue := []);
        ReloadAllIsQuiet(s1, loaded, env.now.value, env);
        SetTimerFrame(ReloadAll(s1, loaded, env.now.value, env), env);
      } else {
        LoadIsOk(s.rows, env.scan, parse);
        UnscheduledReloadIsQuietIff(s.rows, loaded, parse);
      }
    }
  }

  lemma FewerIsQuiet(s: SchedulerView, t: SchedulerView)
    requires Quiet(s)
    requires forall a :: a in t.queue ==> a in s.queue
    requires forall id :: id in t.rows ==> id in s.rows && t.rows[id].state == s.rows[id].state
    ensures Quiet(t)
  {
  }

  /** The step only lets alerts and rows go. */
  ghost predicate OnlyDrops(s: SchedulerView, t: SchedulerView) {
    && t.focus == s.focus
    && (t.active == None || t.active == s.active)
    && (forall a :: a in t.queue ==> a in s.queue)
    && (forall id :: id in t.rows ==> id in s.rows && t.rows[id] == s.rows[id])
  }

  lemma RemoveOnlyDrops(q: seq<AlertView>, a: AlertView)
    ensures forall x :: x in Remove(q, a) ==> x in q
  {
  }

  lemma EraseQueuedOnlyDrops(s: SchedulerView, a: AlertView, env: Env)
    ensures OnlyDrops(s, EraseQueued(s, a, env))
  {
    EraseAlertFrame(s, a, env);
    RemoveOnlyDrops(s.queue, a);
    SetTimerFrame(EraseAlert(s, a, env).(queue := Remove(s.queue, a)), env);
  }

  lemma DropActiveFrame(s: SchedulerView, env: Env)
    ensures var t := DropActive(s, env);
            && t == s.(active := None, rows := t.rows, sent := t.sent)
            && forall id :: id in t.rows ==> id in s.rows && t.rows[id] == s.rows[id]
  {
  }

  lemma StoppedOnlyDrops(s: SchedulerView, note: Sent, env: Env)
    ensures OnlyDrops(s, OnStopped(s, note, env)) && OnStopped(s, note, env).queue == s.queue
  {
    var t := s.(sent := s.sent + [note]);
    if IsActiveToken(t, note.token) {
      DropActiveFrame(t, env);
      SetTimerFrame(DropActive(t, env), env);
    } else if Queued(t, note.token).Some? {
      EraseAlertFrame(t, Queued(t, note.token).value, env);
      SetTimerFrame(EraseAlert(t, Queued(t, note.token).value, env), env);
    } else {
      SetTimerFrame(t, env);
    }
  }

  lemma CompletedOnlyDrops(s: SchedulerView, note: Sent, env: Env)
    ensures OnlyDrops(s, OnCompleted(s, note, env)) && OnCompleted(s, note, env).queue == s.queue
  {
    var t := s.(sent := s.sent + [note]);
    DropActiveFrame(t, env);
    SetTimerFrame(DropActive(t, env), env);
  }

  lemma ErrorOnlyDrops(s: SchedulerView, note: Sent, env: Env)
    ensures OnlyDrops(s, OnError(s, note, env))
  {
    if IsActiveToken(s, note.token) {
      DropActiveFrame(s, env);
      SetTimerFrame(DropActive(s, env), env);
    } else if Queued(s, note.token).Some? {
      EraseQueuedOnlyDrops(s, Queued(s, note.token).value, env);
    }
  }

  lemma DeleteAlertsIsQuiet(s: SchedulerView, tokens: seq<string>, env: Env, parse: TimeParser)
    requires Consistent(s, parse) && Quiet(s)
    ensures Quiet(DeleteAlerts(s, tokens, env))
  {
    if DeleteAlertsOk(s, tokens, env) {
      var list := Named(s, tokens);
      NamedAlerts(s, tokens);
      BulkErasedRows(s, tokens, env, parse);
      var t := s.(rows := BulkErased(s.rows, list, env.bulkDisk),
                  active := if s.active.Some? && s.active.value.data.token in tokens then None else s.active);
      RemoveAllMembers(t, list);
      SetTimerFrame(RemoveAll(t, list), env);
      FewerIsQuiet(s, DeleteAlerts(s, tokens, env));
    }
  }

  lemma NoteIsQuietIff(s: SchedulerView, note: Sent, env: Env, parse: TimeParser)
    requires Consistent(s, parse) && Quiet(s) && Enabled(s, DoNote(note), env)
    ensures Quiet(OnAlertStateChange(s, note, env)) <==> (note.state == HasSnoozed ==> !Ringing(s.active.value))
  {
    match note.state
    case HasStopped => StoppedOnlyDrops(s, note, env);
    case HasCompleted => CompletedOnlyDrops(s, note, env);
    case Failed => ErrorOnlyDrops(s, note, env);
    case HasSnoozed => SnoozedIsQuietIff(s, note, env, parse);
    case _ =>
  }

  lemma SnoozedIsQuietIff(s: SchedulerView, note: Sent, env: Env, parse: TimeParser)
    requires Consistent(s, parse) && Quiet(s) && s.active.Some?
    ensures Quiet(OnSnoozed(s, note, env)) <==> !Ringing(s.active.value)
  {
    var a := s.active.value;
    var u := ModifyAlert(s, a, env);
    SetTimerFrame(u.(queue := Insert(u.queue, a), active := None, sent := u.sent + [note]), env);
    InsertNew(s.queue, a);
  }

  /** What a caller checks before an operation. */
  ghost predicate Gentle(s: SchedulerView, op: Op, env: Env, parse: TimeParser)
    requires Enabled(s, op, env)
  {
    match op
    case DoSchedule(a) => WouldStore(s, a, env) ==> !Ringing(a)
    case DoReload(shouldSchedule) => env.now.None? || shouldSchedule || !LoadsRinging(s, env, parse)
    case DoNote(note) => note.state == HasSnoozed ==> !Ringing(s.active.value)
    case _ => true
  }

  /** Every operation keeps the queue quiet exactly when its guard holds: a ringing alert is the active one,
      or one that was let go. */
  lemma StepKeepsQuietIff(s: SchedulerView, op: Op, env: Env, parse: TimeParser)
    requires Consistent(s, parse) && Quiet(s) && Enabled(s, op, env)
    ensures Quiet(Step(s, op, env, parse)) <==> Gentle(s, op, env, parse)
  {
    match op
    case DoSchedule(a) => ScheduleIsQuietIff(s, a, env, parse);
    case DoReload(shouldSchedule) => ReloadIsQuietIff(s, shouldSchedule, env, parse);
    case DoDelete(token) =>
      if !IsActiveToken(s, token) && Queued(s, token).Some? {
        EraseQueuedOnlyDrops(s, Queued(s, token).value, env);
      }
    case DoDeleteAll(tokens) => DeleteAlertsIsQuiet(s, tokens, env, parse);
    case DoFocus(focus) => FocusIsQuiet(s, focus, env);
    case DoClear(reason) => NotifyDeletedFrame(StopTimer(DeactivateActive(s, reason)), s.queue);
    case DoNote(note) => NoteIsQuietIff(s, note, env, parse);
    case DoQueuedCallback(i, c) => CallbackIsQuiet(s.queue, i, c);
    case _ =>
  }

  lemma CallbackIsQuiet(q: seq<AlertView>, i: nat, c: Callback)
    requires QuietQueue(q) && i < |q|
    ensures QuietQueue(q[i := CallBack(q[i], c)])
  {
    CallbackFrame(q[i], c);
    assert q[i] in q;
    forall x | x in q[i := CallBack(q[i], c)]
      ensures !Ringing(x)
    {
      assert x == CallBack(q[i], c) || x in q;
    }
  }

  lemma FocusIsQuiet(s: SchedulerView, focus: FocusState, env: Env)
    requires Quiet(s)
    ensures Quiet(UpdateFocus(s, focus, env))
  {
    if s.active.None? && s.queue != [] {
      ActivateNextFrame(s.(focus := focus), env);
    }
  }

  // --------------------------------------------------------------------- focus

  ghost predicate FocusAgrees(s: SchedulerView) {
    s.active.Some? && s.focus != NoFocus ==> s.active.value.control.focusState == s.focus
  }

  /** The active alert of the new state is none, or the old one with the same focus. */
  ghost predicate SameEar(s: SchedulerView, t: SchedulerView) {
    && t.focus == s.focus
    && (t.active.Some? ==>
          s.active.Some? && t.active.value.control.focusState == s.active.value.control.focusState)
  }

  lemma NoteKeepsEar(s: SchedulerView, note: Sent, env: Env)
    requires Enabled(s, DoNote(note), env)
    ensures SameEar(s, OnAlertStateChange(s, note, env))
  {
    match note.state
    case HasStopped => StoppedOnlyDrops(s, note, env);
    case HasCompleted => CompletedOnlyDrops(s, note, env);
    case Failed => ErrorOnlyDrops(s, note, env);
    case HasSnoozed =>
      var u := ModifyAlert(s, s.active.value, env);
      SetTimerFrame(u.(queue := Insert(u.queue, s.active.value), active := None, sent := u.sent + [note]), env);
    case _ =>
  }

  lemma {:induction false} ReloadAllKeepsActive(s: SchedulerView, alerts: seq<AlertView>, now: int, env: Env)
    ensures var t := ReloadAll(s, alerts, now, env);
            t == s.(queue := t.queue, rows := t.rows, sent := t.sent)
  {
    if alerts != [] {
      var n := |alerts| - 1;
      ReloadAllKeepsActive(s, alerts[..n], now, env);
      ReloadOneFrame(ReloadAll(s, alerts[..n], now, env), alerts[n], now, env);
    }
  }

  lemma {:induction false} RemoveAllFrame(s: SchedulerView, alerts: seq<AlertView>)
    ensures var t := RemoveAll(s, alerts);
            t == s.(queue := t.queue, sent := t.sent) && s.sent <= t.sent
  {
    if alerts != [] {
      RemoveAllFrame(s, alerts[..|alerts| - 1]);
    }
  }

  lemma ReloadKeepsEar(s: SchedulerView, shouldSchedule: bool, env: Env, parse: TimeParser)
    ensures var t := ReloadAlerts(s, shouldSchedule, env, parse);
            t.active == s.active && t.focus == s.focus
  {
    if env.now.Some? && shouldSchedule {
      var s1 := StopTimer(s.(wake := s.wake.(shouldSchedule := shouldSchedule))).(queue := []);
      ReloadAllKeepsActive(s1, LoadRows(s.rows, env.scan, parse), env.now.value, env);
      SetTimerFrame(ReloadAll(s1, LoadRows(s.rows, env.scan, parse), env.now.value, env), env);
    }
  }

  lemma ScheduleKeepsEar(s: SchedulerView, a: AlertView, env: Env, parse: TimeParser)
    ensures var t := ScheduleAlert(s, a, env, parse);
            t.active == s.active && t.focus == s.focus
  {
    if Acceptable(s, a, env) {
      match Queued(s, a.data.token)
      case Some(before) =>
        var iso, c := a.content.timePoint.iso, a.content.assets;
        var b := UpdatedAlert(s, before, iso, c, env, parse);
        var rows := if UpdateOk(s, before, iso, c, env, parse) then Modified(s.rows, b) else s.rows;
        ReinsertFrame(s.(queue := Remove(s.queue, before), rows := rows), b, env);
      case None =>
        var id := NextId(s.rows);
        ReinsertFrame(s.(rows := s.rows[id := RecordOf(a)]), Connect(a.(data := a.data.(dbId := id))), env);
    }
  }

  /** Whatever happens, an active alert has heard the scheduler's focus, when there is one. */
  lemma StepKeepsFocusAgreement(s: SchedulerView, op: Op, env: Env, parse: TimeParser)
    requires FocusAgrees(s) && Enabled(s, op, env)
    ensures FocusAgrees(Step(s, op, env, parse))
  {
    match op
    case DoSchedule(a) => ScheduleKeepsEar(s, a, env, parse);
    case DoReload(shouldSchedule) => ReloadKeepsEar(s, shouldSchedule, env, parse);
    case DoDelete(token) =>
      if !IsActiveToken(s, token) && Queued(s, token).Some? {
        EraseQueuedOnlyDrops(s, Queued(s, token).value, env);
      }
    case DoDeleteAll(tokens) =>
      var t := s.(rows := BulkErased(s.rows, Named(s, tokens), env.bulkDisk),
                  active := if s.active.Some? && s.active.value.data.token in tokens then None else s.active);
      RemoveAllFrame(t, Named(s, tokens));
      SetTimerFrame(RemoveAll(t, Named(s, tokens)), env);
    case DoFocus(focus) =>
      if s.active.Some? {
        FocusFrame(s.active.value, focus);
      } else if s.queue != [] {
        ActivateNextFrame(s.(focus := focus), env);
      }
    case DoClear(reason) => NotifyDeletedFrame(StopTimer(DeactivateActive(s, reason)), s.queue);
    case DoNote(note) => NoteKeepsEar(s, note, env);
    case DoActiveCallback(c) => CallbackFrame(s.active.value, c);
    case _ =>
  }
}
