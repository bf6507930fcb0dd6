/** The queue is strictly ordered in every reachable state, and draining it activates in order. */
module SchedulerOrder {
  import opened AlertTypes
  import opened AlertOrdering
  import opened AlertLifecycle
  import opened AlertRecords
  import opened AlertQueue
  import opened SchedulerModel
  import opened SchedulerConsistency
  import opened SchedulerQuiet
  import opened SchedulerRuns

  // --------------------------------------------------------------------- order

  lemma {:induction false} InsertAllSorted(alerts: seq<AlertView>)
    ensures Sorted(InsertAll([], alerts))
  {
    if alerts != [] {
      var n := |alerts| - 1;
      InsertAllSorted(alerts[..n]);
      InsertSorted(InsertAll([], alerts[..n]), Connect(alerts[n]));
    }
  }

  lemma {:induction false} RemoveAllSorted(s: SchedulerView, alerts: seq<AlertView>)
    requires Sorted(s.queue)
    ensures Sorted(RemoveAll(s, alerts).queue)
    ensures forall x :: x in RemoveAll(s, alerts).queue ==> x in s.queue
  {
    if alerts != [] {
      var n := |alerts| - 1;
      RemoveAllSorted(s, alerts[..n]);
      RemoveSorted(RemoveAll(s, alerts[..n]).queue, alerts[n]);
      RemoveOnlyDrops(RemoveAll(s, alerts[..n]).queue, alerts[n]);
    }
  }

  lemma ReinsertSorted(s: SchedulerView, a: AlertView, env: Env)
    requires Sorted(s.queue)
    ensures Sorted(Reinsert(s, a, env).queue)
  {
    InsertSorted(s.queue, a);
    ReinsertFrame(s, a, env);
  }

  lemma ScheduleSorted(s: SchedulerView, a: AlertView, env: Env, parse: TimeParser)
    requires Sorted(s.queue)
    ensures Sorted(ScheduleAlert(s, a, env, parse).queue)
  {
    if Acceptable(s, a, env) {
      match Queued(s, a.data.token)
      case Some(before) =>
        var iso, c := a.content.timePoint.iso, a.content.assets;
        var b := UpdatedAlert(s, before, iso, c, env, parse);
        var rows := if UpdateOk(s, before, iso, c, env, parse) then Modified(s.rows, b) else s.rows;
        RemoveSorted(s.queue, before);
        ReinsertSorted(s.(queue := Remove(s.queue, before), rows := rows), b, env);
      case None =>
        var id := NextId(s.rows);
        ReinsertSorted(s.(rows := s.rows[id := RecordOf(a)]),
                       Connect(a.(data := a.data.(dbId := id))), env);
    }
  }

  lemma ReloadSorted(s: SchedulerView, shouldSchedule: bool, env: Env, parse: TimeParser)
    requires Sorted(s.queue)
    ensures Sorted(ReloadAlerts(s, shouldSchedule, env, parse).queue)
  {
    if env.now.Some? {
      var loaded := LoadRows(s.rows, env.scan, parse);
      var s1 := StopTimer(s.(wake := s.wake.(shouldSchedule := shouldSchedule))).(queue := []);
      ReloadAllSorted(s1, loaded, env.now.value, env);
      SetTimerFrame(ReloadAll(s1, loaded, env.now.value, env), env);
      InsertAllSorted(loaded);
    }
  }

  lemma ErrorSorted(s: SchedulerView, note: Sent, env: Env)
    requires Sorted(s.queue)
    ensures Sorted(OnError(s, note, env).queue)
  {
    if IsActiveToken(s, note.token) {
      SetTimerFrame(DropActive(s, env), env);
    } else if Queued(s, note.token).Some? {
      EraseSorted(s, Queued(s, note.token).value, env);
    }
  }

  lemma SnoozedSorted(s: SchedulerView, note: Sent, env: Env)
    requires Sorted(s.queue) && s.active.Some?
    ensures Sorted(OnSnoozed(s, note, env).queue)
  {
    var u := ModifyAlert(s, s.active.value, env);
    InsertSorted(s.queue, s.active.value);
    SetTimerFrame(u.(queue := Insert(u.queue, s.active.value), active := None, sent := u.sent + [note]), env);
  }

  lemma NoteSorted(s: SchedulerView, note: Sent, env: Env)
    requires Sorted(s.queue) && Enabled(s, DoNote(note), env)
    ensures Sorted(OnAlertStateChange(s, note, env).queue)
  {
    match note.state
    case HasStopped => StoppedOnlyDrops(s, note, env);
    case HasCompleted => CompletedOnlyDrops(s, note, env);
    case Failed => ErrorSorted(s, note, env);
    case HasSnoozed => SnoozedSorted(s, note, env);
    case _ =>
  }

  lemma EraseSorted(s: SchedulerView, a: AlertView, env: Env)
    requires Sorted(s.queue)
    ensures Sorted(EraseQueued(s, a, env).queue)
  {
    RemoveSorted(s.queue, a);
    SetTimerFrame(EraseAlert(s, a, env).(queue := Remove(s.queue, a)), env);
  }

  lemma DeleteAlertsSorted(s: SchedulerView, tokens: seq<string>, env: Env)
    requires Sorted(s.queue)
    ensures Sorted(DeleteAlerts(s, tokens, env).queue)
    ensures forall x :: x in DeleteAlerts(s, tokens, env).queue ==> x in s.queue
  {
    var list := Named(s, tokens);
    var t := s.(rows := BulkErased(s.rows, list, env.bulkDisk),
                active := if s.active.Some? && s.active.value.data.token in tokens then None else s.active);
    RemoveAllSorted(t, list);
    SetTimerFrame(RemoveAll(t, list), env);
  }

  /** The set stays ordered although its keys live in objects that change: no operation, guarded or not,
      changes the key of an alert while the alert is in the queue. */
  lemma StepKeepsOrder(s: SchedulerView, op: Op, env: Env, parse: TimeParser)
    requires Sorted(s.queue) && Enabled(s, op, env)
    ensures Sorted(Step(s, op, env, parse).queue)
  {
    match op
    case DoSchedule(a) => ScheduleSorted(s, a, env, parse);
    case DoReload(shouldSchedule) => ReloadSorted(s, shouldSchedule, env, parse);
    case DoDelete(token) =>
      if !IsActiveToken(s, token) && Queued(s, token).Some? {
        EraseSorted(s, Queued(s, token).value, env);
      }
    case DoDeleteAll(tokens) => DeleteAlertsSorted(s, tokens, env);
    case DoNote(note) => NoteSorted(s, note, env);
    case DoQueuedCallback(i, c) =>
      CallbackFrame(s.queue[i], c);
      ReplaceSorted(s.queue, i, CallBack(s.queue[i], c));
    case _ =>
  }

  lemma {:induction false} RunKeepsOrder(s: SchedulerView, moves: seq<Move>, parse: TimeParser)
    requires Sorted(s.queue) && Runnable(s, moves, parse)
    ensures Sorted(SchedulerRuns.Run(s, moves, parse).queue)
    decreases |moves|
  {
    if moves != [] {
      StepKeepsOrder(s, moves[0].op, moves[0].env, parse);
      RunKeepsOrder(Step(s, moves[0].op, moves[0].env, parse), moves[1..], parse);
    }
  }

  // ------------------------------------------------------------------ draining

  /** Operations that put nothing into the queue and re-time nothing. */
  predicate Drains(op: Op) {
    !op.DoSchedule? && !op.DoReload? && !op.DoSnooze? && !(op.DoNote? && op.note.state == HasSnoozed)
  }

  predicate Activated(s: SchedulerView, t: SchedulerView) {
    s.active.None? && t.active.Some?
  }

  /** The keys of the alerts a run activates, in the order of the activations. */
  ghost function Activations(s: SchedulerView, moves: seq<Move>, parse: TimeParser): seq<Key>
    requires Runnable(s, moves, parse)
    decreases |moves|
  {
    if moves == [] then []
    else
      var t := Step(s, moves[0].op, moves[0].env, parse);
      (if Activated(s, t) then [KeyOf(t.active.value)] else []) + Activations(t, moves[1..], parse)
  }

  ghost predicate AllAfter(k: Key, q: seq<AlertView>) {
    forall x :: x in q ==> Before(k, KeyOf(x))
  }

  /** Every key of the new queue was a key of the old one. */
  ghost predicate KeysKept(s: SchedulerView, t: SchedulerView) {
    forall x :: x in t.queue ==> exists y :: y in s.queue && KeyOf(y) == KeyOf(x)
  }

  /** An operation that drains keeps the order and only loses keys; what it activates is the least alert
      that was queued, and leaves only later ones. */
  lemma DrainStep(s: SchedulerView, op: Op, env: Env, parse: TimeParser)
    requires Sorted(s.queue) && Enabled(s, op, env) && Drains(op)
    ensures var t := Step(s, op, env, parse);
            && Sorted(t.queue) && KeysKept(s, t)
            && (Activated(s, t) ==>
                  && s.queue != [] && KeyOf(t.active.value) == KeyOf(s.queue[0])
                  && AllAfter(KeyOf(t.active.value), t.queue))
  {
    StepKeepsOrder(s, op, env, parse);
    match op
    case DoDelete(token) =>
      if !IsActiveToken(s, token) && Queued(s, token).Some? {
        EraseQueuedOnlyDrops(s, Queued(s, token).value, env);
      }
    case DoDeleteAll(tokens) => DeleteAlertsDrains(s, tokens, env);
    case DoFocus(focus) => FocusDrains(s, focus, env);
    case DoClear(reason) => NotifyDeletedFrame(StopTimer(DeactivateActive(s, reason)), s.queue);
    case DoNote(note) => NoteDrains(s, note, env);
    case DoQueuedCallback(i, c) =>
      CallbackFrame(s.queue[i], c);
      ReplaceSorted(s.queue, i, CallBack(s.queue[i], c));
      assert s.queue[i] in s.queue && KeyOf(CallBack(s.queue[i], c)) == KeyOf(s.queue[i]);
    case _ =>
  }

  lemma DeleteAlertsDrains(s: SchedulerView, tokens: seq<string>, env: Env)
    requires Sorted(s.queue)
    ensures KeysKept(s, DeleteAlerts(s, tokens, env)) && !Activated(s, DeleteAlerts(s, tokens, env))
  {
    DeleteAlertsSorted(s, tokens, env);
    var list := Named(s, tokens);
    var t := s.(rows := BulkErased(s.rows, list, env.bulkDisk),
                active := if s.active.Some? && s.active.value.data.token in tokens then None else s.active);
    RemoveAllFrame(t, list);
    SetTimerFrame(RemoveAll(t, list), env);
  }

  lemma FocusDrains(s: SchedulerView, focus: FocusState, env: Env)
    requires Sorted(s.queue)
    ensures var t := UpdateFocus(s, focus, env);
            && KeysKept(s, t)
            && (Activated(s, t) ==>
                  && s.queue != [] && KeyOf(t.active.value) == KeyOf(s.queue[0])
                  && AllAfter(KeyOf(t.active.value), t.queue))
  {
    if s.active.None? && s.queue != [] {
      ActivateNextFrame(s.(focus := focus), env);
      assert s.queue == [s.queue[0]] + s.queue[1..];
    }
  }

  lemma NoteDrains(s: SchedulerView, note: Sent, env: Env)
    requires Enabled(s, DoNote(note), env) && note.state != HasSnoozed
    ensures KeysKept(s, OnAlertStateChange(s, note, env)) && !Activated(s, OnAlertStateChange(s, note, env))
  {
    match note.state
    case HasStopped => StoppedOnlyDrops(s, note, env);
    case HasCompleted => CompletedOnlyDrops(s, note, env);
    case Failed => ErrorOnlyDrops(s, note, env);
    case _ =>
  }

  ghost predicate Ascending(keys: seq<Key>) {
    forall i, j :: 0 <= i < j < |keys| ==> Before(keys[i], keys[j])
  }

  lemma {:induction false} LaterActivations(s: SchedulerView, moves: seq<Move>, parse: TimeParser, k: Key)
    requires Sorted(s.queue) && Runnable(s, moves, parse) && AllAfter(k, s.queue)
    requires forall i :: 0 <= i < |moves| ==> Drains(moves[i].op)
    ensures forall i :: 0 <= i < |Activations(s, moves, parse)| ==> Before(k, Activations(s, moves, parse)[i])
    decreases |moves|
  {
    if moves != [] {
      var t := Step(s, moves[0].op, moves[0].env, parse);
      DrainStep(s, moves[0].op, moves[0].env, parse);
      LaterActivations(t, moves[1..], parse, k);
    }
  }

  /** While nothing is inserted, re-timed or snoozed, alerts are activated in strictly ascending order of
      time and token. */
  lemma {:induction false} DrainingSorts(s: SchedulerView, moves: seq<Move>, parse: TimeParser)
    requires Sorted(s.queue) && Runnable(s, moves, parse)
    requires forall i :: 0 <= i < |moves| ==> Drains(moves[i].op)
    ensures Ascending(Activations(s, moves, parse))
    decreases |moves|
  {
    if moves != [] {
      var t := Step(s, moves[0].op, moves[0].env, parse);
      DrainStep(s, moves[0].op, moves[0].env, parse);
      DrainingSorts(t, moves[1..], parse);
      if Activated(s, t) {
        LaterActivations(t, moves[1..], parse, KeyOf(t.active.value));
      }
    }
  }
}
