/** Which alerts an operation adds, keeps and removes. */
module SchedulerPopulation {
  import opened AlertTypes
  import opened AlertLifecycle
  import opened AlertRecords
  import opened AlertQueue
  import opened SchedulerModel
  import opened SchedulerConsistency
  import opened SchedulerQuiet

  ghost predicate InMemory(s: SchedulerView, a: AlertView) {
    a in s.queue || s.active == Some(a)
  }

  /** Some alert in memory, queued or active, has the token. */
  ghost predicate Knows(s: SchedulerView, token: string) {
    IsActiveToken(s, token) || !NoToken(s.queue, token)
  }

  /** The population after an operation other than a reload. */
  ghost predicate Expected(s: SchedulerView, op: Op, env: Env, token: string)
    requires Enabled(s, op, env)
  {
    match op
    case DoSchedule(a) => Knows(s, token) || (WouldStore(s, a, env) && token == a.data.token)
    case DoDelete(t) => Knows(s, token) && (IsActiveToken(s, t) || token != t)
    case DoDeleteAll(tokens) => Knows(s, token) && !(DeleteAlertsOk(s, tokens, env) && token in tokens)
    case DoClear(_) => IsActiveToken(s, token)
    case DoNote(note) =>
      Knows(s, token) &&
      (match note.state
       case HasStopped => !(IsActiveToken(s, note.token) && token == note.token)
       case HasCompleted => !IsActiveToken(s, token)
       case Failed => token != note.token
       case _ => true)
    case _ => Knows(s, token)
  }

  lemma ReinsertKnows(s: SchedulerView, a: AlertView, env: Env, token: string)
    requires Sorted(s.queue) && NoToken(s.queue, a.data.token)
    ensures Knows(Reinsert(s, a, env), token) <==> Knows(s, token) || token == a.data.token
  {
    ReinsertFrame(s, a, env);
    InsertNew(s.queue, a);
  }

  lemma ScheduleKnows(s: SchedulerView, a: AlertView, env: Env, parse: TimeParser, token: string)
    requires Consistent(s, parse)
    ensures Knows(ScheduleAlert(s, a, env, parse), token) <==> Expected(s, DoSchedule(a), env, token)
  {
    QueuedProperties(s, a.data.token);
    if Acceptable(s, a, env) {
      match Queued(s, a.data.token)
      case Some(before) =>
        var iso, c := a.content.timePoint.iso, a.content.assets;
        var b := UpdatedAlert(s, before, iso, c, env, parse);
        UpdatedAlertTime(s, before, iso, c, env, parse);
        RemoveMember(s.queue, before, before);
        var rows := if UpdateOk(s, before, iso, c, env, parse) then Modified(s.rows, b) else s.rows;
        ReinsertKnows(s.(queue := Remove(s.queue, before), rows := rows), b, env, token);
      case None =>
        var id := NextId(s.rows);
        var b := Connect(a.(data := a.data.(dbId := id)));
        ReinsertKnows(s.(rows := s.rows[id := RecordOf(a)]), b, env, token);
    }
  }

  lemma EraseQueuedKnows(s: SchedulerView, a: AlertView, env: Env, token: string)
    requires Sorted(s.queue) && Distinct(s.queue) && a in s.queue && !IsActiveToken(s, a.data.token)
    ensures Knows(EraseQueued(s, a, env), token) <==> Knows(s, token) && token != a.data.token
  {
    EraseAlertFrame(s, a, env);
    RemoveMember(s.queue, a, a);
    SetTimerFrame(EraseAlert(s, a, env).(queue := Remove(s.queue, a)), env);
  }

  lemma QueuedIsNamedIff(s: SchedulerView, tokens: seq<string>, x: AlertView, parse: TimeParser)
    requires Consistent(s, parse) && x in s.queue
    ensures x in Named(s, tokens) <==> x.data.token in tokens
  {
    NamedAlerts(s, tokens);
  }

  lemma MembersAreNamed(s: SchedulerView, tokens: seq<string>)
    ensures forall a :: a in Named(s, tokens) ==> a in s.queue || s.active == Some(a)
  {
    NamedAlerts(s, tokens);
  }

  /** A successful bulk deletion filters the queue by token and the active alert likewise. */
  lemma DeleteAlertsQueue(s: SchedulerView, tokens: seq<string>, env: Env, parse: TimeParser)
    requires Consistent(s, parse) && DeleteAlertsOk(s, tokens, env)
    ensures var t := DeleteAlerts(s, tokens, env);
            && Sorted(t.queue)
            && (forall x :: x in t.queue <==> x in s.queue && x.data.token !in tokens)
            && t.active == (if s.active.Some? && s.active.value.data.token in tokens then None else s.active)
  {
    var list := Named(s, tokens);
    var t := s.(rows := BulkErased(s.rows, list, env.bulkDisk),
                active := if s.active.Some? && s.active.value.data.token in tokens then None else s.active);
    MembersAreNamed(s, tokens);
    RemoveAllMembers(t, list);
    SetTimerFrame(RemoveAll(t, list), env);
    var q := DeleteAlerts(s, tokens, env).queue;
    forall x
      ensures x in q <==> x in s.queue && x.data.token !in tokens
    {
      if x in s.queue {
        QueuedIsNamedIff(s, tokens, x, parse);
      }
    }
  }

  lemma FilteredTokens(q: seq<AlertView>, q': seq<AlertView>, tokens: seq<string>, token: string)
    requires forall x :: x in q' <==> x in q && x.data.token !in tokens
    ensures NoToken(q', token) <==> NoToken(q, token) || token in tokens
  {
  }

  lemma DeleteAlertsKnows(s: SchedulerView, tokens: seq<string>, env: Env, parse: TimeParser, token: string)
    requires Consistent(s, parse)
    ensures Knows(DeleteAlerts(s, tokens, env), token) <==> Expected(s, DoDeleteAll(tokens), env, token)
  {
    if DeleteAlertsOk(s, tokens, env) {
      DeleteAlertsQueue(s, tokens, env, parse);
      FilteredTokens(s.queue, DeleteAlerts(s, tokens, env).queue, tokens, token);
    }
  }

  lemma StoppedActive(s: SchedulerView, note: Sent, env: Env)
    ensures OnStopped(s, note, env).active == if IsActiveToken(s, note.token) then None else s.active
  {
    var t := s.(sent := s.sent + [note]);
    DropActiveFrame(t, env);
    SetTimerFrame(DropActive(t, env), env);
    SetTimerFrame(t, env);
    if Queued(t, note.token).Some? {
      SetTimerFrame(EraseAlert(t, Queued(t, note.token).value, env), env);
    }
  }

  lemma CompletedActive(s: SchedulerView, note: Sent, env: Env)
    ensures OnCompleted(s, note, env).active == None
  {
    SetTimerFrame(DropActive(s.(sent := s.sent + [note]), env), env);
  }

  lemma NoteKnows(s: SchedulerView, note: Sent, env: Env, parse: TimeParser, token: string)
    requires Consistent(s, parse) && Enabled(s, DoNote(note), env)
    ensures Knows(OnAlertStateChange(s, note, env), token) <==> Expected(s, DoNote(note), env, token)
  {
    QueuedProperties(s, note.token);
    match note.state
    case HasStopped =>
      StoppedOnlyDrops(s, note, env);
      StoppedActive(s, note, env);
    case HasCompleted =>
      CompletedOnlyDrops(s, note, env);
      CompletedActive(s, note, env);
    case Failed =>
      DropActiveFrame(s, env);
      SetTimerFrame(DropActive(s, env), env);
      if Queued(s, note.token).Some? && !IsActiveToken(s, note.token) {
        EraseQueuedKnows(s, Queued(s, note.token).value, env, token);
      }
    case HasSnoozed =>
      var u := ModifyAlert(s, s.active.value, env);
      InsertNew(s.queue, s.active.value);
      SetTimerFrame(u.(queue := Insert(u.queue, s.active.value), active := None, sent := u.sent + [note]), env);
    case _ =>
  }

  lemma ActivationKnows(s: SchedulerView, env: Env, token: string)
    requires s.active.None? && s.queue != []
    ensures Knows(ActivateNextAlert(s, env), token) <==> Knows(s, token)
  {
    ActivateNextFrame(s, env);
    assert s.queue == [s.queue[0]] + s.queue[1..];
  }

  /** No alert is lost or invented: the tokens known after an operation are exactly the expected ones. */
  lemma StepPopulation(s: SchedulerView, op: Op, env: Env, parse: TimeParser, token: string)
    requires Consistent(s, parse) && Enabled(s, op, env) && !op.DoReload?
    ensures Knows(Step(s, op, env, parse), token) <==> Expected(s, op, env, token)
  {
    match op
    case DoSchedule(a) => ScheduleKnows(s, a, env, parse, token);
    case DoDelete(t) => DeleteKnows(s, t, env, parse, token);
    case DoDeleteAll(tokens) => DeleteAlertsKnows(s, tokens, env, parse, token);
    case DoFocus(focus) => FocusKnows(s, focus, env, token);
    case DoClear(reason) => ClearKnows(s, reason, env, token);
    case DoNote(note) => NoteKnows(s, note, env, parse, token);
    case DoActiveCallback(c) => ActiveCallbackKnows(s, c, token);
    case DoQueuedCallback(i, c) => CallbackKnows(s, i, c, token);
    case _ =>
  }

  lemma DeleteKnows(s: SchedulerView, t: string, env: Env, parse: TimeParser, token: string)
    requires Consistent(s, parse)
    ensures Knows(DeleteAlert(s, t, env), token) <==> Expected(s, DoDelete(t), env, token)
  {
    QueuedProperties(s, t);
    if !IsActiveToken(s, t) && Queued(s, t).Some? {
      EraseQueuedKnows(s, Queued(s, t).value, env, token);
    }
  }

  lemma FocusKnows(s: SchedulerView, focus: FocusState, env: Env, token: string)
    ensures Knows(UpdateFocus(s, focus, env), token) <==> Knows(s, token)
  {
    if s.active.Some? {
      FocusFrame(s.active.value, focus);
    } else if s.queue != [] {
      ActivationKnows(s.(focus := focus), env, token);
    }
  }

  lemma ClearKnows(s: SchedulerView, reason: StopReason, env: Env, token: string)
    ensures Knows(ClearData(s, reason, env), token) <==> IsActiveToken(s, token)
  {
    NotifyDeletedFrame(StopTimer(DeactivateActive(s, reason)), s.queue);
  }

  lemma ActiveCallbackKnows(s: SchedulerView, c: Callback, token: string)
    requires s.active.Some?
    ensures Knows(s.(active := Some(CallBack(s.active.value, c))), token) <==> Knows(s, token)
  {
    CallbackFrame(s.active.value, c);
  }

  lemma CallbackKnows(s: SchedulerView, i: nat, c: Callback, token: string)
    requires Sorted(s.queue) && i < |s.queue|
    ensures Knows(s.(queue := s.queue[i := CallBack(s.queue[i], c)]), token) <==> Knows(s, token)
  {
    var a, b := s.queue[i], CallBack(s.queue[i], c);
    var q := s.queue[i := b];
    CallbackFrame(a, c);
    ReplaceSorted(s.queue, i, b);
    assert a in s.queue;
    assert q[i] == b;
    assert b.data.token == a.data.token;
    forall x | x in s.queue && x.data.token == token
      ensures !NoToken(q, token)
    {
      assert x == a || x in q;
    }
  }

  /** A terminal notification for the active alert lets go of that alert and its row, and of nothing else. */
  lemma TerminalNoteRemovesExactlyItsAlert(s: SchedulerView, note: Sent, env: Env, parse: TimeParser)
    requires Consistent(s, parse) && IsActiveToken(s, note.token) && env.disk(note.token)
    requires note.state == HasStopped || note.state == HasCompleted || note.state == Failed
    ensures var t := OnAlertStateChange(s, note, env);
            && t.active == None && t.queue == s.queue && t.focus == s.focus
            && t.rows == s.rows - {s.active.value.data.dbId}
            && (forall a :: a in s.queue ==> Backed(t.rows, a))
            && !HasToken(t.rows, note.token)
  {
    var u := s.(sent := s.sent + [note]);
    SetTimerFrame(DropActive(s, env), env);
    SetTimerFrame(DropActive(u, env), env);
    var t := OnAlertStateChange(s, note, env);
    assert t.rows == Erased(s.rows, s.active.value);
    forall a | a in s.queue
      ensures Backed(t.rows, a)
    {
      DifferentRows(s.rows, a, s.active.value);
    }
  }

  /** The completion handler does not compare tokens: a completion reported late, for an alert that is no
      longer active, removes whatever alert is active instead. */
  lemma LateCompletionDropsAnotherAlert(s: SchedulerView, note: Sent, env: Env, parse: TimeParser)
    requires Consistent(s, parse) && note.state == HasCompleted && s.active.Some?
    ensures var t := OnAlertStateChange(s, note, env);
            && !Knows(t, s.active.value.data.token)
            && (Knows(s, note.token) && !Knows(t, note.token) <==> IsActiveToken(s, note.token))
  {
    NoteKnows(s, note, env, parse, s.active.value.data.token);
    NoteKnows(s, note, env, parse, note.token);
  }

  /** While the storage has the active alert's row, its token cannot be scheduled a second time. */
  lemma ActiveTokenIsNotRescheduled(s: SchedulerView, a: AlertView, env: Env, parse: TimeParser)
    requires Consistent(s, parse) && IsActiveToken(s, a.data.token)
    ensures ScheduleAlert(s, a, env, parse) == s && !ScheduleOk(s, a, env, parse)
  {
    QueuedProperties(s, a.data.token);
    assert Owns(s.rows, s.active.value);
  }

  lemma StoredIsQueued(s: SchedulerView, a: AlertView, env: Env)
    requires Sorted(s.queue) && NoToken(s.queue, a.data.token)
    ensures var t := StoreNew(s, a, env);
            t.active == s.active && !NoToken(t.queue, a.data.token)
  {
    var id := NextId(s.rows);
    var b := Connect(a.(data := a.data.(dbId := id)));
    ReinsertFrame(s.(rows := s.rows[id := RecordOf(a)]), b, env);
    InsertNew(s.queue, b);
  }

  /** After the data were cleared under an active alert, that guard is gone. */
  lemma ClearedTokenIsRescheduled(s: SchedulerView, reason: StopReason, a: AlertView, env: Env, parse: TimeParser)
    requires Consistent(s, parse) && IsActiveToken(s, a.data.token) && env.bulkDisk
    requires Acceptable(s, a, env) && KnownType(a.data.alertType) && env.disk(a.data.token)
    ensures var t := ScheduleAlert(ClearData(s, reason, env), a, env, parse);
            IsActiveToken(t, a.data.token) && !NoToken(t.queue, a.data.token)
  {
    var c := ClearData(s, reason, env);
    NotifyDeletedFrame(StopTimer(DeactivateActive(s, reason)), s.queue);
    assert c.queue == [] && c.rows == map[] && IsActiveToken(c, a.data.token);
    assert Queued(c, a.data.token).None?;
    StoredIsQueued(c, a, env);
  }
}
