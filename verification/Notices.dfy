/** What the scheduler's observer is told, operation by operation: which notifications, about which alerts, in
    which order. */
module SchedulerNotices {
  import opened AlertTypes
  import opened AlertLifecycle
  import opened AlertRecords
  import opened AlertQueue
  import opened SchedulerModel
  import opened SchedulerConsistency
  import opened SchedulerQuiet

  /** After these, at most one more: that the head of the queue is ready. */
  predicate SendsThenWakes(before: seq<Sent>, first: seq<Sent>, after: seq<Sent>) {
    && before + first <= after && |after| <= |before| + |first| + 1
    && forall k :: |before| + |first| <= k < |after| ==> after[k].state == ReadyToStart
  }

  /** Setting the timer announces the head exactly when scheduling is on, nothing is active, the clock answers and
      the head is due. */
  lemma TimerAnnounces(s: SchedulerView, env: Env)
    ensures SetTimerForNextAlert(s, env).sent == s.sent +
              if s.wake.shouldSchedule && s.active.None? && s.queue != [] && env.timerClock.Some?
                 && s.queue[0].content.timePoint.unix <= env.timerClock.value
              then [Sent(s.queue[0].data.token, s.queue[0].data.alertType, ReadyToStart, "")] else []
  {
  }

  lemma TimerOnlyWakes(s: SchedulerView, env: Env, before: seq<Sent>, first: seq<Sent>)
    requires s.sent == before + first
    ensures SendsThenWakes(before, first, SetTimerForNextAlert(s, env).sent)
  {
    TimerAnnounces(s, env);
  }

  function DeletedNote(a: AlertView): Sent {
    Sent(a.data.token, a.data.alertType, Deleted, "")
  }

  /** An erasure is told exactly when the token is stored and the disk serves it. */
  lemma ErasureIsTold(s: SchedulerView, a: AlertView, env: Env)
    ensures EraseAlert(s, a, env).sent == s.sent +
              if (exists id :: id in s.rows && s.rows[id].token == a.data.token) && env.disk(a.data.token)
              then [DeletedNote(a)] else []
  {
  }

  lemma StoredToken(s: SchedulerView, a: AlertView, parse: TimeParser)
    requires Consistent(s, parse) && (a in s.queue || s.active == Some(a))
    ensures exists id :: id in s.rows && s.rows[id].token == a.data.token
  {
    assert Owns(s.rows, a);
  }

  // ------------------------------------------------------- handled notifications

  /** A STOPPED is passed on first; then the erasure of its alert is told, active or queued. */
  lemma StoppedIsTold(s: SchedulerView, note: Sent, env: Env, parse: TimeParser)
    requires Consistent(s, parse) && note.state == HasStopped
    ensures var t := OnAlertStateChange(s, note, env);
            && (IsActiveToken(s, note.token) && env.disk(note.token) ==>
                  SendsThenWakes(s.sent, [note, DeletedNote(s.active.value)], t.sent))
            && (forall a :: a in s.queue && a.data.token == note.token && env.disk(note.token) ==>
                  SendsThenWakes(s.sent, [note, DeletedNote(a)], t.sent))
            && ((NoToken(s.queue, note.token) && !IsActiveToken(s, note.token)) || !env.disk(note.token) ==>
                  SendsThenWakes(s.sent, [note], t.sent))
  {
    var u := s.(sent := s.sent + [note]);
    QueuedProperties(u, note.token);
    assert forall a :: s.sent + [note, DeletedNote(a)] == s.sent + [note] + [DeletedNote(a)];
    if IsActiveToken(u, note.token) {
      var a := s.active.value;
      StoredToken(s, a, parse);
      ErasureIsTold(u, a, env);
      var v := DropActive(u, env);
      TimerOnlyWakes(v, env, s.sent, if env.disk(note.token) then [note, DeletedNote(a)] else [note]);
    } else if Queued(u, note.token).Some? {
      var a := Queued(u, note.token).value;
      StoredToken(s, a, parse);
      ErasureIsTold(u, a, env);
      var v := EraseAlert(u, a, env);
      TimerOnlyWakes(v, env, s.sent, if env.disk(note.token) then [note, DeletedNote(a)] else [note]);
    } else {
      TimerOnlyWakes(u, env, s.sent, [note]);
    }
  }

  /** A COMPLETED is passed on first; then the erasure of whatever is active. */
  lemma CompletedIsTold(s: SchedulerView, note: Sent, env: Env, parse: TimeParser)
    requires Consistent(s, parse) && note.state == HasCompleted
    ensures var t := OnAlertStateChange(s, note, env);
            && (s.active.Some? && env.disk(s.active.value.data.token) ==>
                  SendsThenWakes(s.sent, [note, DeletedNote(s.active.value)], t.sent))
            && (s.active.None? || !env.disk(s.active.value.data.token) ==> SendsThenWakes(s.sent, [note], t.sent))
  {
    var u := s.(sent := s.sent + [note]);
    if s.active.Some? {
      var a := s.active.value;
      assert s.sent + [note, DeletedNote(a)] == s.sent + [note] + [DeletedNote(a)];
      StoredToken(s, a, parse);
      ErasureIsTold(u, a, env);
      TimerOnlyWakes(DropActive(u, env), env, s.sent,
                     if env.disk(a.data.token) then [note, DeletedNote(a)] else [note]);
    } else {
      TimerOnlyWakes(u, env, s.sent, [note]);
    }
  }

  /** A SNOOZED is passed on, and then the head may be announced. */
  lemma SnoozedIsTold(s: SchedulerView, note: Sent, env: Env)
    requires note.state == HasSnoozed && s.active.Some?
    ensures SendsThenWakes(s.sent, [note], OnAlertStateChange(s, note, env).sent)
  {
    var u := ModifyAlert(s, s.active.value, env);
    TimerOnlyWakes(u.(queue := Insert(u.queue, s.active.value), active := None, sent := u.sent + [note]), env,
                   s.sent, [note]);
  }

  /** An ERROR is passed on last, behind the erasure of its alert, active or queued. */
  lemma ErrorIsTold(s: SchedulerView, note: Sent, env: Env, parse: TimeParser)
    requires Consistent(s, parse) && note.state == Failed
    ensures var t := OnAlertStateChange(s, note, env);
            && t.sent != [] && t.sent[|t.sent| - 1] == note
            && var others := t.sent[..|t.sent| - 1];
               && (IsActiveToken(s, note.token) && env.disk(note.token) ==>
                     SendsThenWakes(s.sent, [DeletedNote(s.active.value)], others))
               && (forall a :: a in s.queue && a.data.token == note.token && env.disk(note.token) ==>
                     SendsThenWakes(s.sent, [DeletedNote(a)], others))
               && (NoToken(s.queue, note.token) && !IsActiveToken(s, note.token) ==> others == s.sent)
  {
    QueuedProperties(s, note.token);
    if IsActiveToken(s, note.token) {
      var a := s.active.value;
      StoredToken(s, a, parse);
      ErasureIsTold(s, a, env);
      TimerOnlyWakes(DropActive(s, env), env, s.sent, if env.disk(note.token) then [DeletedNote(a)] else []);
    } else if Queued(s, note.token).Some? {
      var a := Queued(s, note.token).value;
      StoredToken(s, a, parse);
      ErasureIsTold(s, a, env);
      TimerOnlyWakes(EraseAlert(s, a, env).(queue := Remove(s.queue, a)), env, s.sent,
                     if env.disk(note.token) then [DeletedNote(a)] else []);
    }
  }

  /** READY is passed on; the notifications that only the scheduler sends change and tell nothing. */
  lemma OthersAreTold(s: SchedulerView, note: Sent, env: Env)
    requires note.state in {ReadyToStart, PastDue, EnteredForeground, EnteredBackground, Deleted, ScheduledForLater}
    ensures OnAlertStateChange(s, note, env) ==
              if note.state == ReadyToStart then s.(sent := s.sent + [note]) else s
  {
  }

  /** The firing timer announces the alert it was armed for, and is armed no longer. */
  lemma TimerFiringIsTold(s: SchedulerView)
    ensures var t := OnTimer(s);
            if s.wake.timer.None? then t == s
            else
              && t.sent == s.sent + [Sent(s.wake.timer.value.token, s.wake.timer.value.alertType, ReadyToStart, "")]
              && t.wake.timer == None && t.queue == s.queue && t.active == s.active && t.rows == s.rows
  {
  }

  // -------------------------------------------------------- other operations

  /** A change of focus under an active alert is told, unless the focus is lost; an activation is not. */
  lemma FocusIsTold(s: SchedulerView, focus: FocusState, env: Env)
    ensures UpdateFocus(s, focus, env).sent == s.sent +
              if s.active.None? || focus == s.focus || focus == NoFocus then []
              else [Sent(s.active.value.data.token, s.active.value.data.alertType,
                         if focus == Foreground then EnteredForeground else EnteredBackground, "")]
  {
  }

  /** The deletion of a queued alert is told when it was erased; stopping the active one is not. */
  lemma DeletionIsTold(s: SchedulerView, token: string, env: Env, parse: TimeParser)
    requires Consistent(s, parse)
    ensures var t := DeleteAlert(s, token, env);
            && (IsActiveToken(s, token) || NoToken(s.queue, token) ==> t.sent == s.sent)
            && (forall a :: a in s.queue && a.data.token == token ==>
                  SendsThenWakes(s.sent, if env.disk(token) then [DeletedNote(a)] else [], t.sent))
  {
    QueuedProperties(s, token);
    if !IsActiveToken(s, token) && Queued(s, token).Some? {
      var a := Queued(s, token).value;
      StoredToken(s, a, parse);
      ErasureIsTold(s, a, env);
      TimerOnlyWakes(EraseAlert(s, a, env).(queue := Remove(s.queue, a)), env, s.sent,
                     if env.disk(token) then [DeletedNote(a)] else []);
    }
  }

  function DeletedNotes(alerts: seq<AlertView>): (notes: seq<Sent>)
    ensures |notes| == |alerts| && forall i :: 0 <= i < |alerts| ==> notes[i] == DeletedNote(alerts[i])
  {
    seq(|alerts|, i requires 0 <= i < |alerts| => DeletedNote(alerts[i]))
  }

  lemma OneMoreDeleted(alerts: seq<AlertView>)
    requires alerts != []
    ensures var n := |alerts| - 1;
            DeletedNotes(alerts) == DeletedNotes(alerts[..n]) + [DeletedNote(alerts[n])]
  {
  }

  lemma {:induction false} RemovalsAreTold(s: SchedulerView, alerts: seq<AlertView>)
    ensures RemoveAll(s, alerts).sent == s.sent + DeletedNotes(alerts)
  {
    if alerts != [] {
      var n := |alerts| - 1;
      RemovalsAreTold(s, alerts[..n]);
      OneMoreDeleted(alerts);
    }
  }

  /** A successful bulk deletion tells one deletion for each listed token that is in memory, in the order of the
      list; a failed one tells nothing. */
  lemma DeleteAlertsIsTold(s: SchedulerView, tokens: seq<string>, env: Env)
    ensures var t := DeleteAlerts(s, tokens, env);
            && (!DeleteAlertsOk(s, tokens, env) ==> t.sent == s.sent)
            && (DeleteAlertsOk(s, tokens, env) ==> SendsThenWakes(s.sent, DeletedNotes(Named(s, tokens)), t.sent))
  {
    if DeleteAlertsOk(s, tokens, env) {
      var list := Named(s, tokens);
      var t := s.(rows := BulkErased(s.rows, list, env.bulkDisk),
                  active := if s.active.Some? && s.active.value.data.token in tokens then None else s.active);
      RemovalsAreTold(t, list);
      TimerOnlyWakes(RemoveAll(t, list), env, s.sent, DeletedNotes(list));
    }
  }

  lemma {:induction false} ClearedAreTold(s: SchedulerView, alerts: seq<AlertView>)
    ensures NotifyDeleted(s, alerts).sent == s.sent + DeletedNotes(alerts)
  {
    if alerts != [] {
      var n := |alerts| - 1;
      ClearedAreTold(s, alerts[..n]);
      OneMoreDeleted(alerts);
    }
  }

  /** Clearing tells the deletion of every queued alert, in order, and of no other. */
  lemma ClearIsTold(s: SchedulerView, reason: StopReason, env: Env)
    ensures ClearData(s, reason, env).sent == s.sent + DeletedNotes(s.queue)
  {
    ClearedAreTold(StopTimer(DeactivateActive(s, reason)), s.queue);
  }

  // -------------------------------------------------------------------- reload

  predicate Told(before: seq<Sent>, after: seq<Sent>, note: Sent) {
    exists k :: |before| <= k < |after| && after[k] == note
  }

  lemma ToldStays(before: seq<Sent>, middle: seq<Sent>, after: seq<Sent>, note: Sent)
    requires Told(before, middle, note) && middle <= after
    ensures Told(before, after, note)
  {
    var k :| |before| <= k < |middle| && middle[k] == note;
    assert after[k] == note;
  }

  /** What a reload tells of an alert: that it is past due when its time lies more than the limit back, and
      otherwise that it is scheduled for later, with its time. */
  function ReloadNote(a: AlertView, now: int, limit: int): Sent {
    if a.content.timePoint.unix < now - limit then Sent(a.data.token, a.data.alertType, PastDue, "")
    else Sent(a.data.token, a.data.alertType, ScheduledForLater, a.content.timePoint.iso)
  }

  lemma RoundIsTold(s: SchedulerView, t: SchedulerView, a: AlertView, now: int, env: Env)
    requires s.sent <= t.sent
    requires t.active.None? || t.active.value.data.token != a.data.token
    ensures Told(s.sent, ReloadOne(t, a, now, env).sent, ReloadNote(a, now, t.pastDueLimit))
  {
    var u := ReloadOne(t, a, now, env);
    if a.content.timePoint.unix < now - t.pastDueLimit {
      assert u.sent[|t.sent|] == ReloadNote(a, now, t.pastDueLimit);
    } else {
      assert u.sent[|u.sent| - 1] == ReloadNote(a, now, t.pastDueLimit);
    }
  }

  lemma {:induction false} LoopIsTold(s: SchedulerView, alerts: seq<AlertView>, now: int, env: Env, i: nat)
    requires i < |alerts| && (s.active.None? || s.active.value.data.token != alerts[i].data.token)
    ensures Told(s.sent, ReloadAll(s, alerts, now, env).sent, ReloadNote(alerts[i], now, s.pastDueLimit))
    decreases |alerts|
  {
    var n := |alerts| - 1;
    var u := ReloadAll(s, alerts[..n], now, env);
    if i == n {
      ReloadAllKeepsActive(s, alerts[..n], now, env);
      LoopGrows(s, alerts[..n], now, env);
      RoundIsTold(s, u, alerts[n], now, env);
    } else {
      LoopIsTold(s, alerts[..n], now, env, i);
      RoundGrows(u, alerts[n], now, env);
      ToldStays(s.sent, u.sent, ReloadOne(u, alerts[n], now, env).sent, ReloadNote(alerts[i], now, s.pastDueLimit));
    }
  }

  /** One round of the reload tells of its alert, and then, when it was past due and erased, that it is deleted. */
  lemma RoundGrows(s: SchedulerView, a: AlertView, now: int, env: Env)
    ensures ReloadOne(s, a, now, env).sent == s.sent +
              if s.active.Some? && s.active.value.data.token == a.data.token then []
              else if a.content.timePoint.unix >= now - s.pastDueLimit then [ReloadNote(a, now, s.pastDueLimit)]
              else if (exists id :: id in s.rows && s.rows[id].token == a.data.token) && env.disk(a.data.token) then
                [ReloadNote(a, now, s.pastDueLimit), DeletedNote(a)]
              else [ReloadNote(a, now, s.pastDueLimit)]
    ensures s.sent <= ReloadOne(s, a, now, env).sent
  {
    ErasureIsTold(NotifyAbout(s, a, PastDue, ""), a, env);
    assert forall x, y: Sent :: s.sent + [x] + [y] == s.sent + [x, y];
  }

  lemma {:induction false} LoopGrows(s: SchedulerView, alerts: seq<AlertView>, now: int, env: Env)
    ensures s.sent <= ReloadAll(s, alerts, now, env).sent
  {
    if alerts != [] {
      LoopGrows(s, alerts[..|alerts| - 1], now, env);
      RoundGrows(ReloadAll(s, alerts[..|alerts| - 1], now, env), alerts[|alerts| - 1], now, env);
    }
  }

  /** A scheduling reload tells of every loaded alert that is not active: past due, or scheduled for later with
      its time. */
  lemma ReloadIsTold(s: SchedulerView, env: Env, parse: TimeParser, i: nat)
    requires env.now.Some? && i < |LoadRows(s.rows, env.scan, parse)|
    requires var a := LoadRows(s.rows, env.scan, parse)[i];
             s.active.None? || s.active.value.data.token != a.data.token
    ensures Told(s.sent, ReloadAlerts(s, true, env, parse).sent,
                 ReloadNote(LoadRows(s.rows, env.scan, parse)[i], env.now.value, s.pastDueLimit))
  {
    var loaded := LoadRows(s.rows, env.scan, parse);
    var s1 := StopTimer(s.(wake := s.wake.(shouldSchedule := true))).(queue := []);
    var s2 := ReloadAll(s1, loaded, env.now.value, env);
    LoopIsTold(s1, loaded, env.now.value, env, i);
    TimerAnnounces(s2, env);
    ToldStays(s.sent, s2.sent, ReloadAlerts(s, true, env, parse).sent,
              ReloadNote(loaded[i], env.now.value, s.pastDueLimit));
  }

  /** Scheduling and snoozing tell nothing but that the head is ready. */
  lemma SchedulingIsQuiet(s: SchedulerView, a: AlertView, env: Env, parse: TimeParser)
    ensures SendsThenWakes(s.sent, [], ScheduleAlert(s, a, env, parse).sent)
  {
    if SchedulerModel.Acceptable(s, a, env) {
      match Queued(s, a.data.token)
      case Some(before) =>
        var b := UpdatedAlert(s, before, a.content.timePoint.iso, a.content.assets, env, parse);
        var rows := if UpdateOk(s, before, a.content.timePoint.iso, a.content.assets, env, parse)
                    then Modified(s.rows, b) else s.rows;
        ReinsertIsQuiet(s.(queue := Remove(s.queue, before), rows := rows), b, env);
      case None =>
        var id := NextId(s.rows);
        ReinsertIsQuiet(s.(rows := s.rows[id := RecordOf(a)]), Connect(a.(data := a.data.(dbId := id))), env);
    }
  }

  lemma ReinsertIsQuiet(s: SchedulerView, a: AlertView, env: Env)
    ensures SendsThenWakes(s.sent, [], Reinsert(s, a, env).sent)
  {
    TimerOnlyWakes(s.(queue := Insert(s.queue, a)), env, s.sent, []);
  }
}
