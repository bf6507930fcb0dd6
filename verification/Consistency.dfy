/** The scheduler's structural invariant: the queue is strictly ordered, holds one alert for each token
    and not the active one's, and every alert is backed by its own row. */
module SchedulerConsistency {
  import opened AlertTypes
  import opened AlertLifecycle
  import opened AlertRecords
  import opened AlertQueue
  import opened SchedulerModel

  predicate Healthy(a: AlertView, parse: TimeParser) {
    Coherent(a.content.timePoint, parse) && a.wiring.hasRenderer
  }

  /** The alert owns its row, and the row has the alert's time. */
  predicate Backed(rows: Rows, a: AlertView) {
    Owns(rows, a) && rows[a.data.dbId].timePoint == a.content.timePoint
  }

  ghost predicate QueueOk(q: seq<AlertView>, rows: Rows, parse: TimeParser) {
    Sorted(q) && Distinct(q) && forall a :: a in q ==> Healthy(a, parse) && Backed(rows, a)
  }

  ghost predicate ActiveOk(q: seq<AlertView>, active: Option<AlertView>, rows: Rows, parse: TimeParser) {
    active.Some? ==>
      Healthy(active.value, parse) && Owns(rows, active.value) && NoToken(q, active.value.data.token)
  }

  ghost predicate PartsOk(q: seq<AlertView>, active: Option<AlertView>, rows: Rows, parse: TimeParser) {
    RowsOk(rows, parse) && QueueOk(q, rows, parse) && ActiveOk(q, active, rows, parse)
  }

  ghost predicate Consistent(s: SchedulerView, parse: TimeParser) {
    PartsOk(s.queue, s.active, s.rows, parse)
  }

  // --------------------------------------------------------- changes of a part

  /** Setting the timer touches only the timer, the announcement and the notifications. */
  lemma SetTimerFrame(s: SchedulerView, env: Env)
    ensures var t := SetTimerForNextAlert(s, env);
            t == s.(wake := t.wake, sent := t.sent) && t.wake.shouldSchedule == s.wake.shouldSchedule
  {
  }

  lemma EraseAlertFrame(s: SchedulerView, a: AlertView, env: Env)
    ensures var t := EraseAlert(s, a, env);
            && t == s.(rows := t.rows, sent := t.sent)
            && t.rows == if WriteOk(s.rows, a, env.disk(a.data.token)) then Erased(s.rows, a) else s.rows
  {
  }

  /** Rows may go when no alert in memory owns them. */
  lemma ShrinkRows(q: seq<AlertView>, active: Option<AlertView>, rows: Rows, fewer: Rows, parse: TimeParser)
    requires PartsOk(q, active, rows, parse)
    requires forall k :: k in fewer ==> k in rows && fewer[k] == rows[k]
    requires forall a :: a in q ==> a.data.dbId in fewer
    requires active.Some? ==> active.value.data.dbId in fewer
    ensures PartsOk(q, active, fewer, parse)
  {
  }

  /** Alerts may go at any time. */
  lemma ShrinkQueue(q: seq<AlertView>, active: Option<AlertView>, rows: Rows, fewer: seq<AlertView>,
                    parse: TimeParser)
    requires PartsOk(q, active, rows, parse)
    requires Sorted(fewer) && forall a :: a in fewer ==> a in q
    ensures PartsOk(fewer, active, rows, parse)
    ensures PartsOk(fewer, None, rows, parse)
  {
  }

  /** Alerts with different tokens own different rows. */
  lemma DifferentRows(rows: Rows, a: AlertView, b: AlertView)
    requires Owns(rows, a) && Owns(rows, b) && a.data.token != b.data.token
    ensures a.data.dbId != b.data.dbId
  {
  }

  /** Taking an alert out of the queue, with or without its row. */
  lemma DropQueued(s: SchedulerView, a: AlertView, env: Env, parse: TimeParser)
    requires Consistent(s, parse) && a in s.queue
    ensures Consistent(EraseQueued(s, a, env), parse)
  {
    var t := EraseAlert(s, a, env);
    EraseAlertFrame(s, a, env);
    RemoveMember(s.queue, a, a);
    var q := Remove(s.queue, a);
    ShrinkQueue(s.queue, s.active, s.rows, q, parse);
    ShrinkRows(q, s.active, s.rows, t.rows, parse);
    SetTimerFrame(t.(queue := q), env);
  }

  lemma DropActiveKeeps(s: SchedulerView, env: Env, parse: TimeParser)
    requires Consistent(s, parse)
    ensures Consistent(DropActive(s, env), parse)
  {
    if s.active.Some? {
      EraseAlertFrame(s, s.active.value, env);
      ShrinkRows(s.queue, None, s.rows, EraseAlert(s, s.active.value, env).rows, parse);
    }
  }

  /** A modification rewrites the row of the alert alone, with a time that was parsed. */
  lemma ModifyRow(q: seq<AlertView>, active: Option<AlertView>, rows: Rows, a: AlertView, parse: TimeParser)
    requires PartsOk(q, active, rows, parse)
    requires Owns(rows, a) && Coherent(a.content.timePoint, parse) && NoToken(q, a.data.token)
    ensures PartsOk(q, active, Modified(rows, a), parse)
    ensures Backed(Modified(rows, a), a)
  {
  }

  /** An alert with a new token joins the queue exactly when it is healthy and backed. */
  lemma GrowQueueIff(q: seq<AlertView>, active: Option<AlertView>, rows: Rows, a: AlertView, parse: TimeParser)
    requires PartsOk(q, active, rows, parse) && NoToken(q, a.data.token)
    requires active.Some? ==> active.value.data.token != a.data.token
    ensures PartsOk(Insert(q, a), active, rows, parse) <==> Healthy(a, parse) && Backed(rows, a)
  {
    InsertNew(q, a);
  }

  lemma ReinsertFrame(s: SchedulerView, a: AlertView, env: Env)
    ensures var t := Reinsert(s, a, env);
            t == s.(queue := Insert(s.queue, a), wake := t.wake, sent := t.sent)
  {
    SetTimerFrame(s.(queue := Insert(s.queue, a)), env);
  }

  lemma QueuedProperties(s: SchedulerView, token: string)
    ensures Queued(s, token).Some? ==>
              Queued(s, token).value in s.queue && Queued(s, token).value.data.token == token
    ensures Queued(s, token).None? <==> NoToken(s.queue, token)
  {
    FindIff(s.queue, token);
  }

  // ------------------------------------------------------------------ updates

  /** The time an update leaves: the new one if everything succeeded or the old text cannot be converted,
      and otherwise the old one. In every case it is a converted one, and the data and wiring stay. */
  lemma UpdatedAlertTime(s: SchedulerView, a: AlertView, iso: string, c: AssetConfiguration, env: Env,
                         parse: TimeParser)
    requires Coherent(a.content.timePoint, parse)
    ensures var b := UpdatedAlert(s, a, iso, c, env, parse);
            && b.data == a.data && b.wiring == a.wiring
            && Coherent(b.content.timePoint, parse)
            && (!UpdateOk(s, a, iso, c, env, parse) ==> b.content.timePoint == a.content.timePoint)
            && (UpdateOk(s, a, iso, c, env, parse) ==> b.content.timePoint == TimePoint(iso, parse(iso).value))
            && (b.control == a.control || b.control == a.control.(state := Set))
  {
  }

  lemma UpdateKeeps(s: SchedulerView, a: AlertView, iso: string, c: AssetConfiguration, env: Env,
                    parse: TimeParser)
    requires Consistent(s, parse) && a in s.queue
    ensures Consistent(UpdateAlert(s, a, iso, c, env, parse), parse)
  {
    var b := UpdatedAlert(s, a, iso, c, env, parse);
    UpdatedAlertTime(s, a, iso, c, env, parse);
    RemoveMember(s.queue, a, a);
    var q := Remove(s.queue, a);
    ShrinkQueue(s.queue, s.active, s.rows, q, parse);
    var rows := if UpdateOk(s, a, iso, c, env, parse) then Modified(s.rows, b) else s.rows;
    ModifyRow(q, s.active, s.rows, b, parse);
    GrowQueueIff(q, s.active, rows, b, parse);
    ReinsertFrame(s.(queue := q, rows := rows), b, env);
  }

  // --------------------------------------------------------------- scheduling

  predicate WouldStore(s: SchedulerView, a: AlertView, env: Env) {
    && Acceptable(s, a, env)
    && Queued(s, a.data.token).None?
    && StoreOk(s.rows, a, env.disk(a.data.token))
  }

  lemma StoreNewIff(s: SchedulerView, a: AlertView, env: Env, parse: TimeParser)
    requires Consistent(s, parse) && NoToken(s.queue, a.data.token) && StoreOk(s.rows, a, env.disk(a.data.token))
    ensures Consistent(StoreNew(s, a, env), parse) <==> Coherent(a.content.timePoint, parse)
  {
    var id := NextId(s.rows);
    var rows := s.rows[id := RecordOf(a)];
    var b := Connect(a.(data := a.data.(dbId := id)));
    ReinsertFrame(s.(rows := rows), b, env);
    if Coherent(a.content.timePoint, parse) {
      StoreKeepsRows(s.rows, a, parse);
      GrowQueueIff(s.queue, s.active, rows, b, parse);
    } else {
      assert id in rows && !Coherent(rows[id].timePoint, parse);
    }
  }

  /** Scheduling keeps the invariant except for an alert that is stored without a converted time. */
  lemma ScheduleKeepsIff(s: SchedulerView, a: AlertView, env: Env, parse: TimeParser)
    requires Consistent(s, parse)
    ensures Consistent(ScheduleAlert(s, a, env, parse), parse) <==>
            WouldStore(s, a, env) ==> Coherent(a.content.timePoint, parse)
  {
    QueuedProperties(s, a.data.token);
    if Acceptable(s, a, env) {
      match Queued(s, a.data.token)
      case Some(before) =>
        UpdateKeeps(s, before, a.content.timePoint.iso, a.content.assets, env, parse);
      case None =>
        if StoreOk(s.rows, a, env.disk(a.data.token)) {
          StoreNewIff(s, a, env, parse);
        }
    }
  }

  // ------------------------------------------------------------------- reload

  /** Alerts as a load yields them: converted times, rows of their own, and one alert for each token. */
  ghost predicate LoadedOk(alerts: seq<AlertView>, rows: Rows, parse: TimeParser) {
    && (forall i :: 0 <= i < |alerts| ==> Coherent(alerts[i].content.timePoint, parse) && Backed(rows, alerts[i]))
    && (forall i, j :: 0 <= i < j < |alerts| ==> alerts[i].data.token != alerts[j].data.token)
  }

  /** The alert is not queued, and its row is as it was loaded. */
  ghost predicate Waiting(s: SchedulerView, a: AlertView) {
    NoToken(s.queue, a.data.token) && Backed(s.rows, a)
  }

  lemma LoadIsOk(rows: Rows, scan: seq<int>, parse: TimeParser)
    requires RowsOk(rows, parse) && IsScan(rows, scan)
    ensures LoadedOk(LoadRows(rows, scan, parse), rows, parse)
  {
    LoadedAlerts(rows, scan, parse);
  }

  /** The loaded alert as it is queued: an alert stored as active is set again. */
  function Renewed(a: AlertView): AlertView {
    Connect(if a.control.state == Active then Reset(a) else a)
  }

  lemma ReloadOneFrame(s: SchedulerView, a: AlertView, now: int, env: Env)
    ensures var t := ReloadOne(s, a, now, env);
            && t == s.(queue := t.queue, rows := t.rows, sent := t.sent)
            && t.queue == (if IsActiveToken(s, a.data.token) || IsPastDue(a, now, s.pastDueLimit) then s.queue
                           else Insert(s.queue, Renewed(a)))
            && t.rows == (if IsActiveToken(s, a.data.token) || !WriteOk(s.rows, a, env.disk(a.data.token)) then s.rows
                          else if IsPastDue(a, now, s.pastDueLimit) then Erased(s.rows, a)
                          else if a.control.state == Active then Modified(s.rows, Reset(a))
                          else s.rows)
  {
  }

  lemma ReloadOneKeeps(s: SchedulerView, a: AlertView, now: int, env: Env, parse: TimeParser)
    requires Consistent(s, parse) && Waiting(s, a) && Coherent(a.content.timePoint, parse)
    ensures var t := ReloadOne(s, a, now, env);
            Consistent(t, parse) && t.active == s.active && t.wake == s.wake && t.focus == s.focus
  {
    var t := ReloadOne(s, a, now, env);
    ReloadOneFrame(s, a, now, env);
    if IsActiveToken(s, a.data.token) {
    } else if IsPastDue(a, now, s.pastDueLimit) {
      ShrinkRows(s.queue, s.active, s.rows, t.rows, parse);
    } else {
      var b := Renewed(a);
      ModifyRow(s.queue, s.active, s.rows, b, parse);
      assert Modified(s.rows, b) == Modified(s.rows, Reset(a)) || a.control.state != Active;
      GrowQueueIff(s.queue, s.active, t.rows, b, parse);
    }
  }

  lemma ReloadOneWaits(s: SchedulerView, a: AlertView, now: int, env: Env, b: AlertView)
    requires Sorted(s.queue) && Waiting(s, a) && Waiting(s, b) && b.data.token != a.data.token
    ensures Waiting(ReloadOne(s, a, now, env), b)
  {
    ReloadOneFrame(s, a, now, env);
    DifferentRows(s.rows, a, b);
    InsertNew(s.queue, Renewed(a));
  }

  lemma {:induction false} ReloadAllSorted(s: SchedulerView, alerts: seq<AlertView>, now: int, env: Env)
    requires Sorted(s.queue)
    ensures Sorted(ReloadAll(s, alerts, now, env).queue)
  {
    if alerts != [] {
      var n := |alerts| - 1;
      ReloadAllSorted(s, alerts[..n], now, env);
      var t := ReloadAll(s, alerts[..n], now, env);
      ReloadOneFrame(t, alerts[n], now, env);
      InsertSorted(t.queue, Renewed(alerts[n]));
    }
  }

  ghost predicate AllWaiting(s: SchedulerView, alerts: seq<AlertView>) {
    && (forall i :: 0 <= i < |alerts| ==> Waiting(s, alerts[i]))
    && (forall i, j :: 0 <= i < j < |alerts| ==> alerts[i].data.token != alerts[j].data.token)
  }

  lemma AllButLastWaiting(s: SchedulerView, alerts: seq<AlertView>)
    requires AllWaiting(s, alerts) && alerts != []
    ensures var n := |alerts| - 1;
            && AllWaiting(s, alerts[..n]) && Waiting(s, alerts[n]) && NoToken(alerts[..n], alerts[n].data.token)
  {
  }

  /** Reloading some alerts leaves every other one waiting. */
  lemma {:induction false} ReloadAllWaits(s: SchedulerView, alerts: seq<AlertView>, now: int, env: Env, b: AlertView)
    requires Sorted(s.queue) && AllWaiting(s, alerts)
    requires Waiting(s, b) && NoToken(alerts, b.data.token)
    ensures Waiting(ReloadAll(s, alerts, now, env), b)
    decreases |alerts|
  {
    if alerts != [] {
      var n := |alerts| - 1;
      AllButLastWaiting(s, alerts);
      assert alerts[n] in alerts;
      assert forall x :: x in alerts[..n] ==> x in alerts;
      ReloadAllSorted(s, alerts[..n], now, env);
      ReloadAllWaits(s, alerts[..n], now, env, alerts[n]);
      ReloadAllWaits(s, alerts[..n], now, env, b);
      ReloadOneWaits(ReloadAll(s, alerts[..n], now, env), alerts[n], now, env, b);
    }
  }

  lemma {:induction false} ReloadAllKeeps(s: SchedulerView, alerts: seq<AlertView>, now: int, env: Env,
                                          parse: TimeParser)
    requires Consistent(s, parse) && AllWaiting(s, alerts)
    requires forall i :: 0 <= i < |alerts| ==> Coherent(alerts[i].content.timePoint, parse)
    ensures var t := ReloadAll(s, alerts, now, env);
            Consistent(t, parse) && t.active == s.active && t.wake == s.wake && t.focus == s.focus
  {
    if alerts != [] {
      var n := |alerts| - 1;
      AllButLastWaiting(s, alerts);
      ReloadAllKeeps(s, alerts[..n], now, env, parse);
      ReloadAllWaits(s, alerts[..n], now, env, alerts[n]);
      ReloadOneKeeps(ReloadAll(s, alerts[..n], now, env), alerts[n], now, env, parse);
    }
  }

  /** What the unscheduled reload queues: every loaded alert, wired. */
  ghost predicate QueuesExactly(q: seq<AlertView>, alerts: seq<AlertView>) {
    && |q| == |alerts|
    && forall x :: x in q <==> exists i :: 0 <= i < |alerts| && x == Connect(alerts[i])
  }

  lemma QueuesOneMore(q: seq<AlertView>, alerts: seq<AlertView>, a: AlertView)
    requires Sorted(q) && QueuesExactly(q, alerts) && NoToken(alerts, a.data.token)
    ensures NoToken(q, a.data.token)
    ensures QueuesExactly(Insert(q, Connect(a)), alerts + [a])
  {
    var more, q' := alerts + [a], Insert(q, Connect(a));
    assert more[|alerts|] == a;
    assert forall i :: 0 <= i < |alerts| ==> more[i] == alerts[i];
    assert forall i :: 0 <= i < |alerts| ==> alerts[i] in alerts;
    InsertNew(q, Connect(a));
    forall x
      ensures x in q' <==> exists i :: 0 <= i < |more| && x == Connect(more[i])
    {
      if x in q {
        var i :| 0 <= i < |alerts| && x == Connect(alerts[i]);
        assert x == Connect(more[i]);
      }
    }
  }

  lemma {:induction false} InsertAllMembers(alerts: seq<AlertView>, rows: Rows, parse: TimeParser)
    requires RowsOk(rows, parse) && LoadedOk(alerts, rows, parse)
    ensures QueueOk(InsertAll([], alerts), rows, parse)
    ensures QueuesExactly(InsertAll([], alerts), alerts)
  {
    if alerts != [] {
      var n := |alerts| - 1;
      var init, a := alerts[..n], alerts[n];
      assert forall i :: 0 <= i < n ==> init[i] == alerts[i];
      InsertAllMembers(init, rows, parse);
      assert alerts == init + [a];
      assert NoToken(init, a.data.token);
      QueuesOneMore(InsertAll([], init), init, a);
      GrowQueueIff(InsertAll([], init), None, rows, Connect(a), parse);
    }
  }

  /** Some loaded alert has the token of the active one, which only the scheduling reload filters out. */
  ghost predicate LoadsActive(s: SchedulerView, env: Env, parse: TimeParser) {
    s.active.Some? && !NoToken(LoadRows(s.rows, env.scan, parse), s.active.value.data.token)
  }

  lemma ReloadKeepsIff(s: SchedulerView, shouldSchedule: bool, env: Env, parse: TimeParser)
    requires Consistent(s, parse) && IsScan(s.rows, env.scan)
    ensures Consistent(ReloadAlerts(s, shouldSchedule, env, parse), parse) <==>
            !(env.now.Some? && !shouldSchedule && LoadsActive(s, env, parse))
  {
    if env.now.Some? {
      var loaded := LoadRows(s.rows, env.scan, parse);
      LoadIsOk(s.rows, env.scan, parse);
      var s1 := StopTimer(s.(wake := s.wake.(shouldSchedule := shouldSchedule))).(queue := []);
      ShrinkQueue(s.queue, s.active, s.rows, [], parse);
      if shouldSchedule {
        ReloadAllKeeps(s1, loaded, env.now.value, env, parse);
        SetTimerFrame(ReloadAll(s1, loaded, env.now.value, env), env);
      } else {
        InsertAllMembers(loaded, s.rows, parse);
        var q := InsertAll([], loaded);
        if s.active.Some? {
          UnscheduledTokens(loaded, q, s.active.value.data.token);
        }
      }
    }
  }

  lemma UnscheduledTokens(loaded: seq<AlertView>, q: seq<AlertView>, token: string)
    requires forall x :: x in q <==> exists i :: 0 <= i < |loaded| && x == Connect(loaded[i])
    ensures NoToken(q, token) <==> NoToken(loaded, token)
  {
    if !NoToken(loaded, token) {
      var i :| 0 <= i < |loaded| && loaded[i].data.token == token;
      assert Connect(loaded[i]) in q;
    }
  }

  // ----------------------------------------------------------------- deletion

  /** The named alerts are those with a listed token, and each is the active alert or a queued one. */
  lemma {:induction false} NamedAlerts(s: SchedulerView, tokens: seq<string>)
    ensures forall x :: x in Named(s, tokens) ==>
              x.data.token in tokens && (x in s.queue || s.active == Some(x))
    ensures Distinct(s.queue) ==>
              forall x | x in s.queue && x.data.token in tokens && !IsActiveToken(s, x.data.token) ::
                x in Named(s, tokens)
    ensures s.active.Some? && s.active.value.data.token in tokens ==> s.active.value in Named(s, tokens)
  {
    if tokens != [] {
      var n := |tokens| - 1;
      NamedAlerts(s, tokens[..n]);
      QueuedProperties(s, tokens[n]);
      assert tokens == tokens[..n] + [tokens[n]];
    }
  }

  /** Removing named alerts leaves the queue without exactly those. */
  lemma {:induction false} RemoveAllMembers(s: SchedulerView, alerts: seq<AlertView>)
    requires Sorted(s.queue) && Distinct(s.queue)
    requires forall a :: a in alerts ==> a in s.queue || NoToken(s.queue, a.data.token)
    ensures var t := RemoveAll(s, alerts);
            && t == s.(queue := t.queue, sent := t.sent)
            && Sorted(t.queue) && Distinct(t.queue)
            && forall x :: x in t.queue <==> x in s.queue && x !in alerts
  {
    if alerts != [] {
      var n := |alerts| - 1;
      assert alerts == alerts[..n] + [alerts[n]];
      RemoveAllMembers(s, alerts[..n]);
      var t := RemoveAll(s, alerts[..n]);
      if alerts[n] in t.queue {
        RemoveMember(t.queue, alerts[n], alerts[n]);
      } else if alerts[n] in s.queue {
        forall x | x in t.queue
          ensures x.data.token != alerts[n].data.token
        {
          assert x in s.queue;
        }
        RemoveAbsent(t.queue, alerts[n]);
      } else {
        RemoveAbsent(t.queue, alerts[n]);
      }
    }
  }

  /** The rows a successful bulk deletion leaves: those of no named alert. */
  lemma BulkErasedRows(s: SchedulerView, tokens: seq<string>, env: Env, parse: TimeParser)
    requires Consistent(s, parse) && DeleteAlertsOk(s, tokens, env)
    ensures forall k :: k in BulkErased(s.rows, Named(s, tokens), env.bulkDisk) <==>
              k in s.rows && forall x :: x in Named(s, tokens) ==> x.data.dbId != k
    ensures forall k :: k in BulkErased(s.rows, Named(s, tokens), env.bulkDisk) ==>
              BulkErased(s.rows, Named(s, tokens), env.bulkDisk)[k] == s.rows[k]
  {
    var list := Named(s, tokens);
    NamedAlerts(s, tokens);
    forall i | 0 <= i < |list|
      ensures Owns(s.rows, list[i])
    {
      assert list[i] in list;
    }
    EraseAllSucceedsIff(s.rows, list, parse);
    if list != [] {
      assert BulkErased(s.rows, list, env.bulkDisk) == s.rows - (set i | 0 <= i < |list| :: list[i].data.dbId);
    }
  }

  lemma DeleteAlertsKeeps(s: SchedulerView, tokens: seq<string>, env: Env, parse: TimeParser)
    requires Consistent(s, parse)
    ensures Consistent(DeleteAlerts(s, tokens, env), parse)
  {
    if DeleteAlertsOk(s, tokens, env) {
      var list := Named(s, tokens);
      NamedAlerts(s, tokens);
      var rows := BulkErased(s.rows, list, env.bulkDisk);
      BulkErasedRows(s, tokens, env, parse);
      var active := if s.active.Some? && s.active.value.data.token in tokens then None else s.active;
      var t := s.(rows := rows, active := active);
      RemoveAllMembers(t, list);
      SetTimerFrame(RemoveAll(t, list), env);
      var q := RemoveAll(t, list).queue;
      ShrinkQueue(s.queue, s.active, s.rows, q, parse);
      forall a, x | (a in q || active == Some(a)) && x in list
        ensures x.data.dbId != a.data.dbId
      {
        if a.data.token != x.data.token {
          DifferentRows(s.rows, a, x);
        }
      }
      ShrinkRows(q, active, s.rows, rows, parse);
    }
  }

  // ------------------------------------------------- focus, notifications, rest

  /** A focus change or an activation changes neither the identity nor the time of its alert. */
  lemma FocusFrame(a: AlertView, focus: FocusState)
    ensures var b := SetFocusState(a, focus);
            && b.data == a.data && b.content == a.content
            && b.wiring.hasRenderer == a.wiring.hasRenderer
            && b.control.focusState == focus && b.control.state == a.control.state
  {
  }

  lemma ActivateFrame(a: AlertView, timerStarts: bool)
    ensures var b := Activate(a, timerStarts);
            && b.data == a.data && b.content.timePoint == a.content.timePoint
            && b.wiring.hasRenderer == a.wiring.hasRenderer
            && b.control.focusState == a.control.focusState && Ringing(b)
  {
  }

  /** Activation moves the head of the queue, with its identity and time, to the active place. */
  lemma ActivateNextFrame(s: SchedulerView, env: Env)
    requires s.active.None? && s.queue != []
    ensures var t := ActivateNextAlert(s, env);
            && t == s.(queue := s.queue[1..], active := t.active) && t.active.Some?
            && t.active.value.data == s.queue[0].data
            && t.active.value.content.timePoint == s.queue[0].content.timePoint
            && t.active.value.wiring.hasRenderer == s.queue[0].wiring.hasRenderer
            && t.active.value.control.focusState == s.focus && Ringing(t.active.value)
  {
    FocusFrame(s.queue[0], s.focus);
    ActivateFrame(SetFocusState(s.queue[0], s.focus), env.maxTimerStarts);
  }

  lemma ActivationKeeps(s: SchedulerView, env: Env, parse: TimeParser)
    requires Consistent(s, parse)
    ensures Consistent(ActivateNextAlert(s, env), parse)
  {
    if s.active.None? && s.queue != [] {
      ActivateNextFrame(s, env);
      assert s.queue[0] in s.queue && s.queue == [s.queue[0]] + s.queue[1..];
      forall x | x in s.queue[1..]
        ensures x.data.token != s.queue[0].data.token
      {
        HeadOnce(s.queue, x);
      }
      ShrinkQueue(s.queue, None, s.rows, s.queue[1..], parse);
    }
  }

  lemma FocusKeeps(s: SchedulerView, focus: FocusState, env: Env, parse: TimeParser)
    requires Consistent(s, parse)
    ensures Consistent(UpdateFocus(s, focus, env), parse)
  {
    if s.active.None? {
      ActivationKeeps(s.(focus := focus), env, parse);
    } else {
      FocusFrame(s.active.value, focus);
    }
  }

  /** Clearing empties the queue; it keeps the invariant unless the active alert loses its row. */
  lemma ClearKeepsIff(s: SchedulerView, reason: StopReason, env: Env, parse: TimeParser)
    requires Consistent(s, parse)
    ensures Consistent(ClearData(s, reason, env), parse) <==> s.active.None? || !env.bulkDisk
  {
    NotifyDeletedFrame(StopTimer(DeactivateActive(s, reason)), s.queue);
    ShrinkQueue(s.queue, s.active, s.rows, [], parse);
  }

  lemma {:induction false} NotifyDeletedFrame(s: SchedulerView, alerts: seq<AlertView>)
    ensures NotifyDeleted(s, alerts) == s.(sent := NotifyDeleted(s, alerts).sent)
    ensures s.sent <= NotifyDeleted(s, alerts).sent
  {
    if alerts != [] {
      NotifyDeletedFrame(s, alerts[..|alerts| - 1]);
    }
  }

  /** A stop reported for an alert that is queued, not active, takes its row and leaves it queued. */
  predicate StrandsQueued(s: SchedulerView, token: string, env: Env) {
    Queued(s, token).Some? && !IsActiveToken(s, token) && env.disk(token)
  }

  lemma StoppedKeepsIff(s: SchedulerView, note: Sent, env: Env, parse: TimeParser)
    requires Consistent(s, parse)
    ensures Consistent(OnStopped(s, note, env), parse) <==> !StrandsQueued(s, note.token, env)
  {
    var t := s.(sent := s.sent + [note]);
    QueuedProperties(t, note.token);
    if IsActiveToken(t, note.token) {
      DropActiveKeeps(t, env, parse);
      SetTimerFrame(DropActive(t, env), env);
    } else if Queued(t, note.token).Some? {
      var a := Queued(t, note.token).value;
      var u := EraseAlert(t, a, env);
      EraseAlertFrame(t, a, env);
      SetTimerFrame(u, env);
      assert Backed(s.rows, a) && a.data.dbId !in Erased(s.rows, a);
    } else {
      SetTimerFrame(t, env);
    }
  }

  /** A snoozed alert is requeued with its new time; its row must take the time too. */
  predicate RowTakesTime(s: SchedulerView, env: Env)
    requires s.active.Some?
  {
    env.disk(s.active.value.data.token) || Backed(s.rows, s.active.value)
  }

  lemma SnoozedKeepsIff(s: SchedulerView, note: Sent, env: Env, parse: TimeParser)
    requires Consistent(s, parse) && s.active.Some?
    ensures Consistent(OnSnoozed(s, note, env), parse) <==> RowTakesTime(s, env)
  {
    var a := s.active.value;
    var t := ModifyAlert(s, a, env);
    ModifyRow(s.queue, s.active, s.rows, a, parse);
    ShrinkQueue(s.queue, s.active, t.rows, s.queue, parse);
    GrowQueueIff(s.queue, None, t.rows, a, parse);
    SetTimerFrame(t.(queue := Insert(t.queue, a), active := None, sent := t.sent + [note]), env);
  }

  lemma StartedKeeps(s: SchedulerView, note: Sent, env: Env, parse: TimeParser)
    requires Consistent(s, parse)
    ensures Consistent(OnStarted(s, note, env), parse)
  {
    if s.active.Some? && s.active.value.control.state == Activating {
      ModifyRow(s.queue, s.active, s.rows, SetStateActive(s.active.value), parse);
    }
  }

  lemma CompletedAndFailedKeep(s: SchedulerView, note: Sent, env: Env, parse: TimeParser)
    requires Consistent(s, parse)
    ensures Consistent(OnCompleted(s, note, env), parse)
    ensures Consistent(OnError(s, note, env), parse)
  {
    var t := s.(sent := s.sent + [note]);
    DropActiveKeeps(t, env, parse);
    SetTimerFrame(DropActive(t, env), env);
    DropActiveKeeps(s, env, parse);
    SetTimerFrame(DropActive(s, env), env);
    QueuedProperties(s, note.token);
    if Queued(s, note.token).Some? {
      DropQueued(s, Queued(s, note.token).value, env, parse);
    }
  }

  /** A callback changes neither the identity nor the time nor the wiring of its alert, and does not
      make it ring. */
  ghost predicate SameAlert(a: AlertView, b: AlertView) {
    && b.data == a.data
    && b.content.timePoint == a.content.timePoint
    && b.wiring.hasRenderer == a.wiring.hasRenderer
    && b.control.focusState == a.control.focusState
    && (b.control.state == a.control.state || !Ringing(b))
  }

  lemma EventFrame(a: AlertView, event: RendererState, reason: string)
    ensures SameAlert(a, OnRendererStateChange(a, event, reason))
  {
    match event
    case RendererStarted => assert SameAlert(a, OnRendererStarted(a));
    case RendererStopped => assert SameAlert(a, OnRendererStopped(a));
    case RendererError => assert SameAlert(a, OnRendererError(a, reason));
    case _ =>
  }

  lemma CallbackFrame(a: AlertView, c: Callback)
    ensures SameAlert(a, CallBack(a, c))
  {
    match c
    case Rendered(event, reason) => EventFrame(a, event, reason);
    case _ =>
  }

  lemma CallbackKeeps(s: SchedulerView, i: nat, c: Callback, parse: TimeParser)
    requires Consistent(s, parse) && i < |s.queue|
    ensures Consistent(s.(queue := s.queue[i := CallBack(s.queue[i], c)]), parse)
  {
    var a, b := s.queue[i], CallBack(s.queue[i], c);
    CallbackFrame(a, c);
    ReplaceSorted(s.queue, i, b);
    assert a in s.queue;
    assert Healthy(b, parse) && Backed(s.rows, b);
  }

  // -------------------------------------------------------------------- theorem

  /** The exact guard of the invariant: what a caller can check before an operation. */
  ghost predicate Safe(s: SchedulerView, op: Op, env: Env, parse: TimeParser)
    requires Enabled(s, op, env)
  {
    match op
    case DoSchedule(a) => WouldStore(s, a, env) ==> Coherent(a.content.timePoint, parse)
    case DoReload(shouldSchedule) => env.now.None? || shouldSchedule || !LoadsActive(s, env, parse)
    case DoClear(_) => s.active.None? || !env.bulkDisk
    case DoNote(note) =>
      && (note.state == HasStopped ==> !StrandsQueued(s, note.token, env))
      && (note.state == HasSnoozed ==> RowTakesTime(s, env))
    case _ => true
  }

  lemma NoteKeepsIff(s: SchedulerView, note: Sent, env: Env, parse: TimeParser)
    requires Consistent(s, parse) && Enabled(s, DoNote(note), env)
    ensures Consistent(OnAlertStateChange(s, note, env), parse) <==> Safe(s, DoNote(note), env, parse)
  {
    match note.state
    case Started => StartedKeeps(s, note, env, parse);
    case HasStopped => StoppedKeepsIff(s, note, env, parse);
    case HasSnoozed => SnoozedKeepsIff(s, note, env, parse);
    case HasCompleted => CompletedAndFailedKeep(s, note, env, parse);
    case Failed => CompletedAndFailedKeep(s, note, env, parse);
    case _ =>
  }

  /** Every operation keeps the structural invariant exactly when its guard holds. */
  lemma StepKeepsConsistencyIff(s: SchedulerView, op: Op, env: Env, parse: TimeParser)
    requires Consistent(s, parse) && Enabled(s, op, env)
    ensures Consistent(Step(s, op, env, parse), parse) <==> Safe(s, op, env, parse)
  {
    match op
    case DoSchedule(a) => ScheduleKeepsIff(s, a, env, parse);
    case DoReload(shouldSchedule) => ReloadKeepsIff(s, shouldSchedule, env, parse);
    case DoDelete(token) =>
      QueuedProperties(s, token);
      if !IsActiveToken(s, token) && Queued(s, token).Some? {
        DropQueued(s, Queued(s, token).value, env, parse);
      }
    case DoDeleteAll(tokens) => DeleteAlertsKeeps(s, tokens, env, parse);
    case DoFocus(focus) => FocusKeeps(s, focus, env, parse);
    case DoClear(reason) => ClearKeepsIff(s, reason, env, parse);
    case DoNote(note) => NoteKeepsIff(s, note, env, parse);
    case DoActiveCallback(c) => CallbackFrame(s.active.value, c);
    case DoQueuedCallback(i, c) => CallbackKeeps(s, i, c, parse);
    case _ =>
  }
}
