/** What the operations of the scheduler come to in plain terms: which times are served first and which are too
    late, what stops an alert, and what a start leaves on record. */
module SchedulerEffects {
  import opened AlertTypes
  import opened AlertOrdering
  import opened AlertLifecycle
  import opened AlertRecords
  import opened AlertQueue
  import opened SchedulerModel
  import opened SchedulerConsistency
  import opened SchedulerQuiet
  import opened SchedulerReload
  import opened SchedulerOrder
  import opened SchedulerRuns
  import opened SchedulerUpdates
  import opened ClosedScheduler
  import AlertEffects

  // ---------------------------------------------------------------------- time

  /** After the timer was set, what it is armed for or has been announced is an alert of the queue, and no queued
      alert is due before it. */
  lemma EarliestIsServed(s: SchedulerView, env: Env)
    requires Sorted(s.queue) && s.wake.shouldSchedule
    ensures var w := SetTimerForNextAlert(s, env).wake;
            && (w.timer.Some? ==>
                  && (exists x :: x in s.queue && x.data.token == w.timer.value.token
                                  && x.content.timePoint.unix == w.timer.value.firesAt)
                  && forall x :: x in s.queue ==> w.timer.value.firesAt <= x.content.timePoint.unix)
            && (w.announced.Some? ==>
                  && (exists x :: x in s.queue && x.data.token == w.announced.value.token
                                  && x.content.timePoint.unix == w.announced.value.unix)
                  && forall x :: x in s.queue ==> w.announced.value.unix <= x.content.timePoint.unix)
  {
    if s.queue != [] {
      assert s.queue[0] in s.queue;
      forall x | x in s.queue
        ensures s.queue[0].content.timePoint.unix <= x.content.timePoint.unix
      {
        if x != s.queue[0] {
          HeadIsEarliest(s.queue, x);
        }
      }
    }
  }

  /** The timer is set for no time that has come, and nothing is announced before its time. */
  lemma TimerKeepsTime(s: SchedulerView, env: Env)
    requires s.wake.shouldSchedule && env.timerClock.Some?
    ensures var w := SetTimerForNextAlert(s, env).wake;
            && (w.timer.Some? ==> w.timer.value.firesAt > env.timerClock.value && env.timerStarts)
            && (w.announced.Some? ==> w.announced.value.unix <= env.timerClock.value)
            && (s.active.Some? || s.queue == [] ==> w.timer == None && w.announced == None)
            && (s.active.None? && s.queue != [] && env.timerStarts ==> w.timer.Some? || w.announced.Some?)
  {
  }

  /** Without the switch nothing at all is set. */
  lemma TimerWaitsForTheSwitch(s: SchedulerView, env: Env)
    requires !s.wake.shouldSchedule
    ensures SetTimerForNextAlert(s, env) == s
  {
  }

  predicate Asleep(w: Wake) {
    !w.shouldSchedule && w.timer == None && w.announced == None
  }

  lemma NoteSleeps(s: SchedulerView, note: Sent, env: Env)
    requires Asleep(s.wake) && Enabled(s, DoNote(note), env)
    ensures OnAlertStateChange(s, note, env).wake == s.wake
  {
    match note.state
    case HasStopped => assert OnAlertStateChange(s, note, env) == OnStopped(s, note, env);
    case HasSnoozed => assert OnAlertStateChange(s, note, env) == OnSnoozed(s, note, env);
    case Failed => assert OnAlertStateChange(s, note, env) == OnError(s, note, env);
    case Started => assert OnAlertStateChange(s, note, env) == OnStarted(s, note, env);
    case _ =>
  }

  lemma StepSleeps(s: SchedulerView, op: Op, env: Env, parse: TimeParser)
    requires Asleep(s.wake) && Enabled(s, op, env) && op != DoReload(true)
    ensures Step(s, op, env, parse).wake == s.wake
  {
    match op
    case DoDeleteAll(tokens) =>
      if DeleteAlertsOk(s, tokens, env) {
        var list := Named(s, tokens);
        var t := s.(rows := BulkErased(s.rows, list, env.bulkDisk),
                    active := if s.active.Some? && s.active.value.data.token in tokens then None else s.active);
        RemoveAllFrame(t, list);
        TimerWaitsForTheSwitch(RemoveAll(t, list), env);
      }
    case DoClear(reason) => NotifyDeletedFrame(StopTimer(DeactivateActive(s, reason)), s.queue);
    case DoNote(note) => NoteSleeps(s, note, env);
    case _ =>
  }

  lemma {:induction false} RunSleeps(s: SchedulerView, moves: seq<Move>, parse: TimeParser)
    requires Asleep(s.wake) && Runnable(s, moves, parse)
    requires forall k :: 0 <= k < |moves| ==> moves[k].op != DoReload(true)
    ensures SchedulerRuns.Run(s, moves, parse).wake == s.wake
    decreases |moves|
  {
    if moves != [] {
      StepSleeps(s, moves[0].op, moves[0].env, parse);
      RunSleeps(Step(s, moves[0].op, moves[0].env, parse), moves[1..], parse);
    }
  }

  /** A new scheduler arms no timer and announces no alert before the first load that asks for scheduling,
      whatever else happens. */
  lemma NothingWakesBeforeTheLoad(rows: Rows, limit: int, moves: seq<Move>, parse: TimeParser)
    requires Runnable(InitialView(rows, limit), moves, parse)
    requires forall k :: 0 <= k < |moves| ==> moves[k].op != DoReload(true)
    ensures var w := SchedulerRuns.Run(InitialView(rows, limit), moves, parse).wake;
            !w.shouldSchedule && w.timer == None && w.announced == None
  {
    RunSleeps(InitialView(rows, limit), moves, parse);
  }

  /** Of all queued alerts, one of the earliest is activated, and of these the one with the least token. */
  lemma EarliestIsActivated(s: SchedulerView, env: Env, x: AlertView)
    requires Sorted(s.queue) && s.active.None? && x in s.queue
    ensures var a := ActivateNextAlert(s, env).active;
            && a.Some?
            && a.value.content.timePoint.unix <= x.content.timePoint.unix
            && (a.value.content.timePoint.unix == x.content.timePoint.unix ==>
                  a.value.data.token == x.data.token || Precedes(a.value.data.token, x.data.token))
  {
    ActivateNextFrame(s, env);
    if x != s.queue[0] {
      HeadIsEarliest(s.queue, x);
    }
  }

  /** While nothing is inserted, re-timed or snoozed, alerts are activated in the order of their times, and at one
      time in the order of their tokens. */
  lemma DrainingRunsForwards(s: SchedulerView, moves: seq<Move>, parse: TimeParser, i: nat, j: nat)
    requires Sorted(s.queue) && Runnable(s, moves, parse)
    requires forall k :: 0 <= k < |moves| ==> Drains(moves[k].op)
    requires i < j < |Activations(s, moves, parse)|
    ensures var keys := Activations(s, moves, parse);
            && keys[i].unix <= keys[j].unix
            && (keys[i].unix == keys[j].unix ==> Precedes(keys[i].token, keys[j].token))
  {
    DrainingSorts(s, moves, parse);
    BeforeIsEarlier(Activations(s, moves, parse)[i], Activations(s, moves, parse)[j]);
  }

  // ---------------------------------------------------------------- past or not

  /** An alert whose time lies more than the limit back is refused, and so is every alert without a clock. */
  lemma TooLateIsRefused(s: SchedulerView, a: AlertView, env: Env, parse: TimeParser)
    requires env.now.None? || a.content.timePoint.unix < env.now.value - s.pastDueLimit
    ensures ScheduleAlert(s, a, env, parse) == s && !ScheduleOk(s, a, env, parse)
  {
  }

  /** A new alert of one of the three types whose time lies no further back is stored and queued, when the disk
      serves it and no row has its token. */
  lemma InTimeIsScheduled(s: SchedulerView, a: AlertView, env: Env, parse: TimeParser)
    requires Consistent(s, parse) && Coherent(a.content.timePoint, parse)
    requires env.now.Some? && a.content.timePoint.unix >= env.now.value - s.pastDueLimit
    requires a.data.alertType == "ALARM" || a.data.alertType == "TIMER" || a.data.alertType == "REMINDER"
    requires env.disk(a.data.token) && forall id :: id in s.rows ==> s.rows[id].token != a.data.token
    ensures ScheduleOk(s, a, env, parse)
    ensures var t := ScheduleAlert(s, a, env, parse);
            && |t.queue| == |s.queue| + 1
            && (exists x :: x in t.queue && x.data.token == a.data.token && x.content == a.content
                            && x.control == a.control && x.wiring.hasRenderer && x.wiring.hasObserver)
            && (exists id :: id in t.rows && t.rows[id].token == a.data.token
                             && t.rows[id].timePoint == a.content.timePoint)
            && t.active == s.active
  {
    QueuedProperties(s, a.data.token);
    forall x | x in s.queue
      ensures x.data.token != a.data.token
    {
      assert Owns(s.rows, x);
    }
    assert WouldStore(s, a, env);
    ScheduledAlert(s, a, env, parse);
    var id := NextId(s.rows);
    var b := Connect(a.(data := a.data.(dbId := id)));
    InsertNew(s.queue, b);
    var t := ScheduleAlert(s, a, env, parse);
    assert b in t.queue;
    assert id in t.rows && t.rows[id].token == a.data.token;
  }

  /** So is one whose token is both queued and active. */
  lemma ActiveTokenIsNotUpdated(s: SchedulerView, a: AlertView, env: Env, parse: TimeParser)
    requires !NoToken(s.queue, a.data.token) && s.active.Some? && s.active.value.data.token == a.data.token
    ensures ScheduleAlert(s, a, env, parse) == s && !ScheduleOk(s, a, env, parse)
  {
    QueuedProperties(s, a.data.token);
  }

  /** An alert of no such type is refused. */
  lemma UnknownTypeIsRefused(s: SchedulerView, a: AlertView, env: Env, parse: TimeParser)
    requires NoToken(s.queue, a.data.token)
    requires a.data.alertType != "ALARM" && a.data.alertType != "TIMER" && a.data.alertType != "REMINDER"
    ensures ScheduleAlert(s, a, env, parse) == s && !ScheduleOk(s, a, env, parse)
  {
    QueuedProperties(s, a.data.token);
  }

  /** A scheduling reload queues a loaded alert that is not active exactly when its time lies no further back
      than the limit; of the others it erases the rows, as far as the disk serves them. */
  lemma ReloadByTime(s: SchedulerView, env: Env, parse: TimeParser, i: nat)
    requires Consistent(s, parse) && IsScan(s.rows, env.scan) && env.now.Some?
    requires i < |LoadRows(s.rows, env.scan, parse)|
    requires var a := LoadRows(s.rows, env.scan, parse)[i];
             s.active.None? || s.active.value.data.token != a.data.token
    ensures var t, a := ReloadAlerts(s, true, env, parse), LoadRows(s.rows, env.scan, parse)[i];
            var inTime := a.content.timePoint.unix >= env.now.value - s.pastDueLimit;
            && ((exists x :: x in t.queue && x.data.token == a.data.token) <==> inTime)
            && (inTime ==> a.data.dbId in t.rows)
            && (!inTime ==> (a.data.dbId in t.rows <==> !env.disk(a.data.token)))
  {
    var t, loaded := ReloadAlerts(s, true, env, parse), LoadRows(s.rows, env.scan, parse);
    var a := loaded[i];
    LoadIsOk(s.rows, env.scan, parse);
    ReloadedTokens(s, true, env, parse, a.data.token);
    ReloadSplits(s, env, parse);
    assert RowSplit(s, loaded, env.now.value, env, t.rows, a.data.dbId);
    assert OneRow(s, a, env.now.value, env, t.rows, a.data.dbId);
    assert Stays(s, a, env.now.value) ==> Queues(s, loaded, true, env.now.value, a.data.token);
  }

  /** A queued alert of a scheduling reload is one that was loaded, wired, with its identity and content; only an
      alert stored as active differs in its state, which is set again. */
  lemma ReloadRenews(s: SchedulerView, env: Env, parse: TimeParser, x: AlertView) returns (i: nat)
    requires Consistent(s, parse) && IsScan(s.rows, env.scan) && env.now.Some?
    requires x in ReloadAlerts(s, true, env, parse).queue
    ensures i < |LoadRows(s.rows, env.scan, parse)|
    ensures var a := LoadRows(s.rows, env.scan, parse)[i];
            && x.data == a.data && x.content == a.content && x.wiring.hasRenderer && x.wiring.hasObserver
            && x.control == if a.control.state == Active then a.control.(state := Set) else a.control
  {
    var loaded := LoadRows(s.rows, env.scan, parse);
    ReloadSplits(s, env, parse);
    i :| 0 <= i < |loaded| && Stays(s.(queue := []), loaded[i], env.now.value) && x == Renewed(loaded[i]);
  }

  /** A reload sets the switch first, clock or no clock; without a clock it does nothing else, and with one and
      without the switch it leaves no timer running and every row as it was. */
  lemma ReloadSetsTheSwitch(s: SchedulerView, shouldSchedule: bool, env: Env, parse: TimeParser)
    ensures var t := ReloadAlerts(s, shouldSchedule, env, parse);
            && t.wake.shouldSchedule == shouldSchedule
            && (env.now.None? ==> t.queue == s.queue && t.rows == s.rows && t.sent == s.sent
                                  && t.wake.timer == s.wake.timer && t.active == s.active)
            && (env.now.Some? && !shouldSchedule ==> t.wake.timer == None && t.rows == s.rows && t.sent == s.sent)
  {
    if env.now.Some? && shouldSchedule {
      var s1 := StopTimer(s.(wake := s.wake.(shouldSchedule := shouldSchedule))).(queue := []);
      ReloadAllKeepsActive(s1, LoadRows(s.rows, env.scan, parse), env.now.value, env);
      SetTimerFrame(ReloadAll(s1, LoadRows(s.rows, env.scan, parse), env.now.value, env), env);
    }
  }

  // ------------------------------------------------------------------ stopping

  /** The active alert is told to stop, and why: it is stopping, its length timer no longer runs, and the last the
      renderer heard of it is a stop. */
  predicate ToldToStop(s: SchedulerView, t: SchedulerView, reason: StopReason)
    requires s.active.Some?
  {
    && t.active.Some?
    && t.active.value.data == s.active.value.data && t.active.value.content == s.active.value.content
    && t.active.value.control.state == Stopping && t.active.value.control.stopReason == reason
    && !t.active.value.control.maxLengthTimerActive
    && t.active.value.wiring.rendererCalls == s.active.value.wiring.rendererCalls + [StopCall]
  }

  lemma DeletedActiveIsStopped(s: SchedulerView, env: Env)
    requires s.active.Some?
    ensures var t := DeleteAlert(s, s.active.value.data.token, env);
            ToldToStop(s, t, AvsStop) && t.queue == s.queue && t.rows == s.rows && t.sent == s.sent
  {
  }

  lemma LocalStopStops(s: SchedulerView, env: Env, parse: TimeParser)
    requires s.active.Some?
    ensures ToldToStop(s, Step(s, DoLocalStop, env, parse), LocalStop)
  {
  }

  lemma FocusLossStops(s: SchedulerView, env: Env)
    requires s.active.Some? && s.focus != NoFocus
    ensures var t := UpdateFocus(s, NoFocus, env);
            ToldToStop(s, t, LocalStop) && t.focus == NoFocus && t.queue == s.queue && t.rows == s.rows
  {
  }

  lemma ClearStops(s: SchedulerView, reason: StopReason, env: Env)
    requires s.active.Some?
    ensures var t := ClearData(s, reason, env);
            ToldToStop(s, t, reason) && t.queue == [] && t.wake.timer == None
            && (env.bulkDisk ==> t.rows == map[]) && (!env.bulkDisk ==> t.rows == s.rows)
  {
    NotifyDeletedFrame(StopTimer(DeactivateActive(s, reason)), s.queue);
  }

  /** Whatever the focus becomes, the scheduler has it, and an active alert that is not stopped hears it. */
  lemma FocusIsTaken(s: SchedulerView, focus: FocusState, env: Env)
    ensures var t := UpdateFocus(s, focus, env);
            && t.focus == focus
            && (focus != NoFocus && focus != s.focus && t.active.Some? ==> t.active.value.control.focusState == focus)
            && (focus != NoFocus && focus != s.focus && s.queue != [] ==> t.active.Some?)
            && (focus == s.focus ==> t == s)
  {
    if s.active.Some? {
      FocusFrame(s.active.value, focus);
    } else if s.queue != [] {
      ActivateNextFrame(s.(focus := focus), env);
    }
  }

  /** The expiry of the length timer stops the alert it belongs to, active or queued, and no other. */
  lemma ExpiryStops(s: SchedulerView, env: Env, parse: TimeParser, i: nat)
    requires i < |s.queue|
    ensures var t := Step(s, DoQueuedCallback(i, MaxTimerFired), env, parse);
            && t == s.(queue := t.queue) && |t.queue| == |s.queue|
            && (forall j :: 0 <= j < |s.queue| && j != i ==> t.queue[j] == s.queue[j])
            && t.queue[i].control.state == Stopping && t.queue[i].control.hasTimerExpired
            && t.queue[i].wiring.rendererCalls == s.queue[i].wiring.rendererCalls + [StopCall]
    ensures s.active.Some? ==>
              var t := Step(s, DoActiveCallback(MaxTimerFired), env, parse);
              && t == s.(active := t.active) && t.active.Some?
              && t.active.value.control.state == Stopping && t.active.value.control.hasTimerExpired
              && t.active.value.wiring.rendererCalls == s.active.value.wiring.rendererCalls + [StopCall]
  {
    AlertEffects.RendererHears(s.queue[i], DoMaxTimer, parse);
    AlertEffects.StateLeft(s.queue[i], DoMaxTimer, parse);
  }

  // -------------------------------------------------------------------- STARTED

  /** A STARTED for an activating alert makes it active, in memory and, as far as the disk serves it, in its own
      row, and is passed on; nothing else changes. At any other time a STARTED changes nothing. */
  lemma StartedMakesActive(s: SchedulerView, note: Sent, env: Env)
    requires note.state == Started
    ensures var t := OnAlertStateChange(s, note, env);
            if s.active.Some? && s.active.value.control.state == Activating then
              && t.active == Some(s.active.value.(control := s.active.value.control.(state := Active)))
              && t.queue == s.queue && t.focus == s.focus && t.wake == s.wake
              && t.sent == s.sent + [note]
            else t == s
  {
  }

  lemma StartedIsStored(s: SchedulerView, note: Sent, env: Env, parse: TimeParser)
    requires Consistent(s, parse) && note.state == Started
    requires s.active.Some? && s.active.value.control.state == Activating
    ensures var t, a := OnAlertStateChange(s, note, env), s.active.value;
            && t.rows.Keys == s.rows.Keys
            && (forall id :: id in s.rows && id != a.data.dbId ==> t.rows[id] == s.rows[id])
            && t.rows[a.data.dbId] ==
                 if env.disk(a.data.token)
                 then s.rows[a.data.dbId].(state := Active, timePoint := a.content.timePoint)
                 else s.rows[a.data.dbId]
  {
    assert Owns(s.rows, s.active.value);
    assert HasToken(s.rows, s.active.value.data.token);
  }

  /** The gain of focus activates the head and has its renderer told to start. */
  lemma FocusStartsTheHead(s: SchedulerView, focus: FocusState, env: Env, parse: TimeParser)
    requires s.active == None && s.queue != [] && focus != NoFocus && focus != s.focus && !Ringing(s.queue[0])
    ensures var t, head := UpdateFocus(s, focus, env), s.queue[0];
            && t == s.(focus := focus, queue := s.queue[1..], active := t.active) && t.active.Some?
            && var a := t.active.value;
               && a.data == head.data && a.control.state == Activating
               && a.wiring.hasObserver == head.wiring.hasObserver
               && a.control.focusChangedDuringActivation == head.control.focusChangedDuringActivation
               && |a.wiring.rendererCalls| == |head.wiring.rendererCalls| + 1
               && a.wiring.rendererCalls[|head.wiring.rendererCalls|].StartCall?
  {
    var head := s.queue[0];
    var heard := SetFocusState(head, focus);
    FocusFrame(head, focus);
    ActivateNextFrame(s.(focus := focus), env);
    AlertEffects.RendererHears(heard, DoActivate(env.maxTimerStarts), parse);
    AlertEffects.StateLeft(heard, DoActivate(env.maxTimerStarts), parse);
  }

  function StartedNote(a: AlertView): Sent {
    Sent(a.data.token, a.data.alertType, Started, "")
  }

  lemma StartIsReported(a: AlertView)
    requires a.control.state == Activating && a.wiring.hasObserver && !a.control.focusChangedDuringActivation
    ensures var c := Rendered(RendererStarted, "");
            Reports(a, c) == [StartedNote(a)] && CallBack(a, c) == a.(wiring := CallBack(a, c).wiring)
  {
    NotifyReports(a, a, Started, "");
    assert CallBack(a, Rendered(RendererStarted, "")) == Notify(a, Started, "");
  }

  /** From the gain of focus to the sound: the head is activated and its renderer told to start; once the renderer
      has reported, and the report is handled, the alert is active, and its row says so. */
  lemma FocusThenStartedRings(s: SchedulerView, focus: FocusState, env: Env, parse: TimeParser)
    requires Consistent(s, parse) && s.active == None && s.queue != []
    requires focus != NoFocus && focus != s.focus && env.disk(s.queue[0].data.token)
    requires s.queue[0].wiring.hasObserver && !s.queue[0].control.focusChangedDuringActivation
    requires !Ringing(s.queue[0])
    ensures var head, s1, c := s.queue[0], UpdateFocus(s, focus, env), Rendered(RendererStarted, "");
            && s1.active.Some? && s1.active.value.data == head.data
            && |s1.active.value.wiring.rendererCalls| == |head.wiring.rendererCalls| + 1
            && s1.active.value.wiring.rendererCalls[|head.wiring.rendererCalls|].StartCall?
            && Reports(s1.active.value, c) == [StartedNote(head)]
            && var t := OnAlertStateChange(s1.(active := Some(CallBack(s1.active.value, c))), StartedNote(head), env);
               && t.active.Some? && t.active.value.data == head.data && t.active.value.control.state == Active
               && t.queue == s.queue[1..]
               && head.data.dbId in t.rows && t.rows[head.data.dbId].state == Active
  {
    var head, s1 := s.queue[0], UpdateFocus(s, focus, env);
    FocusStartsTheHead(s, focus, env, parse);
    StartIsReported(s1.active.value);
    FocusKeeps(s, focus, env, parse);
    var s2 := s1.(active := Some(CallBack(s1.active.value, Rendered(RendererStarted, ""))));
    StartedIsStored(s2, StartedNote(head), env, parse);
    StartedMakesActive(s2, StartedNote(head), env);
  }

  // ------------------------------------------------------------------- the rest

  /** A snooze reaches the active alert and no other, whatever its state. */
  lemma SnoozeReachesTheActive(s: SchedulerView, token: string, iso: string, parse: TimeParser)
    ensures var t := SnoozeAlert(s, token, iso, parse);
            if s.active.Some? && s.active.value.data.token == token && parse(iso).Some? then
              && t == s.(active := t.active) && t.active.Some? && t.active.value.data == s.active.value.data
              && t.active.value.control.state == Snoozing
              && t.active.value.content.timePoint == TimePoint(iso, parse(iso).value)
              && t.active.value.wiring.rendererCalls == s.active.value.wiring.rendererCalls + [StopCall]
            else t == s
  {
  }

  /** An update is refused for a malformed time, for an alert that rings or is stopping, for an incomplete asset
      configuration, and when the disk does not serve it; for nothing else. */
  lemma UpdateSucceedsIff(s: SchedulerView, a: AlertView, iso: string, c: AssetConfiguration, env: Env,
                          parse: TimeParser)
    requires Consistent(s, parse) && a in s.queue
    ensures UpdateOk(s, a, iso, c, env, parse) <==>
              && parse(iso).Some? && env.disk(a.data.token)
              && a.control.state != Activating && a.control.state != Active && a.control.state != Stopping
              && (c.backgroundAssetId == "" ||
                    (c.backgroundAssetId in c.assets && c.assets[c.backgroundAssetId].id == c.backgroundAssetId
                     && c.assets[c.backgroundAssetId].url != ""))
              && forall item :: item in c.assetPlayOrderItems ==>
                   item in c.assets && c.assets[item].id == item && c.assets[item].url != ""
  {
    assert Owns(s.rows, a);
    assert HasToken(s.rows, a.data.token);
  }
}
