/** Rescheduling an alert is a transaction, as far as its rollback can be. */
module SchedulerUpdates {
  import opened AlertTypes
  import opened AlertLifecycle
  import opened AlertRecords
  import opened AlertQueue
  import opened SchedulerModel
  import opened SchedulerConsistency
  import opened SchedulerWakeups

  /** What the update has written by the time it fails cannot be undone: the store refused a valid
      configuration, and the old one does not pass the validation that the rollback applies. */
  predicate RollbackRefused(s: SchedulerView, a: AlertView, iso: string, c: AssetConfiguration, env: Env,
                            parse: TimeParser) {
    && CanUpdateTime(a, iso, parse)
    && ValidConfiguration(c)
    && !WriteOk(s.rows, a, env.disk(a.data.token))
    && !ValidConfiguration(a.content.assets)
  }

  /** The alert an update leaves: all new on success; on failure, the old time, and the old assets exactly
      unless the rollback was refused. */
  lemma UpdatedAlertIsAllOrNothing(s: SchedulerView, a: AlertView, iso: string, c: AssetConfiguration, env: Env,
                                   parse: TimeParser)
    requires Coherent(a.content.timePoint, parse)
    ensures var b := UpdatedAlert(s, a, iso, c, env, parse);
            && b.data == a.data && b.wiring == a.wiring && b.content.loopCount == a.content.loopCount
            && b.control == (if CanUpdateTime(a, iso, parse) then a.control.(state := Set) else a.control)
            && (UpdateOk(s, a, iso, c, env, parse) ==>
                  b.content.timePoint == TimePoint(iso, parse(iso).value) && b.content.assets == c)
            && (!UpdateOk(s, a, iso, c, env, parse) ==>
                  && b.content.timePoint == a.content.timePoint
                  && b.content.assets == if RollbackRefused(s, a, iso, c, env, parse) then c else a.content.assets)
  {
  }

  /** A failed update leaves the content as it was exactly unless its rollback was refused; an old
      configuration that a parse committed can be refused, for its background asset is not checked. */
  lemma FailedUpdateRestoresIff(s: SchedulerView, a: AlertView, iso: string, c: AssetConfiguration, env: Env,
                                parse: TimeParser)
    requires Coherent(a.content.timePoint, parse) && !UpdateOk(s, a, iso, c, env, parse)
    ensures UpdatedAlert(s, a, iso, c, env, parse).content == a.content <==>
            !RollbackRefused(s, a, iso, c, env, parse)
  {
    UpdatedAlertIsAllOrNothing(s, a, iso, c, env, parse);
  }

  /** The alert comes back into the queue, at its place, whatever happened; the others are as they were. Only
      a successful update writes the row, and it writes the time and the state, not the assets. */
  lemma UpdateIsATransaction(s: SchedulerView, a: AlertView, iso: string, c: AssetConfiguration, env: Env,
                             parse: TimeParser)
    requires Consistent(s, parse) && a in s.queue
    ensures var t := UpdateAlert(s, a, iso, c, env, parse);
            var b := UpdatedAlert(s, a, iso, c, env, parse);
            && Sorted(t.queue)
            && (forall x :: x in t.queue <==> x == b || (x in s.queue && x != a))
            && t.active == s.active && t.focus == s.focus
            && (!UpdateOk(s, a, iso, c, env, parse) ==> t.rows == s.rows)
            && (UpdateOk(s, a, iso, c, env, parse) ==>
                  t.rows == s.rows[a.data.dbId := s.rows[a.data.dbId].(state := Set, timePoint := b.content.timePoint)])
  {
    var b := UpdatedAlert(s, a, iso, c, env, parse);
    UpdatedAlertIsAllOrNothing(s, a, iso, c, env, parse);
    RemoveMember(s.queue, a, a);
    var q := Remove(s.queue, a);
    var rows := if UpdateOk(s, a, iso, c, env, parse) then Modified(s.rows, b) else s.rows;
    ReinsertFrame(s.(queue := q, rows := rows), b, env);
    InsertNew(q, b);
  }

  /** The row has the assets that storing the alert would write. */
  predicate AssetsMirrored(rows: Rows, a: AlertView) {
    a.data.dbId in rows && rows[a.data.dbId].assets == RecordOf(a).assets
  }

  /** A successful update leaves the stored assets in step with the alert's exactly when it did not change
      what is stored of them, since a modification does not write them. */
  lemma UpdateMirrorsAssetsIff(s: SchedulerView, a: AlertView, iso: string, c: AssetConfiguration, env: Env,
                               parse: TimeParser)
    requires Consistent(s, parse) && a in s.queue && AssetsMirrored(s.rows, a)
    requires UpdateOk(s, a, iso, c, env, parse)
    ensures AssetsMirrored(UpdateAlert(s, a, iso, c, env, parse).rows, UpdatedAlert(s, a, iso, c, env, parse)) <==>
            Stored(c) == Stored(a.content.assets)
  {
    UpdateIsATransaction(s, a, iso, c, env, parse);
    UpdatedAlertIsAllOrNothing(s, a, iso, c, env, parse);
  }

  // -------------------------------------------------------------- round trip

  lemma ScheduledAlert(s: SchedulerView, a: AlertView, env: Env, parse: TimeParser)
    requires Consistent(s, parse) && Coherent(a.content.timePoint, parse) && WouldStore(s, a, env)
    ensures var t := ScheduleAlert(s, a, env, parse);
            var b := Connect(a.(data := a.data.(dbId := NextId(s.rows))));
            && Consistent(t, parse) && t.active == s.active && t.focus == s.focus
            && t.rows == s.rows[NextId(s.rows) := RecordOf(a)]
            && t.queue == Insert(s.queue, b) && b in t.queue && NoToken(s.queue, b.data.token)
  {
    ScheduleKeepsIff(s, a, env, parse);
    QueuedProperties(s, a.data.token);
    var id := NextId(s.rows);
    var b := Connect(a.(data := a.data.(dbId := id)));
    ReinsertFrame(s.(rows := s.rows[id := RecordOf(a)]), b, env);
    InsertNew(s.queue, b);
  }

  /** Deleting a queued alert, with the disk's help, takes out its queue entry and its row. */
  lemma DeletedAlert(s: SchedulerView, b: AlertView, env: Env, parse: TimeParser)
    requires Consistent(s, parse) && b in s.queue && env.disk(b.data.token)
    ensures var u := DeleteAlert(s, b.data.token, env);
            && u.queue == Remove(s.queue, b) && u.rows == s.rows - {b.data.dbId}
            && u.active == s.active && u.focus == s.focus
  {
    QueuedProperties(s, b.data.token);
    EraseAlertFrame(s, b, env);
    SetTimerFrame(EraseAlert(s, b, env).(queue := Remove(s.queue, b)), env);
  }

  /** Scheduling a new alert and deleting it again restores the queue and the storage exactly and keeps the
      active alert. */
  lemma ScheduleDeleteRoundTrip(s: SchedulerView, a: AlertView, env: Env, env': Env, parse: TimeParser)
    requires Consistent(s, parse) && Coherent(a.content.timePoint, parse)
    requires WouldStore(s, a, env) && env'.disk(a.data.token)
    ensures var u := DeleteAlert(ScheduleAlert(s, a, env, parse), a.data.token, env');
            u.queue == s.queue && u.rows == s.rows && u.active == s.active && u.focus == s.focus
  {
    var b := Connect(a.(data := a.data.(dbId := NextId(s.rows))));
    ScheduledAlert(s, a, env, parse);
    DeletedAlert(ScheduleAlert(s, a, env, parse), b, env', parse);
    InsertRemove(s.queue, b);
    NewRowRemoved(s.rows, NextId(s.rows), RecordOf(a));
  }

  lemma NewRowRemoved(rows: Rows, id: int, r: Record)
    requires id !in rows
    ensures rows[id := r] - {id} == rows
  {
  }

  /** The round trip leaves the original head served. */
  lemma RoundTripServesTheHead(s: SchedulerView, a: AlertView, env: Env, env': Env, parse: TimeParser)
    requires Consistent(s, parse) && Coherent(a.content.timePoint, parse)
    requires WouldStore(s, a, env) && env'.disk(a.data.token)
    requires Working(env) && Working(env') && Wakeful(s)
    requires s.wake.shouldSchedule && s.active.None? && s.queue != []
    ensures Served(DeleteAlert(ScheduleAlert(s, a, env, parse), a.data.token, env'), s.queue[0])
  {
    ScheduleDeleteRoundTrip(s, a, env, env', parse);
    var t := ScheduleAlert(s, a, env, parse);
    StepLosesNoWakeup(s, DoSchedule(a), env, parse);
    StepLosesNoWakeup(t, DoDelete(a.data.token), env', parse);
    ScheduleKeepsSwitch(s, a, env, parse);
    DeleteKeepsSwitch(t, a.data.token, env');
  }

  lemma ScheduleKeepsSwitch(s: SchedulerView, a: AlertView, env: Env, parse: TimeParser)
    requires WouldStore(s, a, env)
    ensures ScheduleAlert(s, a, env, parse).wake.shouldSchedule == s.wake.shouldSchedule
  {
    var b := Connect(a.(data := a.data.(dbId := NextId(s.rows))));
    SetTimerFrame(s.(rows := s.rows[NextId(s.rows) := RecordOf(a)], queue := Insert(s.queue, b)), env);
  }

  lemma DeleteKeepsSwitch(s: SchedulerView, token: string, env: Env)
    ensures DeleteAlert(s, token, env).wake.shouldSchedule == s.wake.shouldSchedule
  {
    if Queued(s, token).Some? {
      var b := Queued(s, token).value;
      EraseAlertFrame(s, b, env);
      SetTimerFrame(EraseAlert(s, b, env).(queue := Remove(s.queue, b)), env);
    }
  }
}
