/** What each operation of the alert scheduler does to the scheduler's state. */
module SchedulerModel {
  import opened AlertTypes
  import opened AlertOrdering
  import opened AlertLifecycle
  import opened AlertRecords
  import opened AlertQueue

  /** A notification submitted to the executor. */
  datatype Sent = Sent(token: string, alertType: string, state: ObserverState, reason: string)

  /** What the one-shot timer will announce, and the Unix time at which it fires. */
  datatype Alarm = Alarm(token: string, alertType: string, firesAt: int)

  /** The scheduling switch, the timer, and the alert last announced as ready: by the latest setting of
      the timer or by the timer's firing. */
  datatype Wake = Wake(shouldSchedule: bool, timer: Option<Alarm>, announced: Option<Key>)

  datatype SchedulerView = SchedulerView(
    queue: seq<AlertView>,
    active: Option<AlertView>,
    focus: FocusState,
    rows: Rows,
    wake: Wake,
    sent: seq<Sent>,
    pastDueLimit: int)

  /** The answers of the environment to one operation: the clock when the operation begins and when it
      sets the timer, whether timers start, whether the disk serves a given token or a bulk operation,
      and the order in which a query yields the rows. */
  datatype Env = Env(
    now: Option<int>,
    timerClock: Option<int>,
    timerStarts: bool,
    maxTimerStarts: bool,
    disk: string -> bool,
    bulkDisk: bool,
    scan: seq<int>)

  function InitialView(rows: Rows, pastDueLimit: int): SchedulerView {
    SchedulerView([], None, NoFocus, rows, Wake(false, None, None), [], pastDueLimit)
  }

  predicate IsActiveToken(s: SchedulerView, token: string) {
    s.active.Some? && s.active.value.data.token == token
  }

  // ------------------------------------------------------------------ helpers

  function NotifyObserver(s: SchedulerView, token: string, alertType: string, state: ObserverState,
                          reason: string): SchedulerView {
    s.(sent := s.sent + [Sent(token, alertType, state, reason)])
  }

  function NotifyAbout(s: SchedulerView, a: AlertView, state: ObserverState, reason: string): SchedulerView {
    NotifyObserver(s, a.data.token, a.data.alertType, state, reason)
  }

  function StopTimer(s: SchedulerView): SchedulerView {
    s.(wake := s.wake.(timer := None))
  }

  function EraseAlert(s: SchedulerView, a: AlertView, env: Env): SchedulerView {
    if WriteOk(s.rows, a, env.disk(a.data.token)) then
      NotifyAbout(s.(rows := Erased(s.rows, a)), a, Deleted, "")
    else s
  }

  function ModifyAlert(s: SchedulerView, a: AlertView, env: Env): SchedulerView {
    if WriteOk(s.rows, a, env.disk(a.data.token)) then s.(rows := Modified(s.rows, a)) else s
  }

  function WaitFor(a: AlertView, now: int): int {
    if a.content.timePoint.unix < now then 0 else a.content.timePoint.unix - now
  }

  /** Announces the head at once when it is due, and otherwise arms the timer for it. */
  function ArmFor(s: SchedulerView, head: AlertView, env: Env): SchedulerView {
    if env.timerClock.None? then s
    else if WaitFor(head, env.timerClock.value) == 0 then
      NotifyAbout(s.(wake := s.wake.(announced := Some(KeyOf(head)))), head, ReadyToStart, "")
    else if env.timerStarts then
      s.(wake := s.wake.(timer := Some(Alarm(head.data.token, head.data.alertType,
                                             env.timerClock.value + WaitFor(head, env.timerClock.value)))))
    else s
  }

  function SetTimerForNextAlert(s: SchedulerView, env: Env): SchedulerView {
    if !s.wake.shouldSchedule then s
    else
      var t := s.(wake := s.wake.(timer := None, announced := None));
      if s.active.Some? || s.queue == [] then t else ArmFor(t, s.queue[0], env)
  }

  function DeactivateActive(s: SchedulerView, reason: StopReason): SchedulerView {
    if s.active.None? then s else s.(active := Some(Deactivate(s.active.value, reason)))
  }

  function ActivateNextAlert(s: SchedulerView, env: Env): SchedulerView {
    if s.active.Some? || s.queue == [] then s
    else s.(queue := s.queue[1..],
            active := Some(Activate(SetFocusState(s.queue[0], s.focus), env.maxTimerStarts)))
  }

  // --------------------------------------------------------------- operations

  /** Puts a re-timed alert back and, when nothing is active, sets the timer again. */
  function Reinsert(s: SchedulerView, a: AlertView, env: Env): SchedulerView {
    var t := s.(queue := Insert(s.queue, a));
    if t.active.None? then SetTimerForNextAlert(t, env) else t
  }

  /** The alert with its old time again, as far as the old text can be converted. */
  function RestoreTime(a: AlertView, before: AlertView, parse: TimeParser): AlertView {
    UpdateScheduledTime(a, before.content.timePoint.iso, parse)
  }

  predicate UpdateOk(s: SchedulerView, a: AlertView, iso: string, c: AssetConfiguration, env: Env,
                     parse: TimeParser) {
    && CanUpdateTime(a, iso, parse)
    && ValidConfiguration(c)
    && WriteOk(s.rows, a, env.disk(a.data.token))
  }

  /** The alert that an update leaves behind, whether it succeeds or is rolled back. */
  function UpdatedAlert(s: SchedulerView, a: AlertView, iso: string, c: AssetConfiguration, env: Env,
                        parse: TimeParser): AlertView {
    var a1 := UpdateScheduledTime(a, iso, parse);
    var a2 := SetAssetConfiguration(a1, c);
    if !CanUpdateTime(a, iso, parse) then a
    else if !ValidConfiguration(c) then RestoreTime(a1, a, parse)
    else if !WriteOk(s.rows, a, env.disk(a.data.token)) then
      SetAssetConfiguration(RestoreTime(a2, a, parse), a.content.assets)
    else a2
  }

  function UpdateAlert(s: SchedulerView, a: AlertView, iso: string, c: AssetConfiguration, env: Env,
                       parse: TimeParser): SchedulerView {
    var b := UpdatedAlert(s, a, iso, c, env, parse);
    var t := s.(queue := Remove(s.queue, a));
    Reinsert(if UpdateOk(s, a, iso, c, env, parse) then t.(rows := Modified(s.rows, b)) else t, b, env)
  }

  predicate Acceptable(s: SchedulerView, a: AlertView, env: Env) {
    env.now.Some? && !IsPastDue(a, env.now.value, s.pastDueLimit)
  }

  function Queued(s: SchedulerView, token: string): Option<AlertView> {
    var i := Find(s.queue, token);
    if i < |s.queue| then Some(s.queue[i]) else None
  }

  ghost function StoreNew(s: SchedulerView, a: AlertView, env: Env): SchedulerView {
    var id := NextId(s.rows);
    var b := Connect(a.(data := a.data.(dbId := id)));
    Reinsert(s.(rows := s.rows[id := RecordOf(a)]), b, env)
  }

  predicate ScheduleOk(s: SchedulerView, a: AlertView, env: Env, parse: TimeParser) {
    && Acceptable(s, a, env)
    && match Queued(s, a.data.token)
       case Some(before) =>
         !IsActiveToken(s, a.data.token)
         && UpdateOk(s, before, a.content.timePoint.iso, a.content.assets, env, parse)
       case None => StoreOk(s.rows, a, env.disk(a.data.token))
  }

  ghost function ScheduleAlert(s: SchedulerView, a: AlertView, env: Env, parse: TimeParser): SchedulerView {
    if !Acceptable(s, a, env) then s
    else
      match Queued(s, a.data.token)
      case Some(before) =>
        if IsActiveToken(s, a.data.token) then s
        else UpdateAlert(s, before, a.content.timePoint.iso, a.content.assets, env, parse)
      case None =>
        if StoreOk(s.rows, a, env.disk(a.data.token)) then StoreNew(s, a, env) else s
  }

  /** One round of the reload loop. */
  function ReloadOne(s: SchedulerView, a: AlertView, now: int, env: Env): SchedulerView {
    if IsActiveToken(s, a.data.token) then s
    else if IsPastDue(a, now, s.pastDueLimit) then EraseAlert(NotifyAbout(s, a, PastDue, ""), a, env)
    else
      var b := if a.control.state == Active then Reset(a) else a;
      var t := if a.control.state == Active then ModifyAlert(s, b, env) else s;
      NotifyAbout(t.(queue := Insert(t.queue, Connect(b))), a, ScheduledForLater, a.content.timePoint.iso)
  }

  function ReloadAll(s: SchedulerView, alerts: seq<AlertView>, now: int, env: Env): SchedulerView {
    if alerts == [] then s
    else
      var n := |alerts| - 1;
      ReloadOne(ReloadAll(s, alerts[..n], now, env), alerts[n], now, env)
  }

  function InsertAll(q: seq<AlertView>, alerts: seq<AlertView>): seq<AlertView> {
    if alerts == [] then q
    else
      var n := |alerts| - 1;
      Insert(InsertAll(q, alerts[..n]), Connect(alerts[n]))
  }

  function ReloadAlerts(s: SchedulerView, shouldSchedule: bool, env: Env, parse: TimeParser): SchedulerView {
    var s0 := s.(wake := s.wake.(shouldSchedule := shouldSchedule));
    if env.now.None? then s0
    else
      var loaded := LoadRows(s.rows, env.scan, parse);
      var s1 := StopTimer(s0).(queue := []);
      if shouldSchedule then
        var s2 := ReloadAll(s1, loaded, env.now.value, env);
        if s2.active.None? then SetTimerForNextAlert(s2, env) else s2
      else s1.(queue := InsertAll([], loaded))
  }

  /** Answers true even when the new time is malformed. */
  function SnoozeAlert(s: SchedulerView, token: string, iso: string, parse: TimeParser): SchedulerView {
    if !IsActiveToken(s, token) then s
    else s.(active := Some(Snooze(s.active.value, iso, parse)))
  }

  function EraseQueued(s: SchedulerView, a: AlertView, env: Env): SchedulerView {
    var t := EraseAlert(s, a, env);
    SetTimerForNextAlert(t.(queue := Remove(t.queue, a)), env)
  }

  function DeleteAlert(s: SchedulerView, token: string, env: Env): SchedulerView {
    if IsActiveToken(s, token) then DeactivateActive(s, AvsStop)
    else
      match Queued(s, token)
      case Some(a) => EraseQueued(s, a, env)
      case None => s
  }

  /** The alert in memory with the token, if any; the active one comes first. */
  function NamedBy(s: SchedulerView, token: string): seq<AlertView> {
    if IsActiveToken(s, token) then [s.active.value]
    else match Queued(s, token)
         case Some(a) => [a]
         case None => []
  }

  /** The alerts a bulk deletion names, in the order of the tokens. */
  function Named(s: SchedulerView, tokens: seq<string>): seq<AlertView> {
    if tokens == [] then [] else Named(s, tokens[..|tokens| - 1]) + NamedBy(s, tokens[|tokens| - 1])
  }

  function RemoveAll(s: SchedulerView, alerts: seq<AlertView>): SchedulerView {
    if alerts == [] then s
    else
      var n := |alerts| - 1;
      var t := RemoveAll(s, alerts[..n]);
      NotifyAbout(t.(queue := Remove(t.queue, alerts[n])), alerts[n], Deleted, "")
  }

  predicate DeleteAlertsOk(s: SchedulerView, tokens: seq<string>, env: Env) {
    BulkEraseOk(s.rows, Named(s, tokens), env.bulkDisk)
  }

  function DeleteAlerts(s: SchedulerView, tokens: seq<string>, env: Env): SchedulerView {
    var list := Named(s, tokens);
    if !DeleteAlertsOk(s, tokens, env) then s
    else
      var t := s.(rows := BulkErased(s.rows, list, env.bulkDisk),
                  active := if s.active.Some? && s.active.value.data.token in tokens then None else s.active);
      SetTimerForNextAlert(RemoveAll(t, list), env)
  }

  function UpdateFocus(s: SchedulerView, focus: FocusState, env: Env): SchedulerView {
    if s.focus == focus then s
    else
      var t := s.(focus := focus);
      if focus == NoFocus then DeactivateActive(t, LocalStop)
      else if t.active.None? then ActivateNextAlert(t, env)
      else
        NotifyAbout(t.(active := Some(SetFocusState(t.active.value, focus))), t.active.value,
                    if focus == Foreground then EnteredForeground else EnteredBackground, "")
  }

  function NotifyDeleted(s: SchedulerView, alerts: seq<AlertView>): SchedulerView {
    if alerts == [] then s
    else
      var n := |alerts| - 1;
      NotifyAbout(NotifyDeleted(s, alerts[..n]), alerts[n], Deleted, "")
  }

  function ClearData(s: SchedulerView, reason: StopReason, env: Env): SchedulerView {
    var t := NotifyDeleted(StopTimer(DeactivateActive(s, reason)), s.queue);
    t.(queue := [], rows := if env.bulkDisk then map[] else s.rows)
  }

  // ------------------------------------------------- notifications from alerts

  function OnStarted(s: SchedulerView, note: Sent, env: Env): SchedulerView {
    if s.active.None? || s.active.value.control.state != Activating then s
    else
      var a := SetStateActive(s.active.value);
      NotifyObserver(ModifyAlert(s.(active := Some(a)), a, env), note.token, note.alertType, note.state, note.reason)
  }

  /** The active alert is erased and let go. */
  function DropActive(s: SchedulerView, env: Env): SchedulerView {
    if s.active.None? then s else EraseAlert(s, s.active.value, env).(active := None)
  }

  function OnStopped(s: SchedulerView, note: Sent, env: Env): SchedulerView {
    var t := s.(sent := s.sent + [note]);
    SetTimerForNextAlert(
      if IsActiveToken(t, note.token) then DropActive(t, env)
      else match Queued(t, note.token)
           case Some(a) => EraseAlert(t, a, env)
           case None => t,
      env)
  }

  /** Drops whatever is active, without comparing tokens. */
  function OnCompleted(s: SchedulerView, note: Sent, env: Env): SchedulerView {
    SetTimerForNextAlert(DropActive(s.(sent := s.sent + [note]), env), env)
  }

  /** Requeues whatever is active, without comparing tokens. */
  function OnSnoozed(s: SchedulerView, note: Sent, env: Env): SchedulerView
    requires s.active.Some?
  {
    var a := s.active.value;
    var t := ModifyAlert(s, a, env);
    SetTimerForNextAlert(
      t.(queue := Insert(t.queue, a), active := None, sent := t.sent + [note]), env)
  }

  function OnError(s: SchedulerView, note: Sent, env: Env): SchedulerView {
    var t :=
      if IsActiveToken(s, note.token) then SetTimerForNextAlert(DropActive(s, env), env)
      else match Queued(s, note.token)
           case Some(a) => EraseQueued(s, a, env)
           case None => s;
    t.(sent := t.sent + [note])
  }

  function OnAlertStateChange(s: SchedulerView, note: Sent, env: Env): SchedulerView
    requires note.state == HasSnoozed ==> s.active.Some?
  {
    match note.state
    case ReadyToStart => s.(sent := s.sent + [note])
    case Started => OnStarted(s, note, env)
    case HasStopped => OnStopped(s, note, env)
    case HasCompleted => OnCompleted(s, note, env)
    case HasSnoozed => OnSnoozed(s, note, env)
    case Failed => OnError(s, note, env)
    case _ => s
  }

  /** The timer fires once and announces the alert it was armed for. */
  function OnTimer(s: SchedulerView): SchedulerView {
    if s.wake.timer.None? then s
    else
      var alarm := s.wake.timer.value;
      NotifyObserver(s.(wake := s.wake.(timer := None, announced := Some(Key(alarm.firesAt, alarm.token)))),
                     alarm.token, alarm.alertType, ReadyToStart, "")
  }

  // ------------------------------------------------------ callbacks on an alert

  datatype Callback =
    | Rendered(event: RendererState, reason: string)
    | DelayedRestart
    | MaxTimerFired

  function CallBack(a: AlertView, c: Callback): AlertView {
    match c
    case Rendered(event, reason) => OnRendererStateChange(a, event, reason)
    case DelayedRestart => Restart(a)
    case MaxTimerFired => OnMaxTimerExpiration(a)
  }

  // --------------------------------------------------------------------- steps

  datatype Op =
    | DoSchedule(alert: AlertView)
    | DoReload(shouldSchedule: bool)
    | DoSnooze(token: string, iso: string)
    | DoDelete(token: string)
    | DoDeleteAll(tokens: seq<string>)
    | DoFocus(focus: FocusState)
    | DoLocalStop
    | DoClear(reason: StopReason)
    | DoNote(note: Sent)
    | DoTimer
    | DoActiveCallback(callback: Callback)
    | DoQueuedCallback(index: nat, callback: Callback)

  /** The operations that have a meaning: a snoozed notification dereferences the active alert, a query
      yields rows of the table, and a callback needs its alert. */
  predicate Enabled(s: SchedulerView, op: Op, env: Env) {
    match op
    case DoReload(_) => IsScan(s.rows, env.scan)
    case DoNote(note) => note.state == HasSnoozed ==> s.active.Some?
    case DoActiveCallback(_) => s.active.Some?
    case DoQueuedCallback(i, _) => i < |s.queue|
    case _ => true
  }

  ghost function Step(s: SchedulerView, op: Op, env: Env, parse: TimeParser): SchedulerView
    requires Enabled(s, op, env)
  {
    match op
    case DoSchedule(a) => ScheduleAlert(s, a, env, parse)
    case DoReload(shouldSchedule) => ReloadAlerts(s, shouldSchedule, env, parse)
    case DoSnooze(token, iso) => SnoozeAlert(s, token, iso, parse)
    case DoDelete(token) => DeleteAlert(s, token, env)
    case DoDeleteAll(tokens) => DeleteAlerts(s, tokens, env)
    case DoFocus(focus) => UpdateFocus(s, focus, env)
    case DoLocalStop => DeactivateActive(s, LocalStop)
    case DoClear(reason) => ClearData(s, reason, env)
    case DoNote(note) => OnAlertStateChange(s, note, env)
    case DoTimer => OnTimer(s)
    case DoActiveCallback(c) => s.(active := Some(CallBack(s.active.value, c)))
    case DoQueuedCallback(i, c) => s.(queue := s.queue[i := CallBack(s.queue[i], c)])
  }
}
