/** When the stored asset configurations are in step with those in memory. */
module SchedulerMirror {
  import opened AlertTypes
  import opened AlertLifecycle
  import AssetParsing
  import opened AlertRecords
  import opened AlertQueue
  import opened SchedulerModel
  import opened SchedulerConsistency
  import opened SchedulerPopulation
  import opened SchedulerQuiet
  import opened SchedulerUpdates
  import opened SchedulerReload
  import opened SchedulerRuns

  /** Rows whose assets a load gives back as they are stored. */
  ghost predicate PlainRows(rows: Rows) {
    forall id :: id in rows ==> Stored(rows[id].assets) == rows[id].assets && UnderOwnIds(rows[id].assets.assets)
  }

  /** Every alert in memory has a row with its assets. */
  ghost predicate Mirrored(s: SchedulerView) {
    PlainRows(s.rows) && forall a :: InMemory(s, a) ==> AssetsMirrored(s.rows, a)
  }

  /** Some alert of the old state has the same row and the same assets. */
  ghost predicate Covered(s: SchedulerView, a: AlertView) {
    exists b :: InMemory(s, b) && b.data.dbId == a.data.dbId && b.content.assets == a.content.assets
  }

  /** The rows of the new state are old ones, with the same assets. */
  ghost predicate AssetsKept(rows: Rows, rows': Rows) {
    forall id :: id in rows' ==> id in rows && rows'[id].assets == rows[id].assets
  }

  ghost predicate RowsInPlace(s: SchedulerView) {
    forall a :: InMemory(s, a) ==> a.data.dbId in s.rows
  }

  lemma ConsistentRowsInPlace(s: SchedulerView, parse: TimeParser)
    requires Consistent(s, parse)
    ensures RowsInPlace(s)
  {
  }

  lemma KeepsMirror(s: SchedulerView, t: SchedulerView)
    requires Mirrored(s) && AssetsKept(s.rows, t.rows) && RowsInPlace(t)
    requires forall a :: InMemory(t, a) ==> Covered(s, a)
    ensures Mirrored(t)
  {
    forall a | InMemory(t, a)
      ensures AssetsMirrored(t.rows, a)
    {
      var b :| InMemory(s, b) && b.data.dbId == a.data.dbId && b.content.assets == a.content.assets;
      assert AssetsMirrored(s.rows, b);
    }
  }

  lemma Narrowed(x: int)
    ensures ToInt32(ToInt32(x)) == ToInt32(x)
  {
  }

  // ------------------------------------------------------------ scheduling

  /** An update hands over the assets: it succeeds, or its rollback is refused. */
  predicate TakesAssets(s: SchedulerView, before: AlertView, a: AlertView, env: Env, parse: TimeParser) {
    || UpdateOk(s, before, a.content.timePoint.iso, a.content.assets, env, parse)
    || RollbackRefused(s, before, a.content.timePoint.iso, a.content.assets, env, parse)
  }

  /** A queued alert is asked to take assets that would be stored differently. */
  predicate ChangesAssets(s: SchedulerView, a: AlertView, env: Env, parse: TimeParser) {
    && Acceptable(s, a, env) && !IsActiveToken(s, a.data.token)
    && Queued(s, a.data.token).Some?
    && var before := Queued(s, a.data.token).value;
       TakesAssets(s, before, a, env, parse) && Stored(a.content.assets) != Stored(before.content.assets)
  }

  lemma UpdateMirrorIff(s: SchedulerView, before: AlertView, a: AlertView, env: Env, parse: TimeParser)
    requires Consistent(s, parse) && Mirrored(s) && before in s.queue
    ensures Mirrored(UpdateAlert(s, before, a.content.timePoint.iso, a.content.assets, env, parse)) <==>
            TakesAssets(s, before, a, env, parse) ==> Stored(a.content.assets) == Stored(before.content.assets)
  {
    var iso, c := a.content.timePoint.iso, a.content.assets;
    var t, b := UpdateAlert(s, before, iso, c, env, parse), UpdatedAlert(s, before, iso, c, env, parse);
    UpdateIsATransaction(s, before, iso, c, env, parse);
    UpdatedAlertIsAllOrNothing(s, before, iso, c, env, parse);
    assert InMemory(s, before);
    assert InMemory(t, b);
    assert PlainRows(t.rows);
    forall x | InMemory(t, x) && x != b
      ensures AssetsMirrored(t.rows, x)
    {
      assert InMemory(s, x);
    }
  }

  lemma StoreMirrorsIff(s: SchedulerView, a: AlertView, env: Env, parse: TimeParser)
    requires Consistent(s, parse) && Mirrored(s)
    requires WouldStore(s, a, env) && Coherent(a.content.timePoint, parse)
    ensures Mirrored(ScheduleAlert(s, a, env, parse)) <==> UnderOwnIds(a.content.assets.assets)
  {
    var t := ScheduleAlert(s, a, env, parse);
    ScheduledAlert(s, a, env, parse);
    var b := Connect(a.(data := a.data.(dbId := NextId(s.rows))));
    InsertMembers(s.queue, b);
    Narrowed(a.content.assets.loopPause);
    assert t.rows[NextId(s.rows)] == RecordOf(a);
    forall x | InMemory(t, x)
      ensures AssetsMirrored(t.rows, x)
    {
      if x != b {
        assert InMemory(s, x);
      }
    }
  }

  lemma ScheduleMirrorsIff(s: SchedulerView, a: AlertView, env: Env, parse: TimeParser)
    requires Consistent(s, parse) && Mirrored(s) && Safe(s, DoSchedule(a), env, parse)
    ensures Mirrored(ScheduleAlert(s, a, env, parse)) <==>
              !ChangesAssets(s, a, env, parse) && (WouldStore(s, a, env) ==> UnderOwnIds(a.content.assets.assets))
  {
    QueuedProperties(s, a.data.token);
    if Acceptable(s, a, env) {
      match Queued(s, a.data.token)
      case Some(before) =>
        if !IsActiveToken(s, a.data.token) {
          UpdateMirrorIff(s, before, a, env, parse);
        }
      case None =>
        if StoreOk(s.rows, a, env.disk(a.data.token)) {
          StoreMirrorsIff(s, a, env, parse);
        }
    }
  }

  // ---------------------------------------------------------------- reload

  /** A loaded alert has the assets of its row. */
  lemma LoadedMirrors(rows: Rows, scan: seq<int>, parse: TimeParser, i: nat)
    requires PlainRows(rows) && IsScan(rows, scan) && i < |LoadRows(rows, scan, parse)|
    ensures var a := LoadRows(rows, scan, parse)[i];
            a.data.dbId in rows && RecordOf(a).assets == rows[a.data.dbId].assets
  {
    LoadedAlerts(rows, scan, parse);
    assert Stored(rows[scan[i]].assets) == rows[scan[i]].assets;
    RekeyedIff(rows[scan[i]].assets.assets);
  }

  lemma ReloadMirrors(s: SchedulerView, shouldSchedule: bool, env: Env, parse: TimeParser)
    requires Consistent(s, parse) && Mirrored(s) && Enabled(s, DoReload(shouldSchedule), env)
    requires Safe(s, DoReload(shouldSchedule), env, parse)
    ensures Mirrored(ReloadAlerts(s, shouldSchedule, env, parse))
  {
    var t := ReloadAlerts(s, shouldSchedule, env, parse);
    if env.now.Some? {
      ReloadKeepsIff(s, shouldSchedule, env, parse);
      ConsistentRowsInPlace(t, parse);
      ReloadedAssets(s, shouldSchedule, env, parse);
      forall a | InMemory(t, a)
        ensures AssetsMirrored(t.rows, a)
      {
        if a in t.queue {
          ReloadedAlert(s, shouldSchedule, env, parse, a);
        } else {
          assert InMemory(s, a);
        }
      }
    } else {
      forall a | InMemory(t, a)
        ensures InMemory(s, a)
      {
      }
    }
  }

  lemma ReloadedAssets(s: SchedulerView, shouldSchedule: bool, env: Env, parse: TimeParser)
    requires Consistent(s, parse) && IsScan(s.rows, env.scan) && env.now.Some?
    ensures var t := ReloadAlerts(s, shouldSchedule, env, parse);
            t.active == s.active && AssetsKept(s.rows, t.rows)
  {
    if shouldSchedule {
      var t, loaded := ReloadAlerts(s, true, env, parse), LoadRows(s.rows, env.scan, parse);
      ReloadSplits(s, env, parse);
      forall id | id in t.rows
        ensures id in s.rows && t.rows[id].assets == s.rows[id].assets
      {
        assert RowSplit(s, loaded, env.now.value, env, t.rows, id);
        if !NoId(loaded, id) {
          var i :| 0 <= i < |loaded| && loaded[i].data.dbId == id;
          assert OneRow(s, loaded[i], env.now.value, env, t.rows, id);
        }
      }
    }
  }

  lemma ReloadedAlert(s: SchedulerView, shouldSchedule: bool, env: Env, parse: TimeParser, a: AlertView)
    requires Consistent(s, parse) && PlainRows(s.rows) && IsScan(s.rows, env.scan) && env.now.Some?
    requires a in ReloadAlerts(s, shouldSchedule, env, parse).queue
    ensures a.data.dbId in s.rows && RecordOf(a).assets == s.rows[a.data.dbId].assets
  {
    var loaded := LoadRows(s.rows, env.scan, parse);
    if shouldSchedule {
      ReloadSplits(s, env, parse);
      var i :| 0 <= i < |loaded| && Stays(s.(queue := []), loaded[i], env.now.value) && a == Renewed(loaded[i]);
      LoadedMirrors(s.rows, env.scan, parse, i);
    } else {
      LoadIsOk(s.rows, env.scan, parse);
      InsertAllMembers(loaded, s.rows, parse);
      var i :| 0 <= i < |loaded| && a == Connect(loaded[i]);
      LoadedMirrors(s.rows, env.scan, parse, i);
    }
  }

  // ------------------------------------------- renderer starts and the rest

  /** The next renderer start reads an id that is not in the asset map, and so inserts it. */
  predicate StartGrows(a: AlertView) {
    exists id :: id in RequestedIds(a) && id !in a.content.assets.assets
  }

  lemma StartedMirrorsIff(rows: Rows, a: AlertView)
    requires AssetsMirrored(rows, a)
    ensures StartRenderer(a).data == a.data
    ensures AssetsMirrored(rows, StartRenderer(a)) <==> !StartGrows(a)
  {
    AssetParsing.StartGrowsAssetsIff(a);
  }

  /** The focus change activates the head of the queue, and starting it inserts an asset. */
  predicate ActivationGrows(s: SchedulerView, focus: FocusState) {
    && s.focus != focus && focus != NoFocus && s.active.None? && s.queue != []
    && !Ringing(s.queue[0]) && StartGrows(WithState(SetFocusState(s.queue[0], focus), Activating))
  }

  lemma FocusMirrorsIff(s: SchedulerView, focus: FocusState, env: Env, parse: TimeParser)
    requires Consistent(s, parse) && Mirrored(s)
    ensures Mirrored(UpdateFocus(s, focus, env)) <==> !ActivationGrows(s, focus)
  {
    var t := UpdateFocus(s, focus, env);
    FocusKeeps(s, focus, env, parse);
    ConsistentRowsInPlace(t, parse);
    if s.active.None? && s.queue != [] && s.focus != focus && focus != NoFocus {
      ActivationMirrorsIff(s, focus, env);
    } else {
      if s.active.Some? {
        FocusFrame(s.active.value, focus);
        assert InMemory(s, s.active.value);
      }
      forall a | InMemory(t, a)
        ensures Covered(s, a)
      {
        assert a in s.queue ==> InMemory(s, a);
      }
      KeepsMirror(s, t);
    }
  }

  lemma ActivationMirrorsIff(s: SchedulerView, focus: FocusState, env: Env)
    requires Mirrored(s) && s.active.None? && s.queue != [] && s.focus != focus && focus != NoFocus
    ensures Mirrored(UpdateFocus(s, focus, env)) <==> !ActivationGrows(s, focus)
  {
    var t := UpdateFocus(s, focus, env);
    var head := s.queue[0];
    var heard := SetFocusState(head, focus);
    FocusFrame(head, focus);
    assert InMemory(s, head);
    assert AssetsMirrored(s.rows, heard);
    if !Ringing(head) {
      StartedMirrorsIff(s.rows, BeginActivation(heard, env.maxTimerStarts));
    }
    assert t.active == Some(Activate(heard, env.maxTimerStarts));
    assert InMemory(t, t.active.value);
    forall x | x in t.queue
      ensures AssetsMirrored(t.rows, x)
    {
      assert InMemory(s, x);
    }
  }

  predicate CallbackGrows(a: AlertView, c: Callback) {
    c.DelayedRestart? && a.control.pendingRestarts > 0 && StartGrows(a)
  }

  lemma CallbackMirrorsIff(rows: Rows, a: AlertView, c: Callback)
    requires AssetsMirrored(rows, a)
    ensures CallBack(a, c).data == a.data
    ensures AssetsMirrored(rows, CallBack(a, c)) <==> !CallbackGrows(a, c)
  {
    CallbackFrame(a, c);
    match c
    case Rendered(event, reason) => EventContent(a, event, reason);
    case DelayedRestart =>
      if a.control.pendingRestarts > 0 {
        StartedMirrorsIff(rows, TakeRestart(a));
      }
    case _ =>
  }

  lemma EventContent(a: AlertView, event: RendererState, reason: string)
    ensures OnRendererStateChange(a, event, reason).content == a.content
  {
    match event
    case RendererStarted => assert OnRendererStarted(a).content == a.content;
    case RendererStopped => assert OnRendererStopped(a).content == a.content;
    case RendererError => assert OnRendererError(a, reason).content == a.content;
    case _ =>
  }

  lemma ActiveCallbackMirrorsIff(s: SchedulerView, c: Callback)
    requires Mirrored(s) && s.active.Some?
    ensures Mirrored(s.(active := Some(CallBack(s.active.value, c)))) <==> !CallbackGrows(s.active.value, c)
  {
    var a := s.active.value;
    var t := s.(active := Some(CallBack(a, c)));
    assert InMemory(s, a);
    CallbackMirrorsIff(s.rows, a, c);
    assert InMemory(t, CallBack(a, c));
    forall x | x in t.queue
      ensures AssetsMirrored(t.rows, x)
    {
      assert InMemory(s, x);
    }
  }

  lemma QueuedCallbackMirrorsIff(s: SchedulerView, i: nat, c: Callback)
    requires Mirrored(s) && Sorted(s.queue) && i < |s.queue|
    ensures Mirrored(s.(queue := s.queue[i := CallBack(s.queue[i], c)])) <==> !CallbackGrows(s.queue[i], c)
  {
    var a := s.queue[i];
    var b := CallBack(a, c);
    var t := s.(queue := s.queue[i := b]);
    assert InMemory(s, a);
    CallbackMirrorsIff(s.rows, a, c);
    CallbackFrame(a, c);
    ReplaceSorted(s.queue, i, b);
    assert t.queue[i] == b;
    assert InMemory(t, b);
    forall x | InMemory(t, x) && x != b
      ensures AssetsMirrored(t.rows, x)
    {
      assert InMemory(s, x);
    }
  }

  /** Operations that only let alerts and rows go. */
  lemma DropsKeepMirror(s: SchedulerView, t: SchedulerView, parse: TimeParser)
    requires Mirrored(s) && Consistent(t, parse) && OnlyDrops(s, t)
    ensures Mirrored(t)
  {
    ConsistentRowsInPlace(t, parse);
    forall a | InMemory(t, a)
      ensures Covered(s, a)
    {
      assert InMemory(s, a);
    }
    KeepsMirror(s, t);
  }

  lemma SnoozedMirrors(s: SchedulerView, note: Sent, env: Env, parse: TimeParser)
    requires Consistent(s, parse) && Mirrored(s) && s.active.Some? && Consistent(OnSnoozed(s, note, env), parse)
    ensures Mirrored(OnSnoozed(s, note, env))
  {
    var a, t := s.active.value, OnSnoozed(s, note, env);
    var u := ModifyAlert(s, a, env);
    SetTimerFrame(u.(queue := Insert(u.queue, a), active := None, sent := u.sent + [note]), env);
    InsertMembers(s.queue, a);
    ConsistentRowsInPlace(t, parse);
    forall x | InMemory(t, x)
      ensures Covered(s, x)
    {
      assert InMemory(s, x);
    }
    KeepsMirror(s, t);
  }

  lemma StartedMirrors(s: SchedulerView, note: Sent, env: Env, parse: TimeParser)
    requires Consistent(s, parse) && Mirrored(s)
    ensures Mirrored(OnStarted(s, note, env))
  {
    var t := OnStarted(s, note, env);
    StartedKeeps(s, note, env, parse);
    ConsistentRowsInPlace(t, parse);
    if s.active.Some? {
      assert InMemory(s, s.active.value);
    }
    forall x | InMemory(t, x)
      ensures Covered(s, x)
    {
      assert x in s.queue ==> InMemory(s, x);
    }
    KeepsMirror(s, t);
  }

  lemma NoteMirrors(s: SchedulerView, note: Sent, env: Env, parse: TimeParser)
    requires Consistent(s, parse) && Mirrored(s) && Enabled(s, DoNote(note), env)
    requires Safe(s, DoNote(note), env, parse)
    ensures Mirrored(OnAlertStateChange(s, note, env))
  {
    NoteKeepsIff(s, note, env, parse);
    match note.state
    case Started => StartedMirrors(s, note, env, parse);
    case HasStopped =>
      StoppedOnlyDrops(s, note, env);
      DropsKeepMirror(s, OnStopped(s, note, env), parse);
    case HasCompleted =>
      CompletedOnlyDrops(s, note, env);
      DropsKeepMirror(s, OnCompleted(s, note, env), parse);
    case Failed =>
      ErrorOnlyDrops(s, note, env);
      DropsKeepMirror(s, OnError(s, note, env), parse);
    case HasSnoozed => SnoozedMirrors(s, note, env, parse);
    case _ => DropsKeepMirror(s, OnAlertStateChange(s, note, env), parse);
  }

  /** The active alert changed, but neither its row nor its assets. */
  lemma ActiveKeepsMirror(s: SchedulerView, t: SchedulerView)
    requires Mirrored(s) && s.active.Some? && t.active.Some? && RowsInPlace(t)
    requires forall x :: x in t.queue ==> x in s.queue
    requires AssetsKept(s.rows, t.rows)
    requires t.active.value.data == s.active.value.data && t.active.value.content.assets == s.active.value.content.assets
    ensures Mirrored(t)
  {
    assert InMemory(s, s.active.value);
    forall x | InMemory(t, x)
      ensures Covered(s, x)
    {
      assert x in s.queue ==> InMemory(s, x);
    }
    KeepsMirror(s, t);
  }

  lemma ClearMirrors(s: SchedulerView, reason: StopReason, env: Env, parse: TimeParser)
    requires Consistent(s, parse) && Mirrored(s) && Safe(s, DoClear(reason), env, parse)
    ensures Mirrored(ClearData(s, reason, env))
  {
    var t := ClearData(s, reason, env);
    ClearKeepsIff(s, reason, env, parse);
    NotifyDeletedFrame(StopTimer(DeactivateActive(s, reason)), s.queue);
    ConsistentRowsInPlace(t, parse);
    if s.active.Some? {
      ActiveKeepsMirror(s, t);
    } else {
      DropsKeepMirror(s, t, parse);
    }
  }

  lemma DeleteMirrors(s: SchedulerView, token: string, env: Env, parse: TimeParser)
    requires Consistent(s, parse) && Mirrored(s)
    ensures Mirrored(DeleteAlert(s, token, env))
  {
    QueuedProperties(s, token);
    if IsActiveToken(s, token) {
      ConsistentRowsInPlace(s, parse);
      assert InMemory(s, s.active.value);
      ActiveKeepsMirror(s, DeactivateActive(s, AvsStop));
    } else if Queued(s, token).Some? {
      var a := Queued(s, token).value;
      DropQueued(s, a, env, parse);
      EraseQueuedOnlyDrops(s, a, env);
      DropsKeepMirror(s, EraseQueued(s, a, env), parse);
    }
  }

  lemma DeleteAlertsMirrors(s: SchedulerView, tokens: seq<string>, env: Env, parse: TimeParser)
    requires Consistent(s, parse) && Mirrored(s)
    ensures Mirrored(DeleteAlerts(s, tokens, env))
  {
    if DeleteAlertsOk(s, tokens, env) {
      var t := DeleteAlerts(s, tokens, env);
      DeleteAlertsKeeps(s, tokens, env, parse);
      BulkErasedRows(s, tokens, env, parse);
      MembersAreQueued(s, tokens, env, parse);
      DropsKeepMirror(s, t, parse);
    }
  }

  lemma MembersAreQueued(s: SchedulerView, tokens: seq<string>, env: Env, parse: TimeParser)
    requires Consistent(s, parse) && DeleteAlertsOk(s, tokens, env)
    ensures var t := DeleteAlerts(s, tokens, env);
            && t.focus == s.focus && t.rows == BulkErased(s.rows, Named(s, tokens), env.bulkDisk)
            && (t.active == None || t.active == s.active)
            && forall x :: x in t.queue ==> x in s.queue
  {
    var list := Named(s, tokens);
    var u := s.(rows := BulkErased(s.rows, list, env.bulkDisk),
                active := if s.active.Some? && s.active.value.data.token in tokens then None else s.active);
    NamedAlerts(s, tokens);
    RemoveAllMembers(u, list);
    RemoveAllFrame(u, list);
    SetTimerFrame(RemoveAll(u, list), env);
  }

  lemma StopOrSnoozeMirrors(s: SchedulerView, reason: StopReason, token: string, iso: string, parse: TimeParser)
    requires Consistent(s, parse) && Mirrored(s)
    ensures Mirrored(DeactivateActive(s, reason))
    ensures Mirrored(SnoozeAlert(s, token, iso, parse))
  {
    if s.active.Some? {
      assert InMemory(s, s.active.value);
      ConsistentRowsInPlace(s, parse);
      ActiveKeepsMirror(s, DeactivateActive(s, reason));
      var t := SnoozeAlert(s, token, iso, parse);
      ActiveKeepsMirror(s, t);
    }
  }

  // ------------------------------------------------------------------- theorem

  /** What takes assets in memory away from the stored ones, or from what a load will make of them: an update
      that hands over others, a new alert with an asset under a foreign key, and a renderer start that inserts a
      missing one. */
  predicate Drifts(s: SchedulerView, op: Op, env: Env, parse: TimeParser)
    requires Enabled(s, op, env)
  {
    match op
    case DoSchedule(a) =>
      ChangesAssets(s, a, env, parse) || (WouldStore(s, a, env) && !UnderOwnIds(a.content.assets.assets))
    case DoFocus(focus) => ActivationGrows(s, focus)
    case DoActiveCallback(c) => CallbackGrows(s.active.value, c)
    case DoQueuedCallback(i, c) => CallbackGrows(s.queue[i], c)
    case _ => false
  }

  /** Every safe operation keeps the stored assets in step with memory exactly unless it drifts. */
  lemma StepKeepsMirrorIff(s: SchedulerView, op: Op, env: Env, parse: TimeParser)
    requires Consistent(s, parse) && Mirrored(s) && Enabled(s, op, env) && Safe(s, op, env, parse)
    ensures Mirrored(Step(s, op, env, parse)) <==> !Drifts(s, op, env, parse)
  {
    match op
    case DoSchedule(a) => ScheduleMirrorsIff(s, a, env, parse);
    case DoReload(shouldSchedule) => ReloadMirrors(s, shouldSchedule, env, parse);
    case DoSnooze(token, iso) => StopOrSnoozeMirrors(s, NoReason, token, iso, parse);
    case DoDelete(token) => DeleteMirrors(s, token, env, parse);
    case DoDeleteAll(tokens) => DeleteAlertsMirrors(s, tokens, env, parse);
    case DoFocus(focus) => FocusMirrorsIff(s, focus, env, parse);
    case DoLocalStop => StopOrSnoozeMirrors(s, LocalStop, "", "", parse);
    case DoClear(reason) => ClearMirrors(s, reason, env, parse);
    case DoNote(note) => NoteMirrors(s, note, env, parse);
    case DoTimer => DropsKeepMirror(s, OnTimer(s), parse);
    case DoActiveCallback(c) => ActiveCallbackMirrorsIff(s, c);
    case DoQueuedCallback(i, c) => QueuedCallbackMirrorsIff(s, i, c);
  }

  ghost predicate Steady(s: SchedulerView, moves: seq<Move>, parse: TimeParser)
    requires Runnable(s, moves, parse)
    decreases |moves|
  {
    moves == [] ||
    (var m := moves[0];
     && Safe(s, m.op, m.env, parse) && !Drifts(s, m.op, m.env, parse)
     && Steady(Step(s, m.op, m.env, parse), moves[1..], parse))
  }

  /** In every state that safe operations without drift reach, each queued alert has a row with its token, its
      time and its assets. */
  lemma {:induction false} RunKeepsMirror(s: SchedulerView, moves: seq<Move>, parse: TimeParser)
    requires Consistent(s, parse) && Mirrored(s)
    requires Runnable(s, moves, parse) && Steady(s, moves, parse)
    ensures var t := SchedulerRuns.Run(s, moves, parse);
            && Consistent(t, parse) && Mirrored(t)
            && forall a :: a in t.queue ==>
                 && a.data.dbId in t.rows
                 && var r := t.rows[a.data.dbId];
                    r.token == a.data.token && r.timePoint == a.content.timePoint && r.assets == Stored(a.content.assets)
    decreases |moves|
  {
    if moves != [] {
      var m := moves[0];
      StepKeepsConsistencyIff(s, m.op, m.env, parse);
      StepKeepsMirrorIff(s, m.op, m.env, parse);
      RunKeepsMirror(Step(s, m.op, m.env, parse), moves[1..], parse);
    } else {
      assert forall a :: a in s.queue ==> InMemory(s, a);
    }
  }
}
