/** What an observer sees of each operation of an alert: the calls to the renderer, the states and the flags,
    each said of all operations at once. */
module AlertEffects {
  import opened AlertTypes
  import opened AlertLifecycle

  // -------------------------------------------------------------- renderer calls

  /** The operations that tell the renderer to stop. */
  predicate TellsToStop(a: AlertView, op: AlertOp, parse: TimeParser) {
    match op
    case DoDeactivate(_) => true
    case DoMaxTimer => true
    case DoSnooze(iso) => parse(iso).Some?
    case DoSetFocus(focus) => a.control.state == Active && focus != a.control.focusState
    case DoRendererEvent(event, _) =>
      event == RendererStarted
      && (a.control.state == Stopped || (a.control.state == Activating && a.control.focusChangedDuringActivation))
    case _ => false
  }

  /** The operations that tell it to start. */
  predicate TellsToStart(a: AlertView, op: AlertOp) {
    match op
    case DoActivate(_) => a.control.state != Activating && a.control.state != Active
    case DoRestart => a.control.pendingRestarts > 0
    case _ => false
  }

  function CallsAfter(a: AlertView, op: AlertOp, parse: TimeParser): seq<RendererCall> {
    Apply(a, op, parse).wiring.rendererCalls
  }

  /** The renderer hears of an operation exactly one stop, exactly one start, or nothing. */
  lemma RendererHears(a: AlertView, op: AlertOp, parse: TimeParser)
    ensures var before, after := a.wiring.rendererCalls, CallsAfter(a, op, parse);
            && (TellsToStop(a, op, parse) ==> after == before + [StopCall])
            && (TellsToStart(a, op) ==>
                  |after| == |before| + 1 && after[..|before|] == before && after[|before|].StartCall?)
            && (!TellsToStop(a, op, parse) && !TellsToStart(a, op) ==> after == before)
  {
    if op.DoRendererEvent? {
      EventHeard(a, op.event, op.reason);
    }
  }

  lemma EventHeard(a: AlertView, event: RendererState, reason: string)
    ensures OnRendererStateChange(a, event, reason).wiring.rendererCalls ==
              a.wiring.rendererCalls +
              if event == RendererStarted
                 && (a.control.state == Stopped
                     || (a.control.state == Activating && a.control.focusChangedDuringActivation))
              then [StopCall] else []
  {
    match event
    case RendererStarted => assert OnRendererStateChange(a, event, reason) == OnRendererStarted(a);
    case RendererStopped => assert OnRendererStateChange(a, event, reason) == OnRendererStopped(a);
    case RendererError => assert OnRendererStateChange(a, event, reason) == OnRendererError(a, reason);
    case _ =>
  }

  /** What a start asks for. In the background: the short sound, ten seconds of pause, the background asset if
      there is one; a restart of an alert that is past its activation begins with the pause. In the foreground:
      the long sound and the alert's own pause and play order. After a failure: no url at all. */
  lemma StartAsksFor(a: AlertView, op: AlertOp, parse: TimeParser)
    requires TellsToStart(a, op)
    ensures |CallsAfter(a, op, parse)| == |a.wiring.rendererCalls| + 1
    ensures var call := CallsAfter(a, op, parse)[|a.wiring.rendererCalls|];
            var c := a.content.assets;
            var background := a.control.focusState == Background;
            && call.StartCall?
            && call.shortAudio == background
            && call.loopCount == a.content.loopCount
            && call.loopPause == (if background then 10000 else c.loopPause)
            && (call.startWithPause <==> background && op.DoRestart? && a.control.state != Activating)
            && (a.control.hasRenderingFailed ==> call.urls == [])
            && (background && c.backgroundAssetId == "" ==> call.urls == [])
            && (background && !a.control.hasRenderingFailed && c.backgroundAssetId in c.assets ==>
                  c.backgroundAssetId == "" || call.urls == [c.assets[c.backgroundAssetId].url])
            && (!background && c.assets == map[] ==> call.urls == [])
            && (!background && !a.control.hasRenderingFailed && c.assets != map[] ==>
                  && |call.urls| == |c.assetPlayOrderItems|
                  && forall k :: 0 <= k < |call.urls| && c.assetPlayOrderItems[k] in c.assets ==>
                       call.urls[k] == c.assets[c.assetPlayOrderItems[k]].url)
  {
    var b := if op.DoActivate? then BeginActivation(a, op.timerStarts) else TakeRestart(a);
    assert RequestedIds(b) == RequestedIds(a);
    assert CallsAfter(a, op, parse) == a.wiring.rendererCalls + [StartOf(b)];
  }

  /** A start inserts an empty asset for each id it misses, and touches nothing else of the content. */
  lemma StartInserts(a: AlertView, op: AlertOp, parse: TimeParser, id: string)
    requires TellsToStart(a, op)
    ensures var before, after := a.content.assets.assets, Apply(a, op, parse).content.assets.assets;
            && (id in before ==> id in after && after[id] == before[id])
            && (id !in before && id in after ==> after[id] == Asset("", ""))
            && (id !in before ==> (id in after <==> id in RequestedIds(a)))
            && Apply(a, op, parse).content == a.content.(assets := a.content.assets.(assets := after))
  {
    var b := if op.DoActivate? then BeginActivation(a, op.timerStarts) else TakeRestart(a);
    assert RequestedIds(b) == RequestedIds(a);
  }

  // ------------------------------------------------------------- states and flags

  /** A new alert is set, hears no focus, and has no flag. */
  lemma NewAlertIsIdle(alertType: string)
    ensures var c := NewAlert(alertType).control;
            && c.state == Set && c.stopReason == NoReason && c.focusState == NoFocus && c.pendingRestarts == 0
            && !c.hasRenderingFailed && !c.hasTimerExpired && !c.maxLengthTimerActive
            && !c.focusChangedDuringActivation && !c.startAgainAfterFullStop
  {
  }

  /** The state each operation leaves. */
  lemma StateLeft(a: AlertView, op: AlertOp, parse: TimeParser)
    ensures var was, now := a.control.state, Apply(a, op, parse).control.state;
            match op
            case DoActivate(_) => now == if was == Active then Active else Activating
            case DoDeactivate(_) => now == Stopping
            case DoMaxTimer => now == Stopping
            case DoSetStateActive => now == if was == Activating then Active else was
            case DoReset => now == Set
            case DoSnooze(iso) => now == if parse(iso).Some? then Snoozing else was
            case DoUpdateTime(iso) =>
              now == if parse(iso).Some? && was != Active && was != Activating && was != Stopping then Set else was
            case DoRendererEvent(event, _) =>
              now == (if event == RendererCompleted then Completed
                     else if event != RendererStopped then was
                     else if a.control.hasTimerExpired then Completed
                     else if was == Stopping then Stopped
                     else if was == Snoozing then Snoozed
                     else was)
            case _ => now == was
  {
    if op.DoRendererEvent? {
      EventState(a, op.event, op.reason);
    }
  }

  lemma EventState(a: AlertView, event: RendererState, reason: string)
    ensures var was, now := a.control.state, OnRendererStateChange(a, event, reason).control.state;
            now == (if event == RendererCompleted then Completed
                   else if event != RendererStopped then was
                   else if a.control.hasTimerExpired then Completed
                   else if was == Stopping then Stopped
                   else if was == Snoozing then Snoozed
                   else was)
  {
    match event
    case RendererStarted => assert OnRendererStateChange(a, event, reason) == OnRendererStarted(a);
    case RendererStopped => assert OnRendererStateChange(a, event, reason) == OnRendererStopped(a);
    case RendererError => assert OnRendererStateChange(a, event, reason) == OnRendererError(a, reason);
    case _ =>
  }

  predicate IsEvent(op: AlertOp, event: RendererState) {
    op.DoRendererEvent? && op.event == event
  }

  /** The maximum-length timer runs from an activation until a deactivation or its own expiry; a snooze leaves it
      running. Only its expiry is remembered, for ever. */
  lemma LengthTimer(a: AlertView, op: AlertOp, parse: TimeParser)
    ensures var b := Apply(a, op, parse).control;
            && (b.maxLengthTimerActive <==>
                  if op.DoActivate? && !Ringing(a) then a.control.maxLengthTimerActive || op.timerStarts
                  else a.control.maxLengthTimerActive && !op.DoDeactivate? && !op.DoMaxTimer?)
            && (b.hasTimerExpired <==> a.control.hasTimerExpired || op.DoMaxTimer?)
            && b.stopReason == if op.DoDeactivate? then op.stopReason else a.control.stopReason
  {
    if op.DoRendererEvent? {
      EventFlags(a, op.event, op.reason);
    }
  }

  /** Where the restart flags come from and where they go: a focus change while the alert is activated is kept
      until the renderer has started, one while it sounds until the renderer has stopped of itself; a first
      failure to render urls is kept for ever. */
  lemma RestartFlags(a: AlertView, op: AlertOp, parse: TimeParser)
    ensures var b := Apply(a, op, parse).control;
            var changed := op.DoSetFocus? && op.focus != a.control.focusState;
            var stopsItself := IsEvent(op, RendererStopped) && !a.control.hasTimerExpired
                               && a.control.state != Stopping && a.control.state != Snoozing;
            var fails := IsEvent(op, RendererError) && a.control.state != Stopping && a.control.state != Stopped
                         && a.content.assets.assetPlayOrderItems != [];
            && (b.focusChangedDuringActivation <==>
                  || (changed && a.control.state == Activating)
                  || (a.control.focusChangedDuringActivation
                      && !(IsEvent(op, RendererStarted) && a.control.state == Activating)))
            && (b.startAgainAfterFullStop <==>
                  (changed && a.control.state == Active) || (a.control.startAgainAfterFullStop && !stopsItself))
            && (b.hasRenderingFailed <==> a.control.hasRenderingFailed || fails)
            && b.focusState == if op.DoSetFocus? then op.focus else a.control.focusState
  {
    if op.DoRendererEvent? {
      EventFlags(a, op.event, op.reason);
    }
  }

  lemma EventFlags(a: AlertView, event: RendererState, reason: string)
    ensures var b := OnRendererStateChange(a, event, reason).control;
            && b.maxLengthTimerActive == a.control.maxLengthTimerActive
            && b.hasTimerExpired == a.control.hasTimerExpired
            && b.stopReason == a.control.stopReason && b.focusState == a.control.focusState
            && (b.focusChangedDuringActivation <==>
                  a.control.focusChangedDuringActivation && !(event == RendererStarted && a.control.state == Activating))
            && (b.startAgainAfterFullStop <==>
                  a.control.startAgainAfterFullStop
                  && !(event == RendererStopped && !a.control.hasTimerExpired && a.control.state != Stopping
                       && a.control.state != Snoozing))
            && (b.hasRenderingFailed <==>
                  || a.control.hasRenderingFailed
                  || (event == RendererError && a.control.state != Stopping && a.control.state != Stopped
                      && a.content.assets.assetPlayOrderItems != []))
  {
    match event
    case RendererStarted => assert OnRendererStateChange(a, event, reason) == OnRendererStarted(a);
    case RendererStopped => assert OnRendererStateChange(a, event, reason) == OnRendererStopped(a);
    case RendererError => assert OnRendererStateChange(a, event, reason) == OnRendererError(a, reason);
    case _ =>
  }

  // -------------------------------------------------------------- notifications

  /** What an observed alert reports of a start, a failure and a stop, and in which words; without an observer it
      reports nothing. */
  lemma EventReported(a: AlertView, event: RendererState, reason: string)
    ensures var before, after := a.wiring.notifications, OnRendererStateChange(a, event, reason).wiring.notifications;
            && before <= after && |after| <= |before| + 1
            && (!a.wiring.hasObserver ==> after == before)
            && (a.wiring.hasObserver && event == RendererStarted ==>
                  after == before + if a.control.state == Activating && !a.control.focusChangedDuringActivation
                                    then [Notification(Started, "")] else [])
            && (a.wiring.hasObserver && event == RendererError ==>
                  after == before + if a.control.state != Stopping && a.control.state != Stopped
                                       && (a.content.assets.assetPlayOrderItems == [] || a.control.hasRenderingFailed)
                                    then [Notification(Failed, reason)] else [])
            && (a.wiring.hasObserver && event == RendererStopped && !a.control.hasTimerExpired
                && a.control.state == Stopping ==>
                  after == before + [Notification(HasStopped, match a.control.stopReason
                                                              case NoReason => "UNSET"
                                                              case AvsStop => "AVS_STOP"
                                                              case LocalStop => "LOCAL_STOP"
                                                              case Shutdown => "SHUTDOWN"
                                                              case LogOut => "LOG_OUT")])
            && (event == RendererUnset ==> after == before)
  {
    match event
    case RendererStarted => assert OnRendererStateChange(a, event, reason) == OnRendererStarted(a);
    case RendererStopped => assert OnRendererStateChange(a, event, reason) == OnRendererStopped(a);
    case RendererError => assert OnRendererStateChange(a, event, reason) == OnRendererError(a, reason);
    case _ =>
  }

  /** No operation but a renderer event reports anything. */
  lemma OnlyEventsReport(a: AlertView, op: AlertOp, parse: TimeParser)
    requires !op.DoRendererEvent?
    ensures Apply(a, op, parse).wiring.notifications == a.wiring.notifications
  {
  }

  // ------------------------------------------------------ a focus change is heard

  /** An alert whose focus changes while it sounds stops its renderer, and once the renderer has stopped starts it
      again for the new focus, without reporting anything. */
  lemma FocusChangeIsHeard(a: AlertView, focus: FocusState, parse: TimeParser)
    requires a.control.state == Active && focus != a.control.focusState
    requires !a.control.hasTimerExpired && a.control.pendingRestarts == 0
    ensures var b := Restart(OnRendererStopped(SetFocusState(a, focus)));
            var n := |a.wiring.rendererCalls|;
            && b.control.state == Active && b.wiring.notifications == a.wiring.notifications
            && |b.wiring.rendererCalls| == n + 2
            && b.wiring.rendererCalls[..n] == a.wiring.rendererCalls
            && b.wiring.rendererCalls[n] == StopCall
            && b.wiring.rendererCalls[n + 1].StartCall?
            && b.wiring.rendererCalls[n + 1].shortAudio == (focus == Background)
  {
    var a1 := SetFocusState(a, focus);
    RendererHears(a, DoSetFocus(focus), parse);
    RestartFlags(a, DoSetFocus(focus), parse);
    var a2 := OnRendererStopped(a1);
    assert a2 == DecideRestart(a1.(control := a1.control.(startAgainAfterFullStop := false)));
    StartAsksFor(a2, DoRestart, parse);
    assert Apply(a2, DoRestart, parse) == Restart(a2);
    RendererHears(a2, DoRestart, parse);
  }

  /** One that happens while the alert is activated waits until the renderer has started: then the renderer is
      stopped and started again for the new focus, and no start is reported. */
  lemma EarlyFocusChangeIsHeard(a: AlertView, focus: FocusState, parse: TimeParser)
    requires a.control.state == Activating && focus != a.control.focusState && a.control.pendingRestarts == 0
    ensures var b := Restart(OnRendererStarted(SetFocusState(a, focus)));
            var n := |a.wiring.rendererCalls|;
            && b.control.state == Activating && b.wiring.notifications == a.wiring.notifications
            && |b.wiring.rendererCalls| == n + 2
            && b.wiring.rendererCalls[..n] == a.wiring.rendererCalls
            && b.wiring.rendererCalls[n] == StopCall
            && b.wiring.rendererCalls[n + 1].StartCall?
            && b.wiring.rendererCalls[n + 1].shortAudio == (focus == Background)
            && !b.control.focusChangedDuringActivation
  {
    var a1 := SetFocusState(a, focus);
    RestartFlags(a, DoSetFocus(focus), parse);
    RendererHears(a, DoSetFocus(focus), parse);
    var a2 := OnRendererStarted(a1);
    assert a2 == DecideRestart(StopRenderer(a1.(control := a1.control.(focusChangedDuringActivation := false))));
    StartAsksFor(a2, DoRestart, parse);
    assert Apply(a2, DoRestart, parse) == Restart(a2);
    RendererHears(a2, DoRestart, parse);
  }
}
