/** Properties of every run of one alert. */
module AlertRuns {
  import opened AlertTypes
  import opened AlertLifecycle

  // ---------------------------------------------------------------- counting

  function Starts(calls: seq<RendererCall>): nat {
    if calls == [] then 0
    else Starts(calls[..|calls| - 1]) + if calls[|calls| - 1].StartCall? then 1 else 0
  }

  function Count(notes: seq<Notification>, state: ObserverState): nat {
    if notes == [] then 0
    else Count(notes[..|notes| - 1], state) + if notes[|notes| - 1].state == state then 1 else 0
  }

  lemma StartsAppend(calls: seq<RendererCall>, call: RendererCall)
    ensures Starts(calls + [call]) == Starts(calls) + if call.StartCall? then 1 else 0
  {
    assert (calls + [call])[..|calls|] == calls;
  }

  lemma CountAppend(notes: seq<Notification>, note: Notification, state: ObserverState)
    ensures Count(notes + [note], state) == Count(notes, state) + if note.state == state then 1 else 0
  {
    assert (notes + [note])[..|notes|] == notes;
  }

  predicate SuccessfulActivation(a: AlertView, op: AlertOp) {
    op.DoActivate? && !Ringing(a)
  }

  predicate EffectiveFocusChange(a: AlertView, op: AlertOp) {
    op.DoSetFocus? && Ringing(a) && op.focus != a.control.focusState
  }

  /** Successful activations and effective focus changes of a run. */
  function Charges(a: AlertView, ops: seq<AlertOp>, parse: TimeParser): nat
    decreases |ops|
  {
    if ops == [] then 0
    else
      (if SuccessfulActivation(a, ops[0]) || EffectiveFocusChange(a, ops[0]) then 1 else 0)
      + Charges(Apply(a, ops[0], parse), ops[1..], parse)
  }

  function Deactivations(ops: seq<AlertOp>): nat {
    if ops == [] then 0 else (if ops[0].DoDeactivate? then 1 else 0) + Deactivations(ops[1..])
  }

  function SuccessfulSnoozes(ops: seq<AlertOp>, parse: TimeParser): nat {
    if ops == [] then 0
    else (if ops[0].DoSnooze? && parse(ops[0].iso).Some? then 1 else 0) + SuccessfulSnoozes(ops[1..], parse)
  }

  // ------------------------------------------------- renderer restart budget

  /** Renderer starts made, plus every start the present flags can still cause without a new charge. */
  function Potential(a: AlertView): nat {
    Starts(a.wiring.rendererCalls) + a.control.pendingRestarts
    + (if a.control.focusChangedDuringActivation then 1 else 0)
    + (if a.control.startAgainAfterFullStop then 1 else 0)
    + (if a.control.hasRenderingFailed then 0 else 1)
  }

  lemma StartRendererPotential(a: AlertView)
    ensures Potential(StartRenderer(a)) == Potential(a) + 1
    ensures Potential(StopRenderer(a)) == Potential(a)
  {
    var call := StartRenderer(a).wiring.rendererCalls[|a.wiring.rendererCalls|];
    StartsAppend(a.wiring.rendererCalls, call);
    StartsAppend(a.wiring.rendererCalls, StopCall);
  }

  lemma StartedPotential(a: AlertView)
    ensures Potential(OnRendererStarted(a)) <= Potential(a)
  {
    StartRendererPotential(a);
    StartRendererPotential(a.(control := a.control.(focusChangedDuringActivation := false)));
  }

  lemma StoppedPotential(a: AlertView)
    ensures Potential(OnRendererStopped(a)) <= Potential(a)
  {
  }

  lemma ErrorPotential(a: AlertView, reason: string)
    ensures Potential(OnRendererError(a, reason)) <= Potential(a)
  {
  }

  lemma RendererEventPotential(a: AlertView, event: RendererState, reason: string)
    ensures Potential(OnRendererStateChange(a, event, reason)) <= Potential(a)
  {
    match event
    case RendererStarted => StartedPotential(a);
    case RendererStopped => StoppedPotential(a);
    case RendererError => ErrorPotential(a, reason);
    case _ =>
  }

  lemma FocusPotential(a: AlertView, focus: FocusState)
    ensures Potential(SetFocusState(a, focus)) <=
            Potential(a) + if EffectiveFocusChange(a, DoSetFocus(focus)) then 1 else 0
  {
    StartRendererPotential(a.(control := a.control.(focusState := focus, startAgainAfterFullStop := true)));
  }

  lemma StopKeepsPotential(a: AlertView)
    ensures Potential(StopRenderer(a)) == Potential(a)
  {
    StartsAppend(a.wiring.rendererCalls, StopCall);
  }

  lemma DeactivatePotential(a: AlertView, reason: StopReason)
    ensures Potential(Deactivate(a, reason)) == Potential(a)
  {
    StopKeepsPotential(a.(control := a.control.(state := Stopping, stopReason := reason, maxLengthTimerActive := false)));
  }

  lemma SnoozePotential(a: AlertView, iso: string, parse: TimeParser)
    ensures Potential(Snooze(a, iso, parse)) == Potential(a)
  {
    if parse(iso).Some? {
      StopKeepsPotential(WithState(WithTime(a, iso, parse(iso).value), Snoozing));
    }
  }

  lemma MaxTimerPotential(a: AlertView)
    ensures Potential(OnMaxTimerExpiration(a)) == Potential(a)
  {
    StopKeepsPotential(
      a.(control := a.control.(state := Stopping, hasTimerExpired := true, maxLengthTimerActive := false)));
  }

  /** One step raises the potential by no more than its charge. */
  lemma PotentialStep(a: AlertView, op: AlertOp, parse: TimeParser)
    ensures Potential(Apply(a, op, parse)) <=
            Potential(a) + if SuccessfulActivation(a, op) || EffectiveFocusChange(a, op) then 1 else 0
  {
    match op
    case DoActivate(timerStarts) =>
      StartRendererPotential(BeginActivation(a, timerStarts));
    case DoDeactivate(reason) => DeactivatePotential(a, reason);
    case DoSetFocus(focus) => FocusPotential(a, focus);
    case DoSnooze(iso) => SnoozePotential(a, iso, parse);
    case DoRendererEvent(event, reason) => RendererEventPotential(a, event, reason);
    case DoRestart =>
      if a.control.pendingRestarts > 0 {
        StartRendererPotential(TakeRestart(a));
      }
    case DoMaxTimer => MaxTimerPotential(a);
    case _ =>
  }

  lemma {:induction false} PotentialRun(a: AlertView, ops: seq<AlertOp>, parse: TimeParser)
    ensures Potential(Run(a, ops, parse)) <= Potential(a) + Charges(a, ops, parse)
    decreases |ops|
  {
    if ops != [] {
      PotentialStep(a, ops[0], parse);
      PotentialRun(Apply(a, ops[0], parse), ops[1..], parse);
    }
  }

  /** Over any run of a new alert the renderer is started at most once more than the successful
      activations and the effective focus changes together. */
  lemma RestartBudget(alertType: string, ops: seq<AlertOp>, parse: TimeParser)
    ensures var a := NewAlert(alertType);
            Starts(Run(a, ops, parse).wiring.rendererCalls) <= Charges(a, ops, parse) + 1
  {
    PotentialRun(NewAlert(alertType), ops, parse);
  }

  /** The extra start is really spent: an activation whose urls fail starts the renderer twice. */
  lemma RestartBudgetIsReached(a: AlertView, timerStarts: bool, reason: string)
    requires !Ringing(a) && a.content.assets.assetPlayOrderItems != [] && !a.control.hasRenderingFailed
    ensures var b := Restart(OnRendererStateChange(Activate(a, timerStarts), RendererError, reason));
            Starts(b.wiring.rendererCalls) == Starts(a.wiring.rendererCalls) + 2
  {
    OneMoreStart(BeginActivation(a, timerStarts));
    FailedStartIsRetried(StartRenderer(BeginActivation(a, timerStarts)), reason);
  }

  /** A first rendering failure of an alert with assets leads to one more start. */
  lemma FailedStartIsRetried(a: AlertView, reason: string)
    requires Ringing(a) && a.content.assets.assetPlayOrderItems != [] && !a.control.hasRenderingFailed
    ensures var b := Restart(OnRendererStateChange(a, RendererError, reason));
            Starts(b.wiring.rendererCalls) == Starts(a.wiring.rendererCalls) + 1
  {
    var b := DecideRestart(a.(control := a.control.(hasRenderingFailed := true)));
    assert OnRendererStateChange(a, RendererError, reason) == b;
    OneMoreStart(TakeRestart(b));
  }

  lemma OneMoreStart(a: AlertView)
    ensures Starts(StartRenderer(a).wiring.rendererCalls) == Starts(a.wiring.rendererCalls) + 1
    ensures StartRenderer(a).control == a.control
    ensures StartRenderer(a).content.assets.assetPlayOrderItems == a.content.assets.assetPlayOrderItems
  {
    StartsAppend(a.wiring.rendererCalls, StartOf(a));
  }

  // ------------------------------------------------- notification accounting

  /** Notified stops, plus the one that a pending `Deactivate` still owes. */
  function StopsOwed(a: AlertView): nat {
    Count(a.wiring.notifications, HasStopped) + if a.control.state == Stopping && !a.control.hasTimerExpired then 1 else 0
  }

  function SnoozesOwed(a: AlertView): nat {
    Count(a.wiring.notifications, HasSnoozed) + if a.control.state == Snoozing && !a.control.hasTimerExpired then 1 else 0
  }

  lemma NotifyCounts(a: AlertView, state: ObserverState, reason: string, counted: ObserverState)
    ensures Count(a.wiring.notifications, counted) <= Count(Notify(a, state, reason).wiring.notifications, counted)
    ensures Count(Notify(a, state, reason).wiring.notifications, counted)
         <= Count(a.wiring.notifications, counted) + if state == counted then 1 else 0
  {
    CountAppend(a.wiring.notifications, Notification(state, reason), counted);
  }

  lemma NotifyCountsBoth(a: AlertView, state: ObserverState, reason: string)
    ensures var b := Notify(a, state, reason);
            && Count(b.wiring.notifications, HasStopped)
               <= Count(a.wiring.notifications, HasStopped) + (if state == HasStopped then 1 else 0)
            && Count(b.wiring.notifications, HasSnoozed)
               <= Count(a.wiring.notifications, HasSnoozed) + (if state == HasSnoozed then 1 else 0)
            && b.control == a.control
  {
    NotifyCounts(a, state, reason, HasStopped);
    NotifyCounts(a, state, reason, HasSnoozed);
  }

  lemma StoppedOwed(a: AlertView)
    ensures StopsOwed(OnRendererStopped(a)) <= StopsOwed(a)
    ensures SnoozesOwed(OnRendererStopped(a)) <= SnoozesOwed(a)
  {
    if a.control.hasTimerExpired {
      NotifyCountsBoth(WithState(a, Completed), HasCompleted, "");
    } else if a.control.state == Stopping {
      NotifyCountsBoth(WithState(a, Stopped), HasStopped, StopReasonText(a.control.stopReason));
    } else if a.control.state == Snoozing {
      NotifyCountsBoth(WithState(a, Snoozed), HasSnoozed, "");
    }
  }

  /** The counts that an event leaves alone, and the state it may leave. */
  predicate NeitherCounted(a: AlertView, b: AlertView) {
    && Count(b.wiring.notifications, HasStopped) == Count(a.wiring.notifications, HasStopped)
    && Count(b.wiring.notifications, HasSnoozed) == Count(a.wiring.notifications, HasSnoozed)
    && b.control.hasTimerExpired == a.control.hasTimerExpired
    && (b.control.state == a.control.state || b.control.state == Completed)
  }

  lemma OtherNoteUncounted(a: AlertView, state: ObserverState, reason: string)
    requires state != HasStopped && state != HasSnoozed
    ensures NeitherCounted(a, Notify(a, state, reason))
  {
    CountAppend(a.wiring.notifications, Notification(state, reason), HasStopped);
    CountAppend(a.wiring.notifications, Notification(state, reason), HasSnoozed);
  }

  /** Events other than a renderer stop report neither a stop nor a snooze. */
  lemma OtherEventsOwed(a: AlertView, event: RendererState, reason: string)
    requires event != RendererStopped
    ensures NeitherCounted(a, OnRendererStateChange(a, event, reason))
  {
    match event
    case RendererStarted => OtherNoteUncounted(a, Started, "");
    case RendererError => OtherNoteUncounted(a, Failed, reason);
    case RendererCompleted => OtherNoteUncounted(WithState(a, Completed), HasCompleted, "");
    case _ =>
  }

  /** One step raises what is owed by no more than the deactivation or snooze it is. */
  lemma OwedStep(a: AlertView, op: AlertOp, parse: TimeParser)
    ensures StopsOwed(Apply(a, op, parse)) <= StopsOwed(a) + if op.DoDeactivate? then 1 else 0
    ensures SnoozesOwed(Apply(a, op, parse)) <=
            SnoozesOwed(a) + if op.DoSnooze? && parse(op.iso).Some? then 1 else 0
  {
    if op.DoRendererEvent? {
      if op.event == RendererStopped {
        StoppedOwed(a);
      } else {
        OtherEventsOwed(a, op.event, op.reason);
      }
    }
  }

  lemma {:induction false} OwedRun(a: AlertView, ops: seq<AlertOp>, parse: TimeParser)
    ensures StopsOwed(Run(a, ops, parse)) <= StopsOwed(a) + Deactivations(ops)
    ensures SnoozesOwed(Run(a, ops, parse)) <= SnoozesOwed(a) + SuccessfulSnoozes(ops, parse)
    decreases |ops|
  {
    if ops != [] {
      OwedStep(a, ops[0], parse);
      OwedRun(Apply(a, ops[0], parse), ops[1..], parse);
    }
  }

  /** From a new alert, stopped notifications never outnumber deactivations, and snoozed
      notifications never outnumber successful snoozes. */
  lemma NotificationAccounting(alertType: string, ops: seq<AlertOp>, parse: TimeParser)
    ensures var notes := Run(NewAlert(alertType), ops, parse).wiring.notifications;
            && Count(notes, HasStopped) <= Deactivations(ops)
            && Count(notes, HasSnoozed) <= SuccessfulSnoozes(ops, parse)
  {
    OwedRun(NewAlert(alertType), ops, parse);
  }

  /** After expiry every renderer stop is reported as a completion. */
  lemma ExpiredStop(a: AlertView)
    requires a.control.hasTimerExpired
    ensures var b := OnRendererStopped(a);
            && b.control.hasTimerExpired && b.control.state == Completed
            && (a.wiring.hasObserver ==> b.wiring.notifications == a.wiring.notifications + [Notification(HasCompleted, "")])
            && Count(b.wiring.notifications, HasStopped) == Count(a.wiring.notifications, HasStopped)
            && Count(b.wiring.notifications, HasSnoozed) == Count(a.wiring.notifications, HasSnoozed)
  {
    NotifyCounts(WithState(a, Completed), HasCompleted, "", HasStopped);
    NotifyCounts(WithState(a, Completed), HasCompleted, "", HasSnoozed);
  }

  lemma ExpiredStep(a: AlertView, op: AlertOp, parse: TimeParser)
    requires a.control.hasTimerExpired
    ensures var b := Apply(a, op, parse);
            && b.control.hasTimerExpired
            && Count(b.wiring.notifications, HasStopped) == Count(a.wiring.notifications, HasStopped)
            && Count(b.wiring.notifications, HasSnoozed) == Count(a.wiring.notifications, HasSnoozed)
  {
    if op.DoRendererEvent? {
      if op.event == RendererStopped {
        ExpiredStop(a);
      } else {
        OtherEventsOwed(a, op.event, op.reason);
      }
    }
  }

  /** Once the maximum-length timer has fired, nothing is reported stopped or snoozed again. */
  lemma {:induction false} ExpiredAlertOnlyCompletes(a: AlertView, ops: seq<AlertOp>, parse: TimeParser)
    requires a.control.hasTimerExpired
    ensures var b := Run(a, ops, parse);
            && b.control.hasTimerExpired
            && Count(b.wiring.notifications, HasStopped) == Count(a.wiring.notifications, HasStopped)
            && Count(b.wiring.notifications, HasSnoozed) == Count(a.wiring.notifications, HasSnoozed)
    decreases |ops|
  {
    if ops != [] {
      ExpiredStep(a, ops[0], parse);
      ExpiredAlertOnlyCompletes(Apply(a, ops[0], parse), ops[1..], parse);
    }
  }

  // --------------------------------------------------------------- lifecycle

  /** A renderer event never enters a ringing state. */
  lemma EventsDoNotRing(a: AlertView, event: RendererState, reason: string)
    ensures var b := OnRendererStateChange(a, event, reason);
            b.control.state == a.control.state || !Ringing(b)
  {
    if event != RendererStopped {
      OtherEventsOwed(a, event, reason);
    }
  }

  /** Exactly which steps enter the ringing states. */
  lemma RingingIsEnteredInOrder(a: AlertView, op: AlertOp, parse: TimeParser)
    ensures var b := Apply(a, op, parse);
            && (b.control.state == Active && a.control.state != Active <==> op.DoSetStateActive? && a.control.state == Activating)
            && (b.control.state == Activating && a.control.state != Activating <==> SuccessfulActivation(a, op))
  {
    if op.DoRendererEvent? {
      EventsDoNotRing(a, op.event, op.reason);
    }
  }

  /** An alert that is ringing at the end of a run from a silent start was activated in that run, and has
      asked the renderer to start. */
  lemma {:induction false} RingingWasActivated(a: AlertView, ops: seq<AlertOp>, parse: TimeParser)
      returns (i: nat)
    requires !Ringing(a) && Ringing(Run(a, ops, parse))
    ensures i < |ops| && SuccessfulActivation(Run(a, ops[..i], parse), ops[i])
    decreases |ops|
  {
    assert ops != [];
    var b := Apply(a, ops[0], parse);
    RingingIsEnteredInOrder(a, ops[0], parse);
    if SuccessfulActivation(a, ops[0]) {
      i := 0;
      assert ops[..0] == [];
    } else {
      var j := RingingWasActivated(b, ops[1..], parse);
      i := j + 1;
      assert ops[..i][1..] == ops[1..][..j] && ops[..i][0] == ops[0];
    }
  }

  // ------------------------------------------------- starts that nobody hears

  /** The step starts the renderer, and the alert is not ringing. */
  predicate StartsSilently(a: AlertView, op: AlertOp, parse: TimeParser) {
    var b := Apply(a, op, parse);
    Starts(b.wiring.rendererCalls) > Starts(a.wiring.rendererCalls) && !Ringing(b)
  }

  lemma EventStartsNothing(a: AlertView, event: RendererState, reason: string)
    ensures Starts(OnRendererStateChange(a, event, reason).wiring.rendererCalls) == Starts(a.wiring.rendererCalls)
  {
    StartsAppend(a.wiring.rendererCalls, StopCall);
    match event
    case RendererStarted => assert OnRendererStateChange(a, event, reason) == OnRendererStarted(a);
    case RendererStopped => assert OnRendererStateChange(a, event, reason) == OnRendererStopped(a);
    case RendererError => assert OnRendererStateChange(a, event, reason) == OnRendererError(a, reason);
    case _ =>
  }

  /** The renderer is started for an alert that does not ring exactly by a delayed restart: the restart looks
      at the state no more. */
  lemma StartsSilentlyIff(a: AlertView, op: AlertOp, parse: TimeParser)
    ensures StartsSilently(a, op, parse) <==> op.DoRestart? && a.control.pendingRestarts > 0 && !Ringing(a)
  {
    StartsAppend(a.wiring.rendererCalls, StopCall);
    match op
    case DoActivate(timerStarts) => OneMoreStart(BeginActivation(a, timerStarts));
    case DoRendererEvent(event, reason) => EventStartsNothing(a, event, reason);
    case DoRestart =>
      if a.control.pendingRestarts > 0 {
        OneMoreStart(TakeRestart(a));
      }
    case _ =>
  }

  /** A restart is decided for an alert that does not ring exactly by a renderer stop that finds the flag of an
      earlier focus change still set, or by a first rendering failure. */
  lemma DecidedSilentlyIff(a: AlertView, event: RendererState, reason: string)
    requires !Ringing(a)
    ensures OnRendererStateChange(a, event, reason).control.pendingRestarts > a.control.pendingRestarts <==>
              || (event == RendererStopped && !a.control.hasTimerExpired && a.control.state != Stopping
                  && a.control.state != Snoozing && a.control.startAgainAfterFullStop)
              || (event == RendererError && a.control.state != Stopping && a.control.state != Stopped
                  && a.content.assets.assetPlayOrderItems != [] && !a.control.hasRenderingFailed)
  {
    match event
    case RendererStarted => assert OnRendererStateChange(a, event, reason) == OnRendererStarted(a);
    case RendererStopped => assert OnRendererStateChange(a, event, reason) == OnRendererStopped(a);
    case RendererError => assert OnRendererStateChange(a, event, reason) == OnRendererError(a, reason);
    case _ =>
  }

  /** What a snooze followed by two renderer stops makes of an alert. */
  function SnoozedTwiceStopped(a: AlertView, iso: string, parse: TimeParser): AlertView {
    OnRendererStopped(OnRendererStopped(Snooze(a, iso, parse)))
  }

  /** The flag outlives the snooze: after the snooze and two renderer stops, a restart is due exactly when the
      flag was set before, and it finds the alert snoozed. */
  lemma SnoozedAlertRestartsIff(a: AlertView, iso: string, parse: TimeParser)
    requires parse(iso).Some? && !a.control.hasTimerExpired && a.control.pendingRestarts == 0
    ensures var b := SnoozedTwiceStopped(a, iso, parse);
            && b.control.state == Snoozed
            && (StartsSilently(b, DoRestart, parse) <==> a.control.startAgainAfterFullStop)
  {
    var a1 := Snooze(a, iso, parse);
    var a2 := OnRendererStopped(a1);
    assert a2.control == a1.control.(state := Snoozed);
    StartsSilentlyIff(OnRendererStopped(a2), DoRestart, parse);
  }

  /** A focus change while the alert sounds sets the flag, so that the renderer starts for the snoozed alert. */
  lemma FocusChangeThenSnoozeStarts(a: AlertView, focus: FocusState, iso: string, parse: TimeParser)
    requires a.control.state == Active && focus != a.control.focusState
    requires parse(iso).Some? && !a.control.hasTimerExpired && a.control.pendingRestarts == 0
    ensures var b := SnoozedTwiceStopped(SetFocusState(a, focus), iso, parse);
            b.control.state == Snoozed && StartsSilently(b, DoRestart, parse)
  {
    SnoozedAlertRestartsIff(SetFocusState(a, focus), iso, parse);
  }
}
