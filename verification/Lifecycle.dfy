/** What each operation of an alert does to its state. */
module AlertLifecycle {
  import opened AlertTypes

  const BACKGROUND_PAUSE_MS := 10000

  function UrlOf(assets: map<string, Asset>, id: string): string {
    if id in assets then assets[id].url else ""
  }

  function UrlsOf(assets: map<string, Asset>, ids: seq<string>): (urls: seq<string>)
    ensures |urls| == |ids|
  {
    seq(|ids|, i requires 0 <= i < |ids| => UrlOf(assets, ids[i]))
  }

  /** Reading a missing key of the asset map inserts an empty asset. */
  function Touch(assets: map<string, Asset>, ids: seq<string>): map<string, Asset> {
    assets + (map id | id in ids && id !in assets :: Asset("", ""))
  }

  function WithState(a: AlertView, state: Lifecycle): AlertView {
    a.(control := a.control.(state := state))
  }

  /** The asset ids a renderer start reads, in order. */
  function RequestedIds(a: AlertView): seq<string> {
    var c := a.content.assets;
    if a.control.hasRenderingFailed then []
    else if a.control.focusState == Background then
      if c.backgroundAssetId == "" then [] else [c.backgroundAssetId]
    else if c.assets == map[] then []
    else c.assetPlayOrderItems
  }

  /** The renderer call that a start of the alert makes. */
  function StartOf(a: AlertView): RendererCall {
    var background := a.control.focusState == Background;
    StartCall(background,
              UrlsOf(a.content.assets.assets, RequestedIds(a)),
              a.content.loopCount,
              if background then BACKGROUND_PAUSE_MS else a.content.assets.loopPause,
              background && a.control.state != Activating)
  }

  function Call(a: AlertView, call: RendererCall): AlertView {
    a.(wiring := a.wiring.(rendererCalls := a.wiring.rendererCalls + [call]))
  }

  function TouchRequested(a: AlertView): AlertView {
    a.(content := a.content.(assets := a.content.assets.(assets :=
      Touch(a.content.assets.assets, RequestedIds(a)))))
  }

  function StartRenderer(a: AlertView): AlertView {
    Call(TouchRequested(a), StartOf(a))
  }

  function StopRenderer(a: AlertView): AlertView {
    Call(a, StopCall)
  }

  function Notify(a: AlertView, state: ObserverState, reason: string): AlertView {
    if a.wiring.hasObserver then
      a.(wiring := a.wiring.(notifications := a.wiring.notifications + [Notification(state, reason)]))
    else a
  }

  function Connect(a: AlertView): AlertView {
    a.(wiring := a.wiring.(hasRenderer := true, hasObserver := true))
  }

  function BeginActivation(a: AlertView, timerStarts: bool): AlertView {
    a.(control := a.control.(state := Activating,
                             maxLengthTimerActive := a.control.maxLengthTimerActive || timerStarts))
  }

  function Activate(a: AlertView, timerStarts: bool): AlertView {
    if Ringing(a) then a else StartRenderer(BeginActivation(a, timerStarts))
  }

  function Deactivate(a: AlertView, reason: StopReason): AlertView {
    StopRenderer(a.(control := a.control.(state := Stopping, stopReason := reason, maxLengthTimerActive := false)))
  }

  function SetFocusState(a: AlertView, focus: FocusState): AlertView {
    if focus == a.control.focusState then a
    else if a.control.state == Activating then
      a.(control := a.control.(focusState := focus, focusChangedDuringActivation := true))
    else if a.control.state == Active then
      StopRenderer(a.(control := a.control.(focusState := focus, startAgainAfterFullStop := true)))
    else a.(control := a.control.(focusState := focus))
  }

  function SetStateActive(a: AlertView): AlertView {
    if a.control.state == Activating then WithState(a, Active) else a
  }

  function Reset(a: AlertView): AlertView {
    WithState(a, Set)
  }

  function WithTime(a: AlertView, iso: string, unix: int): AlertView {
    a.(content := a.content.(timePoint := TimePoint(iso, unix)))
  }

  predicate CanUpdateTime(a: AlertView, iso: string, parse: TimeParser) {
    !Ringing(a) && a.control.state != Stopping && parse(iso).Some?
  }

  function UpdateScheduledTime(a: AlertView, iso: string, parse: TimeParser): AlertView {
    if CanUpdateTime(a, iso, parse) then WithState(WithTime(a, iso, parse(iso).value), Set) else a
  }

  function Snooze(a: AlertView, iso: string, parse: TimeParser): AlertView {
    if parse(iso).None? then a
    else StopRenderer(WithState(WithTime(a, iso, parse(iso).value), Snoozing))
  }

  function SetAssetConfiguration(a: AlertView, c: AssetConfiguration): AlertView {
    if ValidConfiguration(c) then a.(content := a.content.(assets := c)) else a
  }

  function OnMaxTimerExpiration(a: AlertView): AlertView {
    StopRenderer(a.(control := a.control.(state := Stopping, hasTimerExpired := true, maxLengthTimerActive := false)))
  }

  function StopReasonText(reason: StopReason): string {
    match reason
    case NoReason => "UNSET"
    case AvsStop => "AVS_STOP"
    case LocalStop => "LOCAL_STOP"
    case Shutdown => "SHUTDOWN"
    case LogOut => "LOG_OUT"
  }

  /** The callback decides to start the renderer again; the start follows after a pause. */
  function DecideRestart(a: AlertView): AlertView {
    a.(control := a.control.(pendingRestarts := a.control.pendingRestarts + 1))
  }

  function TakeRestart(a: AlertView): AlertView
    requires a.control.pendingRestarts > 0
  {
    a.(control := a.control.(pendingRestarts := a.control.pendingRestarts - 1))
  }

  /** The delayed part of a renderer callback. */
  function Restart(a: AlertView): AlertView {
    if a.control.pendingRestarts == 0 then a else StartRenderer(TakeRestart(a))
  }

  function OnRendererStarted(a: AlertView): AlertView {
    if a.control.state == Stopped then StopRenderer(a)
    else if a.control.state != Activating then a
    else if a.control.focusChangedDuringActivation then
      DecideRestart(StopRenderer(a.(control := a.control.(focusChangedDuringActivation := false))))
    else Notify(a, Started, "")
  }

  function OnRendererStopped(a: AlertView): AlertView {
    if a.control.hasTimerExpired then Notify(WithState(a, Completed), HasCompleted, "")
    else if a.control.state == Stopping then
      Notify(WithState(a, Stopped), HasStopped, StopReasonText(a.control.stopReason))
    else if a.control.state == Snoozing then Notify(WithState(a, Snoozed), HasSnoozed, "")
    else if a.control.startAgainAfterFullStop then
      DecideRestart(a.(control := a.control.(startAgainAfterFullStop := false)))
    else a
  }

  function OnRendererError(a: AlertView, reason: string): AlertView {
    if a.control.state == Stopping || a.control.state == Stopped then a
    else if a.content.assets.assetPlayOrderItems != [] && !a.control.hasRenderingFailed then
      DecideRestart(a.(control := a.control.(hasRenderingFailed := true)))
    else Notify(a, Failed, reason)
  }

  function OnRendererStateChange(a: AlertView, event: RendererState, reason: string): AlertView {
    match event
    case RendererUnset => a
    case RendererStarted => OnRendererStarted(a)
    case RendererStopped => OnRendererStopped(a)
    case RendererCompleted => Notify(WithState(a, Completed), HasCompleted, "")
    case RendererError => OnRendererError(a, reason)
  }

  predicate IsPastDue(a: AlertView, now: int, limit: int) {
    a.content.timePoint.unix < now - limit
  }

  /** Everything that can happen to an alert between its construction and its destruction, but for
      the wholesale replacement of its data by the storage. */
  datatype AlertOp =
    | DoActivate(timerStarts: bool)
    | DoDeactivate(stopReason: StopReason)
    | DoSetFocus(focus: FocusState)
    | DoSetStateActive
    | DoReset
    | DoUpdateTime(iso: string)
    | DoSnooze(iso: string)
    | DoSetAssets(configuration: AssetConfiguration)
    | DoRendererEvent(event: RendererState, reason: string)
    | DoRestart
    | DoMaxTimer

  function Apply(a: AlertView, op: AlertOp, parse: TimeParser): AlertView {
    match op
    case DoActivate(timerStarts) => Activate(a, timerStarts)
    case DoDeactivate(reason) => Deactivate(a, reason)
    case DoSetFocus(focus) => SetFocusState(a, focus)
    case DoSetStateActive => SetStateActive(a)
    case DoReset => Reset(a)
    case DoUpdateTime(iso) => UpdateScheduledTime(a, iso, parse)
    case DoSnooze(iso) => Snooze(a, iso, parse)
    case DoSetAssets(c) => SetAssetConfiguration(a, c)
    case DoRendererEvent(event, reason) => OnRendererStateChange(a, event, reason)
    case DoRestart => Restart(a)
    case DoMaxTimer => OnMaxTimerExpiration(a)
  }

  function Run(a: AlertView, ops: seq<AlertOp>, parse: TimeParser): AlertView
    decreases |ops|
  {
    if ops == [] then a else Run(Apply(a, ops[0], parse), ops[1..], parse)
  }
}
