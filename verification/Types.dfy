/** Value types shared by the alerts subsystem. */
module AlertTypes {

  datatype Option<+T> = None | Some(value: T)

  datatype FocusState = Foreground | Background | NoFocus

  /** The ten states of an alert. */
  datatype Lifecycle =
    | Unset | Set | Ready | Activating | Active | Snoozing | Snoozed | Stopping | Stopped | Completed

  datatype StopReason = NoReason | AvsStop | LocalStop | Shutdown | LogOut

  /** What an alert, and the scheduler, report to their observer. */
  datatype ObserverState =
    | ReadyToStart | Started | HasStopped | HasSnoozed | HasCompleted | PastDue
    | EnteredForeground | EnteredBackground | Failed | Deleted | ScheduledForLater

  /** What the renderer reports to the alert. */
  datatype RendererState =
    | RendererUnset | RendererStarted | RendererStopped | RendererCompleted | RendererError

  datatype Asset = Asset(id: string, url: string)

  datatype AssetConfiguration = AssetConfiguration(
    assets: map<string, Asset>,
    assetPlayOrderItems: seq<string>,
    backgroundAssetId: string,
    loopPause: int)

  /** A scheduled time: the ISO 8601 text and the Unix seconds it was converted to. */
  datatype TimePoint = TimePoint(iso: string, unix: int)

  /** The conversion of ISO 8601 text to Unix seconds; None is a conversion failure. */
  type TimeParser = string -> Option<int>

  datatype RendererCall =
    | StartCall(shortAudio: bool, urls: seq<string>, loopCount: int, loopPause: int, startWithPause: bool)
    | StopCall

  datatype Notification = Notification(state: ObserverState, reason: string)

  datatype StaticData = StaticData(token: string, alertType: string, dbId: int)

  /** What the alert was asked to do. */
  datatype Content = Content(timePoint: TimePoint, loopCount: int, assets: AssetConfiguration)

  /** The lifecycle state and the flags that steer it. `pendingRestarts` counts the renderer callbacks
      that have decided to start the renderer again and have not done so yet. */
  datatype Control = Control(
    state: Lifecycle,
    stopReason: StopReason,
    focusState: FocusState,
    hasRenderingFailed: bool,
    hasTimerExpired: bool,
    maxLengthTimerActive: bool,
    focusChangedDuringActivation: bool,
    startAgainAfterFullStop: bool,
    pendingRestarts: nat)

  /** The renderer and observer pointers, and the calls made through them so far. */
  datatype Wiring = Wiring(
    hasRenderer: bool,
    hasObserver: bool,
    rendererCalls: seq<RendererCall>,
    notifications: seq<Notification>)

  /** The whole state of one alert. */
  datatype AlertView = AlertView(data: StaticData, content: Content, control: Control, wiring: Wiring)

  const NO_ASSETS := AssetConfiguration(map[], [], "", 0)
  const EPOCH := TimePoint("", 0)

  const FRESH_CONTROL := Control(Set, NoReason, NoFocus, false, false, false, false, false, 0)
  const UNWIRED := Wiring(false, false, [], [])

  /** An alert object as its constructor leaves it. */
  function NewAlert(alertType: string): AlertView {
    AlertView(StaticData("", alertType, 0), Content(EPOCH, 0, NO_ASSETS), FRESH_CONTROL, UNWIRED)
  }

  /** The text and the Unix seconds of a time point agree. */
  predicate Coherent(time: TimePoint, parse: TimeParser) {
    parse(time.iso) == Some(time.unix)
  }

  predicate Ringing(a: AlertView) {
    a.control.state == Activating || a.control.state == Active
  }

  predicate HasAsset(key: string, assets: map<string, Asset>) {
    key in assets && assets[key].id == key && assets[key].url != ""
  }

  /** The check that the asset setters apply and that parsing does not. */
  predicate ValidConfiguration(c: AssetConfiguration) {
    && (c.backgroundAssetId != "" ==> HasAsset(c.backgroundAssetId, c.assets))
    && forall item :: item in c.assetPlayOrderItems ==> HasAsset(item, c.assets)
  }

  /** Narrowing of a 64-bit value to a 32-bit signed one. */
  function ToInt32(x: int): int {
    (x + 0x8000_0000) % 0x1_0000_0000 - 0x8000_0000
  }

  const INT32_MAX := 0x7fff_ffff
}
