/** The alert object: its methods update its fields in place. */
module AlertObject {
  import opened AlertTypes
  import opened AlertLifecycle
  import opened AssetParsing

  datatype DynamicData = DynamicData(state: Lifecycle, hasRenderingFailed: bool, content: Content)

  datatype ParseStatus = Ok | MissingRequiredProperty | InvalidValue

  /** A SetAlert payload; None is a member that is missing or not a string. */
  datatype AlertPayload = AlertPayload(token: Option<string>, scheduledTime: Option<string>, assets: AssetPayload)

  predicate ValidData(d: DynamicData) {
    ValidConfiguration(d.content.assets) && d.content.loopCount >= 0
  }

  function WithDynamicData(a: AlertView, d: DynamicData): AlertView {
    a.(control := a.control.(state := d.state, hasRenderingFailed := d.hasRenderingFailed), content := d.content)
  }

  function WithIdentity(a: AlertView, identity: (string, int)): AlertView {
    a.(data := a.data.(token := identity.0, dbId := identity.1))
  }

  function WithAlertData(a: AlertView, identity: Option<(string, int)>, dynamic: Option<DynamicData>): AlertView {
    var b := if dynamic.Some? then WithDynamicData(a, dynamic.value) else a;
    if identity.Some? then WithIdentity(b, identity.value) else b
  }

  class Alert {
    var data: StaticData
    var content: Content
    var control: Control
    var hasRenderer: bool
    var hasObserver: bool
    ghost var rendererCalls: seq<RendererCall>
    ghost var notifications: seq<Notification>

    ghost function View(): AlertView
      reads this
    {
      AlertView(data, content, control, Wiring(hasRenderer, hasObserver, rendererCalls, notifications))
    }

    constructor (alertType: string)
      ensures View() == NewAlert(alertType)
    {
      data := StaticData("", alertType, 0);
      content := Content(EPOCH, 0, NO_ASSETS);
      control := FRESH_CONTROL;
      hasRenderer, hasObserver := false, false;
      rendererCalls, notifications := [], [];
    }

    /** The token is taken even from a payload that is refused later; the assets of a payload that is not
        refused are taken only when all of them are acceptable. */
    method ParseFromJson(payload: AlertPayload, parse: TimeParser) returns (status: ParseStatus)
      modifies this
      ensures payload.token.None? ==> status == MissingRequiredProperty && View() == old(View())
      ensures payload.token.Some? ==> data == old(data).(token := payload.token.value)
      ensures status == Ok <==>
              payload.token.Some? && payload.scheduledTime.Some? && parse(payload.scheduledTime.value).Some?
      ensures status == InvalidValue <==>
              payload.token.Some? && payload.scheduledTime.Some? && parse(payload.scheduledTime.value).None?
      ensures status != Ok ==> content == old(content)
      ensures status == Ok ==>
                content.timePoint.iso == payload.scheduledTime.value && Coherent(content.timePoint, parse)
      ensures status == Ok && !Acceptable(payload.assets, old(content.assets)) ==>
                content == old(content).(timePoint := content.timePoint)
      ensures status == Ok && Acceptable(payload.assets, old(content.assets)) ==>
                && Describes(payload.assets, content.assets)
                && content.loopCount == LoopCountOf(payload.assets)
      ensures control == old(control) && View().wiring == old(View().wiring)
    {
      if payload.token.None? {
        return MissingRequiredProperty;
      }
      data := data.(token := payload.token.value);
      if payload.scheduledTime.None? {
        return MissingRequiredProperty;
      }
      var unix := parse(payload.scheduledTime.value);
      if unix.None? {
        return InvalidValue;
      }
      content := content.(timePoint := TimePoint(payload.scheduledTime.value, unix.value));
      var committed, c, loops := ParseAssetConfiguration(payload.assets, content.assets, content.loopCount);
      content := content.(assets := c, loopCount := loops);
      return Ok;
    }

    method SetRenderer()
      modifies this`hasRenderer
      ensures hasRenderer
    {
      hasRenderer := true;
    }

    method SetObserver()
      modifies this`hasObserver
      ensures hasObserver
    {
      hasObserver := true;
    }

    method SetFocusState(focus: FocusState)
      requires control.state == Active && focus != control.focusState ==> hasRenderer
      modifies this
      ensures View() == AlertLifecycle.SetFocusState(old(View()), focus)
    {
      var alertState := control.state;
      if focus == control.focusState {
        return;
      }
      control := control.(focusState := focus);
      if alertState == Activating {
        control := control.(focusChangedDuringActivation := true);
        return;
      }
      if alertState == Active {
        control := control.(startAgainAfterFullStop := true);
        rendererCalls := rendererCalls + [StopCall];
      }
    }

    method SetStateActive() returns (ok: bool)
      modifies this
      ensures ok == (old(control.state) == Activating)
      ensures View() == AlertLifecycle.SetStateActive(old(View()))
    {
      if control.state != Activating {
        return false;
      }
      control := control.(state := Active);
      return true;
    }

    method Reset()
      modifies this
      ensures View() == AlertLifecycle.Reset(old(View()))
    {
      control := control.(state := Set);
    }

    method Activate(timerStarts: bool)
      requires hasRenderer
      modifies this
      ensures View() == AlertLifecycle.Activate(old(View()), timerStarts)
    {
      if control.state == Activating || control.state == Active {
        return;
      }
      control := control.(state := Activating);
      if !control.maxLengthTimerActive {
        control := control.(maxLengthTimerActive := timerStarts);
      }
      StartRendererLocked();
    }

    method Deactivate(reason: StopReason)
      requires hasRenderer
      modifies this
      ensures View() == AlertLifecycle.Deactivate(old(View()), reason)
    {
      control := control.(state := Stopping);
      control := control.(stopReason := reason);
      control := control.(maxLengthTimerActive := false);
      rendererCalls := rendererCalls + [StopCall];
    }

    method UpdateScheduledTime(iso: string, parse: TimeParser) returns (ok: bool)
      modifies this
      ensures ok == CanUpdateTime(old(View()), iso, parse)
      ensures View() == AlertLifecycle.UpdateScheduledTime(old(View()), iso, parse)
    {
      var state := control.state;
      if state == Active || state == Activating || state == Stopping {
        return false;
      }
      var unix := parse(iso);
      if unix.None? {
        return false;
      }
      content := content.(timePoint := TimePoint(iso, unix.value));
      control := control.(state := Set);
      return true;
    }

    method Snooze(iso: string, parse: TimeParser) returns (ok: bool)
      requires hasRenderer
      modifies this
      ensures ok == parse(iso).Some?
      ensures View() == AlertLifecycle.Snooze(old(View()), iso, parse)
    {
      var unix := parse(iso);
      if unix.None? {
        return false;
      }
      content := content.(timePoint := TimePoint(iso, unix.value));
      control := control.(state := Snoozing);
      rendererCalls := rendererCalls + [StopCall];
      return true;
    }

    method SetAssetConfiguration(c: AssetConfiguration) returns (ok: bool)
      modifies this
      ensures ok == ValidConfiguration(c)
      ensures View() == AlertLifecycle.SetAssetConfiguration(old(View()), c)
    {
      ok := ValidateAssetConfiguration(c);
      if ok {
        content := content.(assets := c);
      }
    }

    method SetAlertData(identity: Option<(string, int)>, dynamic: Option<DynamicData>) returns (ok: bool)
      modifies this
      ensures ok == ((identity.Some? || dynamic.Some?) && (dynamic.Some? ==> ValidData(dynamic.value)))
      ensures View() == if ok then WithAlertData(old(View()), identity, dynamic) else old(View())
    {
      if identity.None? && dynamic.None? {
        return false;
      }
      if dynamic.Some? {
        var d := dynamic.value;
        var valid := ValidateAssetConfiguration(d.content.assets);
        if !valid || d.content.loopCount < 0 {
          return false;
        }
        control := control.(state := d.state, hasRenderingFailed := d.hasRenderingFailed);
        content := d.content;
      }
      if identity.Some? {
        data := data.(token := identity.value.0, dbId := identity.value.1);
      }
      return true;
    }

    /** The part of the renderer callback that runs under the alert's lock. When it answers true, the
        caller pauses and then calls `RestartRenderer`. */
    method OnRendererStateChange(event: RendererState, reason: string) returns (shouldRetryRendering: bool)
      requires event == RendererStarted && (control.state == Stopped || control.state == Activating) ==> hasRenderer
      modifies this
      ensures View() == AlertLifecycle.OnRendererStateChange(old(View()), event, reason)
      ensures shouldRetryRendering == (control.pendingRestarts == old(control.pendingRestarts) + 1)
    {
      shouldRetryRendering := false;
      var notify: Option<Notification> := None;
      match event {
        case RendererUnset =>
        case RendererStarted =>
          if control.state == Stopped {
            rendererCalls := rendererCalls + [StopCall];
          } else if control.state == Activating {
            if control.focusChangedDuringActivation {
              control := control.(focusChangedDuringActivation := false);
              shouldRetryRendering := true;
              rendererCalls := rendererCalls + [StopCall];
            } else {
              notify := Some(Notification(Started, ""));
            }
          }
        case RendererStopped =>
          if control.hasTimerExpired {
            control := control.(state := Completed);
            notify := Some(Notification(HasCompleted, ""));
          } else if control.state == Stopping {
            control := control.(state := Stopped);
            notify := Some(Notification(HasStopped, StopReasonText(control.stopReason)));
          } else if control.state == Snoozing {
            control := control.(state := Snoozed);
            notify := Some(Notification(HasSnoozed, ""));
          } else if control.startAgainAfterFullStop {
            control := control.(startAgainAfterFullStop := false);
            shouldRetryRendering := true;
          }
        case RendererCompleted =>
          control := control.(state := Completed);
          notify := Some(Notification(HasCompleted, ""));
        case RendererError =>
          if control.state == Stopping || control.state == Stopped {
          } else if content.assets.assetPlayOrderItems != [] && !control.hasRenderingFailed {
            control := control.(hasRenderingFailed := true);
            shouldRetryRendering := true;
          } else {
            notify := Some(Notification(Failed, reason));
          }
      }
      NotifyObserver(notify);
      if shouldRetryRendering {
        control := control.(pendingRestarts := control.pendingRestarts + 1);
      }
    }

    method NotifyObserver(notify: Option<Notification>)
      modifies this`notifications
      ensures View() == if notify.None? then old(View())
                        else AlertLifecycle.Notify(old(View()), notify.value.state, notify.value.reason)
    {
      if notify.Some? && hasObserver {
        notifications := notifications + [notify.value];
      }
    }

    /** The delayed part of the renderer callback. */
    method RestartRenderer()
      requires control.pendingRestarts > 0 && hasRenderer
      modifies this
      ensures View() == AlertLifecycle.Restart(old(View()))
    {
      control := control.(pendingRestarts := control.pendingRestarts - 1);
      StartRendererLocked();
    }

    /** Reads the urls through the indexing operator of the asset map, which inserts what it misses. */
    method StartRendererLocked()
      requires hasRenderer
      modifies this
      ensures View() == AlertLifecycle.StartRenderer(old(View()))
    {
      ghost var before := View();
      var c := content.assets;
      var loopPause := c.loopPause;
      var startWithPause := false;
      var ids: seq<string> := [];
      if control.focusState == Background {
        if c.backgroundAssetId != "" && !control.hasRenderingFailed {
          ids := [c.backgroundAssetId];
        }
        loopPause := BACKGROUND_PAUSE_MS;
        if control.state != Activating {
          startWithPause := true;
        }
      } else if c.assets != map[] && !control.hasRenderingFailed {
        ids := c.assetPlayOrderItems;
      }
      assert ids == RequestedIds(before);
      var urls, assets := ReadUrls(c.assets, ids);
      content := content.(assets := c.(assets := assets));
      var call := StartCall(control.focusState == Background, urls, content.loopCount, loopPause, startWithPause);
      rendererCalls := rendererCalls + [call];
    }

    method OnMaxTimerExpiration()
      requires hasRenderer
      modifies this
      ensures View() == AlertLifecycle.OnMaxTimerExpiration(old(View()))
    {
      control := control.(state := Stopping, maxLengthTimerActive := false);
      control := control.(hasTimerExpired := true);
      rendererCalls := rendererCalls + [StopCall];
    }

    method IsPastDue(now: int, limit: int) returns (r: bool)
      ensures r == AlertLifecycle.IsPastDue(View(), now, limit)
    {
      var cutoff := now - limit;
      return content.timePoint.unix < cutoff;
    }
  }

  method ValidateAssetConfiguration(c: AssetConfiguration) returns (ok: bool)
    ensures ok == ValidConfiguration(c)
  {
    if c.backgroundAssetId != "" && !HasAsset(c.backgroundAssetId, c.assets) {
      return false;
    }
    for i := 0 to |c.assetPlayOrderItems|
      invariant forall j :: 0 <= j < i ==> HasAsset(c.assetPlayOrderItems[j], c.assets)
    {
      if !HasAsset(c.assetPlayOrderItems[i], c.assets) {
        return false;
      }
    }
    return true;
  }

  lemma UrlsOneMore(assets: map<string, Asset>, ids: seq<string>, id: string)
    ensures UrlsOf(assets, ids + [id]) == UrlsOf(assets, ids) + [UrlOf(assets, id)]
  {
  }

  lemma TouchOneMore(assets: map<string, Asset>, ids: seq<string>, id: string)
    ensures Touch(assets, ids + [id]) ==
            if id in Touch(assets, ids) then Touch(assets, ids) else Touch(assets, ids)[id := Asset("", "")]
  {
    var more := ids + [id];
    assert more[|ids|] == id;
    assert forall x :: x in more <==> x in ids || x == id;
  }

  /** Reads `assets[id].url` for every id in turn. */
  method ReadUrls(assets: map<string, Asset>, ids: seq<string>)
      returns (urls: seq<string>, grown: map<string, Asset>)
    ensures urls == UrlsOf(assets, ids)
    ensures grown == Touch(assets, ids)
  {
    urls, grown := [], assets;
    for i := 0 to |ids|
      invariant urls == UrlsOf(assets, ids[..i])
      invariant grown == Touch(assets, ids[..i])
    {
      assert ids[..i + 1] == ids[..i] + [ids[i]];
      UrlsOneMore(assets, ids[..i], ids[i]);
      TouchOneMore(assets, ids[..i], ids[i]);
      if ids[i] !in grown {
        grown := grown[ids[i] := Asset("", "")];
      }
      urls := urls + [grown[ids[i]].url];
    }
    assert ids[..|ids|] == ids;
  }
}
