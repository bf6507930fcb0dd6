/** The capability agent: routing of SetAlert directives into the scheduler, and the handlers of the volume
    protocol. */
module AlertsCapabilityAgent {
  import opened AlertTypes
  import opened AlertObject
  import opened AssetParsing
  import opened AlertRecords
  import opened SchedulerModel
  import opened SchedulerPopulation
  import opened SchedulerUpdates
  import opened SchedulerConsistency
  import opened SchedulerQuiet
  import opened SchedulerWakeups
  import opened SchedulerRuns
  import opened AlertSchedulerObject
  import opened AlertVolume
  import opened AlertQueue
  import Life = AlertLifecycle

  const INT64_MIN := -0x8000_0000_0000_0000
  const INT64_MAX := 0x7fff_ffff_ffff_ffff

  /** A new alert of a known type that a parse of the payload has filled. */
  ghost predicate ParsedFrom(payload: AlertPayload, alertType: string, a: AlertView, parse: TimeParser) {
    && KnownType(alertType) && payload.token.Some? && payload.scheduledTime.Some?
    && a.data == StaticData(payload.token.value, alertType, 0)
    && a.content.timePoint.iso == payload.scheduledTime.value && Coherent(a.content.timePoint, parse)
    && a.control == FRESH_CONTROL && a.wiring == UNWIRED
    && (if AssetParsing.Acceptable(payload.assets, NO_ASSETS) then
          Describes(payload.assets, a.content.assets) && a.content.loopCount == LoopCountOf(payload.assets)
        else a.content.assets == NO_ASSETS && a.content.loopCount == 0)
  }

  predicate Parses(payload: AlertPayload, parse: TimeParser) {
    payload.token.Some? && payload.scheduledTime.Some? && parse(payload.scheduledTime.value).Some?
  }

  predicate IsRinging(s: SchedulerView, token: string) {
    IsActiveToken(s, token) && Ringing(s.active.value)
  }

  /** A ringing alert is snoozed to the new time; any other is scheduled. */
  ghost function SetAlert(s: SchedulerView, a: AlertView, env: Env, parse: TimeParser): SchedulerView {
    if IsRinging(s, a.data.token) then SchedulerModel.SnoozeAlert(s, a.data.token, a.content.timePoint.iso, parse)
    else SchedulerModel.ScheduleAlert(s, a, env, parse)
  }

  /** A SetAlert directive needs no guard: whatever it carries, the scheduler's invariant is kept. */
  lemma SetAlertKeepsInvariant(s: SchedulerView, payload: AlertPayload, alertType: string, a: AlertView, env: Env,
                               parse: TimeParser)
    requires Invariant(s, parse) && ParsedFrom(payload, alertType, a, parse) && Working(env)
    ensures Invariant(SetAlert(s, a, env, parse), parse)
  {
    var op := if IsRinging(s, a.data.token) then DoSnooze(a.data.token, a.content.timePoint.iso) else DoSchedule(a);
    StepKeepsConsistencyIff(s, op, env, parse);
    StepKeepsQuietIff(s, op, env, parse);
    StepKeepsFocusAgreement(s, op, env, parse);
    StepLosesNoWakeup(s, op, env, parse);
  }

  /** The directive is answered with true. */
  predicate SetAlertOk(s: SchedulerView, a: AlertView, env: Env, parse: TimeParser) {
    IsRinging(s, a.data.token) || ScheduleOk(s, a, env, parse)
  }

  ghost predicate OthersUntouched(s: SchedulerView, t: SchedulerView, token: string) {
    forall x: AlertView :: x.data.token != token ==> (InMemory(t, x) <==> InMemory(s, x))
  }

  /** The alert the directive is about has the directive's time and, unless it was snoozed, its assets. */
  ghost predicate TakesEffect(t: SchedulerView, a: AlertView, snoozed: bool) {
    && Knows(t, a.data.token)
    && forall x :: InMemory(t, x) && x.data.token == a.data.token ==>
         && x.content.timePoint == a.content.timePoint
         && (if snoozed then x.control.state == Snoozing else x.content.assets == a.content.assets)
  }

  /** Every alert with the token was there before, with the same time. */
  ghost predicate TimesKept(s: SchedulerView, t: SchedulerView, token: string) {
    forall x :: InMemory(t, x) && x.data.token == token ==>
      exists y :: InMemory(s, y) && y.data == x.data && y.content.timePoint == x.content.timePoint
  }

  /** A SetAlert touches no alert but its own. Answered with true, that alert is in memory with the directive's
      time, snoozed if it was ringing and else with the directive's assets; answered with false, no time and no
      row has changed, and no alert has come or gone. */
  lemma SetAlertOutcome(s: SchedulerView, payload: AlertPayload, alertType: string, a: AlertView, env: Env,
                        parse: TimeParser)
    requires Consistent(s, parse) && ParsedFrom(payload, alertType, a, parse)
    ensures var t, token := SetAlert(s, a, env, parse), a.data.token;
            && OthersUntouched(s, t, token)
            && (SetAlertOk(s, a, env, parse) ==> TakesEffect(t, a, IsRinging(s, token)))
            && (!SetAlertOk(s, a, env, parse) ==>
                  t.rows == s.rows && TimesKept(s, t, token) && (Knows(t, token) <==> Knows(s, token)))
  {
    var t, token := SetAlert(s, a, env, parse), a.data.token;
    QueuedProperties(s, token);
    if IsRinging(s, token) {
      assert t == s.(active := t.active) && t.active.value.data == s.active.value.data;
    } else if !SchedulerModel.Acceptable(s, a, env) {
      assert t == s;
    } else if IsActiveToken(s, token) {
      ActiveTokenIsNotRescheduled(s, a, env, parse);
    } else if Queued(s, token).Some? {
      RescheduledOutcome(s, Queued(s, token).value, a, env, parse);
    } else if StoreOk(s.rows, a, env.disk(token)) {
      StoredOutcome(s, a, env, parse);
    } else {
      assert t == s;
    }
  }

  lemma RescheduledOutcome(s: SchedulerView, before: AlertView, a: AlertView, env: Env, parse: TimeParser)
    requires Consistent(s, parse) && Coherent(a.content.timePoint, parse)
    requires before in s.queue && before.data.token == a.data.token && !IsActiveToken(s, a.data.token)
    ensures var iso, c := a.content.timePoint.iso, a.content.assets;
            var t := UpdateAlert(s, before, iso, c, env, parse);
            && OthersUntouched(s, t, a.data.token)
            && (UpdateOk(s, before, iso, c, env, parse) ==> TakesEffect(t, a, false))
            && (!UpdateOk(s, before, iso, c, env, parse) ==>
                  t.rows == s.rows && TimesKept(s, t, a.data.token) && Knows(t, a.data.token))
            && Knows(s, a.data.token)
  {
    var iso, c := a.content.timePoint.iso, a.content.assets;
    var t, b := UpdateAlert(s, before, iso, c, env, parse), UpdatedAlert(s, before, iso, c, env, parse);
    UpdateIsATransaction(s, before, iso, c, env, parse);
    UpdatedAlertIsAllOrNothing(s, before, iso, c, env, parse);
    assert b in t.queue;
    assert InMemory(s, before);
    forall x | InMemory(t, x) && x.data.token == a.data.token
      ensures x == b
    {
      assert x in s.queue ==> x == before;
    }
  }

  lemma StoredOutcome(s: SchedulerView, a: AlertView, env: Env, parse: TimeParser)
    requires Consistent(s, parse) && Coherent(a.content.timePoint, parse) && WouldStore(s, a, env)
    requires !IsActiveToken(s, a.data.token)
    ensures var t := ScheduleAlert(s, a, env, parse);
            OthersUntouched(s, t, a.data.token) && TakesEffect(t, a, false)
  {
    var b := Life.Connect(a.(data := a.data.(dbId := NextId(s.rows))));
    ScheduledAlert(s, a, env, parse);
    InsertNew(s.queue, b);
  }

  /** The service's payload comes through a load: its loop count is not negative as a 32-bit number, and its
      background asset, if it has one, is among its assets. An asset part that was refused does no harm. */
  ghost predicate ComesThrough(p: AssetPayload) {
    AssetParsing.Acceptable(p, NO_ASSETS) ==>
      && LoopCountOf(p) >= 0
      && (p.backgroundAssetId.Some? && p.backgroundAssetId.value != "" ==>
            Lists(p.assets.value, p.backgroundAssetId.value))
  }

  lemma DirectiveLoadsIff(payload: AlertPayload, alertType: string, a: AlertView, parse: TimeParser)
    requires ParsedFrom(payload, alertType, a, parse)
    ensures Loadable(RecordOf(a)) <==> ComesThrough(payload.assets)
  {
    var c, p := a.content.assets, payload.assets;
    if AssetParsing.Acceptable(p, NO_ASSETS) {
      ParsedIsBuilt(p, NO_ASSETS, c);
      CommittedConfiguration(p, NO_ASSETS, c);
    }
    RekeyedIff(c.assets);
    assert LoadedAssets(RecordOf(a)) == Stored(c);
    assert ValidConfiguration(Stored(c)) <==> ValidConfiguration(c);
  }

  /** Nothing that schedules an alert asks whether it can be loaded again. A directive that is stored beside rows
      that can all be loaded is back after the next load, whatever the order of the rows, exactly if its payload
      comes through. */
  lemma StoredDirectiveIsBackIff(s: SchedulerView, payload: AlertPayload, alertType: string, a: AlertView, env: Env,
                                 parse: TimeParser, scan: seq<int>)
    requires Consistent(s, parse) && ParsedFrom(payload, alertType, a, parse) && WouldStore(s, a, env)
    requires forall id :: id in s.rows ==> Loadable(s.rows[id])
    requires IsFullScan(ScheduleAlert(s, a, env, parse).rows, scan)
    ensures (exists x :: x in LoadRows(ScheduleAlert(s, a, env, parse).rows, scan, parse)
                         && x.data.token == a.data.token)
       <==> ComesThrough(payload.assets)
  {
    var rows, id := ScheduleAlert(s, a, env, parse).rows, NextId(s.rows);
    ScheduledAlert(s, a, env, parse);
    DirectiveLoadsIff(payload, alertType, a, parse);
    LoadedAlerts(rows, scan, parse);
    var loaded := LoadRows(rows, scan, parse);
    if ComesThrough(payload.assets) {
      LoadIsCompleteIff(rows, scan, parse);
      assert AlertOf(id, rows[id], parse) in loaded;
    } else {
      forall i | 0 <= i < |loaded|
        ensures loaded[i].data.token != a.data.token
      {
        assert Loadable(rows[scan[i]]) && scan[i] != id;
      }
    }
  }

  datatype ChannelCall = AcquireChannel | ReleaseChannel

  /** An alert that is ready acquires the alerts channel; one that has ended releases it, if the scheduler has
      focus. */
  function ChannelCallsOn(state: ObserverState, focus: FocusState): seq<ChannelCall> {
    if state == ReadyToStart then [AcquireChannel]
    else if state in {HasSnoozed, HasStopped, HasCompleted, Failed} && focus != NoFocus then [ReleaseChannel]
    else []
  }

  /** The calls that a run of notifications makes, each with the scheduler's focus at the time. */
  function ChannelCallsOver(run: seq<(ObserverState, FocusState)>): seq<ChannelCall> {
    if run == [] then []
    else ChannelCallsOver(run[..|run| - 1]) + ChannelCallsOn(run[|run| - 1].0, run[|run| - 1].1)
  }

  function Occurrences(calls: seq<ChannelCall>, call: ChannelCall): nat {
    if calls == [] then 0
    else Occurrences(calls[..|calls| - 1], call) + if calls[|calls| - 1] == call then 1 else 0
  }

  /** How often an alert became ready, and how often one ended under focus. */
  function Readies(run: seq<(ObserverState, FocusState)>): nat {
    if run == [] then 0 else Readies(run[..|run| - 1]) + if run[|run| - 1].0 == ReadyToStart then 1 else 0
  }

  function Ends(run: seq<(ObserverState, FocusState)>): nat {
    if run == [] then 0
    else
      var (state, focus) := run[|run| - 1];
      Ends(run[..|run| - 1]) +
        if focus != NoFocus && (state == HasStopped || state == HasCompleted || state == HasSnoozed || state == Failed)
        then 1 else 0
  }

  lemma OccurrencesAppend(calls: seq<ChannelCall>, more: seq<ChannelCall>, call: ChannelCall)
    requires |more| <= 1
    ensures Occurrences(calls + more, call) == Occurrences(calls, call) + if more == [call] then 1 else 0
  {
    if more == [] {
      assert calls + more == calls;
    } else {
      assert (calls + more)[..|calls|] == calls;
    }
  }

  lemma OneNotification(state: ObserverState, focus: FocusState)
    ensures ChannelCallsOn(state, focus) == [AcquireChannel] <==> state == ReadyToStart
    ensures ChannelCallsOn(state, focus) == [ReleaseChannel] <==>
              focus != NoFocus
              && (state == HasStopped || state == HasCompleted || state == HasSnoozed || state == Failed)
  {
    assert [AcquireChannel][0] != [ReleaseChannel][0];
  }

  /** Over any run of notifications the channel is acquired exactly as often as an alert becomes ready, and
      released exactly as often as one ends while the scheduler has focus. */
  lemma {:induction false} ChannelIsAcquiredAndReleased(run: seq<(ObserverState, FocusState)>)
    ensures Occurrences(ChannelCallsOver(run), AcquireChannel) == Readies(run)
    ensures Occurrences(ChannelCallsOver(run), ReleaseChannel) == Ends(run)
    decreases |run|
  {
    if run != [] {
      var init := run[..|run| - 1];
      var calls, more := ChannelCallsOver(init), ChannelCallsOn(run[|run| - 1].0, run[|run| - 1].1);
      ChannelIsAcquiredAndReleased(init);
      assert ChannelCallsOver(run) == calls + more;
      OccurrencesAppend(calls, more, AcquireChannel);
      OccurrencesAppend(calls, more, ReleaseChannel);
      OneNotification(run[|run| - 1].0, run[|run| - 1].1);
    }
  }

  class SpeakerManager {
    var alertsVolume: int
    var speakerVolume: int
    ghost var announced: seq<int>

    method SetAlertsVolume(volume: int, notify: bool)
      modifies this
      ensures alertsVolume == volume && speakerVolume == old(speakerVolume)
      ensures announced == if notify then old(announced) + [volume] else old(announced)
    {
      alertsVolume := volume;
      if notify {
        announced := announced + [volume];
      }
    }
  }

  class AlertsCapabilityAgent {
    const scheduler: AlertScheduler
    const speakers: SpeakerManager
    var lastReportedVolume: int
    var contentChannelIsActive: bool
    var commsChannelIsActive: bool
    var alertIsSounding: bool
    ghost var reports: seq<int>
    ghost var channelCalls: seq<ChannelCall>
    ghost var told: seq<Sent>

    ghost function Volume(): VolumeView
      reads this, speakers
    {
      VolumeView(lastReportedVolume, contentChannelIsActive, commsChannelIsActive, alertIsSounding,
                 speakers.alertsVolume, speakers.speakerVolume, speakers.announced, reports)
    }

    constructor (scheduler: AlertScheduler, speakers: SpeakerManager)
      ensures this.scheduler == scheduler && this.speakers == speakers
      ensures Volume() == VolumeView(speakers.alertsVolume, false, false, false, speakers.alertsVolume,
                                     speakers.speakerVolume, speakers.announced, [])
      ensures channelCalls == [] && told == []
    {
      this.scheduler, this.speakers := scheduler, speakers;
      lastReportedVolume := speakers.alertsVolume;
      contentChannelIsActive, commsChannelIsActive, alertIsSounding := false, false, false;
      reports, channelCalls, told := [], [], [];
    }

    /** The agent is none of the scheduler's objects. */
    lemma Apart()
      ensures this !in scheduler.Repr()
    {
    }

    /** Snoozes a ringing alert and schedules any other. */
    method SnoozeOrSchedule(parsed: Alert, env: Env) returns (ok: bool)
      requires scheduler.Valid() && Sorted(scheduler.View().queue) && parsed !in scheduler.Repr()
      modifies scheduler.Repr(), parsed
      ensures scheduler.Valid()
      ensures scheduler.View() == SetAlert(old(scheduler.View()), old(parsed.View()), env, scheduler.parse)
      ensures ok == SetAlertOk(old(scheduler.View()), old(parsed.View()), env, scheduler.parse)
      ensures told == old(told)
    {
      Apart();
      var active := scheduler.IsAlertActive(parsed);
      if active {
        ok := scheduler.SnoozeAlert(parsed.data.token, parsed.content.timePoint.iso);
      } else {
        ok := scheduler.ScheduleAlert(parsed, env);
      }
    }

    /** Builds the alert that the directive describes, without touching anything else. */
    method ParseAlert(payload: AlertPayload, alertType: Option<string>) returns (parsed: Alert?)
      ensures parsed != null <==> alertType.Some? && KnownType(alertType.value) && Parses(payload, scheduler.parse)
      ensures parsed != null ==> fresh(parsed) && ParsedFrom(payload, alertType.value, parsed.View(), scheduler.parse)
    {
      if alertType.None? || !KnownType(alertType.value) {
        return null;
      }
      var alert := new Alert(alertType.value);
      var status := alert.ParseFromJson(payload, scheduler.parse);
      parsed := if status == Ok then alert else null;
    }

    method HandleSetAlert(payload: AlertPayload, alertType: Option<string>, env: Env)
        returns (ok: bool, ghost a: AlertView)
      requires scheduler.Valid() && Sorted(scheduler.View().queue)
      modifies scheduler.Repr(), this`told
      ensures scheduler.Valid()
      ensures told == old(told) +
                if ok then [Sent(a.data.token, a.data.alertType, ScheduledForLater, a.content.timePoint.iso)] else []
      ensures alertType.None? || !KnownType(alertType.value) || !Parses(payload, scheduler.parse) ==>
                !ok && scheduler.View() == old(scheduler.View())
      ensures alertType.Some? && KnownType(alertType.value) && Parses(payload, scheduler.parse) ==>
                && ParsedFrom(payload, alertType.value, a, scheduler.parse)
                && scheduler.View() == SetAlert(old(scheduler.View()), a, env, scheduler.parse)
                && ok == SetAlertOk(old(scheduler.View()), a, env, scheduler.parse)
    {
      a := NewAlert("");
      var parsed := ParseAlert(payload, alertType);
      if parsed == null {
        return false, a;
      }
      a := parsed.View();
      assert scheduler.View() == old(scheduler.View());
      ok := SnoozeOrSchedule(parsed, env);
      if ok {
        Tell(Sent(a.data.token, a.data.alertType, ScheduledForLater, a.content.timePoint.iso));
      }
    }

    ghost method Tell(note: Sent)
      modifies this`told
      ensures told == old(told) + [note]
      ensures scheduler.View() == old(scheduler.View()) && (old(scheduler.Valid()) ==> scheduler.Valid())
    {
      told := told + [note];
    }

    method UpdateAvsWithLocalVolumeChanges(volume: int)
      modifies this`lastReportedVolume, this`reports
      ensures Volume() == Report(old(Volume()), volume)
    {
      lastReportedVolume := volume;
      reports := reports + [volume];
    }

    method SetNextAlertVolume(volume: int)
      modifies this`lastReportedVolume, this`reports, speakers
      ensures Volume() == AlertVolume.SetNextAlertVolume(old(Volume()), volume)
    {
      var v := volume;
      if v < AVS_SET_VOLUME_MIN {
        v := AVS_SET_VOLUME_MIN;
      } else if v > AVS_SET_VOLUME_MAX {
        v := AVS_SET_VOLUME_MAX;
      }
      speakers.SetAlertsVolume(ToInt8(v), true);
      UpdateAvsWithLocalVolumeChanges(ToInt8(v));
    }

    method HandleSetVolume(volume: Option<int>) returns (ok: bool)
      modifies this`lastReportedVolume, this`reports, speakers
      ensures ok == volume.Some?
      ensures Volume() == if ok then AlertVolume.SetNextAlertVolume(old(Volume()), volume.value) else old(Volume())
    {
      if volume.None? {
        return false;
      }
      SetNextAlertVolume(volume.value);
      return true;
    }

    /** The sum is a 64-bit one; `answers` says whether the speaker manager tells the present volume. */
    method HandleAdjustVolume(adjustment: Option<int>, answers: bool) returns (ok: bool)
      requires adjustment.Some? ==> INT64_MIN <= adjustment.value + speakers.alertsVolume <= INT64_MAX
      modifies this`lastReportedVolume, this`reports, speakers
      ensures ok == (adjustment.Some? && answers)
      ensures Volume() == if adjustment.Some? then AdjustVolume(old(Volume()), adjustment.value, answers)
                          else old(Volume())
    {
      if adjustment.None? || !answers {
        return false;
      }
      SetNextAlertVolume(adjustment.value + speakers.alertsVolume);
      return true;
    }

    /** The observers of the agent are told last. */
    method ExecuteOnAlertStateChange(note: Sent, answers: bool)
      modifies this`alertIsSounding, this`channelCalls, this`told, speakers
      ensures Volume() == OnAlertState(old(Volume()), note.state, answers)
      ensures channelCalls == old(channelCalls) + ChannelCallsOn(note.state, scheduler.focusState)
      ensures told == old(told) + [note]
    {
      var state := note.state;
      channelCalls := channelCalls + ChannelCallsOn(state, scheduler.focusState);
      var alertIsActive := state == Started || state == EnteredForeground || state == EnteredBackground;
      if alertIsActive {
        alertIsSounding := true;
        if contentChannelIsActive || commsChannelIsActive {
          if answers && lastReportedVolume < speakers.speakerVolume {
            speakers.SetAlertsVolume(lastReportedVolume, true);
          }
        }
      } else if alertIsSounding {
        alertIsSounding := false;
        speakers.SetAlertsVolume(lastReportedVolume, false);
      }
      told := told + [note];
    }

    method ExecuteOnFocusManagerFocusChanged(channel: Channel, focus: FocusState, answers: bool)
      modifies this`contentChannelIsActive, this`commsChannelIsActive, speakers
      ensures Volume() == OnChannelFocus(old(Volume()), channel, focus != NoFocus, answers)
    {
      var stateIsActive := focus != NoFocus;
      match channel {
        case ContentChannel => contentChannelIsActive := stateIsActive;
        case CommunicationsChannel => commsChannelIsActive := stateIsActive;
        case OtherChannel => return;
      }
      if alertIsSounding {
        if !commsChannelIsActive && !contentChannelIsActive {
          if answers && speakers.alertsVolume > lastReportedVolume {
            speakers.SetAlertsVolume(lastReportedVolume, true);
          }
        }
      }
    }

    /** Takes up the oldest announcement of the alerts channel. */
    method ExecuteOnSpeakerSettingsChanged(volume: int)
      requires speakers.announced != [] && volume == speakers.announced[0]
      modifies this`lastReportedVolume, this`reports, speakers`announced
      ensures Volume() == OnSpeakerSettings(old(Volume()))
    {
      speakers.announced := speakers.announced[1..];
      if !alertIsSounding {
        UpdateAvsWithLocalVolumeChanges(volume);
      }
    }
  }
}
