/** The volume protocol of the capability agent: which alerts volume was last reported to the service, and
    its restoration when an alert stops sounding. */
module AlertVolume {
  import opened AlertTypes

  const AVS_SET_VOLUME_MIN := 0
  const AVS_SET_VOLUME_MAX := 100

  datatype Channel = ContentChannel | CommunicationsChannel | OtherChannel

  /** `pending` holds the volumes of the alerts channel that the speaker manager has announced and the
      agent's executor has not yet taken up. */
  datatype VolumeView = VolumeView(
    lastReported: int,
    contentActive: bool,
    commsActive: bool,
    sounding: bool,
    alertsVolume: int,
    speakerVolume: int,
    pending: seq<int>,
    reports: seq<int>)

  function Clamp(volume: int): (v: int)
    ensures AVS_SET_VOLUME_MIN <= v <= AVS_SET_VOLUME_MAX
    ensures v == volume <==> AVS_SET_VOLUME_MIN <= volume <= AVS_SET_VOLUME_MAX
  {
    if volume < AVS_SET_VOLUME_MIN then AVS_SET_VOLUME_MIN
    else if volume > AVS_SET_VOLUME_MAX then AVS_SET_VOLUME_MAX
    else volume
  }

  /** Narrowing to an 8-bit signed value. */
  function ToInt8(x: int): int {
    (x + 0x80) % 0x100 - 0x80
  }

  /** Sets the channel; the speaker manager announces the new volume. */
  function SetVolume(s: VolumeView, volume: int): VolumeView {
    s.(alertsVolume := volume, pending := s.pending + [volume])
  }

  function Report(s: VolumeView, volume: int): VolumeView {
    s.(lastReported := volume, reports := s.reports + [volume])
  }

  function SetNextAlertVolume(s: VolumeView, volume: int): VolumeView {
    var v := ToInt8(Clamp(volume));
    Report(SetVolume(s, v), v)
  }

  /** `answers` says whether the speaker manager tells the present volume. */
  function AdjustVolume(s: VolumeView, adjustment: int, answers: bool): VolumeView {
    if answers then SetNextAlertVolume(s, adjustment + s.alertsVolume) else s
  }

  predicate MarksSounding(state: ObserverState) {
    state == Started || state == EnteredForeground || state == EnteredBackground
  }

  function OnAlertState(s: VolumeView, state: ObserverState, answers: bool): VolumeView {
    if MarksSounding(state) then
      var t := s.(sounding := true);
      if (s.contentActive || s.commsActive) && answers && s.lastReported < s.speakerVolume then
        SetVolume(t, s.lastReported)
      else t
    else if s.sounding then
      // restored without an announcement
      s.(sounding := false, alertsVolume := s.lastReported)
    else s
  }

  function OnChannelFocus(s: VolumeView, channel: Channel, active: bool, answers: bool): VolumeView {
    match channel
    case OtherChannel => s
    case _ =>
      var t := if channel == ContentChannel then s.(contentActive := active) else s.(commsActive := active);
      if t.sounding && !t.commsActive && !t.contentActive && answers && t.alertsVolume > t.lastReported then
        SetVolume(t, t.lastReported)
      else t
  }

  /** The executor takes up the oldest announcement. */
  function OnSpeakerSettings(s: VolumeView): VolumeView
    requires s.pending != []
  {
    var t := s.(pending := s.pending[1..]);
    if s.sounding then t else Report(t, s.pending[0])
  }

  datatype VolumeOp =
    | SetDirective(volume: int)
    | AdjustDirective(adjustment: int, answers: bool)
    | LocalChange(volume: int)
    | ContentVolume(volume: int)
    | AlertState(state: ObserverState, answers: bool)
    | ChannelFocus(channel: Channel, active: bool, answers: bool)
    | TakeUp

  predicate Possible(s: VolumeView, op: VolumeOp) {
    op.TakeUp? ==> s.pending != []
  }

  function Step(s: VolumeView, op: VolumeOp): VolumeView
    requires Possible(s, op)
  {
    match op
    case SetDirective(volume) => SetNextAlertVolume(s, volume)
    case AdjustDirective(adjustment, answers) => AdjustVolume(s, adjustment, answers)
    case LocalChange(volume) => SetVolume(s, volume)
    case ContentVolume(volume) => s.(speakerVolume := volume)
    case AlertState(state, answers) => OnAlertState(s, state, answers)
    case ChannelFocus(channel, active, answers) => OnChannelFocus(s, channel, active, answers)
    case TakeUp => OnSpeakerSettings(s)
  }

  predicate AllPossible(s: VolumeView, ops: seq<VolumeOp>)
    decreases |ops|
  {
    ops == [] || (Possible(s, ops[0]) && AllPossible(Step(s, ops[0]), ops[1..]))
  }

  function Run(s: VolumeView, ops: seq<VolumeOp>): VolumeView
    requires AllPossible(s, ops)
    decreases |ops|
  {
    if ops == [] then s else Run(Step(s, ops[0]), ops[1..])
  }

  // ---------------------------------------------------------------- properties

  /** What will have been reported once every announcement has been taken up. */
  function Settled(s: VolumeView): int {
    if s.pending == [] then s.lastReported else s.pending[|s.pending| - 1]
  }

  /** While no alert is marked sounding, the channel is at the volume that is or will be reported. */
  predicate Settles(s: VolumeView) {
    !s.sounding ==> s.alertsVolume == Settled(s)
  }

  /** A stop overtakes an announcement: the volume is restored, and the announcement of the volume it
      replaced is taken up afterwards. */
  predicate Overtakes(s: VolumeView, op: VolumeOp) {
    op.AlertState? && !MarksSounding(op.state) && s.sounding && Settled(s) != s.lastReported
  }

  /** Every step keeps the agreement exactly unless a stop overtakes an announcement. */
  lemma StepSettlesIff(s: VolumeView, op: VolumeOp)
    requires Settles(s) && Possible(s, op)
    ensures Settles(Step(s, op)) <==> !Overtakes(s, op)
  {
  }

  /** No stop of the run overtakes an announcement. */
  predicate NeverOvertakes(s: VolumeView, ops: seq<VolumeOp>)
    requires AllPossible(s, ops)
    decreases |ops|
  {
    ops == [] || (!Overtakes(s, ops[0]) && NeverOvertakes(Step(s, ops[0]), ops[1..]))
  }

  predicate SettlesThroughout(s: VolumeView, ops: seq<VolumeOp>)
    requires AllPossible(s, ops)
    decreases |ops|
  {
    Settles(s) && (ops == [] || SettlesThroughout(Step(s, ops[0]), ops[1..]))
  }

  /** The agreement holds in every state of a run exactly when no stop of the run overtakes an
      announcement. */
  lemma {:induction false} RunSettlesIff(s: VolumeView, ops: seq<VolumeOp>)
    requires Settles(s) && AllPossible(s, ops)
    ensures SettlesThroughout(s, ops) <==> NeverOvertakes(s, ops)
    decreases |ops|
  {
    if ops != [] {
      StepSettlesIff(s, ops[0]);
      if !Overtakes(s, ops[0]) {
        RunSettlesIff(Step(s, ops[0]), ops[1..]);
      } else {
        assert !Settles(Step(s, ops[0]));
      }
    }
  }

  /** After such a run the channel is at the last reported volume, once nothing is marked sounding and every
      announcement is taken up. */
  lemma {:induction false} RunRestores(s: VolumeView, ops: seq<VolumeOp>)
    requires Settles(s) && AllPossible(s, ops) && NeverOvertakes(s, ops)
    ensures var t := Run(s, ops);
            Settles(t) && (!t.sounding && t.pending == [] ==> t.alertsVolume == t.lastReported)
    decreases |ops|
  {
    if ops != [] {
      StepSettlesIff(s, ops[0]);
      RunRestores(Step(s, ops[0]), ops[1..]);
    }
  }

  /** The race: a local change while an alert sounds, announced but not taken up before the alert stops, is
      reported although it has been undone. */
  lemma OvertakenChangeIsMisreported(s: VolumeView, volume: int, state: ObserverState, answers: bool)
    requires s.sounding && s.pending == [] && !MarksSounding(state) && volume != s.lastReported
    ensures var ops := [LocalChange(volume), AlertState(state, answers), TakeUp];
            && AllPossible(s, ops)
            && var t := Run(s, ops);
               !t.sounding && t.lastReported == volume && t.alertsVolume == s.lastReported != t.lastReported
  {
    var o1, o2, o3 := LocalChange(volume), AlertState(state, answers), TakeUp;
    var s1 := Step(s, o1);
    var s2 := Step(s1, o2);
    assert s2.pending == [volume];
    RunOne(s2, o3, []);
    RunOne(s1, o2, [o3]);
    RunOne(s, o1, [o2, o3]);
    assert [o1] + [o2, o3] == [o1, o2, o3] && [o2] + [o3] == [o2, o3] && [o3] + [] == [o3];
  }

  lemma RunOne(s: VolumeView, op: VolumeOp, rest: seq<VolumeOp>)
    requires Possible(s, op) && AllPossible(Step(s, op), rest)
    ensures AllPossible(s, [op] + rest) && Run(s, [op] + rest) == Run(Step(s, op), rest)
  {
    assert ([op] + rest)[1..] == rest;
  }

  /** While an alert is marked sounding, only directives change the last reported volume. */
  lemma {:induction false} OnlyDirectivesReport(s: VolumeView, ops: seq<VolumeOp>)
    requires s.sounding && AllPossible(s, ops)
    requires forall i :: 0 <= i < |ops| ==>
               !ops[i].SetDirective? && !ops[i].AdjustDirective?
               && (ops[i].AlertState? ==> MarksSounding(ops[i].state))
    ensures var t := Run(s, ops);
            t.sounding && t.lastReported == s.lastReported && t.reports == s.reports
    decreases |ops|
  {
    if ops != [] {
      OnlyDirectivesReport(Step(s, ops[0]), ops[1..]);
    }
  }

  function Distance(a: int, b: int): nat {
    if a < b then b - a else a - b
  }

  /** A directive sets and reports the volume in range nearest to the one asked for: the narrowing to 8 bits
      loses nothing. */
  lemma DirectiveIsLossless(s: VolumeView, volume: int, other: int)
    requires AVS_SET_VOLUME_MIN <= other <= AVS_SET_VOLUME_MAX
    ensures ToInt8(Clamp(volume)) == Clamp(volume)
    ensures Distance(volume, Clamp(volume)) <= Distance(volume, other)
    ensures var t := SetNextAlertVolume(s, volume);
            t.lastReported == t.alertsVolume == Clamp(volume) && t.reports == s.reports + [Clamp(volume)]
  {
  }

  /** The mark follows the latest notification, whichever alert it is about: the last one in a run decides. */
  lemma {:induction false} LatestNotificationDecides(s: VolumeView, ops: seq<VolumeOp>, k: nat)
    requires AllPossible(s, ops) && k < |ops| && ops[k].AlertState?
    requires forall i :: k < i < |ops| ==> !ops[i].AlertState?
    ensures Run(s, ops).sounding == MarksSounding(ops[k].state)
    decreases |ops|
  {
    var t := Step(s, ops[0]);
    if k > 0 {
      LatestNotificationDecides(t, ops[1..], k - 1);
    } else {
      MarkStays(t, ops[1..]);
    }
  }

  lemma {:induction false} MarkStays(s: VolumeView, ops: seq<VolumeOp>)
    requires AllPossible(s, ops) && forall i :: 0 <= i < |ops| ==> !ops[i].AlertState?
    ensures Run(s, ops).sounding == s.sounding
    decreases |ops|
  {
    if ops != [] {
      MarkStays(Step(s, ops[0]), ops[1..]);
    }
  }

  // ---------------------------------------------------------- what is heard

  /** Starting to sound, in the foreground or the background, sets the mark; every other notification clears it. */
  lemma MarkFollows(s: VolumeView, state: ObserverState, answers: bool)
    ensures OnAlertState(s, state, answers).sounding <==> state in {Started, EnteredForeground, EnteredBackground}
  {
  }

  /** When an alert starts to sound, the channel is set to the last reported volume exactly if another channel is
      active and known to be louder, and the change is announced; otherwise it is left alone. */
  lemma SoundingYields(s: VolumeView, state: ObserverState, answers: bool)
    requires state in {Started, EnteredForeground, EnteredBackground}
    ensures var t := OnAlertState(s, state, answers);
            && t.lastReported == s.lastReported && t.reports == s.reports
            && if answers && (s.contentActive || s.commsActive) && s.speakerVolume > s.lastReported then
                 t.alertsVolume == s.lastReported && t.pending == s.pending + [s.lastReported]
               else t.alertsVolume == s.alertsVolume && t.pending == s.pending
  {
  }

  /** The content's volume is compared as it was last set. */
  lemma LouderContentIsHeard(s: VolumeView, volume: int, state: ObserverState)
    requires state in {Started, EnteredForeground, EnteredBackground} && (s.contentActive || s.commsActive)
    ensures var t := Step(Step(s, ContentVolume(volume)), AlertState(state, true));
            && t.speakerVolume == volume
            && t.pending == s.pending + if volume > s.lastReported then [s.lastReported] else []
  {
    SoundingYields(s.(speakerVolume := volume), state, true);
  }

  /** When it ends, the channel is back at the last reported volume, without an announcement; a notification that
      finds nothing sounding changes nothing. */
  lemma EndingRestores(s: VolumeView, state: ObserverState, answers: bool)
    requires state !in {Started, EnteredForeground, EnteredBackground}
    ensures var t := OnAlertState(s, state, answers);
            && (s.sounding ==> t == s.(sounding := false, alertsVolume := s.lastReported))
            && (!s.sounding ==> t == s)
  {
  }

  /** When the other channels have fallen quiet under a sounding alert, a volume above the last reported one is
      taken back and announced; nothing else is changed but the record of the channels. */
  lemma QuietRestores(s: VolumeView, channel: Channel, active: bool, answers: bool)
    ensures var t := OnChannelFocus(s, channel, active, answers);
            && t.contentActive == (if channel == ContentChannel then active else s.contentActive)
            && t.commsActive == (if channel == CommunicationsChannel then active else s.commsActive)
            && t.sounding == s.sounding && t.lastReported == s.lastReported && t.reports == s.reports
            && if channel != OtherChannel && s.sounding && answers && !t.contentActive && !t.commsActive
                  && s.alertsVolume > s.lastReported
               then t.alertsVolume == s.lastReported && t.pending == s.pending + [s.lastReported]
               else t.alertsVolume == s.alertsVolume && t.pending == s.pending
  {
  }

  /** An announcement is reported exactly if nothing sounds when it is taken up. */
  lemma TakenUpIsReported(s: VolumeView)
    requires s.pending != []
    ensures var t := OnSpeakerSettings(s);
            && t.pending == s.pending[1..] && t.alertsVolume == s.alertsVolume && t.sounding == s.sounding
            && t.lastReported == (if s.sounding then s.lastReported else s.pending[0])
            && t.reports == (if s.sounding then s.reports else s.reports + [s.pending[0]])
  {
  }

  /** An adjustment moves the volume by that much, as far as the range allows, and reports where it got to. */
  lemma AdjustmentMoves(s: VolumeView, adjustment: int, answers: bool)
    ensures var t := AdjustVolume(s, adjustment, answers);
            && (!answers ==> t == s)
            && (answers && 0 <= s.alertsVolume + adjustment <= 100 ==> t.alertsVolume == s.alertsVolume + adjustment)
            && (answers && s.alertsVolume + adjustment < 0 ==> t.alertsVolume == 0)
            && (answers && s.alertsVolume + adjustment > 100 ==> t.alertsVolume == 100)
            && (answers ==> t.lastReported == t.alertsVolume && t.reports == s.reports + [t.alertsVolume]
                            && t.pending == s.pending + [t.alertsVolume])
  {
  }
}
