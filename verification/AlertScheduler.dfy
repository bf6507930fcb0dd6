/** The alert scheduler: its methods update its fields, its alerts and its storage in place, and do what the
    scheduler model says. */
module AlertSchedulerObject {
  import opened AlertTypes
  import opened AlertOrdering
  import opened AlertObject
  import opened AlertRecords
  import opened AlertQueue
  import opened SchedulerModel
  import Life = AlertLifecycle
  import Model = SchedulerModel
  import Facts = SchedulerConsistency
  import opened SchedulerQuiet
  import opened SchedulerReload

  ghost function Views(alerts: seq<Alert>): (v: seq<AlertView>)
    reads alerts
    ensures |v| == |alerts| && forall i :: 0 <= i < |alerts| ==> v[i] == alerts[i].View()
  {
    seq(|alerts|, i requires 0 <= i < |alerts| reads alerts => alerts[i].View())
  }

  predicate NoRepeats(alerts: seq<Alert>) {
    forall i, j :: 0 <= i < j < |alerts| ==> alerts[i] != alerts[j]
  }

  lemma ViewsWith(s: seq<Alert>, p: nat, a: Alert)
    requires p <= |s|
    ensures Views(s[..p] + [a] + s[p..]) == Views(s)[..p] + [a.View()] + Views(s)[p..]
  {
  }

  lemma ViewsJoined(s: seq<Alert>, t: seq<Alert>)
    ensures Views(s + t) == Views(s) + Views(t)
  {
  }

  lemma ViewsWithout(s: seq<Alert>, p: nat)
    requires p < |s|
    ensures Views(s[..p] + s[p + 1..]) == Views(s)[..p] + Views(s)[p + 1..]
  {
  }

  lemma NoRepeatsWith(s: seq<Alert>, p: nat, a: Alert)
    requires NoRepeats(s) && p <= |s| && a !in s
    ensures NoRepeats(s[..p] + [a] + s[p..])
    ensures forall x :: x in s[..p] + [a] + s[p..] <==> x in s || x == a
  {
    assert s == s[..p] + s[p..];
  }

  lemma NoRepeatsWithout(s: seq<Alert>, p: nat)
    requires NoRepeats(s) && p < |s|
    ensures NoRepeats(s[..p] + s[p + 1..])
    ensures forall x :: x in s[..p] + s[p + 1..] <==> x in s && x != s[p]
  {
    var t := s[..p] + s[p + 1..];
    assert forall i :: 0 <= i < p ==> t[i] == s[i];
    assert forall i :: p <= i < |t| ==> t[i] == s[i + 1];
    assert s == s[..p] + [s[p]] + s[p + 1..];
  }

  lemma {:induction false} SameCounts(s: SchedulerView, t: SchedulerView, alerts: seq<AlertView>, now: int)
    requires s.active == t.active && s.pastDueLimit == t.pastDueLimit
    ensures ExpiredCount(s, alerts, now) == ExpiredCount(t, alerts, now)
    ensures RenewedCount(s, alerts, now) == RenewedCount(t, alerts, now)
  {
    if alerts != [] {
      SameCounts(s, t, alerts[..|alerts| - 1], now);
    }
  }

  lemma LookupFindsItself(s: seq<Alert>, a: Alert)
    requires Sorted(Views(s)) && a in s
    ensures Contains(Views(s), a.View())
    ensures s[Position(Views(s), a.View())] == a
  {
    var i :| 0 <= i < |s| && s[i] == a;
    SortedPosition(Views(s), i);
  }

  method Without(s: seq<Alert>, p: nat, a: Alert) returns (t: seq<Alert>)
    requires NoRepeats(s) && p < |s|
    requires p == Position(Views(s), a.View()) && Contains(Views(s), a.View())
    ensures Views(t) == Remove(Views(s), a.View()) && NoRepeats(t)
    ensures forall x :: x in t ==> x in s
    ensures Sorted(Views(s)) ==> a !in t
  {
    t := s[..p] + s[p + 1..];
    ViewsWithout(s, p);
    NoRepeatsWithout(s, p);
    if Sorted(Views(s)) && a in s {
      LookupFindsItself(s, a);
    }
  }

  lemma InsertAllOneMore(loaded: seq<AlertView>, i: nat)
    requires i < |loaded|
    ensures InsertAll([], loaded[..i + 1]) == Insert(InsertAll([], loaded[..i]), Life.Connect(loaded[i]))
  {
    assert loaded[..i + 1][..i] == loaded[..i];
  }

  /** One round of a reload adds to the counters what it does to its alert. */
  lemma ReloadOneMore(s: SchedulerView, loaded: seq<AlertView>, i: nat, now: int, env: Env)
    requires i < |loaded|
    ensures var t := ReloadAll(s, loaded[..i], now, env);
            && ReloadAll(s, loaded[..i + 1], now, env) == Model.ReloadOne(t, loaded[i], now, env)
            && ExpiredCount(s, loaded[..i + 1], now)
               == ExpiredCount(s, loaded[..i], now) + (if Expires(t, loaded[i], now) then 1 else 0)
            && RenewedCount(s, loaded[..i + 1], now)
               == RenewedCount(s, loaded[..i], now) + (if Renews(t, loaded[i], now) then 1 else 0)
  {
    assert loaded[..i + 1][..i] == loaded[..i];
    ReloadAllKeepsActive(s, loaded[..i], now, env);
  }

  lemma NamedOneMore(s: SchedulerView, tokens: seq<string>, i: nat)
    requires i < |tokens|
    ensures Named(s, tokens[..i + 1]) == Named(s, tokens[..i]) + NamedBy(s, tokens[i])
    ensures forall t :: t in tokens[..i + 1] <==> t in tokens[..i] || t == tokens[i]
  {
    assert tokens[..i + 1][..i] == tokens[..i];
    assert tokens[..i + 1] == tokens[..i] + [tokens[i]];
  }

  class AlertScheduler {
    const parse: TimeParser
    const pastDueLimit: int
    const storage: AlertStorage
    var scheduledAlerts: seq<Alert>
    var activeAlert: Alert?
    var focusState: FocusState
    var shouldScheduleAlerts: bool
    var timer: Option<Alarm>
    ghost var announced: Option<Key>
    ghost var sent: seq<Sent>

    ghost function Repr(): set<object>
      reads this
    {
      {this, storage} + (set a | a in scheduledAlerts) + (if activeAlert == null then {} else {activeAlert})
    }

    ghost function View(): SchedulerView
      reads Repr()
    {
      SchedulerView(
        Views(scheduledAlerts),
        if activeAlert == null then None else Some(activeAlert.View()),
        focusState,
        storage.rows,
        Wake(shouldScheduleAlerts, timer, announced),
        sent,
        pastDueLimit)
    }

    /** The queued alerts are different objects, none of them active, and all wired. That they are in order,
        which removal relies on, is kept by every operation of the model (`StepKeepsOrder`). */
    ghost predicate Valid()
      reads Repr()
    {
      && NoRepeats(scheduledAlerts)
      && (activeAlert != null ==> activeAlert !in scheduledAlerts && activeAlert.hasRenderer)
      && (forall a :: a in scheduledAlerts ==> a.hasRenderer)
    }

    constructor (storage: AlertStorage, pastDueLimit: int, parse: TimeParser)
      ensures Valid() && View() == InitialView(storage.rows, pastDueLimit)
      ensures this.storage == storage && this.parse == parse && Repr() == {this, storage}
    {
      this.storage, this.pastDueLimit, this.parse := storage, pastDueLimit, parse;
      scheduledAlerts, activeAlert, focusState := [], null, NoFocus;
      shouldScheduleAlerts, timer := false, None;
      announced, sent := None, [];
    }

    // ------------------------------------------------------- the ordered set

    /** Where the comparator places the alert, and whether an element with its key is there. */
    method Lookup(a: Alert) returns (p: nat, present: bool)
      ensures p == Position(Views(scheduledAlerts), a.View())
      ensures present == Contains(Views(scheduledAlerts), a.View())
    {
      p := 0;
      var key := Key(a.content.timePoint.unix, a.data.token);
      while p < |scheduledAlerts| && Before(Key(scheduledAlerts[p].content.timePoint.unix,
                                                scheduledAlerts[p].data.token), key)
        invariant p <= |scheduledAlerts|
        invariant forall i :: 0 <= i < p ==> Less(Views(scheduledAlerts)[i], a.View())
      {
        p := p + 1;
      }
      present := p < |scheduledAlerts| && !Before(key, Key(scheduledAlerts[p].content.timePoint.unix,
                                                           scheduledAlerts[p].data.token));
    }

    /** Inserts the alert unless an element with the same key is there. */
    method InsertScheduled(a: Alert)
      requires NoRepeats(scheduledAlerts) && a !in scheduledAlerts
      modifies this`scheduledAlerts
      ensures Views(scheduledAlerts) == Insert(old(Views(scheduledAlerts)), a.View())
      ensures NoRepeats(scheduledAlerts)
      ensures forall x :: x in scheduledAlerts ==> x in old(scheduledAlerts) || x == a
      ensures forall x :: x in old(scheduledAlerts) ==> x in scheduledAlerts
    {
      var p, present := Lookup(a);
      if !present {
        ViewsWith(scheduledAlerts, p, a);
        NoRepeatsWith(scheduledAlerts, p, a);
        scheduledAlerts := scheduledAlerts[..p] + [a] + scheduledAlerts[p..];
      }
    }

    /** Removes the element with the alert's key. */
    method EraseScheduled(a: Alert)
      requires NoRepeats(scheduledAlerts)
      modifies this`scheduledAlerts
      ensures Views(scheduledAlerts) == Remove(old(Views(scheduledAlerts)), a.View())
      ensures NoRepeats(scheduledAlerts)
      ensures forall x :: x in scheduledAlerts ==> x in old(scheduledAlerts)
      ensures Sorted(old(Views(scheduledAlerts))) ==> a !in scheduledAlerts
    {
      var p, present := Lookup(a);
      if present {
        scheduledAlerts := Without(scheduledAlerts, p, a);
      } else if Sorted(Views(scheduledAlerts)) && a in scheduledAlerts {
        LookupFindsItself(scheduledAlerts, a);
      }
    }

    method GetAlert(token: string) returns (a: Alert?)
      ensures a == null <==> Queued(View(), token).None?
      ensures a != null ==> a in scheduledAlerts && a.View() == Queued(View(), token).value
    {
      for i := 0 to |scheduledAlerts|
        invariant forall j :: 0 <= j < i ==> Views(scheduledAlerts)[j].data.token != token
      {
        if scheduledAlerts[i].data.token == token {
          assert Find(Views(scheduledAlerts), token) == i;
          return scheduledAlerts[i];
        }
      }
      return null;
    }

    // ------------------------------------------------------------- helpers

    ghost method NotifyObserver(token: string, alertType: string, state: ObserverState, reason: string)
      modifies this`sent
      ensures sent == old(sent) + [Sent(token, alertType, state, reason)]
    {
      sent := sent + [Sent(token, alertType, state, reason)];
    }

    method EraseAlert(a: Alert, env: Env)
      modifies this`sent, storage
      ensures View() == Model.EraseAlert(old(View()), a.View(), env)
    {
      var erased := storage.Erase(a, env.disk(a.data.token));
      if !erased {
        return;
      }
      NotifyObserver(a.data.token, a.data.alertType, Deleted, "");
    }

    /** Announces the head of the queue at once when it is due, and otherwise arms the timer for it. */
    method ArmFor(head: Alert, env: Env)
      modifies this`timer, this`announced, this`sent
      ensures View() == Model.ArmFor(old(View()), head.View(), env)
    {
      if env.timerClock.None? {
        return;
      }
      var secondsToWait := head.content.timePoint.unix - env.timerClock.value;
      if secondsToWait < 0 {
        secondsToWait := 0;
      }
      if secondsToWait == 0 {
        announced := Some(Key(head.content.timePoint.unix, head.data.token));
        NotifyObserver(head.data.token, head.data.alertType, ReadyToStart, "");
      } else if env.timerStarts {
        timer := Some(Alarm(head.data.token, head.data.alertType, env.timerClock.value + secondsToWait));
      }
    }

    method SetTimerForNextAlert(env: Env)
      modifies this`timer, this`announced, this`sent
      ensures View() == Model.SetTimerForNextAlert(old(View()), env)
    {
      if shouldScheduleAlerts {
        timer := None;
        announced := None;
        if activeAlert == null && scheduledAlerts != [] {
          ArmFor(scheduledAlerts[0], env);
        }
      }
    }

    method DeactivateActive(reason: StopReason)
      requires Valid()
      modifies activeAlert
      ensures Valid() && View() == Model.DeactivateActive(old(View()), reason)
    {
      if activeAlert != null {
        activeAlert.Deactivate(reason);
      }
    }

    method PopFirst() returns (head: Alert)
      requires NoRepeats(scheduledAlerts) && scheduledAlerts != []
      modifies this`scheduledAlerts
      ensures head == old(scheduledAlerts)[0] && head !in scheduledAlerts
      ensures Views(scheduledAlerts) == old(Views(scheduledAlerts))[1..]
      ensures NoRepeats(scheduledAlerts)
      ensures forall x :: x in old(scheduledAlerts) <==> x == head || x in scheduledAlerts
    {
      head := scheduledAlerts[0];
      assert scheduledAlerts == [head] + scheduledAlerts[1..];
      scheduledAlerts := scheduledAlerts[1..];
    }

    method Ring(a: Alert, env: Env)
      requires a.hasRenderer
      modifies a
      ensures a.View() == Life.Activate(Life.SetFocusState(old(a.View()), focusState), env.maxTimerStarts)
      ensures a.hasRenderer
    {
      a.SetFocusState(focusState);
      a.Activate(env.maxTimerStarts);
    }

    method ActivateNextAlert(env: Env)
      requires Valid()
      modifies this`scheduledAlerts, this`activeAlert, scheduledAlerts
      ensures Valid() && View() == Model.ActivateNextAlert(old(View()), env)
      ensures Repr() <= old(Repr())
    {
      if activeAlert != null || scheduledAlerts == [] {
        return;
      }
      ghost var before := View();
      var head := PopFirst();
      activeAlert := head;
      ghost var rest := Views(scheduledAlerts);
      assert head.View() == before.queue[0];
      Ring(head, env);
      assert Views(scheduledAlerts) == rest;
      assert View() == before.(queue := rest, active := Some(head.View()));
    }

    // --------------------------------------------------------- scheduling

    /** The part of an update between the removal from the set and the return to it. */
    method TryUpdate(a: Alert, iso: string, c: AssetConfiguration, env: Env) returns (ok: bool)
      modifies a, storage
      ensures ok == UpdateOk(old(View()), old(a.View()), iso, c, env, parse)
      ensures a.View() == UpdatedAlert(old(View()), old(a.View()), iso, c, env, parse)
      ensures a.hasRenderer == old(a.hasRenderer)
      ensures storage.rows == if ok then Modified(old(storage.rows), a.View()) else old(storage.rows)
    {
      var oldTime, oldAssets := a.content.timePoint.iso, a.content.assets;
      var timed := a.UpdateScheduledTime(iso, parse);
      if !timed {
        return false;
      }
      var configured := a.SetAssetConfiguration(c);
      if !configured {
        var _ := a.UpdateScheduledTime(oldTime, parse);
        return false;
      }
      ok := storage.Modify(a, env.disk(a.data.token));
      if !ok {
        var _ := a.UpdateScheduledTime(oldTime, parse);
        var _ := a.SetAssetConfiguration(oldAssets);
      }
    }

    /** Puts the alert into the set and, when nothing is active, sets the timer. */
    method Reinsert(a: Alert, env: Env)
      requires Valid() && a !in scheduledAlerts && a != activeAlert && a.hasRenderer
      modifies this`scheduledAlerts, this`timer, this`announced, this`sent
      ensures Valid() && View() == Model.Reinsert(old(View()), a.View(), env)
      ensures forall x :: x in scheduledAlerts ==> x in old(scheduledAlerts) || x == a
    {
      InsertScheduled(a);
      if activeAlert == null {
        SetTimerForNextAlert(env);
      }
    }

    method TakeOut(a: Alert)
      requires Valid()
      modifies this`scheduledAlerts
      ensures Valid() && (Sorted(old(Views(scheduledAlerts))) ==> a !in scheduledAlerts)
      ensures View() == old(View()).(queue := Remove(old(View()).queue, a.View()))
      ensures forall x :: x in scheduledAlerts ==> x in old(scheduledAlerts)
    {
      EraseScheduled(a);
    }

    /** Updates an alert that is out of the set, or rolls the update back. */
    method Revise(a: Alert, iso: string, c: AssetConfiguration, env: Env) returns (ok: bool)
      requires Valid() && a !in scheduledAlerts && a != activeAlert
      modifies a, storage
      ensures Valid() && a.hasRenderer == old(a.hasRenderer)
      ensures View() == old(View()).(rows := storage.rows)
      ensures ok == UpdateOk(old(View()), old(a.View()), iso, c, env, parse)
      ensures a.View() == UpdatedAlert(old(View()), old(a.View()), iso, c, env, parse)
      ensures storage.rows == if ok then Modified(old(storage.rows), a.View()) else old(storage.rows)
    {
      ok := TryUpdate(a, iso, c, env);
      assert Views(scheduledAlerts) == old(Views(scheduledAlerts));
    }

    method UpdateAlert(a: Alert, iso: string, c: AssetConfiguration, env: Env) returns (ok: bool)
      requires Valid() && a in scheduledAlerts && Sorted(Views(scheduledAlerts))
      modifies this`scheduledAlerts, this`timer, this`announced, this`sent, a, storage
      ensures Valid() && View() == Model.UpdateAlert(old(View()), old(a.View()), iso, c, env, parse)
      ensures ok == UpdateOk(old(View()), old(a.View()), iso, c, env, parse)
      ensures forall x :: x in scheduledAlerts ==> x in old(scheduledAlerts)
    {
      TakeOut(a);
      ok := Revise(a, iso, c, env);
      Reinsert(a, env);
    }

    /** Stores a new alert and, when that succeeds, wires it and puts it into the set. */
    method StoreAlert(alert: Alert, env: Env) returns (ok: bool)
      requires Valid() && alert !in scheduledAlerts && alert != activeAlert
      modifies this`scheduledAlerts, this`timer, this`announced, this`sent, alert, storage
      ensures Valid() && ok == StoreOk(old(storage.rows), old(alert.View()), env.disk(old(alert.data.token)))
      ensures View() == if ok then Model.StoreNew(old(View()), old(alert.View()), env) else old(View())
      ensures forall x :: x in scheduledAlerts ==> x in old(scheduledAlerts) || x == alert
    {
      ghost var before := View();
      ok := storage.Store(alert, env.disk(alert.data.token));
      if ok {
        alert.SetRenderer();
        alert.SetObserver();
      }
      assert Views(scheduledAlerts) == before.queue;
      assert View() == before.(rows := storage.rows);
      if ok {
        Reinsert(alert, env);
      }
    }

    method ScheduleAlert(alert: Alert, env: Env) returns (ok: bool)
      requires Valid() && alert !in Repr() && Sorted(View().queue)
      modifies Repr(), alert
      ensures Valid() && View() == Model.ScheduleAlert(old(View()), old(alert.View()), env, parse)
      ensures ok == ScheduleOk(old(View()), old(alert.View()), env, parse)
      ensures Repr() <= old(Repr()) + {alert}
    {
      if env.now.None? {
        return false;
      }
      var pastDue := alert.IsPastDue(env.now.value, pastDueLimit);
      if pastDue {
        return false;
      }
      ok := UpdateOrStore(alert, env);
    }

    /** Updates the queued alert with the token, if there is one, and else stores the new alert. */
    method UpdateOrStore(alert: Alert, env: Env) returns (ok: bool)
      requires Valid() && alert !in Repr() && Sorted(View().queue) && Model.Acceptable(View(), alert.View(), env)
      modifies Repr(), alert
      ensures Valid() && View() == Model.ScheduleAlert(old(View()), old(alert.View()), env, parse)
      ensures ok == ScheduleOk(old(View()), old(alert.View()), env, parse)
      ensures Repr() <= old(Repr()) + {alert}
    {
      var oldAlert := GetAlert(alert.data.token);
      if oldAlert == null {
        ok := StoreAlert(alert, env);
      } else if activeAlert != null && activeAlert.data.token == oldAlert.data.token {
        ok := false;
      } else {
        ok := UpdateAlert(oldAlert, alert.content.timePoint.iso, alert.content.assets, env);
      }
    }

    // ------------------------------------------------------------- reload

    /** Wires the alert and puts it into the set. */
    method ConnectAndInsert(alert: Alert)
      requires Valid() && alert !in scheduledAlerts && alert != activeAlert
      modifies this`scheduledAlerts, alert`hasRenderer, alert`hasObserver
      ensures Valid() && alert.View() == Life.Connect(old(alert.View()))
      ensures View() == old(View()).(queue := Insert(old(View()).queue, alert.View()))
      ensures forall x :: x in scheduledAlerts ==> x in old(scheduledAlerts) || x == alert
    {
      ghost var before := View();
      alert.SetRenderer();
      alert.SetObserver();
      assert View() == before;
      InsertScheduled(alert);
    }

    /** Sets an alert that was stored as active again, in memory and in storage. */
    method ResetIfActive(alert: Alert, env: Env) returns (renewed: bool)
      requires Valid() && alert !in scheduledAlerts && alert != activeAlert
      modifies alert`control, storage
      ensures Valid() && renewed == (old(alert.control.state) == Active)
      ensures alert.View() == if renewed then Life.Reset(old(alert.View())) else old(alert.View())
      ensures View() == if renewed then ModifyAlert(old(View()), alert.View(), env) else old(View())
    {
      ghost var before := View();
      renewed := alert.control.state == Active;
      if renewed {
        alert.control := alert.control.(state := Set);
        var _ := storage.Modify(alert, env.disk(alert.data.token));
        assert Views(scheduledAlerts) == before.queue;
      }
    }

    /** Announces and erases an alert that is past due. */
    method Expire(alert: Alert, env: Env)
      modifies this`sent, storage
      ensures View() == Model.EraseAlert(NotifyAbout(old(View()), alert.View(), PastDue, ""), alert.View(), env)
    {
      NotifyObserver(alert.data.token, alert.data.alertType, PastDue, "");
      EraseAlert(alert, env);
    }

    /** Sets, wires and queues an alert that is not past due. */
    method Keep(alert: Alert, env: Env) returns (renewed: bool)
      requires Valid() && alert !in scheduledAlerts && alert != activeAlert
      modifies this`scheduledAlerts, this`sent, alert, storage
      ensures Valid() && renewed == (old(alert.control.state) == Active)
      ensures var a := old(alert.View());
              var b := if renewed then Life.Reset(a) else a;
              var t := if renewed then ModifyAlert(old(View()), b, env) else old(View());
              View() == NotifyAbout(t.(queue := Insert(t.queue, Life.Connect(b))), a, ScheduledForLater,
                                    a.content.timePoint.iso)
      ensures forall x :: x in scheduledAlerts ==> x in old(scheduledAlerts) || x == alert
    {
      renewed := ResetIfActive(alert, env);
      ConnectAndInsert(alert);
      NotifyObserver(alert.data.token, alert.data.alertType, ScheduledForLater, alert.content.timePoint.iso);
    }

    /** One round of the reload loop. */
    method ReloadOne(alert: Alert, now: int, env: Env) returns (expired: bool, renewed: bool)
      requires Valid() && alert !in scheduledAlerts && alert != activeAlert
      modifies this`scheduledAlerts, this`sent, alert, storage
      ensures Valid() && View() == Model.ReloadOne(old(View()), old(alert.View()), now, env)
      ensures expired == Expires(old(View()), old(alert.View()), now)
      ensures renewed == Renews(old(View()), old(alert.View()), now)
      ensures forall x :: x in scheduledAlerts ==> x in old(scheduledAlerts) || x == alert
    {
      expired, renewed := false, false;
      if activeAlert != null && activeAlert.data.token == alert.data.token {
        return;
      }
      expired := alert.IsPastDue(now, pastDueLimit);
      if expired {
        Expire(alert, env);
      } else {
        renewed := Keep(alert, env);
      }
    }

    method ScheduleLoaded(alerts: seq<Alert>, ghost loaded: seq<AlertView>, now: int, env: Env)
        returns (pastDueCount: nat, renewedCount: nat)
      requires Valid() && scheduledAlerts == [] && NoRepeats(alerts) && activeAlert !in alerts
      requires loaded == Views(alerts)
      modifies this`scheduledAlerts, this`sent, storage, alerts
      ensures Valid() && View() == ReloadAll(old(View()), loaded, now, env)
      ensures pastDueCount == ExpiredCount(old(View()), loaded, now)
      ensures renewedCount == RenewedCount(old(View()), loaded, now)
      ensures forall x :: x in scheduledAlerts ==> x in alerts
    {
      pastDueCount, renewedCount := 0, 0;
      ghost var s := View();
      for i := 0 to |alerts|
        invariant Valid() && View() == ReloadAll(s, loaded[..i], now, env)
        invariant forall x :: x in scheduledAlerts ==> x in alerts
        invariant forall j :: i <= j < |alerts| ==> alerts[j] !in scheduledAlerts && alerts[j].View() == loaded[j]
        invariant pastDueCount == ExpiredCount(s, loaded[..i], now)
        invariant renewedCount == RenewedCount(s, loaded[..i], now)
      {
        ReloadOneMore(s, loaded, i, now, env);
        var expired, renewed := ReloadOne(alerts[i], now, env);
        pastDueCount := pastDueCount + if expired then 1 else 0;
        renewedCount := renewedCount + if renewed then 1 else 0;
      }
      assert loaded[..|alerts|] == loaded;
    }

    method InsertLoaded(alerts: seq<Alert>, ghost loaded: seq<AlertView>)
      requires Valid() && scheduledAlerts == [] && NoRepeats(alerts) && activeAlert !in alerts
      requires loaded == Views(alerts)
      modifies this`scheduledAlerts, alerts
      ensures Valid() && View() == old(View()).(queue := InsertAll([], loaded))
      ensures forall x :: x in scheduledAlerts ==> x in alerts
    {
      ghost var s := View();
      for i := 0 to |alerts|
        invariant Valid() && View() == s.(queue := InsertAll([], loaded[..i]))
        invariant forall x :: x in scheduledAlerts ==> x in alerts
        invariant forall j :: i <= j < |alerts| ==> alerts[j] !in scheduledAlerts && alerts[j].View() == loaded[j]
      {
        InsertAllOneMore(loaded, i);
        ConnectAndInsert(alerts[i]);
      }
      assert loaded[..|alerts|] == loaded;
    }

    method ReloadAlertsFromDatabase(shouldSchedule: bool, env: Env)
        returns (ok: bool, pastDueCount: nat, renewedCount: nat)
      requires Valid() && IsScan(storage.rows, env.scan)
      modifies this, storage
      ensures Valid() && View() == ReloadAlerts(old(View()), shouldSchedule, env, parse)
      ensures ok == env.now.Some?
      ensures ok && shouldSchedule ==>
                var loaded := LoadRows(old(storage.rows), env.scan, parse);
                && pastDueCount == ExpiredCount(old(View()), loaded, env.now.value)
                && renewedCount == RenewedCount(old(View()), loaded, env.now.value)
      ensures forall x :: x in scheduledAlerts && x !in old(scheduledAlerts) ==> fresh(x)
    {
      pastDueCount, renewedCount := 0, 0;
      shouldScheduleAlerts := shouldSchedule;
      if env.now.None? {
        return false, 0, 0;
      }
      timer := None;
      scheduledAlerts := [];
      var alerts := storage.Load(env.scan, parse);
      ghost var s1 := View();
      ghost var loaded := LoadRows(storage.rows, env.scan, parse);
      assert s1 == StopTimer(old(View()).(wake := old(View()).wake.(shouldSchedule := shouldSchedule))).(queue := []);
      if shouldSchedule {
        SameCounts(s1, old(View()), loaded, env.now.value);
        pastDueCount, renewedCount := ScheduleLoaded(alerts, loaded, env.now.value, env);
        if activeAlert == null {
          SetTimerForNextAlert(env);
        }
      } else {
        InsertLoaded(alerts, loaded);
      }
      ok := true;
    }

    // ----------------------------------------------------- snooze and deletion

    /** Answers true for the active alert even when the new time is malformed. */
    method SnoozeAlert(token: string, iso: string) returns (ok: bool)
      requires Valid()
      modifies activeAlert
      ensures Valid() && View() == Model.SnoozeAlert(old(View()), token, iso, parse)
      ensures ok == IsActiveToken(old(View()), token)
    {
      if activeAlert == null || activeAlert.data.token != token {
        return false;
      }
      var _ := activeAlert.Snooze(iso, parse);
      return true;
    }

    method IsAlertActive(alert: Alert) returns (r: bool)
      ensures r == (activeAlert != null && activeAlert.data.token == alert.data.token && Ringing(activeAlert.View()))
    {
      if activeAlert == null || activeAlert.data.token != alert.data.token {
        return false;
      }
      return activeAlert.control.state == Activating || activeAlert.control.state == Active;
    }

    method EraseQueued(a: Alert, env: Env)
      requires Valid()
      modifies this`scheduledAlerts, this`timer, this`announced, this`sent, storage
      ensures Valid() && View() == Model.EraseQueued(old(View()), a.View(), env)
      ensures forall x :: x in scheduledAlerts ==> x in old(scheduledAlerts)
    {
      EraseAlert(a, env);
      TakeOut(a);
      SetTimerForNextAlert(env);
    }

    method DeleteAlert(token: string, env: Env) returns (ok: bool)
      requires Valid()
      modifies Repr()
      ensures ok && Valid() && View() == Model.DeleteAlert(old(View()), token, env)
    {
      ok := true;
      if activeAlert != null && activeAlert.data.token == token {
        DeactivateActive(AvsStop);
        return;
      }
      var alert := GetAlert(token);
      if alert != null {
        EraseQueued(alert, env);
      }
    }

    // ------------------------------------------------------ focus and clearing

    method RelayFocus(focus: FocusState)
      requires Valid() && activeAlert != null
      modifies activeAlert, this`sent
      ensures Valid()
      ensures View() == NotifyAbout(old(View()).(active := Some(Life.SetFocusState(old(activeAlert.View()), focus))),
                                    old(activeAlert.View()),
                                    if focus == Foreground then EnteredForeground else EnteredBackground, "")
    {
      ghost var before := View();
      activeAlert.SetFocusState(focus);
      assert View() == before.(active := Some(activeAlert.View()));
      Facts.FocusFrame(before.active.value, focus);
      NotifyObserver(activeAlert.data.token, activeAlert.data.alertType,
                     if focus == Foreground then EnteredForeground else EnteredBackground, "");
    }

    method UpdateFocus(focus: FocusState, env: Env)
      requires Valid()
      modifies Repr()
      ensures Valid() && View() == Model.UpdateFocus(old(View()), focus, env)
    {
      if focusState == focus {
        return;
      }
      focusState := focus;
      if focus == NoFocus {
        DeactivateActive(LocalStop);
      } else if activeAlert == null {
        ActivateNextAlert(env);
      } else {
        RelayFocus(focus);
      }
    }

    method OnLocalStop()
      requires Valid()
      modifies activeAlert
      ensures Valid() && View() == Model.DeactivateActive(old(View()), LocalStop)
    {
      DeactivateActive(LocalStop);
    }

    method NotifyAllDeleted()
      modifies this`sent
      ensures View() == NotifyDeleted(old(View()), old(View()).queue)
    {
      ghost var s := View();
      for i := 0 to |scheduledAlerts|
        invariant View() == s.(sent := NotifyDeleted(s, s.queue[..i]).sent)
      {
        assert s.queue[..i + 1][..i] == s.queue[..i];
        Facts.NotifyDeletedFrame(s, s.queue[..i]);
        NotifyObserver(scheduledAlerts[i].data.token, scheduledAlerts[i].data.alertType, Deleted, "");
      }
      assert s.queue[..|s.queue|] == s.queue;
      Facts.NotifyDeletedFrame(s, s.queue);
    }

    method Wipe(env: Env)
      requires Valid()
      modifies this`scheduledAlerts, storage
      ensures Valid() && scheduledAlerts == []
      ensures View() == old(View()).(queue := [], rows := if env.bulkDisk then map[] else old(storage.rows))
    {
      scheduledAlerts := [];
      var _ := storage.ClearDatabase(env.bulkDisk);
    }

    /** Stops the active alert and the timer. */
    method Silence(reason: StopReason)
      requires Valid()
      modifies activeAlert, this`timer
      ensures Valid() && View() == StopTimer(Model.DeactivateActive(old(View()), reason))
    {
      DeactivateActive(reason);
      timer := None;
    }

    method ClearData(reason: StopReason, env: Env)
      requires Valid()
      modifies Repr()
      ensures Valid() && View() == Model.ClearData(old(View()), reason, env)
      ensures scheduledAlerts == []
    {
      Silence(reason);
      ghost var s := View();
      NotifyAllDeleted();
      Facts.NotifyDeletedFrame(s, s.queue);
      Wipe(env);
    }

    // ------------------------------------------------------------ bulk deletion

    /** Looks a token up: the active alert first, then the set. */
    method FindNamed(token: string) returns (found: seq<Alert>, isActive: bool)
      ensures Views(found) == NamedBy(View(), token)
      ensures isActive == (activeAlert != null && activeAlert.data.token == token)
    {
      if activeAlert != null && activeAlert.data.token == token {
        return [activeAlert], true;
      }
      var alert := GetAlert(token);
      if alert == null {
        return [], false;
      }
      return [alert], false;
    }

    method CollectNamed(tokens: seq<string>) returns (list: seq<Alert>, deleteActive: bool)
      ensures Views(list) == Named(View(), tokens)
      ensures deleteActive == (activeAlert != null && activeAlert.data.token in tokens)
    {
      list, deleteActive := [], false;
      ghost var s := View();
      for i := 0 to |tokens|
        invariant Views(list) == Named(s, tokens[..i])
        invariant deleteActive == (s.active.Some? && s.active.value.data.token in tokens[..i])
      {
        var found, isActive := FindNamed(tokens[i]);
        ViewsJoined(list, found);
        NamedOneMore(s, tokens, i);
        list, deleteActive := list + found, deleteActive || isActive;
      }
      assert tokens[..|tokens|] == tokens;
    }

    method RemoveOne(a: Alert, ghost view: AlertView)
      requires Valid() && a.data == view.data && a.content == view.content
      modifies this`scheduledAlerts, this`sent
      ensures Valid()
      ensures View() == NotifyAbout(old(View()).(queue := Remove(old(View()).queue, view)), view, Deleted, "")
      ensures forall x :: x in scheduledAlerts ==> x in old(scheduledAlerts)
    {
      ghost var s := View();
      RemoveSameKey(s.queue, a.View(), view);
      EraseScheduled(a);
      assert View() == s.(queue := Remove(s.queue, view));
      NotifyObserver(a.data.token, a.data.alertType, Deleted, "");
    }

    /** Takes the listed alerts out of the set; `views` are the alerts before the active one was stopped. */
    method RemoveListed(list: seq<Alert>, ghost views: seq<AlertView>)
      requires Valid() && |views| == |list|
      requires forall i :: 0 <= i < |list| ==>
                 list[i].data == views[i].data && list[i].content == views[i].content
      modifies this`scheduledAlerts, this`sent
      ensures Valid() && View() == RemoveAll(old(View()), views)
      ensures forall x :: x in scheduledAlerts ==> x in old(scheduledAlerts)
    {
      ghost var s := View();
      for i := 0 to |list|
        invariant Valid() && View() == RemoveAll(s, views[..i])
        invariant forall x :: x in scheduledAlerts ==> x in old(scheduledAlerts)
      {
        assert views[..i + 1][..i] == views[..i];
        RemoveOne(list[i], views[i]);
      }
      assert views[..|list|] == views;
    }

    /** The alert is stopping, and the last the renderer heard of it, after these calls, is a stop. */
    static ghost predicate ToldToStop(a: Alert?, calls: seq<RendererCall>)
      reads a
    {
      && a != null && a.control.state == Stopping && a.control.stopReason == AvsStop
      && a.rendererCalls == calls + [StopCall]
    }

    method LetActiveGo()
      requires Valid() && activeAlert != null
      modifies this`activeAlert, activeAlert
      ensures Valid() && View() == old(View()).(active := None)
      ensures old(activeAlert).data == old(activeAlert.data) && old(activeAlert).content == old(activeAlert.content)
      ensures old(activeAlert).control.state == Stopping && old(activeAlert).control.stopReason == AvsStop
      ensures old(activeAlert).rendererCalls == old(activeAlert.rendererCalls) + [StopCall]
    {
      ghost var before := View();
      activeAlert.Deactivate(AvsStop);
      assert Views(scheduledAlerts) == before.queue;
      activeAlert := null;
    }

    method EraseNamed(tokens: seq<string>, env: Env)
        returns (ok: bool, list: seq<Alert>, ghost views: seq<AlertView>, deleteActive: bool)
      requires Valid()
      modifies storage
      ensures Valid() && views == Named(old(View()), tokens) && views == Views(list)
      ensures View() == old(View()).(rows := BulkErased(old(storage.rows), views, env.bulkDisk))
      ensures ok == DeleteAlertsOk(old(View()), tokens, env)
      ensures deleteActive == (activeAlert != null && activeAlert.data.token in tokens)
    {
      list, deleteActive := CollectNamed(tokens);
      views := Views(list);
      ok := storage.BulkErase(list, views, env.bulkDisk);
    }

    method RemoveNamed(list: seq<Alert>, ghost views: seq<AlertView>, deleteActive: bool)
      requires Valid() && views == Views(list) && (deleteActive ==> activeAlert != null)
      modifies this`scheduledAlerts, this`activeAlert, this`sent, activeAlert
      ensures Valid()
      ensures View() == RemoveAll(if deleteActive then old(View()).(active := None) else old(View()), views)
      ensures deleteActive ==> ToldToStop(old(activeAlert), old(activeAlert.rendererCalls))
    {
      if deleteActive {
        LetActiveGo();
      }
      RemoveListed(list, views);
    }

    method DeleteAlerts(tokens: seq<string>, env: Env) returns (ok: bool)
      requires Valid()
      modifies Repr()
      ensures Valid() && View() == Model.DeleteAlerts(old(View()), tokens, env)
      ensures ok == DeleteAlertsOk(old(View()), tokens, env)
      ensures ok && old(activeAlert) != null && old(activeAlert.data.token) in tokens ==>
                ToldToStop(old(activeAlert), old(activeAlert.rendererCalls))
    {
      var list, deleteActive;
      ghost var views;
      ok, list, views, deleteActive := EraseNamed(tokens, env);
      if ok {
        RemoveNamed(list, views, deleteActive);
        SetTimerForNextAlert(env);
      }
    }

    // ------------------------------------------------- notifications from alerts

    method OnStarted(note: Sent, env: Env)
      requires Valid()
      modifies activeAlert, storage, this`sent
      ensures Valid() && View() == Model.OnStarted(old(View()), note, env)
    {
      if activeAlert == null || activeAlert.control.state != Activating {
        return;
      }
      ghost var before := View();
      var _ := activeAlert.SetStateActive();
      assert View() == before.(active := Some(activeAlert.View()));
      var _ := storage.Modify(activeAlert, env.disk(activeAlert.data.token));
      NotifyObserver(note.token, note.alertType, note.state, note.reason);
    }

    method DropActive(env: Env)
      requires Valid()
      modifies this`activeAlert, storage, this`sent
      ensures Valid() && View() == Model.DropActive(old(View()), env)
    {
      if activeAlert != null {
        EraseAlert(activeAlert, env);
      }
      activeAlert := null;
    }

    /** Drops the active alert when the token is its own, and else only erases the row of a queued one. */
    method EraseStopped(token: string, env: Env)
      requires Valid()
      modifies this`activeAlert, this`sent, storage
      ensures Valid()
      ensures View() == if IsActiveToken(old(View()), token) then Model.DropActive(old(View()), env)
                        else match Queued(old(View()), token)
                             case Some(a) => Model.EraseAlert(old(View()), a, env)
                             case None => old(View())
    {
      if activeAlert != null && activeAlert.data.token == token {
        DropActive(env);
      } else {
        var alert := GetAlert(token);
        if alert != null {
          EraseAlert(alert, env);
        }
      }
    }

    method OnStopped(note: Sent, env: Env)
      requires Valid()
      modifies this`activeAlert, this`timer, this`announced, this`sent, storage
      ensures Valid() && View() == Model.OnStopped(old(View()), note, env)
    {
      NotifyObserver(note.token, note.alertType, note.state, note.reason);
      EraseStopped(note.token, env);
      SetTimerForNextAlert(env);
    }

    method OnCompleted(note: Sent, env: Env)
      requires Valid()
      modifies this`activeAlert, this`timer, this`announced, this`sent, storage
      ensures Valid() && View() == Model.OnCompleted(old(View()), note, env)
    {
      NotifyObserver(note.token, note.alertType, note.state, note.reason);
      DropActive(env);
      SetTimerForNextAlert(env);
    }

    method ModifyActive(env: Env)
      requires Valid() && activeAlert != null
      modifies storage
      ensures Valid() && View() == ModifyAlert(old(View()), old(activeAlert.View()), env)
    {
      var _ := storage.Modify(activeAlert, env.disk(activeAlert.data.token));
      assert Views(scheduledAlerts) == old(Views(scheduledAlerts));
    }

    method RequeueActive()
      requires Valid() && activeAlert != null
      modifies this`scheduledAlerts, this`activeAlert
      ensures Valid()
      ensures View() == old(View()).(queue := Insert(old(View()).queue, old(activeAlert.View())), active := None)
      ensures forall x :: x in scheduledAlerts ==> x in old(scheduledAlerts) || x == old(activeAlert)
    {
      InsertScheduled(activeAlert);
      activeAlert := null;
    }

    /** Passes a notification on and sets the timer. */
    method Announce(note: Sent, env: Env)
      modifies this`timer, this`announced, this`sent
      ensures View() == Model.SetTimerForNextAlert(old(View()).(sent := old(sent) + [note]), env)
    {
      NotifyObserver(note.token, note.alertType, note.state, note.reason);
      SetTimerForNextAlert(env);
    }

    /** The handler uses the active alert without asking whether there is one. */
    method OnSnoozed(note: Sent, env: Env)
      requires Valid() && activeAlert != null
      modifies this, storage
      ensures Valid() && View() == Model.OnSnoozed(old(View()), note, env)
      ensures forall x :: x in scheduledAlerts ==> x in old(scheduledAlerts) || x == old(activeAlert)
    {
      ModifyActive(env);
      RequeueActive();
      Announce(note, env);
    }

    method OnError(note: Sent, env: Env)
      requires Valid()
      modifies this, storage
      ensures Valid() && View() == Model.OnError(old(View()), note, env)
    {
      HandleError(note.token, env);
      NotifyObserver(note.token, note.alertType, note.state, note.reason);
    }

    method HandleError(token: string, env: Env)
      requires Valid()
      modifies this, storage
      ensures Valid()
      ensures View() == if IsActiveToken(old(View()), token)
                        then Model.SetTimerForNextAlert(Model.DropActive(old(View()), env), env)
                        else match Queued(old(View()), token)
                             case Some(a) => Model.EraseQueued(old(View()), a, env)
                             case None => old(View())
    {
      if activeAlert != null && activeAlert.data.token == token {
        DropActive(env);
        SetTimerForNextAlert(env);
      } else {
        var alert := GetAlert(token);
        if alert != null {
          EraseQueued(alert, env);
        }
      }
    }

    method ExecuteOnAlertStateChange(note: Sent, env: Env)
      requires Valid() && (note.state == HasSnoozed ==> activeAlert != null)
      modifies Repr()
      ensures Valid() && View() == OnAlertStateChange(old(View()), note, env)
    {
      match note.state {
        case ReadyToStart => NotifyObserver(note.token, note.alertType, note.state, note.reason);
        case Started => OnStarted(note, env);
        case HasStopped => OnStopped(note, env);
        case HasCompleted => OnCompleted(note, env);
        case HasSnoozed => OnSnoozed(note, env);
        case Failed => OnError(note, env);
        case _ =>
      }
    }

    /** The timer's task: the timer has fired, and announces the alert it was armed for. */
    method OnAlertReady()
      requires timer.Some?
      modifies this`timer, this`announced, this`sent
      ensures View() == OnTimer(old(View()))
    {
      var alarm := timer.value;
      timer := None;
      announced := Some(Key(alarm.firesAt, alarm.token));
      NotifyObserver(alarm.token, alarm.alertType, ReadyToStart, "");
    }
  }
}
