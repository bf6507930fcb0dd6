/** Reloading with scheduling splits the stored alerts into the queued and the erased. */
module SchedulerReload {
  import opened AlertTypes
  import opened AlertLifecycle
  import opened AlertRecords
  import opened AlertQueue
  import opened SchedulerModel
  import opened SchedulerConsistency
  import opened SchedulerQuiet

  predicate Expires(s: SchedulerView, a: AlertView, now: int) {
    !IsActiveToken(s, a.data.token) && IsPastDue(a, now, s.pastDueLimit)
  }

  predicate Stays(s: SchedulerView, a: AlertView, now: int) {
    !IsActiveToken(s, a.data.token) && !IsPastDue(a, now, s.pastDueLimit)
  }

  predicate Renews(s: SchedulerView, a: AlertView, now: int) {
    Stays(s, a, now) && a.control.state == Active
  }

  /** The two counters of a reload. */
  function ExpiredCount(s: SchedulerView, alerts: seq<AlertView>, now: int): nat {
    if alerts == [] then 0
    else ExpiredCount(s, alerts[..|alerts| - 1], now) + if Expires(s, alerts[|alerts| - 1], now) then 1 else 0
  }

  function RenewedCount(s: SchedulerView, alerts: seq<AlertView>, now: int): nat {
    if alerts == [] then 0
    else RenewedCount(s, alerts[..|alerts| - 1], now) + if Renews(s, alerts[|alerts| - 1], now) then 1 else 0
  }

  /** The queue holds what was there and the renewed form of every loaded alert that stays. */
  ghost predicate QueueSplit(s: SchedulerView, alerts: seq<AlertView>, now: int, q: seq<AlertView>) {
    forall x :: x in q <==> x in s.queue || exists i :: 0 <= i < |alerts| && Stays(s, alerts[i], now)
                                                         && x == Renewed(alerts[i])
  }

  /** What becomes of one row: the row of an expired alert goes, that of a renewed one is set again, as far
      as the disk serves it; every other row is as it was. */
  ghost predicate RowSplit(s: SchedulerView, alerts: seq<AlertView>, now: int, env: Env, rows: Rows, id: int) {
    && (id in rows ==> id in s.rows)
    && (id in s.rows && NoId(alerts, id) ==> id in rows && rows[id] == s.rows[id])
    && forall i :: 0 <= i < |alerts| && alerts[i].data.dbId == id ==> OneRow(s, alerts[i], now, env, rows, id)
  }

  ghost predicate NoId(alerts: seq<AlertView>, id: int) {
    forall i :: 0 <= i < |alerts| ==> alerts[i].data.dbId != id
  }

  predicate OneRow(s: SchedulerView, a: AlertView, now: int, env: Env, rows: Rows, id: int) {
    id in s.rows &&
    if !env.disk(a.data.token) then id in rows && rows[id] == s.rows[id]
    else if Expires(s, a, now) then id !in rows
    else if Renews(s, a, now) then id in rows && rows[id] == s.rows[id].(state := Set)
    else id in rows && rows[id] == s.rows[id]
  }

  lemma QueueSplitStep(s: SchedulerView, alerts: seq<AlertView>, a: AlertView, now: int, q: seq<AlertView>,
                       q': seq<AlertView>)
    requires QueueSplit(s, alerts, now, q)
    requires forall x :: x in q' <==> x in q || (Stays(s, a, now) && x == Renewed(a))
    ensures QueueSplit(s, alerts + [a], now, q')
  {
    var more := alerts + [a];
    assert forall i :: 0 <= i < |alerts| ==> more[i] == alerts[i];
    assert more[|alerts|] == a;
  }

  lemma RowSplitStep(s: SchedulerView, alerts: seq<AlertView>, a: AlertView, now: int, env: Env, rows: Rows,
                     rows': Rows, id: int)
    requires RowSplit(s, alerts, now, env, rows, id)
    requires NoId(alerts, a.data.dbId) && a.data.dbId in s.rows
    requires id != a.data.dbId ==> (id in rows' <==> id in rows) && (id in rows ==> rows'[id] == rows[id])
    requires id == a.data.dbId ==> OneRow(s, a, now, env, rows', id)
    ensures RowSplit(s, alerts + [a], now, env, rows', id)
  {
    var more := alerts + [a];
    assert forall i :: 0 <= i < |alerts| ==> more[i] == alerts[i];
    assert more[|alerts|] == a;
    forall i | 0 <= i < |more| && more[i].data.dbId == id
      ensures OneRow(s, more[i], now, env, rows', id)
    {
      if i < |alerts| {
        assert OneRow(s, alerts[i], now, env, rows, id);
      }
    }
  }

  /** One round of the loop on an alert whose row is still as it was loaded. */
  lemma ReloadOneRows(s: SchedulerView, t: SchedulerView, a: AlertView, now: int, env: Env, id: int)
    requires t.active == s.active && t.pastDueLimit == s.pastDueLimit
    requires Backed(t.rows, a) && a.data.dbId in s.rows && t.rows[a.data.dbId] == s.rows[a.data.dbId]
    ensures var rows := ReloadOne(t, a, now, env).rows;
            && (id != a.data.dbId ==> (id in rows <==> id in t.rows) && (id in t.rows ==> rows[id] == t.rows[id]))
            && (id == a.data.dbId ==> OneRow(s, a, now, env, rows, id))
  {
    ReloadOneFrame(t, a, now, env);
  }

  lemma ReloadOneQueue(t: SchedulerView, a: AlertView, now: int, env: Env)
    requires Sorted(t.queue) && NoToken(t.queue, a.data.token)
    ensures forall x :: x in ReloadOne(t, a, now, env).queue <==>
              x in t.queue || (Stays(t, a, now) && x == Renewed(a))
  {
    ReloadOneFrame(t, a, now, env);
    InsertNew(t.queue, Renewed(a));
  }

  lemma OtherIds(rows: Rows, alerts: seq<AlertView>, a: AlertView)
    requires Owns(rows, a) && NoToken(alerts, a.data.token)
    requires forall i :: 0 <= i < |alerts| ==> Owns(rows, alerts[i])
    ensures NoId(alerts, a.data.dbId)
  {
    assert forall i :: 0 <= i < |alerts| ==> alerts[i] in alerts;
  }

  lemma {:induction false} ReloadAllQueue(s: SchedulerView, alerts: seq<AlertView>, now: int, env: Env)
    requires s.queue == [] && AllWaiting(s, alerts)
    ensures QueueSplit(s, alerts, now, ReloadAll(s, alerts, now, env).queue)
  {
    if alerts != [] {
      var n := |alerts| - 1;
      var init, a := alerts[..n], alerts[n];
      var t := ReloadAll(s, init, now, env);
      AllButLastWaiting(s, alerts);
      ReloadAllQueue(s, init, now, env);
      ReloadAllSorted(s, init, now, env);
      ReloadAllWaits(s, init, now, env, a);
      ReloadAllKeepsActive(s, init, now, env);
      ReloadOneQueue(t, a, now, env);
      assert alerts == init + [a];
      QueueSplitStep(s, init, a, now, t.queue, ReloadOne(t, a, now, env).queue);
    }
  }

  lemma {:induction false} ReloadAllRow(s: SchedulerView, alerts: seq<AlertView>, now: int, env: Env, id: int)
    requires s.queue == [] && AllWaiting(s, alerts)
    ensures RowSplit(s, alerts, now, env, ReloadAll(s, alerts, now, env).rows, id)
  {
    if alerts != [] {
      var n := |alerts| - 1;
      var init, a := alerts[..n], alerts[n];
      AllButLastWaiting(s, alerts);
      OtherIds(s.rows, init, a);
      ReloadAllRow(s, init, now, env, id);
      ReloadAllRow(s, init, now, env, a.data.dbId);
      ReloadAllWaits(s, init, now, env, a);
      ReloadAllKeepsActive(s, init, now, env);
      var t := ReloadAll(s, init, now, env);
      ReloadOneRows(s, t, a, now, env, id);
      assert alerts == init + [a];
      RowSplitStep(s, init, a, now, env, t.rows, ReloadOne(t, a, now, env).rows, id);
    }
  }

  /** The scheduling reload leaves queued exactly the loaded alerts that are neither past due nor active, all of
      them wired and none of them in state active, and splits the rows accordingly. */
  lemma ReloadSplits(s: SchedulerView, env: Env, parse: TimeParser)
    requires Consistent(s, parse) && IsScan(s.rows, env.scan) && env.now.Some?
    ensures var t := ReloadAlerts(s, true, env, parse);
            var loaded := LoadRows(s.rows, env.scan, parse);
            && QueueSplit(s.(queue := []), loaded, env.now.value, t.queue)
            && (forall x :: x in t.queue ==> x.control.state != Active && x.wiring.hasRenderer && x.wiring.hasObserver)
            && (forall id :: RowSplit(s, loaded, env.now.value, env, t.rows, id))
            && t.active == s.active && t.focus == s.focus && t.pastDueLimit == s.pastDueLimit
  {
    var loaded := LoadRows(s.rows, env.scan, parse);
    var s1 := StopTimer(s.(wake := s.wake.(shouldSchedule := true))).(queue := []);
    LoadIsOk(s.rows, env.scan, parse);
    assert AllWaiting(s1, loaded);
    ReloadAllKeepsActive(s1, loaded, env.now.value, env);
    SetTimerFrame(ReloadAll(s1, loaded, env.now.value, env), env);
    var t := ReloadAlerts(s, true, env, parse);
    ReloadAllQueue(s1, loaded, env.now.value, env);
    SplitQueue(s1, s.(queue := []), loaded, env.now.value, t.queue);
    forall id
      ensures RowSplit(s, loaded, env.now.value, env, t.rows, id)
    {
      ReloadAllRow(s1, loaded, env.now.value, env, id);
      SameSplit(s1, s, loaded, env.now.value, env, t.rows, id);
    }
  }

  lemma SplitQueue(s: SchedulerView, s': SchedulerView, alerts: seq<AlertView>, now: int, q: seq<AlertView>)
    requires s.queue == s'.queue == [] && s.active == s'.active && s.pastDueLimit == s'.pastDueLimit
    requires QueueSplit(s, alerts, now, q)
    ensures QueueSplit(s', alerts, now, q)
    ensures forall x :: x in q ==> x.control.state != Active && x.wiring.hasRenderer && x.wiring.hasObserver
  {
    forall x
      ensures x in q <==> exists i :: 0 <= i < |alerts| && Stays(s', alerts[i], now) && x == Renewed(alerts[i])
    {
      assert forall i :: 0 <= i < |alerts| ==> (Stays(s, alerts[i], now) <==> Stays(s', alerts[i], now));
    }
  }

  lemma SameSplit(s: SchedulerView, s': SchedulerView, alerts: seq<AlertView>, now: int, env: Env, rows: Rows, id: int)
    requires s.rows == s'.rows && s.active == s'.active && s.pastDueLimit == s'.pastDueLimit
    requires RowSplit(s, alerts, now, env, rows, id)
    ensures RowSplit(s', alerts, now, env, rows, id)
  {
    forall i | 0 <= i < |alerts| && alerts[i].data.dbId == id
      ensures OneRow(s', alerts[i], now, env, rows, id)
    {
      assert OneRow(s, alerts[i], now, env, rows, id);
    }
  }

  // ----------------------------------------------------------------- counters

  /** The rows that an operation took, and the rows it changed. */
  function Gone(rows: Rows, rows': Rows): set<int> {
    set id | id in rows && id !in rows'
  }

  function Changed(rows: Rows, rows': Rows): set<int> {
    set id | id in rows && id in rows' && rows'[id] != rows[id]
  }

  ghost function ExpiredIds(s: SchedulerView, alerts: seq<AlertView>, now: int): set<int> {
    set i | 0 <= i < |alerts| && Expires(s, alerts[i], now) :: alerts[i].data.dbId
  }

  ghost function RenewedIds(s: SchedulerView, alerts: seq<AlertView>, now: int): set<int> {
    set i | 0 <= i < |alerts| && Renews(s, alerts[i], now) :: alerts[i].data.dbId
  }

  lemma ExpiredIdsExtend(s: SchedulerView, alerts: seq<AlertView>, a: AlertView, now: int)
    ensures ExpiredIds(s, alerts + [a], now) ==
            ExpiredIds(s, alerts, now) + if Expires(s, a, now) then {a.data.dbId} else {}
  {
    var more := alerts + [a];
    assert more[|alerts|] == a;
    forall i | 0 <= i < |alerts|
      ensures more[i] == alerts[i]
    {
    }
  }

  lemma {:induction false} ExpiredCountIsSize(s: SchedulerView, alerts: seq<AlertView>, now: int)
    requires forall i, j :: 0 <= i < j < |alerts| ==> alerts[i].data.dbId != alerts[j].data.dbId
    ensures ExpiredCount(s, alerts, now) == |ExpiredIds(s, alerts, now)|
  {
    if alerts != [] {
      var n := |alerts| - 1;
      var init, a := alerts[..n], alerts[n];
      ExpiredCountIsSize(s, init, now);
      assert forall i :: 0 <= i < n ==> init[i] == alerts[i];
      assert a.data.dbId !in ExpiredIds(s, init, now);
      assert alerts == init + [a];
      ExpiredIdsExtend(s, init, a, now);
    }
  }

  lemma RenewedIdsExtend(s: SchedulerView, alerts: seq<AlertView>, a: AlertView, now: int)
    ensures RenewedIds(s, alerts + [a], now) ==
            RenewedIds(s, alerts, now) + if Renews(s, a, now) then {a.data.dbId} else {}
  {
    var more := alerts + [a];
    assert more[|alerts|] == a;
    forall i | 0 <= i < |alerts|
      ensures more[i] == alerts[i]
    {
    }
  }

  lemma {:induction false} RenewedCountIsSize(s: SchedulerView, alerts: seq<AlertView>, now: int)
    requires forall i, j :: 0 <= i < j < |alerts| ==> alerts[i].data.dbId != alerts[j].data.dbId
    ensures RenewedCount(s, alerts, now) == |RenewedIds(s, alerts, now)|
  {
    if alerts != [] {
      var n := |alerts| - 1;
      var init, a := alerts[..n], alerts[n];
      RenewedCountIsSize(s, init, now);
      assert forall i :: 0 <= i < n ==> init[i] == alerts[i];
      assert a.data.dbId !in RenewedIds(s, init, now);
      assert alerts == init + [a];
      RenewedIdsExtend(s, init, a, now);
    }
  }

  predicate DiskServes(env: Env, rows: Rows) {
    forall id :: id in rows ==> env.disk(rows[id].token)
  }

  /** With a working disk the counters of a reload are the numbers of the rows it erased and reset. */
  lemma ReloadCountsRows(s: SchedulerView, env: Env, parse: TimeParser)
    requires Consistent(s, parse) && IsScan(s.rows, env.scan) && env.now.Some? && DiskServes(env, s.rows)
    ensures var t := ReloadAlerts(s, true, env, parse);
            var loaded := LoadRows(s.rows, env.scan, parse);
            && ExpiredCount(s, loaded, env.now.value) == |Gone(s.rows, t.rows)|
            && RenewedCount(s, loaded, env.now.value) == |Changed(s.rows, t.rows)|
  {
    var t, now := ReloadAlerts(s, true, env, parse), env.now.value;
    var loaded := LoadRows(s.rows, env.scan, parse);
    ReloadSplits(s, env, parse);
    LoadedAlerts(s.rows, env.scan, parse);
    LoadIsOk(s.rows, env.scan, parse);
    ExpiredCountIsSize(s, loaded, now);
    RenewedCountIsSize(s, loaded, now);
    RowsOutcome(s, loaded, now, env, t.rows, parse);
  }

  lemma RowsOutcome(s: SchedulerView, loaded: seq<AlertView>, now: int, env: Env, rows: Rows, parse: TimeParser)
    requires forall id :: RowSplit(s, loaded, now, env, rows, id)
    requires DiskServes(env, s.rows)
    requires forall i :: 0 <= i < |loaded| ==>
               Owns(s.rows, loaded[i]) && s.rows[loaded[i].data.dbId].state == loaded[i].control.state
    requires forall i, j :: 0 <= i < j < |loaded| ==> loaded[i].data.dbId != loaded[j].data.dbId
    ensures Gone(s.rows, rows) == ExpiredIds(s, loaded, now)
    ensures Changed(s.rows, rows) == RenewedIds(s, loaded, now)
  {
    forall id
      ensures id in Gone(s.rows, rows) <==> id in ExpiredIds(s, loaded, now)
      ensures id in Changed(s.rows, rows) <==> id in RenewedIds(s, loaded, now)
    {
      OneRowOutcome(s, loaded, now, env, rows, id, parse);
    }
  }

  lemma OneRowOutcome(s: SchedulerView, loaded: seq<AlertView>, now: int, env: Env, rows: Rows, id: int,
                      parse: TimeParser)
    requires RowSplit(s, loaded, now, env, rows, id) && DiskServes(env, s.rows)
    requires forall i :: 0 <= i < |loaded| ==>
               Owns(s.rows, loaded[i]) && s.rows[loaded[i].data.dbId].state == loaded[i].control.state
    requires forall i, j :: 0 <= i < j < |loaded| ==> loaded[i].data.dbId != loaded[j].data.dbId
    ensures id in Gone(s.rows, rows) <==> id in ExpiredIds(s, loaded, now)
    ensures id in Changed(s.rows, rows) <==> id in RenewedIds(s, loaded, now)
  {
    if NoId(loaded, id) {
    } else {
      var i :| 0 <= i < |loaded| && loaded[i].data.dbId == id;
      assert OneRow(s, loaded[i], now, env, rows, id);
      assert env.disk(s.rows[id].token);
    }
  }

  // -------------------------------------------------------------- idempotence

  /** A row that survives a reload yields an alert that neither expires nor is renewed. */
  lemma SurvivorIsSettled(s: SchedulerView, t: SchedulerView, now: int, env: Env, id: int, parse: TimeParser)
    requires t.active == s.active && t.pastDueLimit == s.pastDueLimit
    requires id in s.rows && id in t.rows && env.disk(s.rows[id].token)
    requires OneRow(s, AlertOf(id, s.rows[id], parse), now, env, t.rows, id)
    ensures var b := AlertOf(id, t.rows[id], parse);
            !Expires(t, b, now) && !Renews(t, b, now)
  {
  }

  /** A row that a load at this clock value would neither erase nor reset. */
  predicate Idle(s: SchedulerView, id: int, now: int, parse: TimeParser)
    requires id in s.rows
  {
    var a := AlertOf(id, s.rows[id], parse);
    !Expires(s, a, now) && !Renews(s, a, now)
  }

  /** The rows that a load reaches. */
  function Loaded(rows: Rows, scan: seq<int>, parse: TimeParser): seq<int> {
    var n := |LoadRows(rows, scan, parse)|;
    if n <= |scan| then scan[..n] else scan
  }

  /** Every row that the second load reaches was reached by the first, or is idle anyway. */
  ghost predicate NothingLeft(s: SchedulerView, scan: seq<int>, reached: seq<int>, now: int, parse: TimeParser) {
    forall i :: 0 <= i < |reached| ==>
      && reached[i] in s.rows
      && (reached[i] in Loaded(s.rows, scan, parse) || Idle(s, reached[i], now, parse))
  }

  /** A second reload at the same clock value finds nothing to erase and nothing to reset exactly when it does
      not get past a refused row to another that is not idle; then it changes no row either. */
  lemma ReloadIsIdempotentIff(s: SchedulerView, env: Env, env': Env, parse: TimeParser)
    requires Consistent(s, parse) && IsScan(s.rows, env.scan) && env.now.Some? && DiskServes(env, s.rows)
    requires env'.now == env.now && IsScan(ReloadAlerts(s, true, env, parse).rows, env'.scan)
    ensures var t := ReloadAlerts(s, true, env, parse);
            var loaded' := LoadRows(t.rows, env'.scan, parse);
            && (ExpiredCount(t, loaded', env.now.value) == 0 && RenewedCount(t, loaded', env.now.value) == 0 <==>
                  NothingLeft(s, env.scan, Loaded(t.rows, env'.scan, parse), env.now.value, parse))
            && (NothingLeft(s, env.scan, Loaded(t.rows, env'.scan, parse), env.now.value, parse) ==>
                  ReloadAlerts(t, true, env', parse).rows == t.rows)
  {
    var t := ReloadAlerts(s, true, env, parse);
    ReloadSplits(s, env, parse);
    ReloadKeepsIff(s, true, env, parse);
    SecondLoadCounts(s, t, env, env'.scan, parse);
    if NothingLeft(s, env.scan, Loaded(t.rows, env'.scan, parse), env.now.value, parse) {
      SettledRows(t, LoadRows(t.rows, env'.scan, parse), env', parse);
    }
  }

  lemma SecondLoadCounts(s: SchedulerView, t: SchedulerView, env: Env, scan: seq<int>, parse: TimeParser)
    requires IsScan(s.rows, env.scan) && env.now.Some? && DiskServes(env, s.rows) && IsScan(t.rows, scan)
    requires t.active == s.active && t.pastDueLimit == s.pastDueLimit
    requires forall id :: RowSplit(s, LoadRows(s.rows, env.scan, parse), env.now.value, env, t.rows, id)
    ensures var now, loaded := env.now.value, LoadRows(t.rows, scan, parse);
            && (ExpiredCount(t, loaded, now) == 0 && RenewedCount(t, loaded, now) == 0 <==>
                  NothingLeft(s, env.scan, Loaded(t.rows, scan, parse), now, parse))
            && (NothingLeft(s, env.scan, Loaded(t.rows, scan, parse), now, parse) ==>
                  forall i :: 0 <= i < |loaded| ==> !Expires(t, loaded[i], now) && !Renews(t, loaded[i], now))
  {
    var now, loaded := env.now.value, LoadRows(t.rows, scan, parse);
    var reached := Loaded(t.rows, scan, parse);
    LoadedAlerts(t.rows, scan, parse);
    forall i | 0 <= i < |loaded|
      ensures reached[i] in s.rows
      ensures !Expires(t, loaded[i], now) && !Renews(t, loaded[i], now) <==>
              reached[i] in Loaded(s.rows, env.scan, parse) || Idle(s, reached[i], now, parse)
    {
      assert RowSplit(s, LoadRows(s.rows, env.scan, parse), now, env, t.rows, reached[i]);
      ReachedRow(s, t, env, reached[i], parse);
    }
    CountsAreZeroIff(t, loaded, now);
  }

  /** A surviving row is idle exactly when it was loaded before or was idle before. */
  lemma ReachedRow(s: SchedulerView, t: SchedulerView, env: Env, id: int, parse: TimeParser)
    requires IsScan(s.rows, env.scan) && env.now.Some? && DiskServes(env, s.rows)
    requires t.active == s.active && t.pastDueLimit == s.pastDueLimit && id in t.rows && id in s.rows
    requires RowSplit(s, LoadRows(s.rows, env.scan, parse), env.now.value, env, t.rows, id)
    ensures Idle(t, id, env.now.value, parse) <==>
              id in Loaded(s.rows, env.scan, parse) || Idle(s, id, env.now.value, parse)
  {
    var loaded := LoadRows(s.rows, env.scan, parse);
    LoadedAlerts(s.rows, env.scan, parse);
    if id in env.scan[..|loaded|] {
      var j :| 0 <= j < |loaded| && env.scan[..|loaded|][j] == id;
      assert loaded[j] == AlertOf(id, s.rows[id], parse);
      SurvivorIsSettled(s, t, env.now.value, env, id, parse);
    } else {
      forall i | 0 <= i < |loaded|
        ensures loaded[i].data.dbId != id
      {
        assert env.scan[..|loaded|][i] == env.scan[i];
      }
    }
  }

  /** A table that loads completely leaves nothing, whatever the order of the rows. */
  lemma CompleteLoadLeavesNothing(s: SchedulerView, scan: seq<int>, reached: seq<int>, now: int, parse: TimeParser)
    requires IsFullScan(s.rows, scan) && forall id :: id in s.rows ==> Loadable(s.rows[id])
    requires forall i :: 0 <= i < |reached| ==> reached[i] in s.rows
    ensures NothingLeft(s, scan, reached, now, parse)
  {
    LoadedAlerts(s.rows, scan, parse);
    assert scan[..|scan|] == scan;
  }

  /** The query again, over the rows that are left, in the same order. */
  function Surviving(scan: seq<int>, rows: Rows): seq<int> {
    if scan == [] then []
    else (if scan[0] in rows then [scan[0]] else []) + Surviving(scan[1..], rows)
  }

  lemma {:induction false} SurvivingIsScan(scan: seq<int>, rows: Rows)
    requires forall i, j :: 0 <= i < j < |scan| ==> scan[i] != scan[j]
    ensures IsScan(rows, Surviving(scan, rows))
    ensures forall id :: id in Surviving(scan, rows) <==> id in scan && id in rows
  {
    if scan != [] {
      SurvivingIsScan(scan[1..], rows);
      assert scan == [scan[0]] + scan[1..];
    }
  }

  ghost predicate Within(p: seq<int>, q: seq<int>) {
    forall id :: id in p ==> id in q
  }

  lemma ConsWithin(h: int, p: seq<int>, q: seq<int>)
    requires Within(p, q)
    ensures Within([h] + p, [h] + q) && Within(p, [h] + q)
  {
  }

  /** In a stable order a second load gets no further than the first: the row that stopped it is still there. */
  lemma {:induction false} StableLoadGoesNoFurther(rows: Rows, rows': Rows, scan: seq<int>, parse: TimeParser)
    requires IsScan(rows, scan)
    requires forall id :: id in rows && id in rows' ==> (Loadable(rows'[id]) <==> Loadable(rows[id]))
    requires forall id :: id in rows && !Loadable(rows[id]) ==> id in rows'
    ensures Within(Loaded(rows', Surviving(scan, rows'), parse), Loaded(rows, scan, parse))
  {
    if scan != [] {
      var h: int, rest := scan[0], scan[1..];
      assert h in rows;
      StableLoadGoesNoFurther(rows, rows', rest, parse);
      StableStep(rows, rows', h, rest, parse);
      assert scan == [h] + rest;
    }
  }

  lemma StableStep(rows: Rows, rows': Rows, h: int, rest: seq<int>, parse: TimeParser)
    requires h in rows && (h in rows' ==> (Loadable(rows'[h]) <==> Loadable(rows[h])))
    requires !Loadable(rows[h]) ==> h in rows'
    requires Within(Loaded(rows', Surviving(rest, rows'), parse), Loaded(rows, rest, parse))
    ensures Within(Loaded(rows', Surviving([h] + rest, rows'), parse), Loaded(rows, [h] + rest, parse))
  {
    var left := Surviving(rest, rows');
    assert ([h] + rest)[1..] == rest && ([h] + left)[1..] == left;
    LoadedFrom(rows, [h] + rest, parse);
    LoadedFrom(rows', [h] + left, parse);
    assert Surviving([h] + rest, rows') == if h in rows' then [h] + left else left;
    ConsWithin(h, Loaded(rows', left, parse), Loaded(rows, rest, parse));
  }

  lemma LoadedFrom(rows: Rows, scan: seq<int>, parse: TimeParser)
    ensures Loaded(rows, scan, parse) ==
              if scan == [] || scan[0] !in rows || !Loadable(rows[scan[0]]) then []
              else [scan[0]] + Loaded(rows, scan[1..], parse)
  {
    LoadedLength(rows, scan);
    if scan != [] {
      LoadedLength(rows, scan[1..]);
    }
  }

  lemma {:induction false} LoadedAreRows(rows: Rows, scan: seq<int>, parse: TimeParser)
    ensures forall id :: id in Loaded(rows, scan, parse) ==> id in rows
  {
    LoadedFrom(rows, scan, parse);
    if scan != [] {
      LoadedAreRows(rows, scan[1..], parse);
    }
  }

  lemma {:induction false} LoadedLength(rows: Rows, scan: seq<int>)
    ensures forall parse: TimeParser :: |LoadRows(rows, scan, parse)| <= |scan|
  {
    if scan != [] {
      LoadedLength(rows, scan[1..]);
    }
  }

  /** When the query yields what is left in the same order, a second reload at the same clock value finds
      nothing to erase and nothing to reset, and changes no row: no condition on the table is needed. */
  lemma StableReloadIsIdempotent(s: SchedulerView, env: Env, env': Env, parse: TimeParser)
    requires Consistent(s, parse) && IsScan(s.rows, env.scan) && env.now.Some? && DiskServes(env, s.rows)
    requires env'.now == env.now && env'.scan == Surviving(env.scan, ReloadAlerts(s, true, env, parse).rows)
    ensures var t := ReloadAlerts(s, true, env, parse);
            var loaded' := LoadRows(t.rows, env'.scan, parse);
            && ExpiredCount(t, loaded', env.now.value) == 0
            && RenewedCount(t, loaded', env.now.value) == 0
            && ReloadAlerts(t, true, env', parse).rows == t.rows
  {
    var t := ReloadAlerts(s, true, env, parse);
    ReloadSplits(s, env, parse);
    SurvivingIsScan(env.scan, t.rows);
    StableLoadLeavesNothing(s, env, t.rows, parse);
    ReloadIsIdempotentIff(s, env, env', parse);
  }

  lemma StableLoadLeavesNothing(s: SchedulerView, env: Env, rows: Rows, parse: TimeParser)
    requires IsScan(s.rows, env.scan) && env.now.Some?
    requires forall id :: RowSplit(s, LoadRows(s.rows, env.scan, parse), env.now.value, env, rows, id)
    ensures NothingLeft(s, env.scan, Loaded(rows, Surviving(env.scan, rows), parse), env.now.value, parse)
  {
    forall id | id in s.rows
      ensures id in rows ==> (Loadable(rows[id]) <==> Loadable(s.rows[id]))
      ensures !Loadable(s.rows[id]) ==> id in rows
    {
      RefusedRowStays(s, env, rows, id, parse);
    }
    StableLoadGoesNoFurther(s.rows, rows, env.scan, parse);
    LoadedAreRows(s.rows, env.scan, parse);
    ReachedLeavesNothing(s, env.scan, Loaded(rows, Surviving(env.scan, rows), parse), env.now.value, parse);
  }

  lemma ReachedLeavesNothing(s: SchedulerView, scan: seq<int>, reached: seq<int>, now: int, parse: TimeParser)
    requires forall id :: id in reached ==> id in Loaded(s.rows, scan, parse)
    requires forall id :: id in Loaded(s.rows, scan, parse) ==> id in s.rows
    ensures NothingLeft(s, scan, reached, now, parse)
  {
    forall i | 0 <= i < |reached|
      ensures reached[i] in s.rows && reached[i] in Loaded(s.rows, scan, parse)
    {
      var id: int := reached[i];
      assert id in reached;
      assert id in Loaded(s.rows, scan, parse);
    }
  }

  lemma RefusedRowStays(s: SchedulerView, env: Env, rows: Rows, id: int, parse: TimeParser)
    requires IsScan(s.rows, env.scan) && env.now.Some? && id in s.rows
    requires RowSplit(s, LoadRows(s.rows, env.scan, parse), env.now.value, env, rows, id)
    ensures id in rows ==> (Loadable(rows[id]) <==> Loadable(s.rows[id]))
    ensures !Loadable(s.rows[id]) ==> id in rows
  {
    var loaded := LoadRows(s.rows, env.scan, parse);
    LoadedAlerts(s.rows, env.scan, parse);
    if !NoId(loaded, id) {
      var i :| 0 <= i < |loaded| && loaded[i].data.dbId == id;
      assert OneRow(s, loaded[i], env.now.value, env, rows, id);
    }
  }

  /** Without a stable order the second reload can find work: a refused row hides a past-due one from the first
      query and not from the second. */
  lemma ReorderedReloadFindsWork(s: SchedulerView, u: int, v: int, env: Env, env': Env, parse: TimeParser)
    requires Consistent(s, parse) && s.active == None && u != v && s.rows.Keys == {u, v}
    requires !Loadable(s.rows[u]) && Loadable(s.rows[v])
    requires env.now.Some? && env'.now == env.now && env.scan == [u, v] && env'.scan == [v, u]
    requires IsPastDue(AlertOf(v, s.rows[v], parse), env.now.value, s.pastDueLimit)
    ensures var t := ReloadAlerts(s, true, env, parse);
            t.rows == s.rows && ExpiredCount(t, LoadRows(t.rows, env'.scan, parse), env.now.value) == 1
  {
    var t := ReloadAlerts(s, true, env, parse);
    assert LoadRows(s.rows, env.scan, parse) == [];
    var s1 := StopTimer(s.(wake := s.wake.(shouldSchedule := true))).(queue := []);
    SetTimerFrame(s1, env);
    assert t.rows == s.rows && t.active == None && t.pastDueLimit == s.pastDueLimit;
    var b := AlertOf(v, s.rows[v], parse);
    assert env'.scan[1..] == [u];
    assert LoadRows(t.rows, env'.scan, parse) == [b];
    assert [b][..0] == [] && Expires(t, b, env.now.value);
  }

  lemma SettledRows(t: SchedulerView, loaded: seq<AlertView>, env: Env, parse: TimeParser)
    requires Consistent(t, parse) && IsScan(t.rows, env.scan) && env.now.Some?
    requires loaded == LoadRows(t.rows, env.scan, parse)
    requires forall i :: 0 <= i < |loaded| ==> !Expires(t, loaded[i], env.now.value) && !Renews(t, loaded[i], env.now.value)
    ensures ReloadAlerts(t, true, env, parse).rows == t.rows
  {
    ReloadSplits(t, env, parse);
    var rows := ReloadAlerts(t, true, env, parse).rows;
    forall id
      ensures id in rows <==> id in t.rows
      ensures id in rows && id in t.rows ==> rows[id] == t.rows[id]
    {
      UntouchedRow(t, loaded, env.now.value, env, rows, id);
    }
    assert rows == t.rows;
  }

  lemma UntouchedRow(s: SchedulerView, alerts: seq<AlertView>, now: int, env: Env, rows: Rows, id: int)
    requires RowSplit(s, alerts, now, env, rows, id)
    requires forall i :: 0 <= i < |alerts| ==> !Expires(s, alerts[i], now) && !Renews(s, alerts[i], now)
    ensures id in rows <==> id in s.rows
    ensures id in rows && id in s.rows ==> rows[id] == s.rows[id]
  {
    if !NoId(alerts, id) {
      var i :| 0 <= i < |alerts| && alerts[i].data.dbId == id;
      assert OneRow(s, alerts[i], now, env, rows, id);
    }
  }

  lemma {:induction false} CountsAreZeroIff(s: SchedulerView, alerts: seq<AlertView>, now: int)
    ensures ExpiredCount(s, alerts, now) == 0 && RenewedCount(s, alerts, now) == 0 <==>
              forall i :: 0 <= i < |alerts| ==> !Expires(s, alerts[i], now) && !Renews(s, alerts[i], now)
  {
    if alerts != [] {
      var n := |alerts| - 1;
      CountsAreZeroIff(s, alerts[..n], now);
      assert forall i :: 0 <= i < n ==> alerts[..n][i] == alerts[i];
    }
  }
}
