/** The alert table of the SQLite storage. Whether the disk answers is an input of every operation; an
    operation that fails leaves the table as it was. */
module AlertRecords {
  import opened AlertTypes
  import opened AlertObject
  import opened AlertLifecycle
  import opened AssetParsing

  /** A row of the alert table joined with its rows of the two asset tables. */
  datatype Record = Record(
    token: string,
    alertType: string,
    state: Lifecycle,
    timePoint: TimePoint,
    loopCount: int,
    assets: AssetConfiguration)

  /** The rows by their primary key. */
  type Rows = map<int, Record>

  predicate HasToken(rows: Rows, token: string) {
    exists id :: id in rows && rows[id].token == token
  }

  predicate KnownType(alertType: string) {
    alertType == "ALARM" || alertType == "TIMER" || alertType == "REMINDER"
  }

  /** The largest key plus one, and 1 in an empty table. */
  predicate IsNextId(rows: Rows, id: int) {
    && (forall k :: k in rows ==> k < id)
    && (if rows == map[] then id == 1 else id - 1 in rows)
  }

  lemma NextIdIsUnique(rows: Rows, i: int, j: int)
    requires IsNextId(rows, i) && IsNextId(rows, j)
    ensures i == j
  {
  }

  predicate Has(s: set<int>, k: int) {
    k in s
  }

  lemma SomeKey(s: set<int>)
    requires s != {}
    ensures exists k :: Has(s, k)
  {
    assert s == set k | k in s && Has(s, k);
    if forall k :: !Has(s, k) {
      assert false;
    }
  }

  lemma {:induction false} MaximumExists(s: set<int>) returns (m: int)
    requires s != {}
    ensures m in s && forall k :: k in s ==> k <= m
    decreases |s|
  {
    SomeKey(s);
    var k :| Has(s, k);
    var rest := s - {k};
    assert forall x :: x in s ==> x == k || x in rest;
    if rest == {} {
      m := k;
    } else {
      var n := MaximumExists(rest);
      m := if n > k then n else k;
    }
  }

  lemma NextIdExists(rows: Rows)
    ensures exists id :: IsNextId(rows, id)
  {
    if rows == map[] {
      assert IsNextId(rows, 1);
    } else {
      assert rows.Keys != {};
      var m := MaximumExists(rows.Keys);
      assert IsNextId(rows, m + 1);
    }
  }

  ghost function NextId(rows: Rows): (id: int)
    ensures IsNextId(rows, id)
  {
    NextIdExists(rows);
    var id :| IsNextId(rows, id);
    id
  }

  /** What the table keeps of a configuration: the loop pause is bound as a 32-bit column. */
  function Stored(c: AssetConfiguration): AssetConfiguration {
    c.(loopPause := ToInt32(c.loopPause))
  }

  function RecordOf(a: AlertView): Record {
    Record(a.data.token, a.data.alertType, a.control.state, a.content.timePoint, a.content.loopCount,
           Stored(a.content.assets))
  }

  predicate StoreOk(rows: Rows, a: AlertView, disk: bool) {
    !HasToken(rows, a.data.token) && KnownType(a.data.alertType) && disk
  }

  /** Modifying and erasing look the token up, but act on the row with the alert's own key. */
  predicate WriteOk(rows: Rows, a: AlertView, disk: bool) {
    HasToken(rows, a.data.token) && disk
  }

  /** A modification writes the state and the time, and nothing else. */
  function Modified(rows: Rows, a: AlertView): Rows {
    if a.data.dbId in rows then
      rows[a.data.dbId := rows[a.data.dbId].(state := a.control.state, timePoint := a.content.timePoint)]
    else rows
  }

  function Erased(rows: Rows, a: AlertView): Rows {
    rows - {a.data.dbId}
  }

  /** The erasures of a transaction, one after the other; None when one of them is refused. */
  function EraseAll(rows: Rows, list: seq<AlertView>): Option<Rows> {
    if list == [] then Some(rows)
    else if HasToken(rows, list[0].data.token) then EraseAll(Erased(rows, list[0]), list[1..])
    else None
  }

  predicate BulkEraseOk(rows: Rows, list: seq<AlertView>, disk: bool) {
    list == [] || (disk && EraseAll(rows, list).Some?)
  }

  function BulkErased(rows: Rows, list: seq<AlertView>, disk: bool): Rows {
    if BulkEraseOk(rows, list, disk) then EraseAll(rows, list).value else rows
  }

  function WithId(assets: map<string, Asset>, id: string): set<Asset> {
    set k | k in assets && assets[k].id == id :: assets[k]
  }

  lemma OnlyElement(xs: set<Asset>)
    requires |xs| == 1
    ensures exists x :: x in xs
    ensures forall x, y :: x in xs && y in xs ==> x == y
  {
    assert xs != {};
    var x :| x in xs;
    assert |xs - {x}| == 0;
  }

  /** The asset that a load keeps under an id. When two assets have the id, the order of the rows of the asset
      table decides; no map that the program builds has two (`BuiltHasOneEach`). */
  function AssetWithId(assets: map<string, Asset>, id: string): Asset {
    var xs := WithId(assets, id);
    if |xs| == 1 then
      OnlyElement(xs);
      var x :| x in xs;
      x
    else if id in assets && assets[id].id == id then assets[id]
    else Asset(id, "")
  }

  /** The asset table has no column for the key: a load puts every asset under its own id. */
  function Rekeyed(assets: map<string, Asset>): map<string, Asset> {
    map id | id in (set k | k in assets :: assets[k].id) :: AssetWithId(assets, id)
  }

  function LoadedAssets(r: Record): AssetConfiguration {
    r.assets.(assets := Rekeyed(r.assets.assets))
  }

  /** The setters' validation, which a row has to pass to be loaded. */
  predicate Loadable(r: Record) {
    KnownType(r.alertType) && ValidConfiguration(LoadedAssets(r)) && r.loopCount >= 0
  }

  function LoadedTime(r: Record, parse: TimeParser): TimePoint {
    var unix := parse(r.timePoint.iso);
    if unix.Some? then TimePoint(r.timePoint.iso, unix.value) else EPOCH
  }

  /** The alert object built from a row. */
  function AlertOf(id: int, r: Record, parse: TimeParser): AlertView {
    AlertView(StaticData(r.token, r.alertType, id),
              Content(LoadedTime(r, parse), r.loopCount, LoadedAssets(r)),
              FRESH_CONTROL.(state := r.state),
              UNWIRED)
  }

  /** Loads the rows in the order the query yields them, up to the first row that is refused. */
  function LoadRows(rows: Rows, scan: seq<int>, parse: TimeParser): seq<AlertView> {
    if scan == [] || scan[0] !in rows || !Loadable(rows[scan[0]]) then []
    else [AlertOf(scan[0], rows[scan[0]], parse)] + LoadRows(rows, scan[1..], parse)
  }

  /** The query yields rows of the table, none of them twice. */
  predicate IsScan(rows: Rows, scan: seq<int>) {
    && (forall i :: 0 <= i < |scan| ==> scan[i] in rows)
    && (forall i, j :: 0 <= i < j < |scan| ==> scan[i] != scan[j])
  }

  predicate IsFullScan(rows: Rows, scan: seq<int>) {
    IsScan(rows, scan) && forall id :: id in rows ==> id in scan
  }

  // ---------------------------------------------------------------- properties

  /** No two rows have the same token, and every row's time was parsed from its text. */
  ghost predicate RowsOk(rows: Rows, parse: TimeParser) {
    && (forall i, j :: i in rows && j in rows && rows[i].token == rows[j].token ==> i == j)
    && (forall i :: i in rows ==> Coherent(rows[i].timePoint, parse))
  }

  /** The row with the alert's key has the alert's token. */
  predicate Owns(rows: Rows, a: AlertView) {
    a.data.dbId in rows && rows[a.data.dbId].token == a.data.token
  }

  /** A fresh row extends the table and keeps it well formed. */
  lemma StoreKeepsRows(rows: Rows, a: AlertView, parse: TimeParser)
    requires RowsOk(rows, parse) && StoreOk(rows, a, true) && Coherent(a.content.timePoint, parse)
    ensures NextId(rows) !in rows
    ensures RowsOk(rows[NextId(rows) := RecordOf(a)], parse)
  {
  }

  /** Which lists a transaction erases: exactly those whose alerts all own their row and have pairwise
      different tokens. What is left are the rows of the other keys. */
  lemma {:induction false} EraseAllSucceedsIff(rows: Rows, list: seq<AlertView>, parse: TimeParser)
    requires RowsOk(rows, parse)
    requires forall i :: 0 <= i < |list| && HasToken(rows, list[i].data.token) ==> Owns(rows, list[i])
    ensures EraseAll(rows, list).Some? <==>
              && (forall i :: 0 <= i < |list| ==> HasToken(rows, list[i].data.token))
              && (forall i, j :: 0 <= i < j < |list| ==> list[i].data.token != list[j].data.token)
    ensures EraseAll(rows, list).Some? ==>
              EraseAll(rows, list).value == rows - (set i | 0 <= i < |list| :: list[i].data.dbId)
  {
    if list != [] && HasToken(rows, list[0].data.token) {
      var rest, less := list[1..], Erased(rows, list[0]);
      forall i | 0 <= i < |rest|
        ensures HasToken(less, rest[i].data.token) <==>
                HasToken(rows, rest[i].data.token) && rest[i].data.token != list[0].data.token
      {
        assert rest[i] == list[i + 1];
        OtherTokensStay(rows, list[0], rest[i]);
      }
      EraseAllSucceedsIff(less, rest, parse);
      assert forall i :: 1 <= i < |list| ==> list[i] == rest[i - 1];
    }
    if EraseAll(rows, list).Some? {
      EraseAllLeaves(rows, list);
    }
  }

  lemma {:induction false} EraseAllLeaves(rows: Rows, list: seq<AlertView>)
    requires EraseAll(rows, list).Some?
    ensures EraseAll(rows, list).value == rows - (set i | 0 <= i < |list| :: list[i].data.dbId)
  {
    if list != [] {
      var rest := list[1..];
      EraseAllLeaves(Erased(rows, list[0]), rest);
      assert forall i :: 1 <= i < |list| ==> list[i] == rest[i - 1];
      assert (set i | 0 <= i < |list| :: list[i].data.dbId) ==
             {list[0].data.dbId} + (set i | 0 <= i < |rest| :: rest[i].data.dbId);
    }
  }

  /** An erasure takes the token of its alert out of the table and no other. */
  lemma OtherTokensStay(rows: Rows, a: AlertView, b: AlertView)
    requires forall i, j :: i in rows && j in rows && rows[i].token == rows[j].token ==> i == j
    requires Owns(rows, a) && (HasToken(rows, b.data.token) ==> Owns(rows, b))
    ensures HasToken(Erased(rows, a), b.data.token) <==>
            HasToken(rows, b.data.token) && b.data.token != a.data.token
    ensures HasToken(Erased(rows, a), b.data.token) ==> Owns(Erased(rows, a), b)
  {
    if HasToken(rows, b.data.token) && b.data.token != a.data.token {
      assert b.data.dbId in Erased(rows, a);
    }
  }

  /** A list that names a stored alert twice is refused as a whole. */
  lemma RepeatedAlertIsRefused(rows: Rows, a: AlertView, parse: TimeParser)
    requires RowsOk(rows, parse) && Owns(rows, a)
    ensures !BulkEraseOk(rows, [a, a], true) && BulkEraseOk(rows, [a], true)
  {
    EraseAllSucceedsIff(rows, [a, a], parse);
    EraseAllSucceedsIff(rows, [a], parse);
  }

  lemma {:induction false} LoadedAlerts(rows: Rows, scan: seq<int>, parse: TimeParser)
    requires IsScan(rows, scan)
    ensures var loaded := LoadRows(rows, scan, parse);
            && |loaded| <= |scan|
            && (forall i :: 0 <= i < |loaded| ==>
                  Loadable(rows[scan[i]]) && loaded[i] == AlertOf(scan[i], rows[scan[i]], parse))
            && (|loaded| < |scan| ==> !Loadable(rows[scan[|loaded|]]))
  {
    if scan != [] && Loadable(rows[scan[0]]) {
      LoadedAlerts(rows, scan[1..], parse);
    }
  }

  /** A load brings back every row exactly when every row passes the validation; one row that does not
      hides itself and whatever the query yields after it. */
  lemma LoadIsCompleteIff(rows: Rows, scan: seq<int>, parse: TimeParser)
    requires IsFullScan(rows, scan)
    ensures (forall id :: id in rows ==> AlertOf(id, rows[id], parse) in LoadRows(rows, scan, parse))
       <==> (forall id :: id in rows ==> Loadable(rows[id]))
  {
    LoadedAlerts(rows, scan, parse);
    var loaded := LoadRows(rows, scan, parse);
    if forall id :: id in rows ==> Loadable(rows[id]) {
      assert |loaded| == |scan|;
      forall id | id in rows
        ensures AlertOf(id, rows[id], parse) in loaded
      {
        var i :| 0 <= i < |scan| && scan[i] == id;
        assert loaded[i] == AlertOf(id, rows[id], parse);
      }
    } else {
      var id :| id in rows && !Loadable(rows[id]);
      forall i | 0 <= i < |loaded|
        ensures loaded[i] != AlertOf(id, rows[id], parse)
      {
        assert loaded[i].data.dbId == scan[i] && scan[i] != id;
      }
    }
  }

  predicate UnderOwnIds(assets: map<string, Asset>) {
    forall k :: k in assets ==> assets[k].id == k
  }

  /** No two different assets have the same id. */
  predicate OneEach(assets: map<string, Asset>) {
    forall j, k :: j in assets && k in assets && assets[j].id == assets[k].id ==> assets[j] == assets[k]
  }

  lemma AssetWithIdIs(assets: map<string, Asset>, k: string)
    requires OneEach(assets) && k in assets
    ensures AssetWithId(assets, assets[k].id) == assets[k]
  {
    assert WithId(assets, assets[k].id) == {assets[k]};
  }

  lemma AssetWithIdHasId(assets: map<string, Asset>, id: string)
    ensures AssetWithId(assets, id).id == id
  {
  }

  /** Re-keying leaves a map as it was exactly when every asset is under its own id. */
  lemma RekeyedIff(assets: map<string, Asset>)
    ensures Rekeyed(assets) == assets <==> UnderOwnIds(assets)
  {
    if UnderOwnIds(assets) {
      forall id
        ensures id in Rekeyed(assets) <==> id in assets
        ensures id in assets ==> AssetWithId(assets, id) == assets[id]
      {
        if id in assets {
          assert assets[id].id == id;
          AssetWithIdIs(assets, id);
        }
      }
      assert Rekeyed(assets) == assets;
    } else {
      var k :| k in assets && assets[k].id != k;
      AssetWithIdHasId(assets, k);
      assert k in Rekeyed(assets) ==> Rekeyed(assets)[k].id == k;
    }
  }

  /** Re-keying a map without clashing ids loses no asset and invents none. */
  lemma RekeyedKeepsAssets(assets: map<string, Asset>, x: Asset)
    requires OneEach(assets)
    ensures (exists k :: k in assets && assets[k] == x) <==> (exists k :: k in Rekeyed(assets) && Rekeyed(assets)[k] == x)
  {
    if k :| k in assets && assets[k] == x {
      AssetWithIdIs(assets, k);
      assert x.id in Rekeyed(assets) && Rekeyed(assets)[x.id] == x;
    }
    if id :| id in Rekeyed(assets) && Rekeyed(assets)[id] == x {
      var k :| k in assets && assets[k].id == id;
      AssetWithIdIs(assets, k);
    }
  }

  /** The maps the program builds: parsing and loading put every asset under its own id, and the indexing
      operator adds empty ones. */
  predicate Built(assets: map<string, Asset>) {
    forall k :: k in assets ==> assets[k] == Asset("", "") || (k != "" && assets[k].id == k)
  }

  lemma BuiltHasOneEach(assets: map<string, Asset>)
    requires Built(assets)
    ensures OneEach(assets)
  {
  }

  /** Such maps stay such maps: under a start that grows them, and when they are stored and loaded. */
  lemma BuiltIsKept(assets: map<string, Asset>, ids: seq<string>)
    requires Built(assets)
    ensures Built(Touch(assets, ids)) && Built(Rekeyed(assets))
  {
    BuiltHasOneEach(assets);
    forall id | id in Rekeyed(assets)
      ensures Rekeyed(assets)[id] == Asset("", "") || (id != "" && Rekeyed(assets)[id].id == id)
    {
      var k :| k in assets && assets[k].id == id;
      AssetWithIdIs(assets, k);
    }
  }

  lemma ParsedIsBuilt(p: AssetPayload, current: AssetConfiguration, c: AssetConfiguration)
    requires Acceptable(p, current) && Describes(p, c)
    ensures Built(c.assets) && UnderOwnIds(c.assets)
  {
    forall k | k in c.assets
      ensures k != "" && c.assets[k].id == k
    {
      ListedAssetIsComplete(p, current, c, k);
      var i :| 0 <= i < |p.assets.value| && p.assets.value[i].assetId == Some(k);
      assert GoodEntry(p.assets.value[i], current.assets);
    }
  }

  /** Storing an alert and loading its row gives the alert back, but for its history, exactly when its
      loop pause fits 32 bits and its assets are under their own ids. */
  lemma StoreLoadRoundTrip(a: AlertView, id: int, parse: TimeParser)
    requires Coherent(a.content.timePoint, parse)
    ensures var b := AlertOf(id, RecordOf(a), parse);
            && b.data == a.data.(dbId := id)
            && b.content.timePoint == a.content.timePoint
            && b.control.state == a.control.state
            && (b.content == a.content <==>
                  -0x8000_0000 <= a.content.assets.loopPause <= INT32_MAX && UnderOwnIds(a.content.assets.assets))
  {
    RekeyedIff(a.content.assets.assets);
  }

  /** The first row has key 1, and each new one the number behind the largest key. */
  lemma KeysCountUp(rows: Rows)
    ensures rows == map[] ==> NextId(rows) == 1
    ensures rows != map[] ==> NextId(rows) - 1 in rows && forall id :: id in rows ==> id <= NextId(rows) - 1
  {
  }

  /** Which rows a load refuses: those of no known type, with a negative loop count, or with a background asset or
      a play-order item that has no asset, or one without a url, under its own id. */
  lemma RefusedIff(r: Record)
    requires OneEach(r.assets.assets)
    ensures Loadable(r) <==>
              && (r.alertType == "ALARM" || r.alertType == "TIMER" || r.alertType == "REMINDER")
              && r.loopCount >= 0
              && (r.assets.backgroundAssetId != "" ==> Listed(r.assets.assets, r.assets.backgroundAssetId))
              && forall item :: item in r.assets.assetPlayOrderItems ==> Listed(r.assets.assets, item)
  {
    ListedIff(r.assets.assets, r.assets.backgroundAssetId);
    forall item | item in r.assets.assetPlayOrderItems
      ensures HasAsset(item, Rekeyed(r.assets.assets)) <==> Listed(r.assets.assets, item)
    {
      ListedIff(r.assets.assets, item);
    }
  }

  /** Some asset of the map has the id and a url. */
  predicate Listed(assets: map<string, Asset>, id: string) {
    exists k :: k in assets && assets[k].id == id && assets[k].url != ""
  }

  lemma ListedIff(assets: map<string, Asset>, id: string)
    requires OneEach(assets)
    ensures HasAsset(id, Rekeyed(assets)) <==> Listed(assets, id)
  {
    if k :| k in assets && assets[k].id == id {
      AssetWithIdIs(assets, k);
    }
  }

  /** A row's time is converted again from its text; a text that cannot be converted leaves the start of time. */
  lemma LoadedTimeIs(id: int, r: Record, parse: TimeParser)
    ensures var time := AlertOf(id, r, parse).content.timePoint;
            && (parse(r.timePoint.iso).Some? ==>
                  time.iso == r.timePoint.iso && time.unix == parse(r.timePoint.iso).value)
            && (parse(r.timePoint.iso).None? ==> time.iso == "" && time.unix == 0)
  {
  }

  /** The narrowing to 32 bits keeps what fits and wraps what does not. */
  lemma NarrowingWraps(x: int)
    ensures -0x8000_0000 <= ToInt32(x) <= 0x7fff_ffff
    ensures (ToInt32(x) - x) % 0x1_0000_0000 == 0
    ensures -0x8000_0000 <= x <= 0x7fff_ffff ==> ToInt32(x) == x
  {
  }

  // -------------------------------------------------------------- the storage

  class AlertStorage {
    var rows: Rows

    constructor ()
      ensures rows == map[]
    {
      rows := map[];
    }

    method AlertExists(token: string) returns (r: bool)
      ensures r == HasToken(rows, token)
    {
      return HasToken(rows, token);
    }

    method TableMaxIntValue() returns (m: int)
      ensures IsNextId(rows, m + 1)
    {
      m := 0;
      var todo := rows.Keys;
      while todo != {}
        invariant todo <= rows.Keys
        invariant todo == rows.Keys ==> m == 0
        invariant todo != rows.Keys ==> m in rows && forall k :: k in rows && k !in todo ==> k <= m
        decreases |todo|
      {
        SomeKey(todo);
        var k :| k in todo && Has(todo, k);
        m := if todo == rows.Keys || k > m then k else m;
        todo := todo - {k};
      }
    }

    method Store(a: Alert, disk: bool) returns (ok: bool)
      modifies this, a`data
      ensures ok == StoreOk(old(rows), old(a.View()), disk)
      ensures !ok ==> rows == old(rows) && a.data == old(a.data)
      ensures ok ==> rows == old(rows)[NextId(old(rows)) := RecordOf(old(a.View()))]
      ensures ok ==> a.data == old(a.data).(dbId := NextId(old(rows)))
    {
      var present := AlertExists(a.data.token);
      if present || !disk || !KnownType(a.data.alertType) {
        return false;
      }
      var m := TableMaxIntValue();
      NextIdIsUnique(rows, m + 1, NextId(rows));
      rows := rows[m + 1 := Record(a.data.token, a.data.alertType, a.control.state, a.content.timePoint,
                                   a.content.loopCount, Stored(a.content.assets))];
      a.data := a.data.(dbId := m + 1);
      return true;
    }

    method Modify(a: Alert, disk: bool) returns (ok: bool)
      modifies this
      ensures ok == WriteOk(old(rows), a.View(), disk)
      ensures rows == if ok then Modified(old(rows), a.View()) else old(rows)
    {
      var known := AlertExists(a.data.token);
      if !known || !disk {
        return false;
      }
      if a.data.dbId in rows {
        var r := rows[a.data.dbId];
        rows := rows[a.data.dbId := r.(state := a.control.state, timePoint := a.content.timePoint)];
      }
      return true;
    }

    method Erase(a: Alert, disk: bool) returns (ok: bool)
      modifies this
      ensures ok == WriteOk(old(rows), a.View(), disk)
      ensures rows == if ok then Erased(old(rows), a.View()) else old(rows)
    {
      var known := AlertExists(a.data.token);
      if !known || !disk {
        return false;
      }
      rows := rows - {a.data.dbId};
      return true;
    }

    /** Erases inside a transaction, which is rolled back at the first refusal. */
    method BulkErase(list: seq<Alert>, ghost views: seq<AlertView>, disk: bool) returns (ok: bool)
      requires |views| == |list| && forall i :: 0 <= i < |list| ==> views[i] == list[i].View()
      modifies this
      ensures ok == BulkEraseOk(old(rows), views, disk)
      ensures rows == BulkErased(old(rows), views, disk)
    {
      if list == [] {
        return true;
      }
      if !disk {
        return false;
      }
      var before := rows;
      for i := 0 to |list|
        invariant EraseAll(before, views) == EraseAll(rows, views[i..])
        invariant forall j :: 0 <= j < |list| ==> views[j] == list[j].View()
      {
        var erased := Erase(list[i], true);
        assert views[i..][1..] == views[i + 1..];
        if !erased {
          rows := before;
          return false;
        }
      }
      assert views[|list|..] == [];
      return true;
    }

    method ClearDatabase(disk: bool) returns (ok: bool)
      modifies this
      ensures ok == disk
      ensures rows == if disk then map[] else old(rows)
    {
      if disk {
        rows := map[];
      }
      return disk;
    }

    /** Builds a new alert object from a row, unless the row is refused. */
    static method LoadOne(id: int, r: Record, parse: TimeParser) returns (a: Alert?)
      ensures a == null <==> !Loadable(r)
      ensures a != null ==> fresh(a) && a.View() == AlertOf(id, r, parse)
    {
      if !KnownType(r.alertType) {
        return null;
      }
      var alert := new Alert(r.alertType);
      var time := alert.content.timePoint;
      var unix := parse(r.timePoint.iso);
      if unix.Some? {
        time := TimePoint(r.timePoint.iso, unix.value);
      }
      var d := DynamicData(r.state, false, Content(time, r.loopCount, LoadedAssets(r)));
      var ok := alert.SetAlertData(Some((r.token, id)), Some(d));
      a := if ok then alert else null;
    }

    /** Builds a new alert object for every row up to the first that is refused. */
    method Load(scan: seq<int>, parse: TimeParser) returns (alerts: seq<Alert>)
      requires IsScan(rows, scan)
      ensures forall i :: 0 <= i < |alerts| ==> fresh(alerts[i])
      ensures forall i, j :: 0 <= i < j < |alerts| ==> alerts[i] != alerts[j]
      ensures |alerts| == |LoadRows(rows, scan, parse)|
      ensures forall i :: 0 <= i < |alerts| ==> alerts[i].View() == LoadRows(rows, scan, parse)[i]
    {
      alerts := [];
      ghost var all := LoadRows(rows, scan, parse);
      for i := 0 to |scan|
        invariant |alerts| == i <= |all|
        invariant all[i..] == LoadRows(rows, scan[i..], parse)
        invariant forall j :: 0 <= j < i ==> fresh(alerts[j]) && alerts[j].View() == all[j]
        invariant forall j, k :: 0 <= j < k < i ==> alerts[j] != alerts[k]
      {
        assert scan[i..][1..] == scan[i + 1..];
        var a := LoadOne(scan[i], rows[scan[i]], parse);
        if a == null {
          assert all[i..] == [];
          return;
        }
        assert all[i..][0] == a.View();
        alerts := alerts + [a];
        assert all[i..][1..] == all[i + 1..];
      }
      assert scan[|scan|..] == [];
      assert all[|scan|..] == [];
    }
  }
}
