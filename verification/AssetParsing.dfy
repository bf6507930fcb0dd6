/** Parsing of the asset part of a SetAlert payload that has already been read as JSON. */
module AssetParsing {
  import opened AlertTypes
  import opened AlertLifecycle

  /** One element of the assets array; None is a member that is missing or not a string. */
  datatype AssetEntry = AssetEntry(assetId: Option<string>, url: Option<string>)

  datatype PlayOrderEntry = Name(text: string) | NotAString

  datatype AssetPayload = AssetPayload(
    assets: Option<seq<AssetEntry>>,
    playOrder: Option<seq<PlayOrderEntry>>,
    loopCount: Option<int>,
    loopPause: Option<int>,
    backgroundAssetId: Option<string>)

  ghost predicate Lists(entries: seq<AssetEntry>, id: string) {
    exists i :: 0 <= i < |entries| && entries[i].assetId == Some(id)
  }

  /** The assets already configured, not those of the same payload, are searched for duplicates. */
  ghost predicate GoodEntry(e: AssetEntry, current: map<string, Asset>) {
    && e.assetId.Some? && e.url.Some?
    && e.assetId.value != "" && e.url.value != ""
    && e.assetId.value !in current
  }

  ghost predicate Acceptable(p: AssetPayload, current: AssetConfiguration) {
    && p.assets.Some? && p.playOrder.Some?
    && (forall i :: 0 <= i < |p.assets.value| ==> GoodEntry(p.assets.value[i], current.assets))
    && (forall i :: 0 <= i < |p.playOrder.value| ==>
          p.playOrder.value[i].Name? && Lists(p.assets.value, p.playOrder.value[i].text))
    && (p.loopCount.Some? ==> p.loopCount.value <= INT32_MAX)
  }

  /** Entry i is the last one with its id. */
  ghost predicate IsLast(entries: seq<AssetEntry>, i: int) {
    && 0 <= i < |entries| && entries[i].assetId.Some? && entries[i].url.Some?
    && forall j :: i < j < |entries| ==> entries[j].assetId != entries[i].assetId
  }

  /** The asset map holds exactly the listed ids, each with the url listed last. */
  ghost predicate Collected(entries: seq<AssetEntry>, assets: map<string, Asset>) {
    && (forall id :: id in assets <==> Lists(entries, id))
    && forall i :: IsLast(entries, i) ==>
         assets[entries[i].assetId.value] == Asset(entries[i].assetId.value, entries[i].url.value)
  }

  ghost predicate Ordered(entries: seq<PlayOrderEntry>, items: seq<string>) {
    |items| == |entries| && forall i :: 0 <= i < |entries| ==> entries[i] == Name(items[i])
  }

  function LoopCountOf(p: AssetPayload): int {
    if p.loopCount.Some? then ToInt32(p.loopCount.value) else INT32_MAX
  }

  ghost predicate Describes(p: AssetPayload, c: AssetConfiguration)
    requires p.assets.Some? && p.playOrder.Some?
  {
    && Collected(p.assets.value, c.assets)
    && Ordered(p.playOrder.value, c.assetPlayOrderItems)
    && c.backgroundAssetId == (if p.backgroundAssetId.Some? then p.backgroundAssetId.value else "")
    && c.loopPause == (if p.loopPause.Some? then p.loopPause.value else 0)
  }

  lemma CollectedExtends(entries: seq<AssetEntry>, e: AssetEntry, assets: map<string, Asset>)
    requires Collected(entries, assets) && e.assetId.Some? && e.url.Some?
    ensures Collected(entries + [e], assets[e.assetId.value := Asset(e.assetId.value, e.url.value)])
  {
    var more := entries + [e];
    var assets' := assets[e.assetId.value := Asset(e.assetId.value, e.url.value)];
    assert more[|entries|] == e;
    forall id
      ensures id in assets' <==> Lists(more, id)
    {
      if Lists(entries, id) {
        var i :| 0 <= i < |entries| && entries[i].assetId == Some(id);
        assert more[i].assetId == Some(id);
      }
    }
    forall i | IsLast(more, i)
      ensures assets'[more[i].assetId.value] == Asset(more[i].assetId.value, more[i].url.value)
    {
      if i < |entries| {
        assert forall j :: i < j < |entries| ==> entries[j] == more[j];
        assert IsLast(entries, i);
      }
    }
  }

  lemma CollectedOneMore(entries: seq<AssetEntry>, i: nat, assets: map<string, Asset>)
    requires i < |entries| && Collected(entries[..i], assets)
    requires entries[i].assetId.Some? && entries[i].url.Some?
    ensures var e := entries[i];
            Collected(entries[..i + 1], assets[e.assetId.value := Asset(e.assetId.value, e.url.value)])
  {
    CollectedExtends(entries[..i], entries[i], assets);
    assert entries[..i + 1] == entries[..i] + [entries[i]];
  }

  /** The first loop: the local asset map, or None as soon as an entry is refused. */
  method CollectAssets(entries: seq<AssetEntry>, current: map<string, Asset>) returns (r: Option<map<string, Asset>>)
    ensures r.Some? <==> forall i :: 0 <= i < |entries| ==> GoodEntry(entries[i], current)
    ensures r.Some? ==> Collected(entries, r.value)
  {
    var assets: map<string, Asset> := map[];
    for i := 0 to |entries|
      invariant Collected(entries[..i], assets)
      invariant forall j :: 0 <= j < i ==> GoodEntry(entries[j], current)
    {
      var e := entries[i];
      if e.assetId.None? || e.url.None? || e.assetId.value == "" || e.url.value == "" {
        return None;
      }
      if e.assetId.value in current {
        return None;
      }
      CollectedOneMore(entries, i, assets);
      assets := assets[e.assetId.value := Asset(e.assetId.value, e.url.value)];
    }
    assert entries[..|entries|] == entries;
    return Some(assets);
  }

  /** The second loop: the play order, or None as soon as an item names no collected asset. */
  method CollectOrder(order: seq<PlayOrderEntry>, assets: map<string, Asset>) returns (r: Option<seq<string>>)
    ensures r.Some? <==> forall i :: 0 <= i < |order| ==> order[i].Name? && order[i].text in assets
    ensures r.Some? ==> Ordered(order, r.value)
  {
    var items: seq<string> := [];
    for i := 0 to |order|
      invariant Ordered(order[..i], items)
      invariant forall j :: 0 <= j < i ==> order[j].Name? && order[j].text in assets
    {
      if order[i].NotAString? || order[i].text !in assets {
        return None;
      }
      items := items + [order[i].text];
    }
    assert order[..|order|] == order;
    return Some(items);
  }

  /** Fills a local configuration and commits it, with the loop count, only at the very end. */
  method ParseAssetConfiguration(p: AssetPayload, current: AssetConfiguration, currentLoopCount: int)
      returns (committed: bool, c: AssetConfiguration, loopCount: int)
    ensures committed <==> Acceptable(p, current)
    ensures !committed ==> c == current && loopCount == currentLoopCount
    ensures committed ==> Describes(p, c)
    ensures committed ==> loopCount == LoopCountOf(p)
  {
    committed, c, loopCount := false, current, currentLoopCount;
    if p.assets.None? || p.playOrder.None? {
      return;
    }
    var assets := CollectAssets(p.assets.value, current.assets);
    if assets.None? {
      return;
    }
    var items := CollectOrder(p.playOrder.value, assets.value);
    if items.None? {
      return;
    }
    if p.loopCount.Some? && p.loopCount.value > INT32_MAX {
      return;
    }
    committed := true;
    c := AssetConfiguration(assets.value, items.value,
                            if p.backgroundAssetId.Some? then p.backgroundAssetId.value else "",
                            if p.loopPause.Some? then p.loopPause.value else 0);
    loopCount := LoopCountOf(p);
  }

  // -------------------------------------------------- what a committed parse guarantees

  lemma {:induction false} LastOccurrence(entries: seq<AssetEntry>, id: string) returns (i: int)
    requires Lists(entries, id)
    requires forall j :: 0 <= j < |entries| ==> entries[j].assetId.Some? && entries[j].url.Some?
    ensures IsLast(entries, i) && entries[i].assetId == Some(id)
  {
    var n := |entries| - 1;
    if entries[n].assetId == Some(id) {
      i := n;
    } else {
      var k :| 0 <= k < |entries| && entries[k].assetId == Some(id);
      assert entries[..n][k].assetId == Some(id);
      i := LastOccurrence(entries[..n], id);
      assert forall j :: i < j < n ==> entries[..n][j] == entries[j];
    }
  }

  /** A listed id is a complete asset of the committed configuration. */
  lemma ListedAssetIsComplete(p: AssetPayload, current: AssetConfiguration, c: AssetConfiguration, id: string)
    requires Acceptable(p, current) && Describes(p, c) && Lists(p.assets.value, id)
    ensures HasAsset(id, c.assets)
  {
    forall j | 0 <= j < |p.assets.value|
      ensures p.assets.value[j].assetId.Some? && p.assets.value[j].url.Some?
    {
      assert GoodEntry(p.assets.value[j], current.assets);
    }
    var i := LastOccurrence(p.assets.value, id);
    assert GoodEntry(p.assets.value[i], current.assets);
  }

  /** Every committed configuration has complete assets for its play order; it also passes the setters'
      validation exactly when its background asset is listed or absent, which parsing does not check. */
  lemma CommittedConfiguration(p: AssetPayload, current: AssetConfiguration, c: AssetConfiguration)
    requires Acceptable(p, current) && Describes(p, c)
    ensures forall item :: item in c.assetPlayOrderItems ==> HasAsset(item, c.assets)
    ensures ValidConfiguration(c) <==> c.backgroundAssetId == "" || Lists(p.assets.value, c.backgroundAssetId)
  {
    forall item | item in c.assetPlayOrderItems
      ensures HasAsset(item, c.assets)
    {
      var k :| 0 <= k < |c.assetPlayOrderItems| && c.assetPlayOrderItems[k] == item;
      assert p.playOrder.value[k] == Name(item);
      ListedAssetIsComplete(p, current, c, item);
    }
    if c.backgroundAssetId != "" && Lists(p.assets.value, c.backgroundAssetId) {
      ListedAssetIsComplete(p, current, c, c.backgroundAssetId);
    }
  }

  // -------------------------------------------------- what a renderer start reads

  /** A start leaves the asset map as it was exactly when every requested id is in it. */
  lemma StartGrowsAssetsIff(a: AlertView)
    ensures StartRenderer(a).content == a.content
       <==> forall id :: id in RequestedIds(a) ==> id in a.content.assets.assets
  {
    var assets, ids := a.content.assets.assets, RequestedIds(a);
    if id :| id in ids && id !in assets {
      assert id in Touch(assets, ids);
    } else {
      assert Touch(assets, ids) == assets;
    }
  }

  /** A foreground start of a committed, non-empty configuration plays exactly the urls listed last for
      the play order, in order, none of them empty, and adds nothing to the asset map. */
  lemma ForegroundStartPlaysTheOrder(p: AssetPayload, current: AssetConfiguration, a: AlertView)
    requires Acceptable(p, current) && Describes(p, a.content.assets)
    requires p.assets.value != []
    requires a.control.focusState != Background && !a.control.hasRenderingFailed
    ensures StartRenderer(a).content == a.content
    ensures var urls := StartOf(a).urls;
            && |urls| == |p.playOrder.value|
            && forall k, i | 0 <= k < |urls| && IsLast(p.assets.value, i) ::
                 p.assets.value[i].assetId == Some(p.playOrder.value[k].text) ==>
                 urls[k] == p.assets.value[i].url.value && urls[k] != ""
  {
    var c := a.content.assets;
    CommittedConfiguration(p, current, c);
    assert GoodEntry(p.assets.value[0], current.assets);
    assert Lists(p.assets.value, p.assets.value[0].assetId.value);
    assert RequestedIds(a) == c.assetPlayOrderItems;
    StartGrowsAssetsIff(a);
    forall k, i | 0 <= k < |StartOf(a).urls| && IsLast(p.assets.value, i)
                  && p.assets.value[i].assetId == Some(p.playOrder.value[k].text)
      ensures StartOf(a).urls[k] == p.assets.value[i].url.value && StartOf(a).urls[k] != ""
    {
      assert p.playOrder.value[k] == Name(c.assetPlayOrderItems[k]);
      assert c.assetPlayOrderItems[k] in c.assetPlayOrderItems;
      assert GoodEntry(p.assets.value[i], current.assets);
    }
  }

  /** The unchecked background asset: a background start hands the renderer one empty url, and grows the
      asset map, exactly when the background asset is named but not listed. */
  lemma BackgroundStartWithDanglingAsset(p: AssetPayload, current: AssetConfiguration, a: AlertView)
    requires Acceptable(p, current) && Describes(p, a.content.assets)
    requires a.control.focusState == Background && !a.control.hasRenderingFailed
    ensures var c := a.content.assets;
            var dangling := c.backgroundAssetId != "" && !Lists(p.assets.value, c.backgroundAssetId);
            && (StartOf(a).urls == [""] <==> dangling)
            && (StartRenderer(a).content != a.content <==> dangling)
            && (!ValidConfiguration(c) <==> dangling)
  {
    var c := a.content.assets;
    CommittedConfiguration(p, current, c);
    StartGrowsAssetsIff(a);
    if c.backgroundAssetId != "" {
      assert RequestedIds(a) == [c.backgroundAssetId];
      if Lists(p.assets.value, c.backgroundAssetId) {
        ListedAssetIsComplete(p, current, c, c.backgroundAssetId);
        assert StartOf(a).urls[0] != "";
      } else {
        assert StartOf(a).urls == [""];
      }
    } else {
      assert RequestedIds(a) == [];
    }
  }

  /** Duplicates inside one payload are accepted, and the last entry wins. */
  lemma DuplicateEntriesAreAccepted(id: string, url1: string, url2: string, c: AssetConfiguration)
    requires id != "" && url1 != "" && url2 != "" && id !in c.assets
    ensures var p := AssetPayload(Some([AssetEntry(Some(id), Some(url1)), AssetEntry(Some(id), Some(url2))]),
                                  Some([]), None, None, None);
            && Acceptable(p, c)
            && forall c' :: Describes(p, c') ==> c'.assets == map[id := Asset(id, url2)]
  {
    var entries := [AssetEntry(Some(id), Some(url1)), AssetEntry(Some(id), Some(url2))];
    var p := AssetPayload(Some(entries), Some([]), None, None, None);
    assert entries[1].assetId == Some(id);
    forall c' | Describes(p, c')
      ensures c'.assets == map[id := Asset(id, url2)]
    {
      assert IsLast(entries, 1);
      assert Lists(entries, id);
      assert forall x :: x in c'.assets ==> x == id;
    }
  }

  // --------------------------------------------------------- what is refused

  /** One bad entry, wherever it stands, makes the whole payload leave the configuration alone: without an id or a
      url, with an empty one, or with an id that is configured already. */
  lemma BadEntryIsRefused(p: AssetPayload, current: AssetConfiguration, i: nat)
    requires p.assets.Some? && i < |p.assets.value|
    requires var e := p.assets.value[i];
             || e.assetId.None? || e.url.None? || e.assetId.value == "" || e.url.value == ""
             || e.assetId.value in current.assets
    ensures !Acceptable(p, current)
  {
    assert !GoodEntry(p.assets.value[i], current.assets);
  }

  /** So does a play-order item that is no string or names no entry, a missing array, and a loop count beyond 32
      bits. */
  lemma BadRestIsRefused(p: AssetPayload, current: AssetConfiguration)
    requires || p.assets.None? || p.playOrder.None?
             || (p.loopCount.Some? && p.loopCount.value > 0x7fff_ffff)
             || exists i :: 0 <= i < |p.playOrder.value| &&
                  (p.playOrder.value[i].NotAString? ||
                     forall k :: 0 <= k < |p.assets.value| ==>
                       p.assets.value[k].assetId != Some(p.playOrder.value[i].text))
    ensures !Acceptable(p, current)
  {
  }

  /** Anything else is accepted. */
  lemma GoodPayloadIsAccepted(p: AssetPayload, current: AssetConfiguration)
    requires p.assets.Some? && p.playOrder.Some?
    requires forall i :: 0 <= i < |p.assets.value| ==>
               var e := p.assets.value[i];
               && e.assetId.Some? && e.url.Some? && e.assetId.value != "" && e.url.value != ""
               && e.assetId.value !in current.assets
    requires forall i :: 0 <= i < |p.playOrder.value| ==>
               p.playOrder.value[i].Name? &&
               exists k :: 0 <= k < |p.assets.value| && p.assets.value[k].assetId == Some(p.playOrder.value[i].text)
    requires p.loopCount.Some? ==> p.loopCount.value <= 0x7fff_ffff
    ensures Acceptable(p, current)
  {
  }

  /** An accepted loop count that is not below 32 bits is kept as it is, and a missing one is the largest. */
  lemma LoopCountIsKept(p: AssetPayload, current: AssetConfiguration)
    requires Acceptable(p, current)
    ensures p.loopCount.Some? && p.loopCount.value >= -0x8000_0000 ==> LoopCountOf(p) == p.loopCount.value
    ensures p.loopCount.None? ==> LoopCountOf(p) == 0x7fff_ffff
  {
  }

  /** The rest of a committed configuration: play order, background asset and pause as the payload has them, with
      nothing and zero for what it lacks. */
  lemma CommittedRest(p: AssetPayload, current: AssetConfiguration, c: AssetConfiguration)
    requires Acceptable(p, current) && Describes(p, c)
    ensures |c.assetPlayOrderItems| == |p.playOrder.value|
    ensures forall i :: 0 <= i < |c.assetPlayOrderItems| ==>
              p.playOrder.value[i].Name? && c.assetPlayOrderItems[i] == p.playOrder.value[i].text
    ensures p.backgroundAssetId.Some? ==> c.backgroundAssetId == p.backgroundAssetId.value
    ensures p.backgroundAssetId.None? ==> c.backgroundAssetId == ""
    ensures p.loopPause.Some? ==> c.loopPause == p.loopPause.value
    ensures p.loopPause.None? ==> c.loopPause == 0
  {
  }
}
