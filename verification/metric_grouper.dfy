/**
 * Builds a widget's `query.assets` list from its ordered metric references:
 * one entry per referenced asset, in the order each asset is first referenced,
 * each holding the properties of that asset's metrics in declaration order.
 */
module MetricGrouper {
  import opened MonitorDefinition
  import opened AppDefinition

  /** The query for one metric's property, with the fixed aggregation and resolution. */
  function PropertyQueryOf(m: MonitorMetric): PropertyQuery
  {
    PropertyQuery(m.propertyId, AVERAGE, ONE_MINUTE)
  }

  /** The asset ids the metrics reference. */
  function AssetIds(ms: seq<MonitorMetric>): set<string>
  {
    set m | m in ms :: m.assetId
  }

  /** No id is listed twice. */
  predicate Distinct(ids: seq<string>)
  {
    forall i, j :: 0 <= i < j < |ids| ==> ids[i] != ids[j]
  }

  /** The asset ids of the metrics, each once, in order of first reference. */
  function AssetOrder(ms: seq<MonitorMetric>): seq<string>
  {
    if ms == [] then []
    else
      var prev := AssetOrder(ms[..|ms| - 1]);
      var id := ms[|ms| - 1].assetId;
      if id in prev then prev else prev + [id]
  }

  /** The property queries of the metrics that reference `assetId`, in declaration order. */
  function PropertiesOf(ms: seq<MonitorMetric>, assetId: string): seq<PropertyQuery>
  {
    if ms == [] then []
    else
      var prev := PropertiesOf(ms[..|ms| - 1], assetId);
      if ms[|ms| - 1].assetId == assetId then prev + [PropertyQueryOf(ms[|ms| - 1])] else prev
  }

  /** One asset entry per id of `order`, in that order, holding that asset's properties. */
  function GroupsFor(ms: seq<MonitorMetric>, order: seq<string>): (groups: seq<AssetQuery>)
    ensures |groups| == |order|
    ensures forall i :: 0 <= i < |order| ==>
      groups[i].assetId == order[i] && groups[i].properties == PropertiesOf(ms, order[i])
  {
    if order == [] then []
    else
      var last := order[|order| - 1];
      GroupsFor(ms, order[..|order| - 1]) + [AssetQuery(last, PropertiesOf(ms, last))]
  }

  /** The `query.assets` list of a widget with metrics `ms`. */
  function GroupByAsset(ms: seq<MonitorMetric>): seq<AssetQuery>
  {
    GroupsFor(ms, AssetOrder(ms))
  }

  /** Position of the first metric that references `assetId`. */
  function FirstIndex(ms: seq<MonitorMetric>, assetId: string): (p: nat)
    requires assetId in AssetIds(ms)
    ensures p < |ms| && ms[p].assetId == assetId
    ensures forall q :: 0 <= q < p ==> ms[q].assetId != assetId
  {
    var init := ms[..|ms| - 1];
    if assetId in AssetIds(init) then FirstIndex(init, assetId) else |ms| - 1
  }

  /** The number of property queries over all asset entries. */
  function TotalProperties(groups: seq<AssetQuery>): nat
  {
    if groups == [] then 0
    else TotalProperties(groups[..|groups| - 1]) + |groups[|groups| - 1].properties|
  }

  /** Every metric names a different asset. */
  predicate DistinctAssets(ms: seq<MonitorMetric>)
  {
    forall i, j :: 0 <= i < j < |ms| ==> ms[i].assetId != ms[j].assetId
  }

  /** Two metric lists reference the same asset properties at every position. */
  predicate SameReferences(ms: seq<MonitorMetric>, ms': seq<MonitorMetric>)
  {
    |ms| == |ms'| &&
    forall i :: 0 <= i < |ms| ==> ms[i].assetId == ms'[i].assetId && ms[i].propertyId == ms'[i].propertyId
  }

  lemma AssetIdsSnoc(init: seq<MonitorMetric>, m: MonitorMetric)
    ensures AssetIds(init + [m]) == AssetIds(init) + {m.assetId}
  {
    var ms := init + [m];
    forall id | id in AssetIds(ms) ensures id in AssetIds(init) + {m.assetId} {
      var n :| n in ms && n.assetId == id;
      if n != m { assert n in init; }
    }
    forall id | id in AssetIds(init) ensures id in AssetIds(ms) {
      var n :| n in init && n.assetId == id;
      assert n in ms;
    }
  }

  /** Each referenced asset is listed exactly once, and no other id is listed. */
  lemma {:induction false} AssetOrderSpec(ms: seq<MonitorMetric>)
    ensures Distinct(AssetOrder(ms))
    ensures forall id :: id in AssetOrder(ms) <==> id in AssetIds(ms)
  {
    if ms != [] {
      var init := ms[..|ms| - 1];
      assert ms == init + [ms[|ms| - 1]];
      AssetOrderSpec(init);
      AssetIdsSnoc(init, ms[|ms| - 1]);
    }
  }

  /** Assets are listed in the order in which the metrics first reference them. */
  lemma {:induction false} AssetOrderFirstSeen(ms: seq<MonitorMetric>)
    ensures forall a, b :: 0 <= a < b < |AssetOrder(ms)| ==>
      AssetOrder(ms)[a] in AssetIds(ms) && AssetOrder(ms)[b] in AssetIds(ms) &&
      FirstIndex(ms, AssetOrder(ms)[a]) < FirstIndex(ms, AssetOrder(ms)[b])
  {
    AssetOrderSpec(ms);
    if ms != [] {
      var init := ms[..|ms| - 1];
      var x := ms[|ms| - 1].assetId;
      assert ms == init + [ms[|ms| - 1]];
      AssetOrderSpec(init);
      AssetOrderFirstSeen(init);
      AssetIdsSnoc(init, ms[|ms| - 1]);
      var order, prev := AssetOrder(ms), AssetOrder(init);
      forall a, b | 0 <= a < b < |order|
        ensures FirstIndex(ms, order[a]) < FirstIndex(ms, order[b])
      {
        assert order[a] == prev[a];
        if b < |prev| {
          assert order[b] == prev[b];
        } else {
          assert order[b] == x && x !in AssetIds(init);
        }
      }
    }
  }

  /** An asset the metrics do not reference has no properties, and a referenced one has some. */
  lemma {:induction false} PropertiesOfEmpty(ms: seq<MonitorMetric>, assetId: string)
    ensures PropertiesOf(ms, assetId) == [] <==> assetId !in AssetIds(ms)
  {
    if ms != [] {
      var init := ms[..|ms| - 1];
      assert ms == init + [ms[|ms| - 1]];
      PropertiesOfEmpty(init, assetId);
      AssetIdsSnoc(init, ms[|ms| - 1]);
    }
  }

  /** Grouping keeps declaration order: the properties of a concatenation are those of each part, in turn. */
  lemma {:induction false} PropertiesOfConcat(a: seq<MonitorMetric>, b: seq<MonitorMetric>, assetId: string)
    ensures PropertiesOf(a + b, assetId) == PropertiesOf(a, assetId) + PropertiesOf(b, assetId)
  {
    if b == [] {
      assert a + b == a;
    } else {
      var init := b[..|b| - 1];
      assert (a + b)[..|a + b| - 1] == a + init;
      assert (a + b)[|a + b| - 1] == b[|b| - 1];
      PropertiesOfConcat(a, init, assetId);
    }
  }

  /**
   * Every property query of an asset carries the fixed AVERAGE aggregation and 1m resolution
   * and comes from a metric of that asset; every metric of the asset contributes its query.
   */
  lemma {:induction false} PropertiesOfMembers(ms: seq<MonitorMetric>, assetId: string)
    ensures forall q :: q in PropertiesOf(ms, assetId) ==>
      q.aggregationType == AVERAGE && q.resolution == ONE_MINUTE &&
      exists p :: 0 <= p < |ms| && ms[p].assetId == assetId && ms[p].propertyId == q.propertyId
    ensures forall p :: 0 <= p < |ms| && ms[p].assetId == assetId ==>
      PropertyQueryOf(ms[p]) in PropertiesOf(ms, assetId)
  {
    if ms != [] {
      var init := ms[..|ms| - 1];
      PropertiesOfMembers(init, assetId);
      forall q | q in PropertiesOf(ms, assetId)
        ensures exists p :: 0 <= p < |ms| && ms[p].assetId == assetId && ms[p].propertyId == q.propertyId
      {
        if q in PropertiesOf(init, assetId) {
          var p :| 0 <= p < |init| && init[p].assetId == assetId && init[p].propertyId == q.propertyId;
          assert ms[p] == init[p];
        } else {
          assert ms[|ms| - 1].assetId == assetId && ms[|ms| - 1].propertyId == q.propertyId;
        }
      }
      forall p | 0 <= p < |ms| && ms[p].assetId == assetId
        ensures PropertyQueryOf(ms[p]) in PropertiesOf(ms, assetId)
      {
        if p < |init| { assert ms[p] == init[p]; }
      }
    }
  }

  lemma TotalPropertiesSnoc(groups: seq<AssetQuery>, g: AssetQuery)
    ensures TotalProperties(groups + [g]) == TotalProperties(groups) + |g.properties|
  {
    assert (groups + [g])[..|groups|] == groups;
  }

  lemma DistinctSnoc(order: seq<string>)
    requires Distinct(order) && order != []
    ensures Distinct(order[..|order| - 1])
    ensures order[|order| - 1] !in order[..|order| - 1]
  {
    var prefix := order[..|order| - 1];
    forall k | 0 <= k < |prefix| ensures prefix[k] != order[|order| - 1] {
      assert prefix[k] == order[k];
    }
  }

  lemma PropertiesOfSnoc(init: seq<MonitorMetric>, m: MonitorMetric, assetId: string)
    ensures PropertiesOf(init + [m], assetId) ==
      PropertiesOf(init, assetId) + (if m.assetId == assetId then [PropertyQueryOf(m)] else [])
  {
    var ms := init + [m];
    assert ms[..|ms| - 1] == init && ms[|ms| - 1] == m;
    if m.assetId != assetId {
      assert PropertiesOf(init, assetId) + [] == PropertiesOf(init, assetId);
    }
  }

  lemma GroupsForSnoc(ms: seq<MonitorMetric>, order: seq<string>)
    requires order != []
    ensures TotalProperties(GroupsFor(ms, order)) ==
      TotalProperties(GroupsFor(ms, order[..|order| - 1])) + |PropertiesOf(ms, order[|order| - 1])|
  {
    var last := order[|order| - 1];
    TotalPropertiesSnoc(GroupsFor(ms, order[..|order| - 1]), AssetQuery(last, PropertiesOf(ms, last)));
  }

  /** Appending metric `m` adds exactly one property query, under `m`'s asset, if that asset is listed. */
  lemma {:induction false} TotalPropertiesStep(init: seq<MonitorMetric>, m: MonitorMetric, order: seq<string>)
    requires Distinct(order)
    ensures TotalProperties(GroupsFor(init + [m], order)) ==
            TotalProperties(GroupsFor(init, order)) + (if m.assetId in order then 1 else 0)
  {
    if order != [] {
      var prefix, last := order[..|order| - 1], order[|order| - 1];
      DistinctSnoc(order);
      TotalPropertiesStep(init, m, prefix);
      PropertiesOfSnoc(init, m, last);
      GroupsForSnoc(init + [m], order);
      GroupsForSnoc(init, order);
      assert order == prefix + [last];
      assert m.assetId in order <==> m.assetId in prefix || m.assetId == last;
    }
  }

  /** The number of metrics that reference `assetId`. */
  function CountOf(ms: seq<MonitorMetric>, assetId: string): nat
  {
    if ms == [] then 0
    else CountOf(ms[..|ms| - 1], assetId) + (if ms[|ms| - 1].assetId == assetId then 1 else 0)
  }

  /** Each asset's property list has one entry per metric that references that asset. */
  lemma {:induction false} PropertiesOfCount(ms: seq<MonitorMetric>, assetId: string)
    ensures |PropertiesOf(ms, assetId)| == CountOf(ms, assetId)
  {
    if ms != [] {
      PropertiesOfCount(ms[..|ms| - 1], assetId);
    }
  }

  /** No metric is lost or duplicated: the asset entries hold one property query per metric. */
  lemma {:induction false} GroupKeepsEveryMetric(ms: seq<MonitorMetric>)
    ensures TotalProperties(GroupByAsset(ms)) == |ms|
  {
    if ms != [] {
      var init, m := ms[..|ms| - 1], ms[|ms| - 1];
      assert ms == init + [m];
      GroupKeepsEveryMetric(init);
      var prev := AssetOrder(init);
      AssetOrderSpec(init);
      TotalPropertiesStep(init, m, prev);
      if m.assetId !in prev {
        assert AssetOrder(ms) == prev + [m.assetId];
        assert AssetOrder(ms)[..|AssetOrder(ms)| - 1] == prev;
        TotalPropertiesSnoc(GroupsFor(ms, prev), AssetQuery(m.assetId, PropertiesOf(ms, m.assetId)));
        PropertiesOfEmpty(init, m.assetId);
      }
    }
  }

  lemma {:induction false} DistinctCard(ids: seq<string>)
    requires Distinct(ids)
    ensures |set id | id in ids| == |ids|
  {
    if ids != [] {
      var init := ids[..|ids| - 1];
      DistinctCard(init);
      assert (set id | id in ids) == (set id | id in init) + {ids[|ids| - 1]};
    }
  }

  /** There is exactly one asset entry per distinct asset id referenced. */
  lemma GroupCountIsDistinctAssets(ms: seq<MonitorMetric>)
    ensures |GroupByAsset(ms)| == |AssetIds(ms)|
  {
    AssetOrderSpec(ms);
    DistinctCard(AssetOrder(ms));
    assert (set id | id in AssetOrder(ms)) == AssetIds(ms);
  }

  /** With distinct asset ids, a metric's asset is referenced neither before nor after it. */
  lemma AssetNotElsewhere(ms: seq<MonitorMetric>, i: nat)
    requires DistinctAssets(ms) && i < |ms|
    ensures ms[i].assetId !in AssetIds(ms[..i])
    ensures ms[i].assetId !in AssetIds(ms[i + 1..])
  {
    forall n | n in ms[..i] ensures n.assetId != ms[i].assetId {
      var k :| 0 <= k < i && ms[..i][k] == n;
      assert ms[k] == n;
    }
    forall n | n in ms[i + 1..] ensures n.assetId != ms[i].assetId {
      var k :| 0 <= k < |ms| - i - 1 && ms[i + 1..][k] == n;
      assert ms[i + 1 + k] == n;
    }
  }

  lemma {:induction false} AssetOrderOfDistinct(ms: seq<MonitorMetric>)
    requires DistinctAssets(ms)
    ensures |AssetOrder(ms)| == |ms|
    ensures forall i :: 0 <= i < |ms| ==> AssetOrder(ms)[i] == ms[i].assetId
  {
    if ms != [] {
      var init := ms[..|ms| - 1];
      assert DistinctAssets(init);
      AssetOrderOfDistinct(init);
      AssetOrderSpec(init);
      AssetNotElsewhere(ms, |ms| - 1);
      assert AssetOrder(ms) == AssetOrder(init) + [ms[|ms| - 1].assetId];
    }
  }

  /**
   * When every metric references a different asset, each metric yields its own asset entry
   * with its single property, in metric order.
   */
  lemma GroupDistinctAssets(ms: seq<MonitorMetric>)
    requires DistinctAssets(ms)
    ensures |GroupByAsset(ms)| == |ms|
    ensures forall i :: 0 <= i < |ms| ==>
      GroupByAsset(ms)[i] == AssetQuery(ms[i].assetId, [PropertyQueryOf(ms[i])])
  {
    AssetOrderOfDistinct(ms);
    forall i | 0 <= i < |ms|
      ensures PropertiesOf(ms, ms[i].assetId) == [PropertyQueryOf(ms[i])]
    {
      var id := ms[i].assetId;
      var before, after := ms[..i], ms[i + 1..];
      assert ms == before + [ms[i]] + after;
      PropertiesOfConcat(before + [ms[i]], after, id);
      PropertiesOfConcat(before, [ms[i]], id);
      assert [ms[i]][..0] == [];
      AssetNotElsewhere(ms, i);
      PropertiesOfEmpty(before, id);
      PropertiesOfEmpty(after, id);
    }
  }

  lemma {:induction false} SameReferencesSameGroups(ms: seq<MonitorMetric>, ms': seq<MonitorMetric>)
    requires SameReferences(ms, ms')
    ensures AssetOrder(ms) == AssetOrder(ms')
    ensures forall id :: PropertiesOf(ms, id) == PropertiesOf(ms', id)
  {
    if ms != [] {
      SameReferencesSameGroups(ms[..|ms| - 1], ms'[..|ms'| - 1]);
    }
  }

  /** A metric's label, data type and source type play no part in its asset entry. */
  lemma GroupingIgnoresDisplayFields(ms: seq<MonitorMetric>, ms': seq<MonitorMetric>)
    requires SameReferences(ms, ms')
    ensures GroupByAsset(ms) == GroupByAsset(ms')
  {
    SameReferencesSameGroups(ms, ms');
    var order := AssetOrder(ms);
    assert |GroupByAsset(ms)| == |GroupByAsset(ms')| == |order|;
  }

  /**
   * The grouping loop: a map from asset id to that asset's property queries, and a
   * separate list of asset ids in first-seen order; the entries are emitted in that order.
   */
  method GroupMetrics(ms: seq<MonitorMetric>) returns (groups: seq<AssetQuery>)
    ensures groups == GroupByAsset(ms)
  {
    var byAsset: map<string, seq<PropertyQuery>> := map[];
    var order: seq<string> := [];
    var i := 0;
    while i < |ms|
      invariant 0 <= i <= |ms|
      invariant order == AssetOrder(ms[..i])
      invariant forall id :: id in byAsset <==> id in order
      invariant forall id :: id in byAsset ==> byAsset[id] == PropertiesOf(ms[..i], id)
    {
      var m := ms[i];
      assert ms[..i + 1][..i] == ms[..i];
      assert ms[..i + 1][i] == m;
      if m.assetId !in byAsset {
        AssetOrderSpec(ms[..i]);
        PropertiesOfEmpty(ms[..i], m.assetId);
        byAsset := byAsset[m.assetId := []];
        order := order + [m.assetId];
      }
      byAsset := byAsset[m.assetId := byAsset[m.assetId] + [PropertyQueryOf(m)]];
      i := i + 1;
    }
    assert ms[..i] == ms;
    groups := [];
    var k := 0;
    while k < |order|
      invariant 0 <= k <= |order|
      invariant groups == GroupsFor(ms, order[..k])
    {
      assert order[..k + 1][..k] == order[..k];
      groups := groups + [AssetQuery(order[k], byAsset[order[k]])];
      k := k + 1;
    }
    assert order[..k] == order;
  }
}
