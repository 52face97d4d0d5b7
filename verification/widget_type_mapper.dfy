/**
 * The variant-specific half of a converted widget: its Application type and its
 * properties, including the query configuration, thresholds and, for bar charts,
 * generated style reference ids.
 */
module WidgetTypeMapper {
  import opened Wrappers
  import opened MonitorDefinition
  import opened AppDefinition
  import opened MetricGrouper
  import opened AnnotationTranslator

  datatype ConversionError = UnsupportedWidgetType(tag: string)

  /** An Application widget type together with its properties. */
  datatype TypedProperties = TypedProperties(widgetType: string, properties: WidgetProperties)

  /** The query configuration of a widget; `source` is the first metric's type, if any. */
  function QueryConfigOf(ms: seq<MonitorMetric>): QueryConfig
  {
    QueryConfig(if ms == [] then None else Some(ms[0].metricType), Query([], GroupByAsset(ms)))
  }

  /**
   * The style reference ids of a bar chart with `count` metrics: the injected id
   * generator called once per metric, at the consecutive call positions from `next`.
   */
  function StyleRefIds(newRefId: nat -> string, next: nat, count: nat): set<string>
  {
    set k: nat | next <= k < next + count :: newRefId(k)
  }

  /** The generator returns a different id at each call position in [lo, hi). */
  predicate UniqueIdsOn(newRefId: nat -> string, lo: nat, hi: nat)
  {
    forall i: nat, j: nat :: lo <= i < j < hi ==> newRefId(i) != newRefId(j)
  }

  /** One more call position adds the id generated there. */
  lemma StyleRefIdsSnoc(newRefId: nat -> string, next: nat, count: nat)
    requires count > 0
    ensures StyleRefIds(newRefId, next, count) == StyleRefIds(newRefId, next, count - 1) + {newRefId(next + count - 1)}
  {
    var fewer, all := StyleRefIds(newRefId, next, count - 1), StyleRefIds(newRefId, next, count);
    forall id | id in all ensures id in fewer + {newRefId(next + count - 1)} {
      var k: nat :| next <= k < next + count && newRefId(k) == id;
      if k < next + count - 1 {
        assert id in fewer;
      }
    }
  }

  /** A generator that repeats no id gives a bar chart one style entry per metric. */
  lemma {:induction false} StyleRefIdsCount(newRefId: nat -> string, next: nat, count: nat)
    requires UniqueIdsOn(newRefId, next, next + count)
    ensures |StyleRefIds(newRefId, next, count)| == count
  {
    if count > 0 {
      StyleRefIdsCount(newRefId, next, count - 1);
      StyleRefIdsSnoc(newRefId, next, count);
      var fewer, last := StyleRefIds(newRefId, next, count - 1), newRefId(next + count - 1);
      forall id | id in fewer ensures id != last {
        var k: nat :| next <= k < next + count - 1 && newRefId(k) == id;
      }
    }
  }

  /** XY-plot properties, shared by line and scatter charts apart from the connection style. */
  function XYPlotOf(w: MonitorWidget, connectionStyle: string): WidgetProperties
  {
    XYPlotProperties(
      w.title,
      TranslateAnnotations(w.annotations),
      Symbol(FILLED_CIRCLE),
      XYAxis(true, true),
      Line(connectionStyle, SOLID),
      Legend(true),
      QueryConfigOf(w.metrics))
  }

  /**
   * Maps a widget by its variant. A bar chart draws one style id per metric from
   * call position `next`; a variant with no mapping fails.
   */
  function MapWidget(w: MonitorWidget, newRefId: nat -> string, next: nat): (r: Result<TypedProperties, ConversionError>)
    ensures r.Err? <==> w.widgetType.OtherWidget?
    ensures r.Err? ==> r.error == UnsupportedWidgetType(w.widgetType.tag)
    ensures r.Ok? ==>
      r.value.properties.title == w.title &&
      r.value.properties.thresholds == TranslateAnnotations(w.annotations) &&
      r.value.properties.queryConfig == QueryConfigOf(w.metrics)
  {
    match w.widgetType
    case LineChart => Ok(TypedProperties(XY_PLOT, XYPlotOf(w, LINEAR)))
    case ScatterChart => Ok(TypedProperties(XY_PLOT, XYPlotOf(w, NO_CONNECTION)))
    case BarChart =>
      Ok(TypedProperties(BAR_CHART, BarChartProperties(
        w.title,
        TranslateAnnotations(w.annotations),
        BarAxis(true, true),
        QueryConfigOf(w.metrics),
        StyleRefIds(newRefId, next, |w.metrics|))))
    case OtherWidget(tag) => Err(UnsupportedWidgetType(tag))
  }

  /**
   * A line chart becomes an XY plot with filled-circle symbols, both axes visible,
   * a solid linear line and a visible legend.
   */
  lemma LineChartMapping(w: MonitorWidget, newRefId: nat -> string, next: nat)
    requires w.widgetType == LineChart
    ensures MapWidget(w, newRefId, next) == Ok(TypedProperties(XY_PLOT, XYPlotProperties(
      w.title,
      TranslateAnnotations(w.annotations),
      Symbol(FILLED_CIRCLE),
      XYAxis(true, true),
      Line(LINEAR, SOLID),
      Legend(true),
      QueryConfigOf(w.metrics))))
  {
  }

  /** A scatter chart converts exactly like a line chart, except that its points are not connected. */
  lemma ScatterIsUnconnectedLine(w: MonitorWidget, newRefId: nat -> string, next: nat)
    requires w.widgetType == ScatterChart
    ensures var asLine := MapWidget(w.(widgetType := LineChart), newRefId, next).value;
      MapWidget(w, newRefId, next) ==
        Ok(asLine.(properties := asLine.properties.(line := Line(NO_CONNECTION, SOLID))))
  {
  }

  /**
   * A bar chart becomes a `bar-chart` with both axes shown, the query configuration
   * a line chart would get and no symbol, line or legend; with a generator that
   * repeats no id it has one style entry per metric, so a non-empty style map
   * exactly when it has metrics.
   */
  lemma BarChartMapping(w: MonitorWidget, newRefId: nat -> string, next: nat)
    requires w.widgetType == BarChart
    ensures var r := MapWidget(w, newRefId, next);
      r.Ok? && r.value.widgetType == BAR_CHART &&
      r.value.properties.BarChartProperties? &&
      r.value.properties.axis == BarAxis(true, true) &&
      r.value.properties.queryConfig ==
        MapWidget(w.(widgetType := LineChart), newRefId, next).value.properties.queryConfig &&
      (UniqueIdsOn(newRefId, next, next + |w.metrics|) ==>
        |r.value.properties.styleSettings| == |w.metrics|)
  {
    if UniqueIdsOn(newRefId, next, next + |w.metrics|) {
      StyleRefIdsCount(newRefId, next, |w.metrics|);
    }
  }

  /** Two metric lists that differ only in their labels and data types. */
  predicate SameExceptDisplay(ms: seq<MonitorMetric>, ms': seq<MonitorMetric>)
  {
    |ms| == |ms'| &&
    forall i :: 0 <= i < |ms| ==>
      ms'[i] == ms[i].(metricLabel := ms'[i].metricLabel, dataType := ms'[i].dataType)
  }

  /** A metric's label and data type never reach the converted widget. */
  lemma LabelAndDataTypeNotPropagated(w: MonitorWidget, ms': seq<MonitorMetric>, newRefId: nat -> string, next: nat)
    requires SameExceptDisplay(w.metrics, ms')
    ensures MapWidget(w, newRefId, next) == MapWidget(w.(metrics := ms'), newRefId, next)
  {
    GroupingIgnoresDisplayFields(w.metrics, ms');
    if w.metrics != [] {
      assert ms'[0].metricType == w.metrics[0].metricType;
    }
  }
}
