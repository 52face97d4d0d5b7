/**
 * The repository's conversion scenarios, stated as lemmas over the model: a
 * line chart with one and with two metrics, a bar chart, a scatter chart and a
 * line chart with one Y annotation, each a 3x3 widget at the origin.
 */
module ConversionCases {
  import opened Wrappers
  import opened MonitorDefinition
  import opened AppDefinition
  import opened MetricGrouper
  import opened AnnotationTranslator
  import opened WidgetTypeMapper
  import opened DefinitionAssembler

  const WIND_FARM_ASSET := "3d196ab5-85db-4c90-854f-4e29d579b898"
  const WIND_FARM_POWER := "c07c2fa5-265e-4ed4-bbf0-e94fe01e4d54"
  const OTHER_ASSET := "12345678-85db-4c90-854f-4e29d579b898"
  const OTHER_PROPERTY := "12345678-265e-4ed4-bbf0-e94fe01e4d54"

  const POWER_METRIC := MonitorMetric("iotsitewise", "Total Average Power (Demo Wind Farm Asset)",
    WIND_FARM_ASSET, WIND_FARM_POWER, "DOUBLE")
  const OTHER_METRIC := MonitorMetric("iotsitewise", "Other metric", OTHER_ASSET, OTHER_PROPERTY, "DOUBLE")

  /** A 3x3 Monitor chart at the origin titled "test". */
  function MonitorChartWidget(widgetType: MonitorWidgetType, metrics: seq<MonitorMetric>, annotations: Option<MonitorAnnotations>): MonitorWidget
  {
    MonitorWidget(widgetType, "test", 0, 0, 3, 3, metrics, annotations)
  }

  /** The Application widget expected for such a chart: 99x42 at the origin. */
  function ApplicationChart(widgetType: string, properties: WidgetProperties): ApplicationWidget
  {
    ApplicationWidget(widgetType, 0, 0, 0, 99, 42, properties)
  }

  function AssetEntry(assetId: string, propertyId: string): AssetQuery
  {
    AssetQuery(assetId, [PropertyQuery(propertyId, AVERAGE, ONE_MINUTE)])
  }

  function SiteWiseQuery(assets: seq<AssetQuery>): QueryConfig
  {
    QueryConfig(Some("iotsitewise"), Query([], assets))
  }

  function ExpectedXYPlot(thresholds: Option<seq<Threshold>>, connectionStyle: string, assets: seq<AssetQuery>): WidgetProperties
  {
    XYPlotProperties("test", thresholds, Symbol(FILLED_CIRCLE), XYAxis(true, true),
      Line(connectionStyle, SOLID), Legend(true), SiteWiseQuery(assets))
  }

  /** A one-widget definition converts to the one widget its widget converts to. */
  lemma ConvertSingle(w: MonitorWidget, newRefId: nat -> string)
    ensures Convert(MonitorDashboardDefinition([w]), newRefId) ==
      match ConvertWidget(w, newRefId, 0)
      case Err(e) => Err(e)
      case Ok(a) => Ok(ApplicationDashboardDefinition([a]))
  {
    assert [w][1..] == [] && [w][0] == w;
    assert ConvertFrom([], newRefId, RefIdsUsed(w)) == Ok([]);
    var r := ConvertWidget(w, newRefId, 0);
    if r.Ok? {
      assert [r.value] + [] == [r.value];
    }
  }

  /** The asset entries of metrics that each reference a different asset. */
  lemma GroupOneEach(ms: seq<MonitorMetric>, expected: seq<AssetQuery>)
    requires DistinctAssets(ms) && |expected| == |ms|
    requires forall i :: 0 <= i < |ms| ==> expected[i] == AssetEntry(ms[i].assetId, ms[i].propertyId)
    ensures GroupByAsset(ms) == expected
  {
    GroupDistinctAssets(ms);
  }

  lemma SingleLineChart(newRefId: nat -> string)
    ensures Convert(MonitorDashboardDefinition([MonitorChartWidget(LineChart, [POWER_METRIC], None)]), newRefId) ==
      Ok(ApplicationDashboardDefinition([ApplicationChart(XY_PLOT,
        ExpectedXYPlot(None, LINEAR, [AssetEntry(WIND_FARM_ASSET, WIND_FARM_POWER)]))]))
  {
    GroupOneEach([POWER_METRIC], [AssetEntry(WIND_FARM_ASSET, WIND_FARM_POWER)]);
    ConvertSingle(MonitorChartWidget(LineChart, [POWER_METRIC], None), newRefId);
  }

  lemma LineChartWithTwoAssets(newRefId: nat -> string)
    ensures Convert(MonitorDashboardDefinition([MonitorChartWidget(LineChart, [POWER_METRIC, OTHER_METRIC], None)]), newRefId) ==
      Ok(ApplicationDashboardDefinition([ApplicationChart(XY_PLOT,
        ExpectedXYPlot(None, LINEAR, [AssetEntry(WIND_FARM_ASSET, WIND_FARM_POWER), AssetEntry(OTHER_ASSET, OTHER_PROPERTY)]))]))
  {
    var ms := [POWER_METRIC, OTHER_METRIC];
    assert WIND_FARM_ASSET[0] != OTHER_ASSET[0];
    GroupOneEach(ms, [AssetEntry(WIND_FARM_ASSET, WIND_FARM_POWER), AssetEntry(OTHER_ASSET, OTHER_PROPERTY)]);
    ConvertSingle(MonitorChartWidget(LineChart, ms, None), newRefId);
  }

  /** The style id is whatever the injected generator returns at its first call. */
  lemma SingleBarChart(newRefId: nat -> string)
    ensures Convert(MonitorDashboardDefinition([MonitorChartWidget(BarChart, [POWER_METRIC], None)]), newRefId) ==
      Ok(ApplicationDashboardDefinition([ApplicationChart(BAR_CHART,
        BarChartProperties("test", None, BarAxis(true, true),
          SiteWiseQuery([AssetEntry(WIND_FARM_ASSET, WIND_FARM_POWER)]), {newRefId(0)}))]))
  {
    assert StyleRefIds(newRefId, 0, 1) == {newRefId(0)};
    GroupOneEach([POWER_METRIC], [AssetEntry(WIND_FARM_ASSET, WIND_FARM_POWER)]);
    ConvertSingle(MonitorChartWidget(BarChart, [POWER_METRIC], None), newRefId);
  }

  lemma SingleScatterChart(newRefId: nat -> string)
    ensures Convert(MonitorDashboardDefinition([MonitorChartWidget(ScatterChart, [POWER_METRIC], None)]), newRefId) ==
      Ok(ApplicationDashboardDefinition([ApplicationChart(XY_PLOT,
        ExpectedXYPlot(None, NO_CONNECTION, [AssetEntry(WIND_FARM_ASSET, WIND_FARM_POWER)]))]))
  {
    GroupOneEach([POWER_METRIC], [AssetEntry(WIND_FARM_ASSET, WIND_FARM_POWER)]);
    ConvertSingle(MonitorChartWidget(ScatterChart, [POWER_METRIC], None), newRefId);
  }

  lemma AnnotationBecomesThreshold(newRefId: nat -> string)
    ensures var annotations := MonitorAnnotations([YAnnotation("#5e87b5", "LT", true, 100.0)]);
      Convert(MonitorDashboardDefinition([MonitorChartWidget(LineChart, [POWER_METRIC], Some(annotations))]), newRefId) ==
      Ok(ApplicationDashboardDefinition([ApplicationChart(XY_PLOT,
        ExpectedXYPlot(Some([Threshold("#5e87b5", "LT", 100.0, true)]), LINEAR,
          [AssetEntry(WIND_FARM_ASSET, WIND_FARM_POWER)]))]))
  {
    var annotations := MonitorAnnotations([YAnnotation("#5e87b5", "LT", true, 100.0)]);
    assert annotations.y[1..] == [] && TranslateAll([]) == [];
    assert TranslateAll(annotations.y) == [Threshold("#5e87b5", "LT", 100.0, true)] + TranslateAll([]);
    assert [Threshold("#5e87b5", "LT", 100.0, true)] + [] == [Threshold("#5e87b5", "LT", 100.0, true)];
    assert TranslateAnnotations(Some(annotations)) == Some([Threshold("#5e87b5", "LT", 100.0, true)]);
    GroupOneEach([POWER_METRIC], [AssetEntry(WIND_FARM_ASSET, WIND_FARM_POWER)]);
    ConvertSingle(MonitorChartWidget(LineChart, [POWER_METRIC], Some(annotations)), newRefId);
  }
}
