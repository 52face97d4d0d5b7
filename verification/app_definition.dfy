/** The Application dashboard definition: the converter's output. */
module AppDefinition {
  import opened Wrappers

  // Application widget type ids
  const XY_PLOT := "xy-plot"
  const BAR_CHART := "bar-chart"

  // Fixed query defaults: no other aggregation or resolution is produced
  const AVERAGE := "AVERAGE"
  const ONE_MINUTE := "1m"

  // XY-plot presentation defaults
  const FILLED_CIRCLE := "filled-circle"
  const LINEAR := "linear"
  const NO_CONNECTION := "none"
  const SOLID := "solid"

  datatype PropertyQuery = PropertyQuery(propertyId: string, aggregationType: string, resolution: string)

  datatype AssetQuery = AssetQuery(assetId: string, properties: seq<PropertyQuery>)

  /** `properties` holds queries not scoped to an asset; the converter never fills it. */
  datatype Query = Query(properties: seq<PropertyQuery>, assets: seq<AssetQuery>)

  /** `source` is `None` where the converted widget had no metric to take it from. */
  datatype QueryConfig = QueryConfig(source: Option<string>, query: Query)

  datatype Threshold = Threshold(color: string, comparisonOperator: string, value: real, visible: bool)

  datatype Symbol = Symbol(style: string)

  datatype Line = Line(connectionStyle: string, style: string)

  datatype Legend = Legend(visible: bool)

  /** The `axis` object: its keys differ between XY plots and bar charts. */
  datatype Axis = XYAxis(yVisible: bool, xVisible: bool) | BarAxis(showX: bool, showY: bool)

  /**
   * Variant-specific widget properties. `thresholds` is `None` when the key is
   * absent from the output. A bar chart's `styleSettings` is modelled by its set
   * of keys, one generated reference id per metric; the per-series values are
   * not part of this model.
   */
  datatype WidgetProperties =
    | XYPlotProperties(
        title: string,
        thresholds: Option<seq<Threshold>>,
        symbol: Symbol,
        axis: Axis,
        line: Line,
        legend: Legend,
        queryConfig: QueryConfig)
    | BarChartProperties(
        title: string,
        thresholds: Option<seq<Threshold>>,
        axis: Axis,
        queryConfig: QueryConfig,
        styleSettings: set<string>)

  /** A widget in Application pixel space. */
  datatype ApplicationWidget = ApplicationWidget(
    widgetType: string,
    x: int,
    y: int,
    z: int,
    width: int,
    height: int,
    properties: WidgetProperties)

  datatype ApplicationDashboardDefinition = ApplicationDashboardDefinition(widgets: seq<ApplicationWidget>)
}
