/**
 * The legacy SiteWise Monitor dashboard definition: the converter's input.
 * Only the fields the converter reads are modelled; a widget's alarms and its
 * `properties.colorDataAcrossThresholds` flag are carried by the real input but
 * never reach the output.
 */
module MonitorDefinition {
  import opened Wrappers

  /** Monitor widget variants. `OtherWidget` stands for any tag the converter has no mapping for. */
  datatype MonitorWidgetType = LineChart | BarChart | ScatterChart | OtherWidget(tag: string)

  /**
   * A reference to one asset property. `metricType` is the source system, e.g.
   * "iotsitewise"; `metricLabel` and `dataType` are display data the converter drops.
   */
  datatype MonitorMetric = MonitorMetric(
    metricType: string,
    metricLabel: string,
    assetId: string,
    propertyId: string,
    dataType: string)

  /** One Y-axis annotation. */
  datatype YAnnotation = YAnnotation(
    color: string,
    comparisonOperator: string,
    showValue: bool,
    value: real)

  datatype MonitorAnnotations = MonitorAnnotations(y: seq<YAnnotation>)

  /** A widget in Monitor grid units. */
  datatype MonitorWidget = MonitorWidget(
    widgetType: MonitorWidgetType,
    title: string,
    x: int,
    y: int,
    height: int,
    width: int,
    metrics: seq<MonitorMetric>,
    annotations: Option<MonitorAnnotations>)

  datatype MonitorDashboardDefinition = MonitorDashboardDefinition(widgets: seq<MonitorWidget>)
}
