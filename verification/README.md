# Monitor-to-Application dashboard conversion, modelled in Dafny

This project models `convertMonitorToAppDefinition`. It migrates a legacy
SiteWise Monitor dashboard, an ordered list of chart widgets, into an
Application dashboard definition. For every Monitor widget, in order, the
converter:

- scales the grid geometry: x and width are multiplied by 33, y and height by 14, and z is set to 0;
- maps the variant: a line chart becomes an `xy-plot` with a `linear` line, a scatter chart an `xy-plot` with connection style `none`, and a bar chart a `bar-chart` with `showX`/`showY` axes and `styleSettings`;
- builds the query configuration. `source` is the first metric's type. `query.properties` is empty. `query.assets` has one entry per referenced asset, in first-reference order, and each entry holds `{propertyId, AVERAGE, 1m}` per metric of that asset, in declaration order;
- turns Y annotations into thresholds `{color, comparisonOperator, value, visible: showValue}`.

A widget variant with no mapping makes the whole conversion fail with
`UnsupportedWidgetType`. The bar chart style-id generator is random in the
original. Here it is an injected function `newRefId: nat -> string`. It is
called once per bar-chart metric, at consecutive positions across one
conversion.

Modules, leaves first:

- `Wrappers`: `Option`, `Result`.
- `MonitorDefinition`, `AppDefinition`: the input and output data.
- `GridScaler`: geometry.
- `MetricGrouper`: `query.assets`, as specification functions plus the grouping loop `GroupMetrics`.
- `AnnotationTranslator`: thresholds.
- `WidgetTypeMapper`: variant dispatch, query configuration and style ids.
- `DefinitionAssembler`: the whole conversion, as the function `Convert` plus the loop `ConvertDefinition`.
- `ConversionCases`: the repository's five conversion scenarios, stated over the model.

The implementation file and `monitorDashboardDefinition.ts` are not part of
this model. The behaviour comes from the expectations in
`convertMonitorToAppDefinition.spec.ts` and from the converter's
design. The expectations have one metric per asset. They agree with both
"one asset entry per metric" and "one entry per distinct asset".
`GroupDistinctAssets` proves that the modelled grouping gives exactly one
entry per metric in that case. The design decides the shared-asset
case.

## Model

| member | source | states |
|---|---|---|
| GridScaler.ScalingIsExact | apps/core/src/migration/util/convertMonitorToAppDefinition.spec.ts:15-43 | The scaled box has z = 0. It lies on the 33x14 Application grid, and dividing by the units gives back the Monitor x, y, width and height exactly. |
| GridScaler.ScalingPreservesOverlap | apps/core/src/migration/util/convertMonitorToAppDefinition.spec.ts:15-43 | Two widgets overlap after scaling if and only if they overlapped in the Monitor grid. |
| GridScaler.ScalingPreservesOrder | apps/core/src/migration/util/convertMonitorToAppDefinition.spec.ts:15-43 | Left/right and above/below order between widgets holds after scaling if and only if it held before. |
| MetricGrouper.AssetOrderSpec | apps/core/src/migration/util/convertMonitorToAppDefinition.spec.ts:145-171 | The asset list names every referenced asset id exactly once and names no other id. |
| MetricGrouper.AssetOrderFirstSeen | apps/core/src/migration/util/convertMonitorToAppDefinition.spec.ts:145-171 | Asset entries appear in the order in which the metrics first reference their assets. |
| MetricGrouper.PropertiesOfEmpty | apps/core/src/migration/util/convertMonitorToAppDefinition.spec.ts:82-93 | An asset has properties if and only if some metric references it. |
| MetricGrouper.PropertiesOfConcat | apps/core/src/migration/util/convertMonitorToAppDefinition.spec.ts:145-171 | An asset's properties keep the metrics' declaration order: the properties of a concatenation are those of its parts, in turn. |
| MetricGrouper.PropertiesOfMembers | apps/core/src/migration/util/convertMonitorToAppDefinition.spec.ts:82-93 | Every property entry has aggregation AVERAGE and resolution 1m and comes from a metric of that asset. Every metric of the asset contributes its entry. |
| MetricGrouper.PropertiesOfCount | apps/core/src/migration/util/convertMonitorToAppDefinition.spec.ts:145-171 | Each asset's property list is exactly as long as the number of metrics that reference that asset. |
| MetricGrouper.GroupKeepsEveryMetric | apps/core/src/migration/util/convertMonitorToAppDefinition.spec.ts:145-171 | The asset entries together hold exactly one property entry per metric. |
| MetricGrouper.GroupCountIsDistinctAssets | apps/core/src/migration/util/convertMonitorToAppDefinition.spec.ts:145-171 | There are exactly as many asset entries as distinct asset ids referenced. |
| MetricGrouper.GroupDistinctAssets | apps/core/src/migration/util/convertMonitorToAppDefinition.spec.ts:107-185 | When every metric references a different asset, entry i is metric i's asset with that metric's single property, in metric order. |
| MetricGrouper.GroupingIgnoresDisplayFields | apps/core/src/migration/util/convertMonitorToAppDefinition.spec.ts:48-94 | The asset entries depend only on each metric's asset id and property id, not on its label, data type or type. |
| MetricGrouper.GroupMetrics | apps/core/src/migration/util/convertMonitorToAppDefinition.spec.ts:145-171 | The loop over metrics keeps an asset-to-properties map and a first-seen id list. It returns exactly the specified asset entries. |
| AnnotationTranslator.TranslateAll | apps/core/src/migration/util/convertMonitorToAppDefinition.spec.ts:317-347 | One threshold per annotation, in order. Color, comparison operator and value are copied, and `visible` is `showValue`. |
| AnnotationTranslator.TranslateAnnotations | apps/core/src/migration/util/convertMonitorToAppDefinition.spec.ts:301-347 | `thresholds` is absent exactly when there are no annotations or no Y annotation. Otherwise it is the non-empty translated list. |
| WidgetTypeMapper.MapWidget | apps/core/src/migration/util/convertMonitorToAppDefinition.spec.ts:58-96 | Mapping fails exactly for a variant with no mapping, reporting its tag. Otherwise it copies the title and carries the translated thresholds and the query configuration. |
| WidgetTypeMapper.LineChartMapping | apps/core/src/migration/util/convertMonitorToAppDefinition.spec.ts:62-96 | A line chart becomes `xy-plot` with a filled-circle symbol, both axes visible, a solid `linear` line and a visible legend. |
| WidgetTypeMapper.ScatterIsUnconnectedLine | apps/core/src/migration/util/convertMonitorToAppDefinition.spec.ts:256-290 | A scatter chart converts exactly as a line chart would, except that the connection style is `none`. |
| WidgetTypeMapper.BarChartMapping | apps/core/src/migration/util/convertMonitorToAppDefinition.spec.ts:202-227 | A bar chart becomes `bar-chart` with `{showX, showY}` axes, no symbol, line or legend, and the same query configuration as a line chart. With non-repeating ids it has one style entry per metric. |
| WidgetTypeMapper.StyleRefIdsCount | apps/core/src/migration/util/convertMonitorToAppDefinition.spec.ts:226 | A generator that repeats no id gives exactly one style id per metric. |
| WidgetTypeMapper.LabelAndDataTypeNotPropagated | apps/core/src/migration/util/convertMonitorToAppDefinition.spec.ts:48-56 | Changing metric labels or data types leaves the converted widget unchanged. |
| DefinitionAssembler.ConvertWidget | apps/core/src/migration/util/convertMonitorToAppDefinition.spec.ts:31-44 | A converted widget has exactly the scaled geometry plus the mapped type and properties. It fails exactly for an unmapped variant. |
| DefinitionAssembler.ConvertFromFailsAtFirstUnsupported | apps/core/src/migration/util/convertMonitorToAppDefinition.spec.ts:58-60 | Conversion succeeds if and only if every widget has a mapping. A failure names the type of the first unmapped widget. |
| DefinitionAssembler.ConvertFromPreservesOrder | apps/core/src/migration/util/convertMonitorToAppDefinition.spec.ts:97-104 | A successful conversion emits one widget per input widget. Output i is input i converted, with its style ids drawn after those of the widgets before it. |
| DefinitionAssembler.ConvertSpec | apps/core/src/migration/util/convertMonitorToAppDefinition.spec.ts:97-104 | For a whole definition: success if and only if every widget is supported, same count and order on success, the first unsupported type on failure. |
| DefinitionAssembler.StyleIdsUniqueWithinConversion | apps/core/src/migration/util/convertMonitorToAppDefinition.spec.ts:226 | With non-repeating ids, every bar chart has one style id per metric and no two bar charts share a style id. |
| DefinitionAssembler.ConvertDefinition | apps/core/src/migration/util/convertMonitorToAppDefinition.spec.ts:102-104 | The loop over widgets returns exactly `Convert`, stopping at the first unmapped widget. |
| ConversionCases.SingleLineChart | apps/core/src/migration/util/convertMonitorToAppDefinition.spec.ts:47-105 | The one-metric line chart converts to the expected 99x42 `xy-plot`. |
| ConversionCases.LineChartWithTwoAssets | apps/core/src/migration/util/convertMonitorToAppDefinition.spec.ts:107-185 | Two metrics of two assets give two asset entries, in metric order. |
| ConversionCases.SingleBarChart | apps/core/src/migration/util/convertMonitorToAppDefinition.spec.ts:187-237 | The bar chart converts to the expected `bar-chart`. Its style map holds the generator's first id. |
| ConversionCases.SingleScatterChart | apps/core/src/migration/util/convertMonitorToAppDefinition.spec.ts:239-299 | The scatter chart converts to the expected `xy-plot` with connection style `none`. |
| ConversionCases.AnnotationBecomesThreshold | apps/core/src/migration/util/convertMonitorToAppDefinition.spec.ts:301-390 | The `#5e87b5`/`LT`/shown/100 annotation becomes the single threshold `{#5e87b5, LT, 100, visible}`. |

## Left out

- The implementation file `convertMonitorToAppDefinition.ts` and `monitorDashboardDefinition.ts` are not part of this model. The model follows the expected outputs and the converter's design.
- Random style ids: the generator is an injected parameter. Uniqueness is proved under the assumption that it repeats no id within one conversion.
- WidgetTypeMapper.BarChartMapping: `styleSettings` is modelled by its key set only. The per-series style values are left out because the expected output does not fix them.
- Widgets with no metrics: `queryConfig.source` is `None`, standing for JavaScript `undefined`. The conversion does not fail.
- Metrics with a missing asset id or property id: the metric datatype makes both fields mandatory, so that failure cannot arise in the model.
- A widget's `alarms` and `properties.colorDataAcrossThresholds`: they never reach the output.
- `annotations.y` present but empty yields no `thresholds`, following the converter's design. No expected output has an empty `y`; they cover absent annotations and one non-empty `y`.
- Comparison operators are kept as strings and annotation values as reals. Both are only copied.
- Partial-object matching in the expectations: the model states exact outputs.
- `apps/client/src/auth/auth-service.ts`: calls into the authentication library plus event callbacks, with no logic of its own.
- `cdk/lib/logging/logging-stack.ts`: infrastructure declaration with no behaviour.
