/** Monitor Y-axis annotations to Application thresholds. */
module AnnotationTranslator {
  import opened Wrappers
  import opened MonitorDefinition
  import opened AppDefinition

  /** One annotation as a threshold; `showValue` becomes `visible`. */
  function ToThreshold(a: YAnnotation): Threshold
  {
    Threshold(a.color, a.comparisonOperator, a.value, a.showValue)
  }

  /** Translates every annotation, in order, with no deduplication or sorting. */
  function TranslateAll(ys: seq<YAnnotation>): (ts: seq<Threshold>)
    ensures |ts| == |ys|
    ensures forall i :: 0 <= i < |ys| ==>
      ts[i].color == ys[i].color &&
      ts[i].comparisonOperator == ys[i].comparisonOperator &&
      ts[i].value == ys[i].value &&
      ts[i].visible == ys[i].showValue
  {
    if ys == [] then [] else [ToThreshold(ys[0])] + TranslateAll(ys[1..])
  }

  /**
   * The `thresholds` of a widget: absent when the widget has no annotations or no
   * Y annotation, never an empty list.
   */
  function TranslateAnnotations(annotations: Option<MonitorAnnotations>): (r: Option<seq<Threshold>>)
    ensures r.None? <==> annotations.None? || annotations.value.y == []
    ensures r.Some? ==> r.value != [] && r.value == TranslateAll(annotations.value.y)
  {
    match annotations
    case None => None
    case Some(a) => if a.y == [] then None else Some(TranslateAll(a.y))
  }
}
