/**
 * The top-level conversion of a Monitor dashboard definition into an Application
 * dashboard definition: one Application widget per Monitor widget, in order, or a
 * failure of the whole conversion at the first widget with no mapping.
 */
module DefinitionAssembler {
  import opened Wrappers
  import opened MonitorDefinition
  import opened AppDefinition
  import opened GridScaler
  import opened WidgetTypeMapper

  /** A widget's placement in Monitor grid units. */
  function BoxOf(w: MonitorWidget): GridBox
  {
    GridBox(w.x, w.y, w.width, w.height)
  }

  /** How many style ids converting `w` draws from the generator: one per metric of a bar chart. */
  function RefIdsUsed(w: MonitorWidget): nat
  {
    if w.widgetType.BarChart? then |w.metrics| else 0
  }

  /** How many style ids converting all of `ws` draws. */
  function RefIdCount(ws: seq<MonitorWidget>): nat
  {
    if ws == [] then 0 else RefIdsUsed(ws[0]) + RefIdCount(ws[1..])
  }

  /** Converts one widget: its scaled geometry merged with its mapped type and properties. */
  function ConvertWidget(w: MonitorWidget, newRefId: nat -> string, next: nat): (r: Result<ApplicationWidget, ConversionError>)
    ensures r.Err? <==> w.widgetType.OtherWidget?
    ensures r.Err? ==> r.error == UnsupportedWidgetType(w.widgetType.tag)
    ensures r.Ok? ==>
      Geometry(r.value.x, r.value.y, r.value.z, r.value.width, r.value.height) == ToAppGeometry(BoxOf(w)) &&
      MapWidget(w, newRefId, next) == Ok(TypedProperties(r.value.widgetType, r.value.properties))
  {
    match MapWidget(w, newRefId, next)
    case Err(e) => Err(e)
    case Ok(typed) =>
      var g := ToAppGeometry(BoxOf(w));
      Ok(ApplicationWidget(typed.widgetType, g.x, g.y, g.z, g.width, g.height, typed.properties))
  }

  /** Converts `ws` in order, drawing style ids from call position `next` on. */
  function ConvertFrom(ws: seq<MonitorWidget>, newRefId: nat -> string, next: nat): Result<seq<ApplicationWidget>, ConversionError>
  {
    if ws == [] then Ok([])
    else
      match ConvertWidget(ws[0], newRefId, next)
      case Err(e) => Err(e)
      case Ok(first) =>
        match ConvertFrom(ws[1..], newRefId, next + RefIdsUsed(ws[0]))
        case Err(e) => Err(e)
        case Ok(rest) => Ok([first] + rest)
  }

  /** `convertMonitorToAppDefinition`, with the style id generator injected. */
  function Convert(def: MonitorDashboardDefinition, newRefId: nat -> string): Result<ApplicationDashboardDefinition, ConversionError>
  {
    match ConvertFrom(def.widgets, newRefId, 0)
    case Err(e) => Err(e)
    case Ok(widgets) => Ok(ApplicationDashboardDefinition(widgets))
  }

  /** The widget has a mapping. */
  predicate Supported(w: MonitorWidget)
  {
    !w.widgetType.OtherWidget?
  }

  lemma RefIdCountConcat(a: seq<MonitorWidget>, b: seq<MonitorWidget>)
    ensures RefIdCount(a + b) == RefIdCount(a) + RefIdCount(b)
  {
    if a == [] {
      assert a + b == b;
    } else {
      assert (a + b)[1..] == a[1..] + b;
      RefIdCountConcat(a[1..], b);
    }
  }

  /**
   * Conversion fails exactly when some widget has no mapping, and then it reports
   * the first such widget's type.
   */
  lemma {:induction false} ConvertFromFailsAtFirstUnsupported(ws: seq<MonitorWidget>, newRefId: nat -> string, next: nat)
    ensures ConvertFrom(ws, newRefId, next).Ok? <==> forall i :: 0 <= i < |ws| ==> Supported(ws[i])
    ensures ConvertFrom(ws, newRefId, next).Err? ==>
      exists i :: 0 <= i < |ws| && ws[i].widgetType == OtherWidget(ConvertFrom(ws, newRefId, next).error.tag) &&
        forall j :: 0 <= j < i ==> Supported(ws[j])
  {
    if ws != [] {
      var rest := ws[1..];
      ConvertFromFailsAtFirstUnsupported(rest, newRefId, next + RefIdsUsed(ws[0]));
      var r := ConvertFrom(ws, newRefId, next);
      if Supported(ws[0]) {
        assert forall i :: 0 < i < |ws| ==> ws[i] == rest[i - 1];
        if r.Err? {
          var i :| 0 <= i < |rest| && rest[i].widgetType == OtherWidget(r.error.tag) &&
            forall j :: 0 <= j < i ==> Supported(rest[j]);
          assert ws[i + 1] == rest[i];
          assert forall j :: 0 <= j < i + 1 ==> Supported(ws[j]) by {
            forall j | 0 < j < i + 1 ensures Supported(ws[j]) {
              assert ws[j] == rest[j - 1];
            }
          }
        }
      } else {
        assert ws[0].widgetType == OtherWidget(r.error.tag);
      }
    }
  }

  /** A successful conversion of a non-empty list starts with its first widget, then converts the rest. */
  lemma ConvertFromCons(ws: seq<MonitorWidget>, newRefId: nat -> string, next: nat)
    requires ws != [] && ConvertFrom(ws, newRefId, next).Ok?
    ensures var out := ConvertFrom(ws, newRefId, next).value;
      out != [] &&
      ConvertWidget(ws[0], newRefId, next) == Ok(out[0]) &&
      ConvertFrom(ws[1..], newRefId, next + RefIdsUsed(ws[0])) == Ok(out[1..])
  {
  }

  /** Widget i of `ws` draws its style ids right after those of the widgets before it. */
  lemma RefIdCountShift(ws: seq<MonitorWidget>, i: nat)
    requires 0 < i <= |ws|
    ensures ws[..i] == [ws[0]] + ws[1..][..i - 1]
    ensures RefIdCount(ws[..i]) == RefIdsUsed(ws[0]) + RefIdCount(ws[1..][..i - 1])
  {
    assert ws[..i] == [ws[0]] + ws[1..][..i - 1];
    RefIdCountConcat([ws[0]], ws[1..][..i - 1]);
    assert [ws[0]][1..] == [];
  }

  /** Output widget i is input widget i converted, with the style ids drawn after those of the widgets before it. */
  predicate ConvertedAt(ws: seq<MonitorWidget>, newRefId: nat -> string, next: nat, out: seq<ApplicationWidget>, i: nat)
    requires i < |ws| && i < |out|
  {
    ConvertWidget(ws[i], newRefId, next + RefIdCount(ws[..i])) == Ok(out[i])
  }

  /** Position i of a list is position i - 1 of its tail, whose ids are drawn after those of the head. */
  lemma ConvertedAtShift(ws: seq<MonitorWidget>, newRefId: nat -> string, next: nat, out: seq<ApplicationWidget>, i: nat)
    requires 0 < i < |ws| && |out| == |ws|
    requires ConvertedAt(ws[1..], newRefId, next + RefIdsUsed(ws[0]), out[1..], i - 1)
    ensures ConvertedAt(ws, newRefId, next, out, i)
  {
    RefIdCountShift(ws, i);
    var k := next + RefIdCount(ws[..i]);
    assert k == next + RefIdsUsed(ws[0]) + RefIdCount(ws[1..][..i - 1]);
    assert ws[i] == ws[1..][i - 1] && out[i] == out[1..][i - 1];
    assert ConvertWidget(ws[i], newRefId, k) == Ok(out[i]);
  }

  /**
   * A successful conversion emits exactly one widget per input widget, in input
   * order; widget i draws its style ids right after those of the widgets before it.
   */
  lemma {:induction false} ConvertFromPreservesOrder(ws: seq<MonitorWidget>, newRefId: nat -> string, next: nat)
    ensures ConvertFrom(ws, newRefId, next).Ok? ==>
      var out := ConvertFrom(ws, newRefId, next).value;
      |out| == |ws| &&
      forall i :: 0 <= i < |ws| ==> ConvertedAt(ws, newRefId, next, out, i)
  {
    if ws != [] && ConvertFrom(ws, newRefId, next).Ok? {
      var rest, next' := ws[1..], next + RefIdsUsed(ws[0]);
      var out := ConvertFrom(ws, newRefId, next).value;
      ConvertFromCons(ws, newRefId, next);
      ConvertFromPreservesOrder(rest, newRefId, next');
      forall i | 0 <= i < |ws|
        ensures ConvertedAt(ws, newRefId, next, out, i)
      {
        if i == 0 {
          assert ws[..0] == [];
        } else {
          assert ConvertedAt(rest, newRefId, next', out[1..], i - 1);
          ConvertedAtShift(ws, newRefId, next, out, i);
        }
      }
    }
  }

  /** Outcome of `Convert`: one widget per input widget, in order, or the first unsupported type. */
  lemma ConvertSpec(def: MonitorDashboardDefinition, newRefId: nat -> string)
    ensures Convert(def, newRefId).Ok? <==> forall i :: 0 <= i < |def.widgets| ==> Supported(def.widgets[i])
    ensures Convert(def, newRefId).Ok? ==>
      var out := Convert(def, newRefId).value.widgets;
      |out| == |def.widgets| &&
      forall i :: 0 <= i < |out| ==> ConvertedAt(def.widgets, newRefId, 0, out, i)
    ensures Convert(def, newRefId).Err? ==>
      exists i :: 0 <= i < |def.widgets| &&
        def.widgets[i].widgetType == OtherWidget(Convert(def, newRefId).error.tag) &&
        forall j :: 0 <= j < i ==> Supported(def.widgets[j])
  {
    ConvertFromFailsAtFirstUnsupported(def.widgets, newRefId, 0);
    ConvertFromPreservesOrder(def.widgets, newRefId, 0);
  }

  /** Widgets before position j draw their style ids below those of widget j. */
  lemma RefIdsBeforeGrow(ws: seq<MonitorWidget>, i: nat, j: nat)
    requires i < j <= |ws|
    ensures RefIdCount(ws[..i]) + RefIdsUsed(ws[i]) <= RefIdCount(ws[..j])
  {
    assert ws[..j] == ws[..i] + [ws[i]] + ws[i + 1..j];
    RefIdCountConcat(ws[..i] + [ws[i]], ws[i + 1..j]);
    RefIdCountConcat(ws[..i], [ws[i]]);
    assert [ws[i]][1..] == [];
  }

  /** The style ids of converted bar chart i are those drawn after the widgets before it. */
  lemma BarStyleIdsAt(def: MonitorDashboardDefinition, newRefId: nat -> string, i: nat)
    requires Convert(def, newRefId).Ok? && i < |def.widgets|
    requires |Convert(def, newRefId).value.widgets| == |def.widgets|
    requires Convert(def, newRefId).value.widgets[i].properties.BarChartProperties?
    ensures def.widgets[i].widgetType.BarChart?
    ensures Convert(def, newRefId).value.widgets[i].properties.styleSettings ==
      StyleRefIds(newRefId, RefIdCount(def.widgets[..i]), |def.widgets[i].metrics|)
  {
    ConvertSpec(def, newRefId);
    var out := Convert(def, newRefId).value.widgets;
    assert ConvertedAt(def.widgets, newRefId, 0, out, i);
    assert MapWidget(def.widgets[i], newRefId, RefIdCount(def.widgets[..i])) ==
      Ok(TypedProperties(out[i].widgetType, out[i].properties));
  }

  /**
   * With a generator that repeats no id within one conversion, every bar chart gets
   * one style entry per metric and no two bar charts share a style id.
   */
  lemma StyleIdsUniqueWithinConversion(def: MonitorDashboardDefinition, newRefId: nat -> string)
    requires UniqueIdsOn(newRefId, 0, RefIdCount(def.widgets))
    ensures Convert(def, newRefId).Ok? ==>
      var out := Convert(def, newRefId).value.widgets;
      |out| == |def.widgets| &&
      (forall i :: 0 <= i < |out| && out[i].properties.BarChartProperties? ==>
        |out[i].properties.styleSettings| == |def.widgets[i].metrics|) &&
      (forall i, j | 0 <= i < j < |out| &&
        out[i].properties.BarChartProperties? && out[j].properties.BarChartProperties? ::
        out[i].properties.styleSettings !! out[j].properties.styleSettings)
  {
    var ws := def.widgets;
    ConvertSpec(def, newRefId);
    if Convert(def, newRefId).Ok? {
      var out := Convert(def, newRefId).value.widgets;
      forall i | 0 <= i < |out| && out[i].properties.BarChartProperties?
        ensures |out[i].properties.styleSettings| == |ws[i].metrics|
      {
        BarStyleIdsAt(def, newRefId, i);
        RefIdsBeforeGrow(ws, i, |ws|);
        assert ws[..|ws|] == ws;
        StyleRefIdsCount(newRefId, RefIdCount(ws[..i]), |ws[i].metrics|);
      }
      forall i, j | 0 <= i < j < |out| &&
        out[i].properties.BarChartProperties? && out[j].properties.BarChartProperties?
        ensures out[i].properties.styleSettings !! out[j].properties.styleSettings
      {
        BarStyleIdsAt(def, newRefId, i);
        BarStyleIdsAt(def, newRefId, j);
        RefIdsBeforeGrow(ws, i, j);
        RefIdsBeforeGrow(ws, j, |ws|);
        assert ws[..|ws|] == ws;
        DisjointRanges(newRefId, RefIdCount(ws[..i]), |ws[i].metrics|, RefIdCount(ws[..j]), |ws[j].metrics|, RefIdCount(ws));
      }
    }
  }

  /** Ids drawn at two disjoint ranges of call positions are different. */
  lemma DisjointRanges(newRefId: nat -> string, lo: nat, n: nat, lo': nat, n': nat, hi: nat)
    requires lo + n <= lo' && lo' + n' <= hi
    requires UniqueIdsOn(newRefId, 0, hi)
    ensures StyleRefIds(newRefId, lo, n) !! StyleRefIds(newRefId, lo', n')
  {
    forall id | id in StyleRefIds(newRefId, lo, n)
      ensures id !in StyleRefIds(newRefId, lo', n')
    {
      var k: nat :| lo <= k < lo + n && newRefId(k) == id;
      forall k': nat | lo' <= k' < lo' + n' ensures newRefId(k') != id {
        assert k < k';
      }
    }
  }

  /** The widgets already converted, followed by the outcome of converting the rest. */
  function Prepend(done: seq<ApplicationWidget>, r: Result<seq<ApplicationWidget>, ConversionError>): Result<seq<ApplicationWidget>, ConversionError>
  {
    match r
    case Err(e) => Err(e)
    case Ok(rest) => Ok(done + rest)
  }

  /** Converting the widgets from position i on: widget i, then the widgets after it. */
  lemma ConvertFromStep(ws: seq<MonitorWidget>, newRefId: nat -> string, next: nat, i: nat)
    requires i < |ws|
    ensures ConvertFrom(ws[i..], newRefId, next) ==
      match ConvertWidget(ws[i], newRefId, next)
      case Err(e) => Err(e)
      case Ok(w) => Prepend([w], ConvertFrom(ws[i + 1..], newRefId, next + RefIdsUsed(ws[i])))
  {
    assert ws[i..][0] == ws[i] && ws[i..][1..] == ws[i + 1..];
  }

  lemma PrependTwice(done: seq<ApplicationWidget>, w: ApplicationWidget, r: Result<seq<ApplicationWidget>, ConversionError>)
    ensures Prepend(done, Prepend([w], r)) == Prepend(done + [w], r)
  {
    if r.Ok? {
      assert done + ([w] + r.value) == (done + [w]) + r.value;
    }
  }

  /** One turn of the conversion loop keeps "converted so far, then the rest" equal to the whole conversion. */
  lemma ConvertLoopStep(ws: seq<MonitorWidget>, newRefId: nat -> string, next: nat, i: nat, done: seq<ApplicationWidget>)
    requires i < |ws|
    requires ConvertFrom(ws, newRefId, 0) == Prepend(done, ConvertFrom(ws[i..], newRefId, next))
    ensures var converted := ConvertWidget(ws[i], newRefId, next);
      (converted.Err? ==> ConvertFrom(ws, newRefId, 0) == Err(converted.error)) &&
      (converted.Ok? ==>
         ConvertFrom(ws, newRefId, 0) ==
         Prepend(done + [converted.value], ConvertFrom(ws[i + 1..], newRefId, next + RefIdsUsed(ws[i]))))
  {
    ConvertFromStep(ws, newRefId, next, i);
    var converted := ConvertWidget(ws[i], newRefId, next);
    if converted.Ok? {
      PrependTwice(done, converted.value, ConvertFrom(ws[i + 1..], newRefId, next + RefIdsUsed(ws[i])));
    }
  }

  lemma ConvertLoopInit(ws: seq<MonitorWidget>, newRefId: nat -> string)
    ensures ConvertFrom(ws, newRefId, 0) == Prepend([], ConvertFrom(ws[0..], newRefId, 0))
  {
    assert ws[0..] == ws;
    if ConvertFrom(ws, newRefId, 0).Ok? {
      assert [] + ConvertFrom(ws, newRefId, 0).value == ConvertFrom(ws, newRefId, 0).value;
    }
  }

  /** The conversion loop: walks the widgets in order and stops at the first one it cannot map. */
  method ConvertDefinition(def: MonitorDashboardDefinition, newRefId: nat -> string)
    returns (r: Result<ApplicationDashboardDefinition, ConversionError>)
    ensures r == Convert(def, newRefId)
  {
    var ws := def.widgets;
    var out: seq<ApplicationWidget> := [];
    var next: nat := 0;
    var i := 0;
    ConvertLoopInit(ws, newRefId);
    while i < |ws|
      invariant 0 <= i <= |ws|
      invariant ConvertFrom(ws, newRefId, 0) == Prepend(out, ConvertFrom(ws[i..], newRefId, next))
    {
      ConvertLoopStep(ws, newRefId, next, i, out);
      var converted := ConvertWidget(ws[i], newRefId, next);
      if converted.Err? {
        return Err(converted.error);
      }
      out := out + [converted.value];
      next := next + RefIdsUsed(ws[i]);
      i := i + 1;
    }
    assert ws[i..] == [] && out + [] == out;
    r := Ok(ApplicationDashboardDefinition(out));
  }
}
