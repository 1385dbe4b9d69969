/**
  The Tracarbon wrapper (src/tracarbon-api.py): runs the snippet in-process while Tracarbon
  samples energy and carbon metrics, then scans the tracker's metric report and keeps the
  last usable value of each kind.

  The report is an input: its entries in iteration order, each a name and a metric object.
  The duration is an input too (it is read from the wall clock). The loop reads metrics with
  `_value_from_metric_obj` as written; the reading its comment describes is kept beside it
  (`Reading`), and `LemmaReadingsAgree` says where the two differ.
 */
module TracarbonApi {
  import opened Wrappers
  import opened Values
  import opened Text
  import opened Snippet

  /** A metric object: a model object with a `.value` attribute, or a plain value (a
      dictionary, a number, ...) that has no such attribute. */
  datatype MetricObj = Model(value: Json) | Plain(v: Json)

  /** `_as_float(x)`: `float(x)`, and the default None when it raises. */
  function AsFloat(x: Json, toFloat: string -> Option<real>): (r: Option<real>)
    ensures x.JNum? ==> r == Some(x.n)
    ensures x.JBool? ==> r == Some(if x.b then 1.0 else 0.0)
    ensures x.JStr? ==> r == toFloat(x.s)
    ensures x.JNull? || x.JArr? || x.JObj? ==> r.None?
  {
    PyFloat(x, toFloat)
  }

  /** `_value_from_metric_obj` as written: the `.value` attribute, else a dictionary's
      `"value"` entry, else the object itself. The branch meant for a nested
      `{"value": {"value": x}}` sits after the `"value" in obj` test has already returned,
      so it never runs and the inner dictionary is returned. */
  function ValueFromMetricObjAsWritten(o: MetricObj): (r: Json)
    ensures o.Model? ==> r == o.value
    ensures o.Plain? && o.v.JObj? && "value" in o.v.fields ==> r == o.v.fields["value"]
    ensures o.Plain? && !(o.v.JObj? && "value" in o.v.fields) ==> r == o.v
  {
    match o
    case Model(value) => value
    case Plain(v) =>
      if v.JObj? && "value" in v.fields then v.fields["value"] else v
  }

  /** A metric reported as `{"value": {"value": 3.2}}` yields the inner dictionary, which
      `float` rejects, so the metric is skipped although it carries a number. */
  lemma LemmaNestedValueLost()
    ensures var o := Plain(JObj(map["value" := JObj(map["value" := JNum(3.2)])]));
            AsFloat(ValueFromMetricObjAsWritten(o), s => None).None?
  {
    var o := Plain(JObj(map["value" := JObj(map["value" := JNum(3.2)])]));
    assert ValueFromMetricObjAsWritten(o) == JObj(map["value" := JNum(3.2)]);
  }

  /** `_value_from_metric_obj` as its own comment describes it: the `.value` attribute, else
      a dictionary's `"value"` entry, unwrapped once more when it is itself a dictionary with
      a `"value"` entry, else the object itself. */
  function ValueFromMetricObj(o: MetricObj): (r: Json)
    ensures o.Model? ==> r == o.value
    ensures o.Plain? && !(o.v.JObj? && "value" in o.v.fields) ==> r == o.v
    ensures o.Plain? && o.v.JObj? && "value" in o.v.fields ==>
              var inner := o.v.fields["value"];
              if inner.JObj? && "value" in inner.fields then r == inner.fields["value"] else r == inner
  {
    match o
    case Model(value) => value
    case Plain(v) =>
      if v.JObj? && "value" in v.fields then
        var inner := v.fields["value"];
        if inner.JObj? && "value" in inner.fields then inner.fields["value"] else inner
      else v
  }

  /** With the nested form unwrapped, the example metric of `LemmaNestedValueLost` is read. */
  lemma LemmaNestedValueRead()
    ensures var o := Plain(JObj(map["value" := JObj(map["value" := JNum(3.2)])]));
            AsFloat(ValueFromMetricObj(o), s => None) == Some(3.2)
  {
    var o := Plain(JObj(map["value" := JObj(map["value" := JNum(3.2)])]));
    assert o.v.fields["value"] == JObj(map["value" := JNum(3.2)]);
  }

  /** The two versions agree on every object except a dictionary whose `"value"` entry is
      itself a dictionary with a `"value"` entry. */
  lemma LemmaValueVersionsAgree(o: MetricObj)
    ensures ValueFromMetricObj(o) == ValueFromMetricObjAsWritten(o)
            || (o.Plain? && o.v.JObj? && "value" in o.v.fields
                && o.v.fields["value"].JObj? && "value" in o.v.fields["value"].fields)
  {
  }

  /** A dictionary whose `"value"` entry is itself a dictionary with a `"value"` entry: the
      one form on which the two readings differ. */
  predicate Nested(o: MetricObj) {
    o.Plain? && o.v.JObj? && "value" in o.v.fields
    && o.v.fields["value"].JObj? && "value" in o.v.fields["value"].fields
  }

  /** Which version of `_value_from_metric_obj` a metric is read with. */
  datatype Reading = AsWritten | Intended

  function ReadValue(o: MetricObj, reading: Reading): (r: Json)
    ensures reading == AsWritten ==> r == ValueFromMetricObjAsWritten(o)
    ensures reading == Intended ==> r == ValueFromMetricObj(o)
    ensures !Nested(o) ==> r == ValueFromMetricObjAsWritten(o)
  {
    LemmaValueVersionsAgree(o);
    if reading == AsWritten then ValueFromMetricObjAsWritten(o) else ValueFromMetricObj(o)
  }

  type Metric = (string, MetricObj)

  /** `_as_float(_value_from_metric_obj(metric))`: the number read from a metric, None when it
      cannot be read (the metric is then skipped). */
  function MetricValue(m: Metric, reading: Reading, toFloat: string -> Option<real>): (r: Option<real>)
    ensures m.1.Model? ==> r == AsFloat(m.1.value, toFloat)
    ensures reading == AsWritten && Nested(m.1) ==> r.None?
    ensures reading == Intended && Nested(m.1) ==> r == AsFloat(m.1.v.fields["value"].fields["value"], toFloat)
  {
    AsFloat(ReadValue(m.1, reading), toFloat)
  }

  /** `"energy" in str(name).lower()`. */
  predicate IsEnergy(name: string) {
    Contains(Lower(name), "energy")
  }

  /** `"carbon" in lname or "co2" in lname`. */
  predicate IsCarbon(name: string) {
    Contains(Lower(name), "carbon") || Contains(Lower(name), "co2")
  }

  /** The value of the last metric whose name is of the given kind and whose value reads as a
      number: later metrics overwrite earlier ones. */
  function LastValue(report: seq<Metric>, kind: string -> bool, reading: Reading, toFloat: string -> Option<real>): Option<real>
    decreases |report|
  {
    if report == [] then None
    else
      var m := report[|report| - 1];
      if kind(m.0) && MetricValue(m, reading, toFloat).Some? then MetricValue(m, reading, toFloat)
      else LastValue(report[..|report| - 1], kind, reading, toFloat)
  }

  /** The last usable metric of a kind wins: `LastValue` is the value of a qualifying metric
      that no later metric of the kind replaces, and None exactly when no metric qualifies. */
  lemma LemmaLastValue(report: seq<Metric>, kind: string -> bool, reading: Reading, toFloat: string -> Option<real>)
    ensures LastValue(report, kind, reading, toFloat).None? <==>
              forall j :: 0 <= j < |report| ==> !(kind(report[j].0) && MetricValue(report[j], reading, toFloat).Some?)
    ensures LastValue(report, kind, reading, toFloat).Some? ==>
              exists k :: 0 <= k < |report| && kind(report[k].0)
                          && MetricValue(report[k], reading, toFloat) == LastValue(report, kind, reading, toFloat)
                          && forall j :: k < j < |report| ==> !(kind(report[j].0) && MetricValue(report[j], reading, toFloat).Some?)
  {
    var f := KindValue(kind, reading, toFloat);
    LemmaLastValueIsLastSome(report, kind, reading, toFloat);
    LemmaLastSome(report, f);
    assert forall j :: 0 <= j < |report| ==>
             (f(report[j]).Some? <==> kind(report[j].0) && MetricValue(report[j], reading, toFloat).Some?);
  }

  /** The value a metric contributes when it is of the kind. */
  function KindValue(kind: string -> bool, reading: Reading, toFloat: string -> Option<real>): Metric -> Option<real> {
    (m: Metric) => if kind(m.0) then MetricValue(m, reading, toFloat) else None
  }

  /** The last value `f` gives along the report. */
  function LastSome(report: seq<Metric>, f: Metric -> Option<real>): Option<real>
    decreases |report|
  {
    if report == [] then None
    else if f(report[|report| - 1]).Some? then f(report[|report| - 1])
    else LastSome(report[..|report| - 1], f)
  }

  lemma {:induction false} LemmaLastValueIsLastSome(report: seq<Metric>, kind: string -> bool, reading: Reading, toFloat: string -> Option<real>)
    ensures LastValue(report, kind, reading, toFloat) == LastSome(report, KindValue(kind, reading, toFloat))
    decreases |report|
  {
    if report != [] {
      LemmaLastValueIsLastSome(report[..|report| - 1], kind, reading, toFloat);
    }
  }

  /** `LastSome` is the value at an index where `f` gives one and no later index does, and
      None exactly when `f` gives nothing anywhere. */
  lemma {:induction false} LemmaLastSome(report: seq<Metric>, f: Metric -> Option<real>)
    ensures LastSome(report, f).None? <==> forall j :: 0 <= j < |report| ==> f(report[j]).None?
    ensures LastSome(report, f).Some? ==>
              exists k :: 0 <= k < |report| && f(report[k]) == LastSome(report, f)
                          && forall j :: k < j < |report| ==> f(report[j]).None?
    decreases |report|
  {
    if report != [] {
      var n := |report| - 1;
      var front := report[..n];
      LemmaLastSome(front, f);
      assert forall j :: 0 <= j < n ==> front[j] == report[j];
      if f(report[n]).None? && LastSome(front, f).Some? {
        var k :| 0 <= k < |front| && f(front[k]) == LastSome(front, f)
                 && forall j :: k < j < |front| ==> f(front[j]).None?;
        assert report[k] == front[k];
      }
    }
  }

  /** The grams/kilograms heuristic: above 1000 the value is taken as grams, otherwise as
      kilograms; both fields are filled from the one value. */
  function SplitCarbon(val: Option<real>): (r: (Option<real>, Option<real>))
    ensures r.0.Some? <==> val.Some?
    ensures r.1.Some? <==> val.Some?
    ensures r.0.Some? ==> r.1.value == r.0.value * 1000.0
    ensures val.Some? && val.value > 1000.0 ==> r.1 == val
    ensures val.Some? && val.value <= 1000.0 ==> r.0 == val
  {
    if val.None? then (None, None)
    else if val.value > 1000.0 then (Some(val.value / 1000.0), val)
    else (val, Some(val.value * 1000.0))
  }

  /** The metric-report loop: skips a metric whose value does not read as a number, sets the
      energy from a name containing "energy" and both carbon fields from a name containing
      "carbon" or "co2" (a name with both words sets both). */
  method CollectMetrics(report: seq<Metric>, toFloat: string -> Option<real>)
    returns (energy: Option<real>, kg: Option<real>, g: Option<real>)
    ensures energy == LastValue(report, IsEnergy, AsWritten, toFloat)
    ensures (kg, g) == SplitCarbon(LastValue(report, IsCarbon, AsWritten, toFloat))
  {
    energy, kg, g := None, None, None;
    for i := 0 to |report|
      invariant energy == LastValue(report[..i], IsEnergy, AsWritten, toFloat)
      invariant (kg, g) == SplitCarbon(LastValue(report[..i], IsCarbon, AsWritten, toFloat))
    {
      assert report[..i + 1][..i] == report[..i];
      var name := report[i].0;
      var lname := Lower(name);
      var val := AsFloat(ValueFromMetricObjAsWritten(report[i].1), toFloat);
      if val.None? {
        continue;
      }
      if Contains(lname, "energy") {
        energy := val;
      }
      if Contains(lname, "carbon") || Contains(lname, "co2") {
        if val.value > 1000.0 {
          g := val;
          kg := Some(val.value / 1000.0);
        } else {
          kg := val;
          g := Some(val.value * 1000.0);
        }
      }
    }
    assert report[..|report|] == report;
  }

  /** The printed dictionary. */
  datatype TracarbonRecord = TracarbonRecord(
    duration: real, energy: Option<real>, co2g: Option<real>, kg: Option<real>, runError: Option<string>)

  /** `run_and_track_file` from the snippet's outcome, the measured duration and the report. */
  method RunAndTrackFile(outcome: RunOutcome, duration: real, report: seq<Metric>, toFloat: string -> Option<real>)
    returns (data: TracarbonRecord)
    ensures data.duration == duration
    ensures data.energy == LastValue(report, IsEnergy, AsWritten, toFloat)
    ensures (data.kg, data.co2g) == SplitCarbon(LastValue(report, IsCarbon, AsWritten, toFloat))
    ensures data.kg.Some? <==> data.co2g.Some?
    ensures data.kg.Some? ==> data.co2g.value == data.kg.value * 1000.0
    ensures data.runError == RunError(outcome)
  {
    var energy, kg, g := CollectMetrics(report, toFloat);
    data := TracarbonRecord(duration, energy, g, kg, None);
    if outcome.Raised? {
      data := data.(runError := Some(PyStrip(outcome.traceback)));
    }
  }

  function ToJson(d: TracarbonRecord): Json {
    JObj(AttachRunError(map["duration_s" := JNum(d.duration), "energy_kwh" := OptNum(d.energy),
                            "co2eq_g" := OptNum(d.co2g), "emissions_kg" := OptNum(d.kg)],
                        d.runError))
  }

  /** Adding a metric that does not read as a number changes nothing. */
  lemma LemmaUnreadableSkipped(report: seq<Metric>, m: Metric, kind: string -> bool, reading: Reading, toFloat: string -> Option<real>)
    requires MetricValue(m, reading, toFloat).None?
    ensures LastValue(report + [m], kind, reading, toFloat) == LastValue(report, kind, reading, toFloat)
  {
    assert (report + [m])[..|report|] == report;
  }

  /** A later usable metric of a kind overwrites whatever came before it. */
  lemma LemmaLaterOverwrites(report: seq<Metric>, m: Metric, kind: string -> bool, reading: Reading, toFloat: string -> Option<real>)
    requires kind(m.0) && MetricValue(m, reading, toFloat).Some?
    ensures LastValue(report + [m], kind, reading, toFloat) == MetricValue(m, reading, toFloat)
  {
  }

  /** Where the wrapper's loop and the intended one differ: only on a nested metric of the
      kind. Without one, both readings give the same value for the kind. */
  lemma {:induction false} LemmaReadingsAgree(report: seq<Metric>, kind: string -> bool, toFloat: string -> Option<real>)
    ensures (forall j :: 0 <= j < |report| ==> !(kind(report[j].0) && Nested(report[j].1))) ==>
              LastValue(report, kind, AsWritten, toFloat) == LastValue(report, kind, Intended, toFloat)
    decreases |report|
  {
    if report != [] && forall j :: 0 <= j < |report| ==> !(kind(report[j].0) && Nested(report[j].1)) {
      var n := |report| - 1;
      var front := report[..n];
      assert forall j :: 0 <= j < |front| ==> front[j] == report[j];
      LemmaReadingsAgree(front, kind, toFloat);
      if kind(report[n].0) {
        assert !Nested(report[n].1);
      }
    }
  }

  /** The nested carbon metric of `LemmaNestedValueLost` is skipped by the wrapper, so both
      carbon fields stay None, while the intended reading takes 3.2 kg. */
  lemma LemmaNestedMetricSkipped()
    ensures var report := [("CarbonEmission", Plain(JObj(map["value" := JObj(map["value" := JNum(3.2)])])))];
            SplitCarbon(LastValue(report, IsCarbon, AsWritten, s => None)) == (None, None)
            && SplitCarbon(LastValue(report, IsCarbon, Intended, s => None)) == (Some(3.2), Some(3200.0))
  {
    var o := Plain(JObj(map["value" := JObj(map["value" := JNum(3.2)])]));
    var report := [("CarbonEmission", o)];
    assert OccursAt(Lower("CarbonEmission"), "carbon", 0);
    assert Nested(o);
    assert report[..0] == [];
  }

  /** Name matching ignores ASCII case: two names that lower to the same text are of the same
      kinds, a name is of the kinds of its lower-cased form, and so "EnergyConsumption" is an
      energy metric and "CarbonEmission" and "CO2" are carbon metrics. */
  lemma LemmaCaseInsensitive(a: string, b: string)
    ensures Lower(a) == Lower(b) ==> (IsEnergy(a) <==> IsEnergy(b)) && (IsCarbon(a) <==> IsCarbon(b))
    ensures IsEnergy(a) <==> IsEnergy(Lower(a))
    ensures IsCarbon(a) <==> IsCarbon(Lower(a))
    ensures IsEnergy("EnergyConsumption")
    ensures IsCarbon("CarbonEmission")
    ensures IsCarbon("CO2")
  {
    LemmaLowerIdempotent(a);
    assert OccursAt(Lower("EnergyConsumption"), "energy", 0);
    assert OccursAt(Lower("CarbonEmission"), "carbon", 0);
    assert OccursAt(Lower("CO2"), "co2", 0);
  }
}
