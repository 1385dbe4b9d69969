/**
  The Eco2AI wrapper (src/eco2ai-api.py): runs the snippet under an eco2ai tracker, then
  reads the last row of the tracker's CSV file into a record. The column names vary between
  eco2ai versions, so each field is looked up under several candidate names.

  The tracker, the snippet run and the CSV read are inputs: the snippet's `RunOutcome` and a
  `CsvArtifact`. `toFloat` stands for Python's `float` on a string (None when it raises).
 */
module Eco2aiApi {
  import opened Wrappers
  import opened Values
  import opened Text
  import opened CsvFields
  import opened Snippet

  /** The `data` dictionary the wrapper prints; a None field is JSON null. */
  datatype Eco2aiRecord = Eco2aiRecord(
    duration: Option<real>, energy: Option<real>, co2g: Option<real>, kg: Option<real>,
    country: Option<string>, runError: Option<string>)

  const DurationColumns: seq<string> := ["duration(s)", "duration"]
  const EnergyColumns: seq<string> := ["power_consumption(kWTh)", "power_consumption(kWh)", "energy_kwh"]
  const Co2Columns: seq<string> := ["CO2_emissions(kg)", "co2_emissions_kg", "emissions_kg", "emission(kg)"]

  /** `co2_kg * 1000.0 if co2_kg is not None else None`. */
  function GramsOf(kg: Option<real>): (g: Option<real>)
    ensures g.Some? <==> kg.Some?
    ensures g.Some? ==> g.value == kg.value * 1000.0
  {
    if kg.Some? then Some(kg.value * 1000.0) else None
  }

  /** `run_and_track_file`: start from an all-None record, fill it from the last CSV row if
      there is one, then attach the error of a snippet that raised. */
  method RunAndTrackFile(outcome: RunOutcome, csv: CsvArtifact, toFloat: string -> Option<real>)
    returns (data: Eco2aiRecord)
    ensures data.country.None?
    ensures data.runError == RunError(outcome)
    ensures LastRow(csv).None? ==>
              data.duration.None? && data.energy.None? && data.kg.None? && data.co2g.None?
    ensures LastRow(csv).Some? ==>
              var row := LastRow(csv).value;
              data.duration == FFloat(PickSpec(row, DurationColumns), None, toFloat)
              && data.energy == FFloat(PickSpec(row, EnergyColumns), None, toFloat)
              && data.kg == FFloat(PickSpec(row, Co2Columns), None, toFloat)
    ensures data.co2g.Some? <==> data.kg.Some?
    ensures data.kg.Some? ==> data.co2g.value == data.kg.value * 1000.0
  {
    data := Eco2aiRecord(None, None, None, None, None, None);
    var last := LastRow(csv);
    if last.Some? {
      var row := last.value;
      var d := Pick(row, DurationColumns);
      var e := Pick(row, EnergyColumns);
      var c := Pick(row, Co2Columns);
      var duration := FFloat(d, None, toFloat);
      var energy := FFloat(e, None, toFloat);
      var co2kg := FFloat(c, None, toFloat);
      data := data.(duration := duration, energy := energy, kg := co2kg, co2g := GramsOf(co2kg));
    }
    if outcome.Raised? {
      data := data.(runError := Some(PyStrip(outcome.traceback)));
    }
  }

  /** The printed payload: the five measurement keys always, `run_error`/`stderr` only after a
      raising snippet. */
  function ToJson(d: Eco2aiRecord): Json {
    JObj(AttachRunError(map["duration_s" := OptNum(d.duration), "energy_kwh" := OptNum(d.energy),
                            "co2eq_g" := OptNum(d.co2g), "emissions_kg" := OptNum(d.kg),
                            "country" := OptStr(d.country)],
                        d.runError))
  }

  /** The payload carries `run_error` exactly when the snippet raised (a `sys.exit` is not an
      error), its `country` is always null, and its grams are the kilograms times 1000. */
  lemma LemmaPayload(outcome: RunOutcome, d: Eco2aiRecord)
    requires d.country.None? && d.runError == RunError(outcome)
    requires d.co2g == GramsOf(d.kg)
    ensures "run_error" in ToJson(d).fields <==> outcome.Raised?
    ensures outcome.Raised? ==> PyGet(ToJson(d), "stderr") == JStr(PyStrip(outcome.traceback))
    ensures PyGet(ToJson(d), "country") == JNull
    ensures PyGet(ToJson(d), "emissions_kg") == JNull <==> PyGet(ToJson(d), "co2eq_g") == JNull
  {
  }
}
