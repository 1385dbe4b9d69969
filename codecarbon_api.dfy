/**
  The CodeCarbon wrapper (src/codecarbon-api.py): runs the snippet as a subprocess under a
  CodeCarbon `EmissionsTracker`, then builds a record from the value `tracker.stop()`
  returned and from fixed columns of the last row of the tracker's CSV file.

  Inputs: the subprocess result (None when `subprocess.run` raised, e.g. on its timeout),
  the value `tracker.stop()` returned, the CSV read, and the `float` oracle `toFloat`.
 */
module CodecarbonApi {
  import opened Wrappers
  import opened Values
  import opened Text
  import opened CsvFields

  /** What `subprocess.run(..., capture_output=True, text=True)` gave back. */
  datatype Proc = Proc(returncode: int, stderr: string)

  /** The `data` dictionary the wrapper prints. The location fields are never filled. */
  datatype CodecarbonRecord = CodecarbonRecord(
    kg: Option<real>, stderr: string, returncode: int,
    duration: Option<real>, energy: Option<real>,
    cpuEnergy: Option<real>, gpuEnergy: Option<real>, ramEnergy: Option<real>,
    cpuPower: Option<real>, gpuPower: Option<real>, ramPower: Option<real>,
    countryName: Option<string>, countryIso: Option<string>, region: Option<string>, cloud: Option<string>)

  /** `tracker.stop() or 0.0`: a missing (or zero) stop value becomes 0.0. */
  function StopValue(stop: Option<real>): (v: real)
    ensures stop.Some? ==> v == stop.value
    ensures stop.None? ==> v == 0.0
  {
    if stop.Some? && stop.value != 0.0 then stop.value else 0.0
  }

  /** The record before the CSV is read. */
  function Initial(p: Proc, stop: Option<real>): CodecarbonRecord {
    CodecarbonRecord(Some(StopValue(stop)), if p.returncode != 0 then PyStrip(p.stderr) else "", p.returncode,
                     None, None, None, None, None, None, None, None, None, None, None, None)
  }

  /** `measure_file`. None means that the wrapper printed nothing because `subprocess.run`
      raised (the tracker is still stopped by the `finally`). */
  method MeasureFile(proc: Option<Proc>, stop: Option<real>, csv: CsvArtifact, toFloat: string -> Option<real>)
    returns (r: Option<CodecarbonRecord>)
    ensures r.Some? <==> proc.Some?
    ensures r.Some? ==> r.value.kg.Some?
    ensures r.Some? ==> r.value.returncode == proc.value.returncode
    ensures r.Some? ==> r.value.stderr == (if proc.value.returncode != 0 then PyStrip(proc.value.stderr) else "")
    ensures r.Some? ==> r.value.countryName.None? && r.value.countryIso.None? && r.value.region.None? && r.value.cloud.None?
    ensures r.Some? && LastRow(csv).None? ==>
              r.value == Initial(proc.value, stop)
    ensures r.Some? && LastRow(csv).Some? ==>
              var row := LastRow(csv).value;
              var d := r.value;
              d.duration == FFloat(Get(row, "duration"), None, toFloat)
              && d.energy == FFloat(Get(row, "energy_consumed"), None, toFloat)
              && d.cpuEnergy == FFloat(Get(row, "cpu_energy"), None, toFloat)
              && d.gpuEnergy == FFloat(Get(row, "gpu_energy"), None, toFloat)
              && d.ramEnergy == FFloat(Get(row, "ram_energy"), None, toFloat)
              && d.cpuPower == FFloat(Get(row, "cpu_power"), None, toFloat)
              && d.gpuPower == FFloat(Get(row, "gpu_power"), None, toFloat)
              && d.ramPower == FFloat(Get(row, "ram_power"), None, toFloat)
              && d.kg == (var e := FFloat(Get(row, "emissions"), None, toFloat);
                          if e.Some? then e else Some(StopValue(stop)))
  {
    if proc.None? {
      return None;
    }
    var p := proc.value;
    var runStderr := PyStrip(p.stderr);
    var emissionsStop := StopValue(stop);
    var data := CodecarbonRecord(Some(emissionsStop), if p.returncode != 0 then runStderr else "", p.returncode,
                                 None, None, None, None, None, None, None, None, None, None, None, None);
    var last := LastRow(csv);
    if last.Some? {
      var row := last.value;
      data := data.(duration := FFloat(Get(row, "duration"), None, toFloat));
      data := data.(energy := FFloat(Get(row, "energy_consumed"), None, toFloat));
      data := data.(cpuEnergy := FFloat(Get(row, "cpu_energy"), None, toFloat));
      data := data.(gpuEnergy := FFloat(Get(row, "gpu_energy"), None, toFloat));
      data := data.(ramEnergy := FFloat(Get(row, "ram_energy"), None, toFloat));
      data := data.(cpuPower := FFloat(Get(row, "cpu_power"), None, toFloat));
      data := data.(gpuPower := FFloat(Get(row, "gpu_power"), None, toFloat));
      data := data.(ramPower := FFloat(Get(row, "ram_power"), None, toFloat));
      var csvEmis := FFloat(Get(row, "emissions"), None, toFloat);
      if csvEmis.Some? {
        data := data.(kg := csvEmis);
      }
    }
    return Some(data);
  }

  /** The emissions never come out null: a parseable CSV `emissions` value wins, otherwise the
      stop value (0.0 when the tracker returned nothing) is kept. A row whose `emissions`
      column is missing, a sentinel or unparsable keeps the stop value. */
  lemma LemmaEmissionsSource(row: CsvRow, stop: Option<real>, toFloat: string -> Option<real>, v: real)
    ensures (var e := FFloat(Get(row, "emissions"), None, toFloat);
             if e.Some? then e else Some(StopValue(stop))) == Some(v)
            <==> ("emissions" in row && !IsSentinel(Some(row["emissions"])) && toFloat(row["emissions"]) == Some(v))
                 || (!("emissions" in row && !IsSentinel(Some(row["emissions"])) && toFloat(row["emissions"]).Some?)
                     && v == StopValue(stop))
  {
  }

  /** A failed or absent CSV read leaves every measured field null and the stop value in
      place. */
  lemma LemmaNoCsv(p: Proc, stop: Option<real>)
    ensures var d := Initial(p, stop);
            d.duration.None? && d.energy.None? && d.cpuEnergy.None? && d.gpuEnergy.None? && d.ramEnergy.None?
            && d.cpuPower.None? && d.gpuPower.None? && d.ramPower.None? && d.kg == Some(stop.GetOr(0.0))
  {
  }

  /** The printed payload, with its fifteen keys. */
  function ToJson(d: CodecarbonRecord): Json {
    JObj(map["emissions_kg" := OptNum(d.kg), "stderr" := JStr(d.stderr), "returncode" := JNum(d.returncode as real),
             "duration_s" := OptNum(d.duration), "energy_kwh" := OptNum(d.energy),
             "cpu_energy_kwh" := OptNum(d.cpuEnergy), "gpu_energy_kwh" := OptNum(d.gpuEnergy),
             "ram_energy_kwh" := OptNum(d.ramEnergy),
             "cpu_power_w" := OptNum(d.cpuPower), "gpu_power_w" := OptNum(d.gpuPower), "ram_power_w" := OptNum(d.ramPower),
             "country_name" := OptStr(d.countryName), "country_iso_code" := OptStr(d.countryIso),
             "region" := OptStr(d.region), "cloud_provider" := OptStr(d.cloud)])
  }
}
