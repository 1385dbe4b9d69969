/**
  The web app (src/app.py): measures a pasted snippet with one of the four backends in the
  app's own process, shows the result card, the history side bar and the suggestions.

  A measurement result is the dictionary the app passes around, `map<string, Json>`; the
  keys present vary with the backend and the outcome. Importing a backend library, running
  the snippet, the trackers, the CSV and log files and the Tracarbon wrapper process are
  inputs. Number formatting is not modelled: a formatted value is the number together with
  the format chosen for it.
 */
module App {
  import opened Wrappers
  import opened Values
  import opened Text
  import opened Search
  import opened CsvFields
  import opened Snippet
  import CT = CarbontrackerApi

  // ---------------------------------------------------------------- pure helpers

  /** `_short_code_preview(code, n)`: the stripped code on one line, cut to `n` characters
      followed by an ellipsis when it is longer. */
  function ShortCodePreview(code: string, n: nat): (r: string)
    ensures |r| <= n + 1
    ensures '\n' !in r
    ensures var c := ReplaceChar(PyStrip(code), '\n', ' ');
            (|c| <= n ==> r == c) && (|c| > n ==> r == c[..n] + "…")
  {
    var c := ReplaceChar(PyStrip(code), '\n', ' ');
    if |c| > n then c[..n] + "…" else c
  }

  /** `_co2_level(kg)`. */
  function Co2Level(kg: Option<real>): (r: string)
    ensures r == "lv-bad" <==> kg.Some? && kg.value >= 0.01
    ensures r == "lv-warn" <==> kg.Some? && 0.001 <= kg.value < 0.01
    ensures r == "lv-ok" <==> kg.None? || kg.value < 0.001
  {
    if kg.None? then "lv-ok"
    else if kg.value >= 0.01 then "lv-bad"
    else if kg.value >= 0.001 then "lv-warn"
    else "lv-ok"
  }

  function LevelRank(level: string): nat {
    if level == "lv-bad" then 2 else if level == "lv-warn" then 1 else 0
  }

  /** More emissions never give a milder level. */
  lemma LemmaCo2LevelMonotone(a: real, b: real)
    requires a <= b
    ensures LevelRank(Co2Level(Some(a))) <= LevelRank(Co2Level(Some(b)))
  {
  }

  /** How `_co2_fmt_kg` shows a mass: a dash for None, scientific notation for a positive
      mass below 1e-5 kg, fixed notation otherwise. */
  datatype KgText = NoKg | KgScientific(kgSci: real) | KgFixed(kgFixed: real)

  function Co2FmtKg(kg: Option<real>): (r: KgText)
    ensures kg.None? <==> r.NoKg?
    ensures r.KgScientific? <==> kg.Some? && 0.0 < kg.value < 0.00001
    ensures r.KgScientific? ==> r.kgSci == kg.value
    ensures r.KgFixed? ==> r.kgFixed == kg.value
  {
    if kg.None? then NoKg
    else if 0.0 < kg.value < 0.00001 then KgScientific(kg.value)
    else KgFixed(kg.value)
  }

  /** `_tool_chip_cls(tool)`: the class of the first backend name, in the order CodeCarbon,
      CarbonTracker, Eco2AI, Tracarbon, contained in the lower-cased tool name. */
  function ToolChipCls(tool: string): (r: string)
    ensures var t := Lower(tool);
            (r == "tool-cc" <==> Contains(t, "codecarbon"))
            && (r == "tool-ct" <==> !Contains(t, "codecarbon") && Contains(t, "carbontracker"))
            && (r == "tool-e2" <==> !Contains(t, "codecarbon") && !Contains(t, "carbontracker") && Contains(t, "eco2ai"))
            && (r == "tool-tr" <==> !Contains(t, "codecarbon") && !Contains(t, "carbontracker") && !Contains(t, "eco2ai")
                                    && Contains(t, "tracarbon"))
            && (r == "" <==> !Contains(t, "codecarbon") && !Contains(t, "carbontracker") && !Contains(t, "eco2ai")
                             && !Contains(t, "tracarbon"))
  {
    var t := Lower(tool);
    if Contains(t, "codecarbon") then "tool-cc"
    else if Contains(t, "carbontracker") then "tool-ct"
    else if Contains(t, "eco2ai") then "tool-e2"
    else if Contains(t, "tracarbon") then "tool-tr"
    else ""
  }

  /** The chip matching ignores case: any label gets the class of its lower-cased form. */
  lemma LemmaToolChipCaseInsensitive(tool: string)
    ensures ToolChipCls(tool) == ToolChipCls(Lower(tool))
  {
    LemmaLowerIdempotent(tool);
  }

  /** The four select-box labels get their own classes. */
  lemma LemmaToolChipLabels()
    ensures ToolChipCls("CodeCarbon") == "tool-cc"
    ensures ToolChipCls("Eco2AI") == "tool-e2"
    ensures ToolChipCls("CarbonTracker") == "tool-ct"
    ensures ToolChipCls("Tracarbon") == "tool-tr"
  {
    assert OccursAt(Lower("CodeCarbon"), "codecarbon", 0);
    assert OccursAt(Lower("Eco2AI"), "eco2ai", 0);
    assert !Contains(Lower("Eco2AI"), "codecarbon");
    assert !Contains(Lower("Eco2AI"), "carbontracker");
    assert Lower("CarbonTracker") == "carbontracker";
    assert OccursAt(Lower("CarbonTracker"), "carbontracker", 0);
    LemmaNotContains("carbontracker", "codecarbon", 2);
    assert Lower("Tracarbon") == "tracarbon";
    assert OccursAt(Lower("Tracarbon"), "tracarbon", 0);
    LemmaNotContains("tracarbon", "eco2ai", 0);
  }

  // ------------------------------------------------------------ backend results

  /** Whether the backend library could be imported; the exception text when it could not. */
  datatype Import = Imported | ImportFailed(message: string)

  /** The dictionary returned when the backend library is missing. */
  function MissingBackend(code: string, notes: string, message: string): (r: map<string, Json>)
    ensures r.Keys == {"error", "notes", "stderr"}
    ensures r["error"] == JStr(code) && r["notes"] == JStr(notes) && r["stderr"] == JStr(message)
  {
    map["error" := JStr(code), "notes" := JStr(notes), "stderr" := JStr(message)]
  }

  const CodecarbonNotes := "Installe : pip install codecarbon psutil"
  const CarbontrackerNotes := "Installe : pip install carbontracker psutil nvidia-ml-py3"
  const Eco2aiNotes := "Installe : pip install eco2ai psutil"

  /** The dictionary `measure_with_codecarbon` starts from: the stop value and five Nones. */
  function CodecarbonBase(kg: Json): (r: map<string, Json>)
    ensures "error" !in r && "run_error" !in r
    ensures PyGet(JObj(r), "duration_s") == JNull && PyGet(JObj(r), "energy_kwh") == JNull
            && PyGet(JObj(r), "cpu_energy_kwh") == JNull && PyGet(JObj(r), "gpu_energy_kwh") == JNull
            && PyGet(JObj(r), "ram_energy_kwh") == JNull && PyGet(JObj(r), "emissions_kg") == kg
  {
    map["duration_s" := JNull, "energy_kwh" := JNull,
        "cpu_energy_kwh" := JNull, "gpu_energy_kwh" := JNull, "ram_energy_kwh" := JNull,
        "emissions_kg" := kg]
  }

  /** The five assignments from the last CSV row; the stop value is kept. */
  function CodecarbonFill(base: map<string, Json>, duration: Json, energy: Json, cpu: Json, gpu: Json, ram: Json)
    : (r: map<string, Json>)
    ensures ("error" in r <==> "error" in base) && ("run_error" in r <==> "run_error" in base)
    ensures PyGet(JObj(r), "duration_s") == duration && PyGet(JObj(r), "energy_kwh") == energy
            && PyGet(JObj(r), "cpu_energy_kwh") == cpu && PyGet(JObj(r), "gpu_energy_kwh") == gpu
            && PyGet(JObj(r), "ram_energy_kwh") == ram
            && PyGet(JObj(r), "emissions_kg") == PyGet(JObj(base), "emissions_kg")
  {
    base["duration_s" := duration]["energy_kwh" := energy]["cpu_energy_kwh" := cpu]["gpu_energy_kwh" := gpu]
        ["ram_energy_kwh" := ram]
  }

  /** The dictionary `measure_with_codecarbon` builds before the run error is attached: the
      stop value as it is and five columns of the last CSV row. */
  function CodecarbonDict(stop: Option<real>, csv: CsvArtifact, toFloat: string -> Option<real>): map<string, Json> {
    var base := CodecarbonBase(OptNum(stop));
    var last := LastRow(csv);
    if last.None? then base
    else
      var row := last.value;
      CodecarbonFill(base, OptNum(FFloat(Get(row, "duration"), None, toFloat)),
                     OptNum(FFloat(Get(row, "energy_consumed"), None, toFloat)),
                     OptNum(FFloat(Get(row, "cpu_energy"), None, toFloat)),
                     OptNum(FFloat(Get(row, "gpu_energy"), None, toFloat)),
                     OptNum(FFloat(Get(row, "ram_energy"), None, toFloat)))
  }

  /** Unlike the CodeCarbon wrapper, the app keeps the stop value as it is (None stays None)
      and never lets the CSV `emissions` column override it; the CSV fills the duration and
      the energies, and nothing is filled without a last row. */
  lemma LemmaCodecarbonDict(stop: Option<real>, csv: CsvArtifact, toFloat: string -> Option<real>)
    ensures var d := JObj(CodecarbonDict(stop, csv, toFloat));
            PyGet(d, "emissions_kg") == OptNum(stop) && PyGet(d, "error") == JNull
    ensures var d := JObj(CodecarbonDict(stop, csv, toFloat));
            LastRow(csv).None? ==>
              PyGet(d, "duration_s") == JNull && PyGet(d, "energy_kwh") == JNull && PyGet(d, "cpu_energy_kwh") == JNull
              && PyGet(d, "gpu_energy_kwh") == JNull && PyGet(d, "ram_energy_kwh") == JNull
    ensures var d := JObj(CodecarbonDict(stop, csv, toFloat));
            LastRow(csv).Some? ==>
              var row := LastRow(csv).value;
              PyGet(d, "duration_s") == OptNum(FFloat(Get(row, "duration"), None, toFloat))
              && PyGet(d, "energy_kwh") == OptNum(FFloat(Get(row, "energy_consumed"), None, toFloat))
              && PyGet(d, "cpu_energy_kwh") == OptNum(FFloat(Get(row, "cpu_energy"), None, toFloat))
              && PyGet(d, "gpu_energy_kwh") == OptNum(FFloat(Get(row, "gpu_energy"), None, toFloat))
              && PyGet(d, "ram_energy_kwh") == OptNum(FFloat(Get(row, "ram_energy"), None, toFloat))
  {
  }

  /** `measure_with_codecarbon`. */
  method MeasureWithCodecarbon(imp: Import, outcome: RunOutcome, stop: Option<real>, csv: CsvArtifact,
                               toFloat: string -> Option<real>)
    returns (res: map<string, Json>)
    ensures imp.ImportFailed? ==> res == MissingBackend("codecarbon_missing", CodecarbonNotes, imp.message)
    ensures imp.Imported? ==> res == AttachRunError(CodecarbonDict(stop, csv, toFloat), RunError(outcome))
  {
    if imp.ImportFailed? {
      return MissingBackend("codecarbon_missing", CodecarbonNotes, imp.message);
    }
    res := map["duration_s" := JNull, "energy_kwh" := JNull,
               "cpu_energy_kwh" := JNull, "gpu_energy_kwh" := JNull, "ram_energy_kwh" := JNull,
               "emissions_kg" := OptNum(stop)];
    var last := LastRow(csv);
    if last.Some? {
      var row := last.value;
      var duration := OptNum(FFloat(Get(row, "duration"), None, toFloat));
      var energy := OptNum(FFloat(Get(row, "energy_consumed"), None, toFloat));
      var cpu := OptNum(FFloat(Get(row, "cpu_energy"), None, toFloat));
      var gpu := OptNum(FFloat(Get(row, "gpu_energy"), None, toFloat));
      var ram := OptNum(FFloat(Get(row, "ram_energy"), None, toFloat));
      res := res["duration_s" := duration];
      res := res["energy_kwh" := energy];
      res := res["cpu_energy_kwh" := cpu];
      res := res["gpu_energy_kwh" := gpu];
      res := res["ram_energy_kwh" := ram];
      assert res == CodecarbonFill(CodecarbonBase(OptNum(stop)), duration, energy, cpu, gpu, ram);
    }
    res := AttachRunError(res, RunError(outcome));
  }

  /** The measured fields the app reads from the CarbonTracker logs. Unlike the wrapper, a
      value is stored only when its key is present, so the wall-clock duration stays when the
      log has none. */
  function AppFromLogs(s: CT.LogParse, wall: real, toFloat: string -> Option<real>): (m: CT.Measures)
    ensures m.kg.Some? <==> m.co2g.Some?
    ensures m.co2g.Some? ==> m.kg.value == m.co2g.value / 1000.0
    ensures m.duration.Some?
    ensures s.ParseRaised? || s.logs == [] ==> m == CT.Measures(Some(wall), None, None, None)
  {
    var start := CT.Measures(Some(wall), None, None, None);
    if s.ParseRaised? || s.logs == [] then start
    else
      var actual := CT.ActualOf(s.logs[|s.logs| - 1]);
      if actual.None? then start
      else
        var d := CT.Conv(actual.value, CT.DurationKey, toFloat);
        if d.None? then start
        else
          var m1 := if d.value.Some? then start.(duration := d.value) else start;
          var e := CT.Conv(actual.value, CT.EnergyKey, toFloat);
          if e.None? then m1
          else
            var m2 := if e.value.Some? then m1.(energy := e.value) else m1;
            var c := CT.Conv(actual.value, CT.Co2Key, toFloat);
            if c.None? || c.value.None? then m2
            else m2.(co2g := c.value, kg := Some(c.value.value / 1000.0))
  }

  /** The log's duration replaces the wall-clock one exactly when the log has one that
      converts; when it is missing, null, or its `float()` raises (the `except: pass`), the
      wall-clock duration stays. */
  lemma LemmaAppDuration(logs: seq<Json>, wall: real, a: map<string, Json>, toFloat: string -> Option<real>)
    requires logs != [] && CT.ActualOf(logs[|logs| - 1]) == Some(a)
    ensures CT.Conv(a, CT.DurationKey, toFloat).Some? && CT.Conv(a, CT.DurationKey, toFloat).value.Some? ==>
              AppFromLogs(CT.Parsed(logs), wall, toFloat).duration == CT.Conv(a, CT.DurationKey, toFloat).value
    ensures PyGet(JObj(a), CT.DurationKey) == JNull ==> AppFromLogs(CT.Parsed(logs), wall, toFloat).duration == Some(wall)
    ensures CT.Conv(a, CT.DurationKey, toFloat).None? ==> AppFromLogs(CT.Parsed(logs), wall, toFloat).duration == Some(wall)
  {
  }

  /** The app's log-reading block, one `if ... is not None` per field. */
  method AppReadMeasures(s: CT.LogParse, wall: real, toFloat: string -> Option<real>) returns (m: CT.Measures)
    ensures m == AppFromLogs(s, wall, toFloat)
  {
    m := CT.Measures(Some(wall), None, None, None);
    if s.ParseRaised? || s.logs == [] {
      return;
    }
    var actual := CT.ActualOf(s.logs[|s.logs| - 1]);
    if actual.None? {
      return;
    }
    var d := CT.Conv(actual.value, CT.DurationKey, toFloat);
    if d.None? {
      return;
    }
    if d.value.Some? {
      m := m.(duration := d.value);
    }
    var e := CT.Conv(actual.value, CT.EnergyKey, toFloat);
    if e.None? {
      return;
    }
    if e.value.Some? {
      m := m.(energy := e.value);
    }
    var c := CT.Conv(actual.value, CT.Co2Key, toFloat);
    if c.None? {
      return;
    }
    if c.value.Some? {
      m := m.(co2g := c.value);
      m := m.(kg := Some(m.co2g.value / 1000.0));
    }
  }

  /** The dictionary of `measure_with_carbontracker` before the run error is attached. */
  function CarbontrackerDict(m: CT.Measures): (r: map<string, Json>)
    ensures "error" !in r && "run_error" !in r && "stderr" !in r
    ensures PyGet(JObj(r), "duration_s") == OptNum(m.duration) && PyGet(JObj(r), "energy_kwh") == OptNum(m.energy)
            && PyGet(JObj(r), "co2eq_g") == OptNum(m.co2g) && PyGet(JObj(r), "emissions_kg") == OptNum(m.kg)
  {
    map["duration_s" := OptNum(m.duration), "energy_kwh" := OptNum(m.energy),
        "co2eq_g" := OptNum(m.co2g), "emissions_kg" := OptNum(m.kg)]
  }

  /** `measure_with_carbontracker`: the logs are searched in the same three places as by the
      wrapper; `wall` is the wall-clock duration of the run. */
  method MeasureWithCarbontracker(imp: Import, outcome: RunOutcome, wall: real, logDir: string, home: string,
                                  isDir: string -> bool, parseLogs: string -> CT.LogParse,
                                  toFloat: string -> Option<real>)
    returns (res: map<string, Json>)
    ensures imp.ImportFailed? ==> res == MissingBackend("carbontracker_missing", CarbontrackerNotes, imp.message)
    ensures imp.Imported? ==>
              var m := AppFromLogs(CT.SearchSpec(CT.Candidates(logDir, home), isDir, parseLogs), wall, toFloat);
              "error" !in res
              && PyGet(JObj(res), "duration_s") == OptNum(m.duration)
              && PyGet(JObj(res), "energy_kwh") == OptNum(m.energy)
              && PyGet(JObj(res), "co2eq_g") == OptNum(m.co2g)
              && PyGet(JObj(res), "emissions_kg") == OptNum(m.kg)
              && ("run_error" in res <==> outcome.Raised?)
              && res == AttachRunError(CarbontrackerDict(m), RunError(outcome))
  {
    if imp.ImportFailed? {
      return MissingBackend("carbontracker_missing", CarbontrackerNotes, imp.message);
    }
    var logs := CT.SearchLogs(logDir, home, isDir, parseLogs);
    var m := AppReadMeasures(logs, wall, toFloat);
    var data := map["duration_s" := OptNum(m.duration), "energy_kwh" := OptNum(m.energy),
                    "co2eq_g" := OptNum(m.co2g), "emissions_kg" := OptNum(m.kg)];
    assert data == CarbontrackerDict(m);
    res := AttachRunError(data, RunError(outcome));
    LemmaAttachKeeps(data, RunError(outcome), "error");
    LemmaAttachKeeps(data, RunError(outcome), "duration_s");
    LemmaAttachKeeps(data, RunError(outcome), "energy_kwh");
    LemmaAttachKeeps(data, RunError(outcome), "co2eq_g");
    LemmaAttachKeeps(data, RunError(outcome), "emissions_kg");
  }

  /** `last.get("country") or None`. */
  function CountryOf(row: CsvRow): (r: Json)
    ensures r == JNull <==> !("country" in row && row["country"] != "")
    ensures r != JNull ==> r == JStr(row["country"])
  {
    if "country" in row && row["country"] != "" then JStr(row["country"]) else JNull
  }

  /** The dictionary `measure_with_eco2ai` starts from: every field None. */
  const Eco2aiNone: map<string, Json> :=
    map["duration_s" := JNull, "energy_kwh" := JNull, "co2eq_g" := JNull, "emissions_kg" := JNull,
        "country" := JNull]

  /** The dictionary holding the five fields of `measure_with_eco2ai`. */
  function Eco2aiDict(duration: Json, energy: Json, kg: Json, co2g: Json, country: Json): (r: map<string, Json>)
    ensures "error" !in r && "run_error" !in r
    ensures PyGet(JObj(r), "duration_s") == duration && PyGet(JObj(r), "energy_kwh") == energy
            && PyGet(JObj(r), "emissions_kg") == kg && PyGet(JObj(r), "co2eq_g") == co2g
            && PyGet(JObj(r), "country") == country
  {
    Eco2aiNone["duration_s" := duration]["energy_kwh" := energy]["emissions_kg" := kg]["co2eq_g" := co2g]
              ["country" := country]
  }

  /** The dictionary once the last row is read: only the first column name of each field is
      read, the grams are the kilograms times 1000, and the country is copied from the row
      when it is non-empty. */
  function Eco2aiRowFields(row: CsvRow, toFloat: string -> Option<real>): map<string, Json> {
    var kg := FFloat(Get(row, "CO2_emissions(kg)"), None, toFloat);
    Eco2aiDict(OptNum(FFloat(Get(row, "duration(s)"), None, toFloat)),
               OptNum(FFloat(Get(row, "power_consumption(kWTh)"), None, toFloat)),
               OptNum(kg), OptNum(if kg.Some? then Some(kg.value * 1000.0) else None), CountryOf(row))
  }

  /** The dictionary `measure_with_eco2ai` has filled before the run error is attached. */
  function Eco2aiFields(csv: CsvArtifact, toFloat: string -> Option<real>): map<string, Json> {
    var last := LastRow(csv);
    if last.Some? then Eco2aiRowFields(last.value, toFloat) else Eco2aiNone
  }

  /** `measure_with_eco2ai`. */
  method MeasureWithEco2ai(imp: Import, outcome: RunOutcome, csv: CsvArtifact, toFloat: string -> Option<real>)
    returns (res: map<string, Json>)
    ensures imp.ImportFailed? ==> res == MissingBackend("eco2ai_missing", Eco2aiNotes, imp.message)
    ensures imp.Imported? ==> res == AttachRunError(Eco2aiFields(csv, toFloat), RunError(outcome))
  {
    if imp.ImportFailed? {
      return MissingBackend("eco2ai_missing", Eco2aiNotes, imp.message);
    }
    var data := Eco2aiNone;
    var last := LastRow(csv);
    if last.Some? {
      var row := last.value;
      var duration := OptNum(FFloat(Get(row, "duration(s)"), None, toFloat));
      var energy := OptNum(FFloat(Get(row, "power_consumption(kWTh)"), None, toFloat));
      data := data["duration_s" := duration];
      data := data["energy_kwh" := energy];
      var co2kg := FFloat(Get(row, "CO2_emissions(kg)"), None, toFloat);
      var co2g := OptNum(if co2kg.Some? then Some(co2kg.value * 1000.0) else None);
      data := data["emissions_kg" := OptNum(co2kg)];
      data := data["co2eq_g" := co2g];
      data := data["country" := CountryOf(row)];
      assert data == Eco2aiDict(duration, energy, OptNum(co2kg), co2g, CountryOf(row));
    }
    res := AttachRunError(data, RunError(outcome));
  }

  /** What `measure_with_eco2ai` reports once Eco2AI imports: no `error`, `run_error` exactly
      when the snippet raised, and without a last row every field None; with one, only the
      first column name of each field is read, the grams are the kilograms times 1000, and the
      country is copied from the row when it is non-empty. */
  lemma LemmaEco2aiFields(outcome: RunOutcome, csv: CsvArtifact, toFloat: string -> Option<real>)
    ensures var res := AttachRunError(Eco2aiFields(csv, toFloat), RunError(outcome));
            "error" !in res && ("run_error" in res <==> outcome.Raised?)
    ensures var res := AttachRunError(Eco2aiFields(csv, toFloat), RunError(outcome));
            LastRow(csv).None? ==>
              PyGet(JObj(res), "duration_s") == JNull && PyGet(JObj(res), "energy_kwh") == JNull
              && PyGet(JObj(res), "emissions_kg") == JNull && PyGet(JObj(res), "co2eq_g") == JNull
              && PyGet(JObj(res), "country") == JNull
    ensures var res := AttachRunError(Eco2aiFields(csv, toFloat), RunError(outcome));
            LastRow(csv).Some? ==>
              var row := LastRow(csv).value;
              var kg := FFloat(Get(row, "CO2_emissions(kg)"), None, toFloat);
              PyGet(JObj(res), "duration_s") == OptNum(FFloat(Get(row, "duration(s)"), None, toFloat))
              && PyGet(JObj(res), "energy_kwh") == OptNum(FFloat(Get(row, "power_consumption(kWTh)"), None, toFloat))
              && PyGet(JObj(res), "emissions_kg") == OptNum(kg)
              && PyGet(JObj(res), "co2eq_g") == OptNum(if kg.Some? then Some(kg.value * 1000.0) else None)
              && PyGet(JObj(res), "country") == CountryOf(row)
  {
    var data := Eco2aiFields(csv, toFloat);
    var e := RunError(outcome);
    if LastRow(csv).None? {
      assert data == Eco2aiDict(JNull, JNull, JNull, JNull, JNull);
    }
    LemmaAttachKeeps(data, e, "error");
    LemmaAttachKeeps(data, e, "duration_s");
    LemmaAttachKeeps(data, e, "energy_kwh");
    LemmaAttachKeeps(data, e, "co2eq_g");
    LemmaAttachKeeps(data, e, "emissions_kg");
    LemmaAttachKeeps(data, e, "country");
  }

  // ------------------------------------------------------- the Tracarbon wrapper

  /** The wrapper's process: it could not be run (the exception text), or it ran and its
      output was captured. */
  datatype WrapperRun = RunFailed(message: string) | Ran(stdout: string, stderr: string)

  const WrapperMissingNotes := "Wrapper tracarbon-api.py introuvable. Place-le dans ./src/ ou à côté de app.py."

  /** Where the wrapper is looked for, next to app.py. */
  function WrapperCandidates(here: string): seq<string> {
    [here + "/src/tracarbon-api.py", here + "/tracarbon-api.py"]
  }

  /** What the app makes of the wrapper's captured output: the payload when it is a JSON
      object, `tracarbon_invalid_json` for other JSON, `tracarbon_no_json` otherwise. */
  function ClassifyWrapperOutput(stdout: string, stderr: string, parse: string -> Option<Json>): (r: map<string, Json>)
    ensures var out := PyStrip(stdout);
            var p := parse(out);
            (p.Some? && p.value.JObj? ==> r == p.value.fields)
            && (p.Some? && !p.value.JObj? ==>
                  r == map["error" := JStr("tracarbon_invalid_json"), "notes" := JStr(Take(out, 400))])
            && (p.None? ==>
                  r == map["error" := JStr("tracarbon_no_json"),
                           "notes" := JStr(Take(if stderr != "" then stderr else out, 400))])
  {
    var out := PyStrip(stdout);
    var p := parse(out);
    if p.Some? then
      if p.value.JObj? then p.value.fields
      else map["error" := JStr("tracarbon_invalid_json"), "notes" := JStr(Take(out, 400))]
    else map["error" := JStr("tracarbon_no_json"), "notes" := JStr(Take(if stderr != "" then stderr else out, 400))]
  }

  /** An output the app could not use yields an error whose notes are at most 400
      characters long. */
  lemma LemmaWrapperNotesBounded(stdout: string, stderr: string, parse: string -> Option<Json>)
    requires var p := parse(PyStrip(stdout)); !(p.Some? && p.value.JObj?)
    ensures var r := ClassifyWrapperOutput(stdout, stderr, parse);
            "error" in r && "notes" in r && r["notes"].JStr? && |r["notes"].s| <= 400
  {
  }

  /** `measure_with_tracarbon_via_wrapper`: the first existing wrapper script is run;
      `run` gives what running a script produced. */
  function TracarbonViaWrapper(here: string, isFile: string -> bool, run: string -> WrapperRun,
                               parse: string -> Option<Json>): (r: map<string, Json>)
    ensures FirstWhere(WrapperCandidates(here), isFile).None? ==>
              r == map["error" := JStr("tracarbon_wrapper_missing"), "notes" := JStr(WrapperMissingNotes)]
    ensures var script := FirstWhere(WrapperCandidates(here), isFile);
            script.Some? && run(script.value).RunFailed? ==>
              r == map["error" := JStr("tracarbon_wrapper_failed"), "notes" := JStr(run(script.value).message)]
    ensures var script := FirstWhere(WrapperCandidates(here), isFile);
            script.Some? && run(script.value).Ran? ==>
              r == ClassifyWrapperOutput(run(script.value).stdout, run(script.value).stderr, parse)
  {
    var script := FirstWhere(WrapperCandidates(here), isFile);
    if script.None? then
      map["error" := JStr("tracarbon_wrapper_missing"), "notes" := JStr(WrapperMissingNotes)]
    else
      match run(script.value)
      case RunFailed(msg) => map["error" := JStr("tracarbon_wrapper_failed"), "notes" := JStr(msg)]
      case Ran(out, err) => ClassifyWrapperOutput(out, err, parse)
  }

  /** The wrapper under src/ is preferred; the copy next to app.py is used only when the
      first one does not exist. */
  lemma LemmaWrapperLookupOrder(here: string, isFile: string -> bool)
    ensures isFile(here + "/src/tracarbon-api.py") ==>
              FirstWhere(WrapperCandidates(here), isFile) == Some(here + "/src/tracarbon-api.py")
    ensures !isFile(here + "/src/tracarbon-api.py") && isFile(here + "/tracarbon-api.py") ==>
              FirstWhere(WrapperCandidates(here), isFile) == Some(here + "/tracarbon-api.py")
    ensures !isFile(here + "/src/tracarbon-api.py") && !isFile(here + "/tracarbon-api.py") ==>
              FirstWhere(WrapperCandidates(here), isFile).None?
  {
    var c := WrapperCandidates(here);
    if !isFile(c[0]) && isFile(c[1]) {
      assert FirstIndex(c, isFile) == Some(1);
    }
  }

  // ------------------------------------------------------------- the result card

  datatype Headline = HeadlineKg(text: KgText) | HeadlineUnavailable
  datatype GramsText = Grams(g: real) | NoGrams

  /** What `_fmt_num(x, f)` shows: the dash for None, `f(x)` for a number (a bool formats as
      one), and `str(x)` when the format raises, as it does for any other value. */
  datatype NumText = NumDash | NumFormatted(v: real) | NumStr(x: Json)

  function FmtNumText(x: Json): (t: NumText)
    ensures t.NumDash? <==> x == JNull
    ensures t.NumFormatted? <==> PyNumber(x).Some?
    ensures t.NumFormatted? ==> PyNumber(x) == Some(t.v)
    ensures t.NumStr? ==> t.x == x
  {
    if x == JNull then NumDash
    else if PyNumber(x).Some? then NumFormatted(PyNumber(x).value)
    else NumStr(x)
  }

  /** The result card: the headline, the grams figure, the duration and energy figures, the
      per-component energies present and the context entries. */
  datatype Card = Card(headline: Headline, grams: GramsText, duration: NumText, energy: NumText,
                       extras: seq<(string, real)>, context: seq<(string, Json)>)

  /** The headline in kilograms: `emissions_kg` if it is a number, else `co2eq_g / 1000`. */
  function HeadlineOf(res: map<string, Json>): (h: Headline)
    ensures var kg := PyNumber(PyGet(JObj(res), "emissions_kg"));
            var g := PyNumber(PyGet(JObj(res), "co2eq_g"));
            (kg.Some? ==> h == HeadlineKg(Co2FmtKg(kg)))
            && (kg.None? && g.Some? ==> h == HeadlineKg(Co2FmtKg(Some(g.value / 1000.0))))
            && (kg.None? && g.None? <==> h.HeadlineUnavailable?)
  {
    var kg := PyNumber(PyGet(JObj(res), "emissions_kg"));
    var g := PyNumber(PyGet(JObj(res), "co2eq_g"));
    if kg.Some? then HeadlineKg(Co2FmtKg(kg))
    else if g.Some? then HeadlineKg(Co2FmtKg(Some(g.value / 1000.0)))
    else HeadlineUnavailable
  }

  /** The grams figure: `co2eq_g` if it is a number, else `emissions_kg * 1000`. */
  function GramsOf(res: map<string, Json>): (t: GramsText)
    ensures var kg := PyNumber(PyGet(JObj(res), "emissions_kg"));
            var g := PyNumber(PyGet(JObj(res), "co2eq_g"));
            (g.Some? ==> t == Grams(g.value))
            && (g.None? && kg.Some? ==> t == Grams(kg.value * 1000.0))
            && (g.None? && kg.None? <==> t.NoGrams?)
  {
    var kg := PyNumber(PyGet(JObj(res), "emissions_kg"));
    var g := PyNumber(PyGet(JObj(res), "co2eq_g"));
    if g.Some? then Grams(g.value)
    else if kg.Some? then Grams(kg.value * 1000.0)
    else NoGrams
  }

  function HeadlineKgValue(h: Headline): Option<real> {
    if h.HeadlineKg? then
      match h.text
      case NoKg => None
      case KgScientific(v) => Some(v)
      case KgFixed(v) => Some(v)
    else None
  }

  /** The headline and the grams figure show the same quantity whenever the result has only
      one of the two numbers, or two that agree; both are missing together. */
  lemma LemmaHeadlineGramsAgree(res: map<string, Json>)
    requires var kg := PyNumber(PyGet(JObj(res), "emissions_kg"));
             var g := PyNumber(PyGet(JObj(res), "co2eq_g"));
             kg.None? || g.None? || g.value == kg.value * 1000.0
    ensures HeadlineOf(res).HeadlineUnavailable? <==> GramsOf(res).NoGrams?
    ensures GramsOf(res).Grams? ==> HeadlineKgValue(HeadlineOf(res)) == Some(GramsOf(res).g / 1000.0)
  {
  }

  const ContextKeys: seq<string> := ["country", "region", "cloud_provider", "provider", "regions"]

  /** The context entries: the keys, in order, whose value is truthy. */
  function ContextSpec(keys: seq<string>, res: map<string, Json>): (c: seq<(string, Json)>)
    ensures |c| <= |keys|
    ensures forall e :: e in c ==> e.0 in keys && e.0 in res && e.1 == res[e.0] && PyTruthy(e.1)
    decreases |keys|
  {
    if keys == [] then []
    else
      var k := keys[|keys| - 1];
      ContextSpec(keys[..|keys| - 1], res) + (if PyTruthy(PyGet(JObj(res), k)) then [(k, res[k])] else [])
  }

  /** Every key with a truthy value is shown. */
  lemma {:induction false} LemmaContextComplete(keys: seq<string>, res: map<string, Json>, k: string)
    requires k in keys && PyTruthy(PyGet(JObj(res), k))
    ensures (k, res[k]) in ContextSpec(keys, res)
    decreases |keys|
  {
    var n := |keys| - 1;
    if keys[n] != k {
      var i :| 0 <= i < |keys| && keys[i] == k;
      assert keys[..n][i] == k;
      LemmaContextComplete(keys[..n], res, k);
    }
  }

  /** The context loop of `render_result`. */
  method RenderContext(res: map<string, Json>) returns (ctx: seq<(string, Json)>)
    ensures ctx == ContextSpec(ContextKeys, res)
  {
    ctx := [];
    for i := 0 to |ContextKeys|
      invariant ctx == ContextSpec(ContextKeys[..i], res)
    {
      assert ContextKeys[..i + 1][..i] == ContextKeys[..i];
      var k := ContextKeys[i];
      if k in res && PyTruthy(res[k]) {
        ctx := ctx + [(k, res[k])];
      }
    }
    assert ContextKeys[..|ContextKeys|] == ContextKeys;
  }

  /** The position of a component in the extras line. */
  function ComponentRank(name: string): int {
    if name == "CPU" then 0 else if name == "GPU" then 1 else 2
  }

  function Component(name: string, v: Option<real>): (x: seq<(string, real)>)
    ensures |x| <= 1
    ensures forall e :: e in x ==> e.0 == name
    ensures forall w :: (name, w) in x <==> v == Some(w)
  {
    if v.Some? then [(name, v.value)] else []
  }

  /** The component energies that are numbers, CPU, GPU then RAM. */
  function Extras(cpu: Option<real>, gpu: Option<real>, ram: Option<real>): (x: seq<(string, real)>)
    ensures |x| <= 3
    ensures forall i, j :: 0 <= i < j < |x| ==> ComponentRank(x[i].0) < ComponentRank(x[j].0)
  {
    Component("CPU", cpu) + Component("GPU", gpu) + Component("RAM", ram)
  }

  /** Each component is listed exactly when its energy is a number, with that value, and
      nothing else is listed. */
  lemma LemmaExtrasMembers(cpu: Option<real>, gpu: Option<real>, ram: Option<real>)
    ensures forall e :: e in Extras(cpu, gpu, ram) ==> e.0 == "CPU" || e.0 == "GPU" || e.0 == "RAM"
    ensures forall v :: ("CPU", v) in Extras(cpu, gpu, ram) <==> cpu == Some(v)
    ensures forall v :: ("GPU", v) in Extras(cpu, gpu, ram) <==> gpu == Some(v)
    ensures forall v :: ("RAM", v) in Extras(cpu, gpu, ram) <==> ram == Some(v)
  {
    var c, g, r := Component("CPU", cpu), Component("GPU", gpu), Component("RAM", ram);
    assert Extras(cpu, gpu, ram) == c + g + r;
    assert forall e :: e in c + g + r <==> e in c || e in g || e in r;
  }

  /** `render_result`: the headline, the grams text, the duration and energy figures, the
      component energies that are numbers (in the order CPU, GPU, RAM, as `Extras` states)
      and the context entries. */
  method RenderResult(res: map<string, Json>) returns (card: Card)
    ensures card.headline == HeadlineOf(res)
    ensures card.grams == GramsOf(res)
    ensures card.duration == FmtNumText(PyGet(JObj(res), "duration_s"))
    ensures card.energy == FmtNumText(PyGet(JObj(res), "energy_kwh"))
    ensures card.context == ContextSpec(ContextKeys, res)
    ensures card.extras == Extras(PyNumber(PyGet(JObj(res), "cpu_energy_kwh")), PyNumber(PyGet(JObj(res), "gpu_energy_kwh")),
                                  PyNumber(PyGet(JObj(res), "ram_energy_kwh")))
  {
    var extras: seq<(string, real)> := [];
    var cpu := PyNumber(PyGet(JObj(res), "cpu_energy_kwh"));
    var gpu := PyNumber(PyGet(JObj(res), "gpu_energy_kwh"));
    var ram := PyNumber(PyGet(JObj(res), "ram_energy_kwh"));
    if cpu.Some? { extras := extras + [("CPU", cpu.value)]; }
    if gpu.Some? { extras := extras + [("GPU", gpu.value)]; }
    if ram.Some? { extras := extras + [("RAM", ram.value)]; }
    assert extras == Component("CPU", cpu) + Component("GPU", gpu) + Component("RAM", ram);
    var ctx := RenderContext(res);
    card := Card(HeadlineOf(res), GramsOf(res), FmtNumText(PyGet(JObj(res), "duration_s")),
                 FmtNumText(PyGet(JObj(res), "energy_kwh")), extras, ctx);
  }

  // ------------------------------------------------------------- what is shown

  datatype Display =
    | ErrorBanner(message: Json, details: Option<Json>)
    | ResultView(card: Card, recommendations: seq<string>)

  /** After a run: a result with an `error` key is shown as an error with its notes (or
      "Erreur <error>") and its `stderr` when truthy; otherwise the card and the
      recommendations, with a fixed line when there are none. `show` stands for `str`. */
  method ShowRun(res: map<string, Json>, recos: seq<string>, show: Json -> string) returns (d: Display)
    ensures "error" in res <==> d.ErrorBanner?
    ensures d.ErrorBanner? ==>
              d.message == PyOr(PyGet(JObj(res), "notes"), JStr("Erreur " + show(PyGet(JObj(res), "error"))))
              && (d.details.Some? <==> PyTruthy(PyGet(JObj(res), "stderr")))
              && (d.details.Some? ==> d.details.value == res["stderr"])
    ensures d.ResultView? ==> d.card.headline == HeadlineOf(res) && d.card.grams == GramsOf(res)
    ensures d.ResultView? ==>
              d.card.duration == FmtNumText(PyGet(JObj(res), "duration_s"))
              && d.card.energy == FmtNumText(PyGet(JObj(res), "energy_kwh"))
              && d.card.extras == Extras(PyNumber(PyGet(JObj(res), "cpu_energy_kwh")), PyNumber(PyGet(JObj(res), "gpu_energy_kwh")),
                                         PyNumber(PyGet(JObj(res), "ram_energy_kwh")))
              && d.card.context == ContextSpec(ContextKeys, res)
    ensures d.ResultView? ==> (recos == [] ==> d.recommendations == ["- Aucune recommandation détectée."])
    ensures d.ResultView? && recos != [] ==>
              |d.recommendations| == |recos| && forall i :: 0 <= i < |recos| ==> d.recommendations[i] == "- " + recos[i]
  {
    if "error" in res {
      var msg := PyOr(PyGet(JObj(res), "notes"), JStr("Erreur " + show(PyGet(JObj(res), "error"))));
      var details := if PyTruthy(PyGet(JObj(res), "stderr")) then Some(res["stderr"]) else None;
      return ErrorBanner(msg, details);
    }
    var card := RenderResult(res);
    var lines: seq<string> := [];
    if recos == [] {
      lines := ["- Aucune recommandation détectée."];
    } else {
      for i := 0 to |recos|
        invariant |lines| == i
        invariant forall j :: 0 <= j < i ==> lines[j] == "- " + recos[j]
      {
        lines := lines + ["- " + recos[i]];
      }
    }
    d := ResultView(card, lines);
  }
}
