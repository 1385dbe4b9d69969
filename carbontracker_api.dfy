/**
  The CarbonTracker wrapper (src/carbontracker-api.py): runs the snippet inside one
  CarbonTracker epoch, then looks for the tracker's logs in three places and reads the last
  log's `"actual"` measurements.

  The log parser is an input, `parseLogs`: for a directory it gives the list of parsed logs,
  or `ParseRaised` when parsing raised. A parser result of None is the empty list here,
  since the wrapper treats both alike. `isDir` stands for `Path.exists`.
 */
module CarbontrackerApi {
  import opened Wrappers
  import opened Values
  import opened Text
  import opened Snippet

  datatype LogParse = ParseRaised | Parsed(logs: seq<Json>)

  /** A place to look for logs; a guarded place is only parsed when it exists. */
  datatype LogDir = LogDir(path: string, guarded: bool)

  /** The three places, in the order the wrapper tries them. */
  function Candidates(logDir: string, home: string): (c: seq<LogDir>)
    ensures |c| == 3 && c[0] == LogDir(logDir, false)
    ensures c[1] == LogDir(logDir + "/carbontracker", true)
    ensures c[2] == LogDir(home + "/.carbontracker/logs", true)
  {
    [LogDir(logDir, false), LogDir(logDir + "/carbontracker", true), LogDir(home + "/.carbontracker/logs", true)]
  }

  /** A place is parsed when it is not guarded or it exists. */
  predicate Tried(d: LogDir, isDir: string -> bool) {
    !d.guarded || isDir(d.path)
  }

  /** The reference search: parse each place that is tried, in order, and stop at the first
      non-empty list of logs or at the first parse that raises. */
  function SearchSpec(cands: seq<LogDir>, isDir: string -> bool, parseLogs: string -> LogParse): LogParse
    decreases |cands|
  {
    if cands == [] then Parsed([])
    else if !Tried(cands[0], isDir) then SearchSpec(cands[1..], isDir, parseLogs)
    else
      var p := parseLogs(cands[0].path);
      if p.ParseRaised? || p.logs != [] then p else SearchSpec(cands[1..], isDir, parseLogs)
  }

  /** The search yields a non-empty list only from the first place that was tried and gave
      logs, every place tried before it having given none; a parse that raises ends the search
      in the same way, no later place being tried; it yields no logs exactly when every place
      tried gave none. */
  lemma {:induction false} LemmaSearchSpec(cands: seq<LogDir>, isDir: string -> bool, parseLogs: string -> LogParse)
    ensures var r := SearchSpec(cands, isDir, parseLogs);
            r.Parsed? && r.logs != [] ==>
              exists k :: 0 <= k < |cands| && Tried(cands[k], isDir) && parseLogs(cands[k].path) == r
                          && forall j :: 0 <= j < k && Tried(cands[j], isDir) ==> parseLogs(cands[j].path) == Parsed([])
    ensures var r := SearchSpec(cands, isDir, parseLogs);
            r.ParseRaised? ==>
              exists k :: 0 <= k < |cands| && Tried(cands[k], isDir) && parseLogs(cands[k].path).ParseRaised?
                          && forall j :: 0 <= j < k && Tried(cands[j], isDir) ==> parseLogs(cands[j].path) == Parsed([])
    ensures SearchSpec(cands, isDir, parseLogs) == Parsed([]) <==>
              forall j :: 0 <= j < |cands| && Tried(cands[j], isDir) ==> parseLogs(cands[j].path) == Parsed([])
    decreases |cands|
  {
    if cands != [] {
      var rest := cands[1..];
      LemmaSearchSpec(rest, isDir, parseLogs);
      assert forall j :: 1 <= j < |cands| ==> cands[j] == rest[j - 1];
      var r := SearchSpec(cands, isDir, parseLogs);
      var p := parseLogs(cands[0].path);
      if Tried(cands[0], isDir) && (p.ParseRaised? || p.logs != []) {
        assert r == p;
        assert Tried(cands[0], isDir) && parseLogs(cands[0].path) == r;
      } else {
        assert r == SearchSpec(rest, isDir, parseLogs);
        if r != Parsed([]) {
          var k :| 0 <= k < |rest| && Tried(rest[k], isDir) && parseLogs(rest[k].path) == r
                   && forall j :: 0 <= j < k && Tried(rest[j], isDir) ==> parseLogs(rest[j].path) == Parsed([]);
          assert Tried(cands[k + 1], isDir) && parseLogs(cands[k + 1].path) == r;
        }
        if r == Parsed([]) {
          forall j | 0 <= j < |cands| && Tried(cands[j], isDir)
            ensures parseLogs(cands[j].path) == Parsed([])
          {
            if j > 0 {
              assert cands[j] == rest[j - 1];
            }
          }
        }
      }
    }
  }

  /** The wrapper's three successive fallbacks: the log directory itself, its
      `carbontracker` sub-directory when no logs were found and it exists, then
      `~/.carbontracker/logs` when still no logs were found and it exists. */
  method SearchLogs(logDir: string, home: string, isDir: string -> bool, parseLogs: string -> LogParse)
    returns (r: LogParse)
    ensures r == SearchSpec(Candidates(logDir, home), isDir, parseLogs)
  {
    ghost var c := Candidates(logDir, home);
    assert c[1..][1..] == c[2..] && c[2..][1..] == [];
    assert c[2..][0] == c[2] && c[1..][0] == c[1];
    assert SearchSpec(c[2..][1..], isDir, parseLogs) == Parsed([]);
    ghost var third := SearchSpec(c[2..], isDir, parseLogs);
    assert third == (if Tried(c[2], isDir) then parseLogs(c[2].path) else Parsed([]));
    ghost var second := SearchSpec(c[1..], isDir, parseLogs);
    assert second == (if !Tried(c[1], isDir) then third
                      else if parseLogs(c[1].path).ParseRaised? || parseLogs(c[1].path).logs != [] then parseLogs(c[1].path)
                      else third);
    r := parseLogs(logDir);
    if r.ParseRaised? {
      return;
    }
    var sub := logDir + "/carbontracker";
    if r.logs == [] && isDir(sub) {
      r := parseLogs(sub);
      if r.ParseRaised? {
        return;
      }
    }
    if r.logs == [] {
      var homeDefault := home + "/.carbontracker/logs";
      if isDir(homeDefault) {
        r := parseLogs(homeDefault);
      }
    }
  }

  /** Logs found in the log directory itself end the search: no fallback is consulted. */
  lemma LemmaFirstPlaceWins(logDir: string, home: string, isDir: string -> bool, parseLogs: string -> LogParse)
    requires parseLogs(logDir).Parsed? && parseLogs(logDir).logs != []
    ensures SearchSpec(Candidates(logDir, home), isDir, parseLogs) == parseLogs(logDir)
  {
  }

  /** `(last or {}).get("actual") or {}`; None when a `.get` is made on something that is not
      a dictionary, which raises. */
  function ActualOf(last: Json): (r: Option<map<string, Json>>)
    ensures !PyTruthy(last) || (last.JObj? && !PyTruthy(PyGet(last, "actual"))) ==> r == Some(map[])
    ensures last.JObj? && PyGet(last, "actual").JObj? ==> r == Some(PyGet(last, "actual").fields)
    ensures PyTruthy(last) && !last.JObj? ==> r.None?
  {
    var base := PyOr(last, JObj(map[]));
    if !base.JObj? then None
    else
      var a := PyOr(PyGet(base, "actual"), JObj(map[]));
      if a.JObj? then Some(a.fields) else None
  }

  /** `float(v) if v is not None else None` on `actual.get(key)`: Some(None) for a missing or
      None value, Some(Some(x)) for a value that converts, None when `float` raises. */
  function Conv(actual: map<string, Json>, key: string, toFloat: string -> Option<real>): (r: Option<Option<real>>)
    ensures PyGet(JObj(actual), key) == JNull ==> r == Some(None)
    ensures r.Some? && r.value.Some? ==> r.value == PyFloat(actual[key], toFloat)
    ensures key in actual && actual[key] != JNull && PyFloat(actual[key], toFloat).Some? ==>
              r == Some(PyFloat(actual[key], toFloat))
    ensures key in actual && actual[key] != JNull && PyFloat(actual[key], toFloat).None? ==> r.None?
  {
    var v := PyGet(JObj(actual), key);
    if v == JNull then Some(None)
    else
      var f := PyFloat(v, toFloat);
      if f.Some? then Some(f) else None
  }

  /** The measured fields of the printed dictionary. */
  datatype Measures = Measures(duration: Option<real>, energy: Option<real>, co2g: Option<real>, kg: Option<real>)

  const NoMeasures := Measures(None, None, None, None)

  const DurationKey := "duration (s)"
  const EnergyKey := "energy (kWh)"
  const Co2Key := "co2eq (g)"

  /** What the log-reading `try` block leaves in the dictionary. The conversions run one after
      the other and each result is stored before the next one starts, so a conversion that
      raises keeps the fields stored before it. */
  function FromLogs(s: LogParse, toFloat: string -> Option<real>): (m: Measures)
    ensures m.kg.Some? <==> m.co2g.Some?
    ensures m.co2g.Some? ==> m.kg.value == m.co2g.value / 1000.0
    ensures s.ParseRaised? || s.logs == [] ==> m == NoMeasures
  {
    if s.ParseRaised? || s.logs == [] then NoMeasures
    else
      var actual := ActualOf(s.logs[|s.logs| - 1]);
      if actual.None? then NoMeasures
      else
        var d := Conv(actual.value, DurationKey, toFloat);
        if d.None? then NoMeasures
        else
          var e := Conv(actual.value, EnergyKey, toFloat);
          if e.None? then Measures(d.value, None, None, None)
          else
            var c := Conv(actual.value, Co2Key, toFloat);
            if c.None? then Measures(d.value, e.value, None, None)
            else Measures(d.value, e.value, c.value, if c.value.Some? then Some(c.value.value / 1000.0) else None)
  }

  /** When all three values convert, each field is the conversion of its key of the last log's
      `"actual"` entry (None for a missing key), and only the last log matters. */
  lemma LemmaFromLogsAllConvert(earlier: seq<Json>, last: Json, a: map<string, Json>, toFloat: string -> Option<real>)
    requires ActualOf(last) == Some(a)
    requires Conv(a, DurationKey, toFloat).Some? && Conv(a, EnergyKey, toFloat).Some? && Conv(a, Co2Key, toFloat).Some?
    ensures var m := FromLogs(Parsed(earlier + [last]), toFloat);
            m.duration == Conv(a, DurationKey, toFloat).value
            && m.energy == Conv(a, EnergyKey, toFloat).value
            && m.co2g == Conv(a, Co2Key, toFloat).value
            && (DurationKey !in a ==> m.duration.None?)
            && (EnergyKey !in a ==> m.energy.None?)
            && (Co2Key !in a ==> m.co2g.None? && m.kg.None?)
  {
    var logs := earlier + [last];
    assert logs[|logs| - 1] == last;
  }

  /** A failure before the first value is stored (the parser raising, an `"actual"` that is
      not a dictionary, a duration that does not convert) leaves every field None. */
  lemma LemmaEarlyFailure(s: LogParse, toFloat: string -> Option<real>)
    requires s.Parsed? && s.logs != []
    requires var a := ActualOf(s.logs[|s.logs| - 1]); a.None? || Conv(a.value, DurationKey, toFloat).None?
    ensures FromLogs(s, toFloat) == NoMeasures
  {
  }

  /** A later conversion that raises keeps the earlier fields: here the duration stays set
      while the energy and carbon fields are None. */
  lemma LemmaPartialOnRaise()
    ensures var last := JObj(map["actual" := JObj(map[DurationKey := JNum(2.0), EnergyKey := JStr("n/a")])]);
            FromLogs(Parsed([last]), s => None) == Measures(Some(2.0), None, None, None)
  {
    var a := map[DurationKey := JNum(2.0), EnergyKey := JStr("n/a")];
    var last := JObj(map["actual" := JObj(a)]);
    assert PyGet(last, "actual") == JObj(a);
    assert ActualOf(last) == Some(a);
    assert Conv(a, DurationKey, s => None) == Some(Some(2.0));
    assert Conv(a, EnergyKey, s => None).None?;
  }

  datatype CarbontrackerRecord = CarbontrackerRecord(m: Measures, runError: Option<string>)

  /** The log-reading block, step by step: each field is stored as soon as it is converted,
      and the first conversion that raises ends the block. */
  method ReadMeasures(s: LogParse, toFloat: string -> Option<real>) returns (m: Measures)
    ensures m == FromLogs(s, toFloat)
  {
    m := NoMeasures;
    if s.ParseRaised? || s.logs == [] {
      return;
    }
    var last := s.logs[|s.logs| - 1];
    var actual := ActualOf(last);
    if actual.None? {
      return;
    }
    var d := Conv(actual.value, DurationKey, toFloat);
    if d.None? {
      return;
    }
    m := m.(duration := d.value);
    var e := Conv(actual.value, EnergyKey, toFloat);
    if e.None? {
      return;
    }
    m := m.(energy := e.value);
    var c := Conv(actual.value, Co2Key, toFloat);
    if c.None? {
      return;
    }
    m := m.(co2g := c.value);
    m := m.(kg := if m.co2g.Some? then Some(m.co2g.value / 1000.0) else None);
  }

  /** `run_and_track_file`: the logs searched, read, and the error of a snippet that raised. */
  method RunAndTrackFile(outcome: RunOutcome, logDir: string, home: string, isDir: string -> bool,
                         parseLogs: string -> LogParse, toFloat: string -> Option<real>)
    returns (data: CarbontrackerRecord)
    ensures data.m == FromLogs(SearchSpec(Candidates(logDir, home), isDir, parseLogs), toFloat)
    ensures data.m.kg.Some? <==> data.m.co2g.Some?
    ensures data.m.co2g.Some? ==> data.m.kg.value == data.m.co2g.value / 1000.0
    ensures data.runError == RunError(outcome)
  {
    var logs := SearchLogs(logDir, home, isDir, parseLogs);
    var m := ReadMeasures(logs, toFloat);
    data := CarbontrackerRecord(m, None);
    if outcome.Raised? {
      data := data.(runError := Some(PyStrip(outcome.traceback)));
    }
  }

  function ToJson(d: CarbontrackerRecord): Json {
    JObj(AttachRunError(map["duration_s" := OptNum(d.m.duration), "energy_kwh" := OptNum(d.m.energy),
                            "co2eq_g" := OptNum(d.m.co2g), "emissions_kg" := OptNum(d.m.kg)],
                        d.runError))
  }
}
