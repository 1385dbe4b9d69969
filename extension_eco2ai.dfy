/**
  The Eco2AI editor extension (extension-eco2ai.ts): the interpreter it runs, the install
  tip shown when Eco2AI is missing from that interpreter, the report of `buildReport`, and
  the answer posted for one analysis request. The detectors' results are inputs.
 */
module ExtensionEco2ai {
  import opened Wrappers
  import opened Values
  import opened Text
  import opened Suggestions
  import opened ExtensionShared
  import opened ExtensionPython

  function Field(m: Json, key: string): Shown {
    FmtNum(JsProp(m, key))
  }

  /** The payload's `stderr` when it is a string that is not blank, trimmed. */
  function PayloadNotes(m: Json): (r: Option<string>)
    ensures r.Some? <==> JsProp(m, "stderr").Some? && JsProp(m, "stderr").value.JStr?
                         && JsTrim(JsProp(m, "stderr").value.s) != ""
    ensures r.Some? ==> r.value == JsTrim(JsProp(m, "stderr").value.s)
  {
    var s := JsProp(m, "stderr");
    if s.Some? && s.value.JStr? && JsTrim(s.value.s) != "" then Some(JsTrim(s.value.s)) else None
  }

  /** The lines of `buildReport`, in the order they are pushed. */
  function Eco2aiLines(m: Json, h: Headline, info: string, lang: string, fws: seq<string>, smells: seq<string>): seq<Line> {
    var head := [Language(lang), Frameworks(fws), Interpreter(info), Footprint(h)];
    var notes := PayloadNotes(m);
    if JsTruthy(m) then
      head
      + Opt(!ShowsDash(Field(m, "duration_s")), Duration(Field(m, "duration_s")))
      + Opt(!ShowsDash(Field(m, "energy_kwh")), Energy(Field(m, "energy_kwh")))
      + Opt(!ShowsDash(Field(m, "co2eq_g")), Co2(Field(m, "co2eq_g")))
      + Opt(notes.Some?, Notes([notes.GetOr("")]))
      + [Smells(smells)]
    else
      head + [Smells(smells)]
  }

  /** `buildReport`: header lines (with the interpreter), the duration, energy and CO₂ lines
      of a truthy payload that are not the dash, its trimmed stderr as a note, the smells
      line, and the quick suggestions. */
  method BuildReport(m: Json, h: Headline, info: string, lang: string, fws: seq<string>, smells: seq<string>)
    returns (rep: Report)
    ensures rep.lines == Eco2aiLines(m, h, info, lang, fws, smells)
    ensures rep.recos == Applicable(QuickRules, smells, fws)
  {
    var recos := QuickSuggestions(smells, fws);
    var head := [Language(lang), Frameworks(fws), Interpreter(info), Footprint(h)];
    var lines := head;
    if JsTruthy(m) {
      var duration := Field(m, "duration_s");
      var energy := Field(m, "energy_kwh");
      var co2g := Field(m, "co2eq_g");
      var notes := PayloadNotes(m);
      if !ShowsDash(duration) { lines := lines + [Duration(duration)]; }
      assert lines == head + Opt(!ShowsDash(duration), Duration(duration));
      if !ShowsDash(energy) { lines := lines + [Energy(energy)]; }
      assert lines == head + Opt(!ShowsDash(duration), Duration(duration))
                     + Opt(!ShowsDash(energy), Energy(energy));
      if !ShowsDash(co2g) { lines := lines + [Co2(co2g)]; }
      assert lines == head + Opt(!ShowsDash(duration), Duration(duration))
                     + Opt(!ShowsDash(energy), Energy(energy)) + Opt(!ShowsDash(co2g), Co2(co2g));
      var stderr := JsProp(m, "stderr");
      if stderr.Some? && stderr.value.JStr? && JsTrim(stderr.value.s) != "" {
        lines := lines + [Notes([JsTrim(stderr.value.s)])];
      }
      assert lines == head + Opt(!ShowsDash(duration), Duration(duration))
                     + Opt(!ShowsDash(energy), Energy(energy)) + Opt(!ShowsDash(co2g), Co2(co2g))
                     + Opt(notes.Some?, Notes([notes.GetOr("")]));
    }
    lines := lines + [Smells(smells)];
    rep := Report(lines, recos);
  }

  /** A Notes line appears exactly when the payload is truthy and its `stderr` is a string
      that is not blank; the note is that string trimmed. */
  lemma LemmaNotesLine(m: Json, h: Headline, info: string, lang: string, fws: seq<string>, smells: seq<string>)
    ensures (exists ns :: Notes(ns) in Eco2aiLines(m, h, info, lang, fws, smells))
            <==> JsTruthy(m) && PayloadNotes(m).Some?
    ensures JsTruthy(m) && PayloadNotes(m).Some? ==>
              Notes([PayloadNotes(m).value]) in Eco2aiLines(m, h, info, lang, fws, smells)
  {
    var ls := Eco2aiLines(m, h, info, lang, fws, smells);
    if JsTruthy(m) && PayloadNotes(m).Some? {
      assert Notes([PayloadNotes(m).value]) in ls;
    } else {
      forall ns | true ensures Notes(ns) !in ls {
      }
    }
  }

  /** A blank `stderr` in the payload adds no note. */
  lemma LemmaBlankStderrNoNote(m: Json, h: Headline, info: string, lang: string, fws: seq<string>, smells: seq<string>)
    requires m == JObj(map["stderr" := JStr(" \n")])
    ensures forall ns :: Notes(ns) !in Eco2aiLines(m, h, info, lang, fws, smells)
  {
    var s := " \n";
    assert IsJsSpace(s[0]) && IsJsSpace(s[1]);
    LemmaStrip(s, IsJsSpace);
    assert PayloadNotes(m).None?;
  }

  const Eco2aiPackages := "--upgrade pip eco2ai psutil"

  const Eco2aiTipHead := "Eco2AI introuvable dans l’interpréteur sélectionné."
  const Eco2aiTipTail := "Puis relance l’analyse (ou fais \"Python: Select Interpreter\")."

  /** The tip shown when the preflight check fails. */
  function Eco2aiTip(py: Interp, info: string): (r: seq<string>)
    ensures |r| == 5
    ensures r[1] == "Interpréteur : " + OrUnknown(info)
    ensures r[3] == "  " + PipCommand(py.cmd, Eco2aiPackages)
  {
    [Eco2aiTipHead,
     "Interpréteur : " + OrUnknown(info),
     "Installe-le avec :",
     "  " + PipCommand(py.cmd, Eco2aiPackages),
     Eco2aiTipTail]
  }

  /** The answer to one `analyzeCode` message: blank code is refused before anything runs;
      otherwise the interpreter is resolved, a failed preflight gives the install tip, a
      failed run gives the rejection message, and a completed run gives the report. */
  method Respond(code: string, ws: string, v1: Option<string>, v0: Option<string>, isWin: bool,
                 isFile: string -> bool, preflight: ExecResult, run: ExecResult,
                 parse: string -> Option<Json>, parseFloat: string -> JsNumber,
                 lang: string, fws: seq<string>, smells: seq<string>)
    returns (resp: Response)
    ensures BlankCode(code) ==> resp == Message(PasteCodeMessage)
    ensures !BlankCode(code) ==>
              var py := ResolvePython(ws, PythonSetting(v1, v0, isFile), isWin, isFile);
              var info := InterpInfo(py);
              (!PreflightOk(preflight) ==> resp == Message(ToolMissingBlock(Eco2aiTip(py, info))))
              && (PreflightOk(preflight) && run.ExecFailed? ==>
                    resp == Message("Analyse indisponible : " + run.message))
              && (PreflightOk(preflight) && run.ExecOk? ==>
                    var p := ParsePayload(JsTrim(run.stdout), parse, parseFloat);
                    resp.Analysis?
                    && resp.report.lines == Eco2aiLines(p.m, HeadlineOf(p.kg, JsTrim(run.stderr), CarbonUnavailable),
                                                        info, lang, fws, smells)
                    && resp.report.recos == Applicable(QuickRules, smells, fws))
  {
    if JsTrim(code) == "" {
      return Message(PasteCodeMessage);
    }
    var py := ResolvePython(ws, PythonSetting(v1, v0, isFile), isWin, isFile);
    var info := InterpInfo(py);
    if !(preflight.ExecOk? && Contains(preflight.stdout, "OK")) {
      return Message(ToolMissingBlock(Eco2aiTip(py, info)));
    }
    match run
    case ExecFailed(message) =>
      resp := Message("Analyse indisponible : " + message);
    case ExecOk(stdout, stderr) =>
      var out := JsTrim(stdout);
      var err := JsTrim(stderr);
      var p := ParsePayload(out, parse, parseFloat);
      var headline := HeadlineOf(p.kg, err, CarbonUnavailable);
      var rep := BuildReport(p.m, headline, info, lang, fws, smells);
      resp := Analysis(rep);
  }
}
