/**
  The Tracarbon editor extension (extension-tracarbon.ts): the parse of the wrapper's output
  inside the `execFile` callback, the report it assembles (with its own suggestion table and
  notes), the install tip, and the answer posted for one analysis request. The detectors'
  results are inputs.

  The callback's parse assigns `m = parsed` before reading `parsed["emissions_kg"]`. For the
  output `null` the read throws, the `catch` keeps `m` null and the first `m["duration_s"]`
  afterwards throws inside the callback, where nothing catches it: no result is posted.
  `ParseOutputAsWritten` keeps that behaviour, `LemmaNullOutputPostsNothing` exhibits it and
  the callback and the answer follow it; `ParseOutput` is the intended parse, which treats a
  parsed `null` like a failed parse as the other three extensions do.
 */
module ExtensionTracarbon {
  import opened Wrappers
  import opened Values
  import opened Text
  import opened Suggestions
  import opened ExtensionShared
  import opened ExtensionPython

  const TracarbonUnavailable := "Erreur lors de l’analyse"

  /** The figure of the `catch` branch: `parseFloat(out)` unless it is NaN (infinities pass). */
  function CatchKg(out: string, parseFloat: string -> JsNumber): (r: JsNumber)
    ensures parseFloat(out).NaN? ==> r.NaN?
    ensures !parseFloat(out).NaN? ==> r == parseFloat(out)
    ensures parseFloat(out).PosInf? ==> r.PosInf?
  {
    if parseFloat(out).NaN? then NaN else parseFloat(out)
  }

  /** The callback's parse as written: `m` is the parsed value even when it is `null`. */
  function ParseOutputAsWritten(out: string, parse: string -> Option<Json>, parseFloat: string -> JsNumber): (r: Payload)
    ensures parse(out).Some? ==> r.m == parse(out).value
    ensures parse(out).None? ==> r.m == JObj(map[])
    ensures parse(out).Some? && parse(out).value != JNull ==>
              r.kg == (if EmissionsKg(r.m).Some? then Finite(EmissionsKg(r.m).value) else NaN)
    ensures parse(out).None? || parse(out).value == JNull ==> r.kg == CatchKg(out, parseFloat)
  {
    var p := parse(out);
    if p.Some? then
      if p.value != JNull then
        var e := EmissionsKg(p.value);
        Payload(p.value, if e.Some? then Finite(e.value) else NaN)
      else
        Payload(p.value, CatchKg(out, parseFloat))
    else
      Payload(JObj(map[]), CatchKg(out, parseFloat))
  }

  /** The callback reaches `postMessage` only when reading `m["duration_s"]` does not throw,
      that is when `m` is not null. */
  predicate PostsResult(p: Payload) {
    p.m != JNull
  }

  /** The output `null` parses to `null`; the callback then throws before posting, and the
      webview never receives a result. */
  lemma LemmaNullOutputPostsNothing(parse: string -> Option<Json>, parseFloat: string -> JsNumber)
    requires parse("null") == Some(JNull)
    ensures !PostsResult(ParseOutputAsWritten("null", parse, parseFloat))
  {
  }

  /** The callback's parse with a parsed `null` treated like a failed parse: `m` stays `{}`,
      so every output leads to a posted result. Otherwise it is the parse as written. */
  function ParseOutput(out: string, parse: string -> Option<Json>, parseFloat: string -> JsNumber): (r: Payload)
    ensures PostsResult(r)
    ensures parse(out).Some? && parse(out).value != JNull ==> r == ParseOutputAsWritten(out, parse, parseFloat)
    ensures parse(out).None? || parse(out).value == JNull ==> r == Payload(JObj(map[]), CatchKg(out, parseFloat))
  {
    var p := parse(out);
    if p.Some? && p.value != JNull then
      var e := EmissionsKg(p.value);
      Payload(p.value, if e.Some? then Finite(e.value) else NaN)
    else
      Payload(JObj(map[]), CatchKg(out, parseFloat))
  }

  /** Against the parse of the other extensions: as written, the payload is the same except
      for the output `null`, which is kept here and replaced by `{}` there; the figure is the
      same unless `parseFloat` yields an infinity, which only this one accepts. The intended
      parse always gives the other extensions' payload. */
  lemma LemmaParseAgainstOthers(out: string, parse: string -> Option<Json>, parseFloat: string -> JsNumber)
    ensures parse(out) != Some(JNull) ==>
              ParseOutputAsWritten(out, parse, parseFloat).m == ParsePayload(out, parse, parseFloat).m
    ensures parse(out) == Some(JNull) ==>
              ParseOutputAsWritten(out, parse, parseFloat).m == JNull && ParsePayload(out, parse, parseFloat).m == JObj(map[])
    ensures !parseFloat(out).PosInf? && !parseFloat(out).NegInf? ==>
              ParseOutputAsWritten(out, parse, parseFloat).kg == ParsePayload(out, parse, parseFloat).kg
    ensures ParseOutput(out, parse, parseFloat).m == ParsePayload(out, parse, parseFloat).m
    ensures !parseFloat(out).PosInf? && !parseFloat(out).NegInf? ==>
              ParseOutput(out, parse, parseFloat) == ParsePayload(out, parse, parseFloat)
    ensures parse(out).None? && parseFloat(out).PosInf? ==>
              ParseOutput(out, parse, parseFloat).kg == PosInf && ParsePayload(out, parse, parseFloat).kg == NaN
  {
  }

  function Field(m: Json, key: string): Shown {
    FmtNum(JsProp(m, key))
  }

  /** The notes: the trimmed process stderr when not empty, then the payload's `stderr` when
      it is a non-empty string (untrimmed). */
  function NotesOf(err: string, m: Json): (r: seq<string>)
    ensures |r| <= 2
    ensures err != "" ==> |r| > 0 && r[0] == err
    ensures r == [] <==> err == "" && !(JsProp(m, "stderr").Some? && JsProp(m, "stderr").value.JStr?
                                        && JsProp(m, "stderr").value.s != "")
  {
    var s := JsProp(m, "stderr");
    (if err != "" then [err] else [])
    + (if s.Some? && s.value.JStr? && s.value.s != "" then [s.value.s] else [])
  }

  /** The lines of the callback, in the order they are pushed; the Notes line comes after
      the smells line. */
  function TracarbonLines(m: Json, h: Headline, err: string, info: string, lang: string,
                          fws: seq<string>, smells: seq<string>): seq<Line> {
    [Language(lang), Frameworks(fws), Interpreter(info), Footprint(h)]
    + Opt(!ShowsDash(Field(m, "duration_s")), Duration(Field(m, "duration_s")))
    + Opt(!ShowsDash(Field(m, "energy_kwh")), Energy(Field(m, "energy_kwh")))
    + Opt(!ShowsDash(Field(m, "co2eq_g")), Co2(Field(m, "co2eq_g")))
    + [Smells(smells)]
    + Opt(NotesOf(err, m) != [], Notes(NotesOf(err, m)))
  }

  /** The parse block of the callback: `m` and `kg` are reassigned as the output is read;
      `m` takes the parsed value before its `emissions_kg` is read, and that read throws on a
      parsed `null`. */
  method ReadOutput(out: string, parse: string -> Option<Json>, parseFloat: string -> JsNumber) returns (p: Payload)
    ensures p == ParseOutputAsWritten(out, parse, parseFloat)
  {
    var m := JObj(map[]);
    var kg := NaN;
    var parsed := parse(out);
    var threw := parsed.None?;
    if parsed.Some? {
      m := parsed.value;
      if parsed.value == JNull {
        threw := true;
      } else {
        var v := JsProp(parsed.value, "emissions_kg");
        if v.Some? && v.value.JNum? {
          kg := Finite(v.value.n);
        }
      }
    }
    if threw {
      var n := parseFloat(out);
      if !n.NaN? {
        kg := n;
      }
    }
    p := Payload(m, kg);
  }

  /** The pushes of the callback: the header lines, the measures that are not the dash, the
      smells line, then the notes collected in order. */
  method PushLines(m: Json, headline: Headline, err: string, info: string, lang: string,
                   fws: seq<string>, smells: seq<string>)
    returns (lines: seq<Line>)
    ensures lines == TracarbonLines(m, headline, err, info, lang, fws, smells)
  {
    var head := [Language(lang), Frameworks(fws), Interpreter(info), Footprint(headline)];
    lines := head;
    var duration := Field(m, "duration_s");
    var energy := Field(m, "energy_kwh");
    var co2g := Field(m, "co2eq_g");
    if !ShowsDash(duration) { lines := lines + [Duration(duration)]; }
    assert lines == head + Opt(!ShowsDash(duration), Duration(duration));
    if !ShowsDash(energy) { lines := lines + [Energy(energy)]; }
    assert lines == head + Opt(!ShowsDash(duration), Duration(duration)) + Opt(!ShowsDash(energy), Energy(energy));
    if !ShowsDash(co2g) { lines := lines + [Co2(co2g)]; }
    lines := lines + [Smells(smells)];
    assert lines == head + Opt(!ShowsDash(duration), Duration(duration)) + Opt(!ShowsDash(energy), Energy(energy))
                   + Opt(!ShowsDash(co2g), Co2(co2g)) + [Smells(smells)];
    var notes := [];
    if err != "" { notes := notes + [err]; }
    var fromJson := JsProp(m, "stderr");
    if fromJson.Some? && fromJson.value.JStr? && fromJson.value.s != "" { notes := notes + [fromJson.value.s]; }
    assert notes == NotesOf(err, m);
    if |notes| > 0 { lines := lines + [Notes(notes)]; }
  }

  /** The `execFile` callback: trims both streams, parses the output, picks the headline
      (with the fallback "Erreur lors de l’analyse") and pushes the report lines and notes.
      None when the callback throws at `m["duration_s"]` (a parsed `null`) and so never
      reaches its `postMessage`. */
  method HandleOutput(stdout: string, stderr: string, parse: string -> Option<Json>, parseFloat: string -> JsNumber,
                      info: string, lang: string, fws: seq<string>, smells: seq<string>)
    returns (rep: Option<Report>)
    ensures var p := ParseOutputAsWritten(JsTrim(stdout), parse, parseFloat);
            (rep.None? <==> !PostsResult(p))
            && (rep.Some? ==>
                  rep.value.lines == TracarbonLines(p.m, HeadlineOf(p.kg, JsTrim(stderr), TracarbonUnavailable),
                                                    JsTrim(stderr), info, lang, fws, smells)
                  && rep.value.recos == Applicable(TracarbonRules, smells, fws))
  {
    var out := JsTrim(stdout);
    var err := JsTrim(stderr);
    var p := ReadOutput(out, parse, parseFloat);
    var recos := TracarbonSuggestionsFor(smells, fws);
    var headline := HeadlineOf(p.kg, err, TracarbonUnavailable);
    if p.m == JNull {
      return None;
    }
    var lines := PushLines(p.m, headline, err, info, lang, fws, smells);
    rep := Some(Report(lines, recos));
  }

  /** The Notes line appears exactly when there is a note, and lists the process stderr
      before the payload's. */
  lemma LemmaNotesOrder(m: Json, h: Headline, err: string, info: string, lang: string,
                        fws: seq<string>, smells: seq<string>, s: string)
    requires err != "" && s != "" && JsProp(m, "stderr") == Some(JStr(s))
    ensures Notes([err, s]) in TracarbonLines(m, h, err, info, lang, fws, smells)
  {
    assert NotesOf(err, m) == [err, s];
  }

  lemma LemmaNotesLine(m: Json, h: Headline, err: string, info: string, lang: string,
                       fws: seq<string>, smells: seq<string>)
    ensures var ls := TracarbonLines(m, h, err, info, lang, fws, smells);
            (NotesOf(err, m) != [] ==> ls[|ls| - 1] == Notes(NotesOf(err, m)) && ls[|ls| - 2] == Smells(smells))
            && (NotesOf(err, m) == [] ==> ls[|ls| - 1] == Smells(smells))
  {
  }

  /** A stderr line with an output that is not JSON still shows the figure `parseFloat`
      reads, and the stderr is kept as a note. */
  lemma LemmaPlainNumberOutput(out: string, parse: string -> Option<Json>, parseFloat: string -> JsNumber,
                               err: string, r: real)
    requires parse(out).None? && parseFloat(out) == Finite(r) && r >= 0.00001 && err != ""
    ensures var p := ParseOutputAsWritten(out, parse, parseFloat);
            HeadlineOf(p.kg, err, TracarbonUnavailable) == Fixed(Finite(r)) && NotesOf(err, p.m) == [err]
  {
  }

  const TracarbonPackage := "tracarbon"

  const TracarbonTipHead := "Tracarbon n’est pas installé dans l’interpréteur courant."
  const TracarbonTipTail := "Puis, si besoin, sélectionnez la venv via \"Python: Select Interpreter\"."

  /** The tip shown when the preflight check fails. */
  function TracarbonTip(py: Interp, info: string): (r: seq<string>)
    ensures |r| == 5
    ensures r[1] == "Interpréteur : " + OrUnknown(info)
    ensures r[3] == "  " + PipCommand(py.cmd, TracarbonPackage)
  {
    [TracarbonTipHead,
     "Interpréteur : " + OrUnknown(info),
     "Installe-le :",
     "  " + PipCommand(py.cmd, TracarbonPackage),
     TracarbonTipTail]
  }

  const UnexpectedError := "Analyse indisponible (erreur inattendue)."

  /** The answer to one `analyzeCode` message, None when nothing is posted. There is no
      blank-code test: a failure to write the temporary file gives the generic error, a
      failed preflight the install tip, and otherwise the callback's report, whatever the
      run's exit status, except for the output `null`, on which the callback throws. */
  method Respond(written: bool, ws: string, v1: Option<string>, v0: Option<string>, isWin: bool,
                 isFile: string -> bool, preflight: ExecResult, stdout: string, stderr: string,
                 parse: string -> Option<Json>, parseFloat: string -> JsNumber,
                 lang: string, fws: seq<string>, smells: seq<string>)
    returns (resp: Option<Response>)
    ensures !written ==> resp == Some(Message(UnexpectedError))
    ensures written ==>
              var py := ResolvePython(ws, PythonSetting(v1, v0, isFile), isWin, isFile);
              var info := InterpInfo(py);
              (!PreflightOk(preflight) ==> resp == Some(Message(ToolMissingBlock(TracarbonTip(py, info)))))
              && (PreflightOk(preflight) ==>
                    var p := ParseOutputAsWritten(JsTrim(stdout), parse, parseFloat);
                    (resp.None? <==> !PostsResult(p))
                    && (resp.Some? ==>
                          resp.value.Analysis?
                          && resp.value.report.lines == TracarbonLines(p.m, HeadlineOf(p.kg, JsTrim(stderr), TracarbonUnavailable),
                                                                       JsTrim(stderr), info, lang, fws, smells)
                          && resp.value.report.recos == Applicable(TracarbonRules, smells, fws)))
  {
    if !written {
      return Some(Message(UnexpectedError));
    }
    var py := ResolvePython(ws, PythonSetting(v1, v0, isFile), isWin, isFile);
    var info := InterpInfo(py);
    if !(preflight.ExecOk? && Contains(preflight.stdout, "OK")) {
      return Some(Message(ToolMissingBlock(TracarbonTip(py, info))));
    }
    var rep := HandleOutput(stdout, stderr, parse, parseFloat, info, lang, fws, smells);
    if rep.None? {
      return None;
    }
    resp := Some(Analysis(rep.value));
  }
}
