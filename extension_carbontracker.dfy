/**
  The CarbonTracker editor extension (extension-carbontracker.ts) once the wrapper has run:
  the report of `buildAnalysisBlock` and the answer posted for one analysis request. The
  detectors' results are inputs.
 */
module ExtensionCarbontracker {
  import opened Wrappers
  import opened Values
  import opened Text
  import opened Suggestions
  import opened ExtensionShared

  function Field(m: Json, key: string): Shown {
    FmtNum(JsProp(m, key))
  }

  /** The `Pays/Région` line: the country, followed by ` | region` only when the region is
      shown. */
  function PlaceOf(m: Json): Line {
    var region := Field(m, "region");
    Place(Field(m, "country"), if ShowsDash(region) then None else Some(region))
  }

  /** The line is pushed when the country or the region is shown. */
  predicate PlaceShown(m: Json) {
    !ShowsDash(Field(m, "country")) || !ShowsDash(Field(m, "region"))
  }

  /** The lines of `buildAnalysisBlock`, in the order they are pushed. */
  function CarbontrackerLines(m: Json, h: Headline, lang: string, fws: seq<string>, smells: seq<string>): seq<Line> {
    var head := [Language(lang), Frameworks(fws), Footprint(h)];
    if JsTruthy(m) then
      head
      + Opt(!ShowsDash(Field(m, "duration_s")), Duration(Field(m, "duration_s")))
      + Opt(!ShowsDash(Field(m, "energy_kwh")), Energy(Field(m, "energy_kwh")))
      + Opt(!ShowsDash(Field(m, "co2eq_g")), Co2(Field(m, "co2eq_g")))
      + Opt(PlaceShown(m), PlaceOf(m))
      + [Smells(smells)]
    else
      head + [Smells(smells)]
  }

  /** `buildAnalysisBlock`: header lines, the duration, energy, CO₂ and place lines of a
      truthy payload that are not the dash, the smells line, and the quick suggestions. */
  method BuildAnalysisBlock(m: Json, h: Headline, lang: string, fws: seq<string>, smells: seq<string>)
    returns (rep: Report)
    ensures rep.lines == CarbontrackerLines(m, h, lang, fws, smells)
    ensures rep.recos == Applicable(QuickRules, smells, fws)
  {
    var recos := QuickSuggestions(smells, fws);
    var head := [Language(lang), Frameworks(fws), Footprint(h)];
    var lines := head;
    if JsTruthy(m) {
      var duration := Field(m, "duration_s");
      var energy := Field(m, "energy_kwh");
      var co2g := Field(m, "co2eq_g");
      var country := Field(m, "country");
      var region := Field(m, "region");
      if !ShowsDash(duration) { lines := lines + [Duration(duration)]; }
      assert lines == head + Opt(!ShowsDash(duration), Duration(duration));
      if !ShowsDash(energy) { lines := lines + [Energy(energy)]; }
      assert lines == head + Opt(!ShowsDash(duration), Duration(duration))
                     + Opt(!ShowsDash(energy), Energy(energy));
      if !ShowsDash(co2g) { lines := lines + [Co2(co2g)]; }
      assert lines == head + Opt(!ShowsDash(duration), Duration(duration))
                     + Opt(!ShowsDash(energy), Energy(energy)) + Opt(!ShowsDash(co2g), Co2(co2g));
      if !ShowsDash(country) || !ShowsDash(region) {
        lines := lines + [Place(country, if !ShowsDash(region) then Some(region) else None)];
      }
      assert lines == head + Opt(!ShowsDash(duration), Duration(duration))
                     + Opt(!ShowsDash(energy), Energy(energy)) + Opt(!ShowsDash(co2g), Co2(co2g))
                     + Opt(PlaceShown(m), PlaceOf(m));
    }
    lines := lines + [Smells(smells)];
    rep := Report(lines, recos);
  }

  /** The duration, energy and CO₂ lines each appear exactly when the payload is truthy and
      the value is not the dash. */
  lemma LemmaMeasureLines(m: Json, h: Headline, lang: string, fws: seq<string>, smells: seq<string>)
    ensures Duration(Field(m, "duration_s")) in CarbontrackerLines(m, h, lang, fws, smells)
            <==> JsTruthy(m) && !ShowsDash(Field(m, "duration_s"))
    ensures Energy(Field(m, "energy_kwh")) in CarbontrackerLines(m, h, lang, fws, smells)
            <==> JsTruthy(m) && !ShowsDash(Field(m, "energy_kwh"))
    ensures Co2(Field(m, "co2eq_g")) in CarbontrackerLines(m, h, lang, fws, smells)
            <==> JsTruthy(m) && !ShowsDash(Field(m, "co2eq_g"))
  {
  }

  /** The place line appears exactly when the payload is truthy and the country or the
      region is shown; it carries the region exactly when the region is shown. */
  lemma LemmaPlaceLine(m: Json, h: Headline, lang: string, fws: seq<string>, smells: seq<string>)
    ensures PlaceOf(m) in CarbontrackerLines(m, h, lang, fws, smells) <==> JsTruthy(m) && PlaceShown(m)
    ensures PlaceOf(m).placeRegion.Some? <==> !ShowsDash(Field(m, "region"))
    ensures PlaceOf(m).placeRegion.Some? ==> PlaceOf(m).placeRegion.value == Field(m, "region")
  {
  }

  /** A country without a region gives the place line without the ` | region` part. */
  lemma LemmaCountryOnly(h: Headline, lang: string, fws: seq<string>, smells: seq<string>, c: string)
    requires c != "" && c != "—"
    ensures Place(Str(JStr(c)), None) in CarbontrackerLines(JObj(map["country" := JStr(c)]), h, lang, fws, smells)
  {
    var m := JObj(map["country" := JStr(c)]);
    assert Field(m, "country") == Str(JStr(c));
    assert Field(m, "region") == Dash;
    assert PlaceOf(m) == Place(Str(JStr(c)), None);
  }

  /** The answer to one `analyzeCode` message, as in the CodeCarbon extension. */
  method Respond(code: string, run: ExecResult, parse: string -> Option<Json>, parseFloat: string -> JsNumber,
                 lang: string, fws: seq<string>, smells: seq<string>)
    returns (resp: Response)
    ensures BlankCode(code) ==> resp == Message(PasteCodeMessage)
    ensures !BlankCode(code) && run.ExecFailed? ==> resp == Message("Analyse indisponible : " + run.message)
    ensures !BlankCode(code) && run.ExecOk? ==>
              var p := ParsePayload(JsTrim(run.stdout), parse, parseFloat);
              resp.Analysis?
              && resp.report.lines == CarbontrackerLines(p.m, HeadlineOf(p.kg, JsTrim(run.stderr), CarbonUnavailable),
                                                         lang, fws, smells)
              && resp.report.recos == Applicable(QuickRules, smells, fws)
  {
    if JsTrim(code) == "" {
      return Message(PasteCodeMessage);
    }
    match run
    case ExecFailed(message) =>
      resp := Message("Analyse indisponible : " + message);
    case ExecOk(stdout, stderr) =>
      var out := JsTrim(stdout);
      var err := JsTrim(stderr);
      var p := ParsePayload(out, parse, parseFloat);
      var headline := HeadlineOf(p.kg, err, CarbonUnavailable);
      var rep := BuildAnalysisBlock(p.m, headline, lang, fws, smells);
      resp := Analysis(rep);
  }
}
