/**
  The CodeCarbon editor extension (extension-codecarbon.ts) once the wrapper has run: the
  report assembled by `buildAnalysisBlock` and the answer posted for one analysis request.
  The language and framework detectors and the smell detector are regular-expression scans
  of the code; their results are inputs here.
 */
module ExtensionCodecarbon {
  import opened Wrappers
  import opened Values
  import opened Text
  import opened Suggestions
  import opened ExtensionShared

  /** `fmtNum(m[key])`. */
  function Field(m: Json, key: string): Shown {
    FmtNum(JsProp(m, key))
  }

  /** The `CPU : energy / power` line (and its GPU and RAM siblings) for a payload. */
  function ComponentOf(m: Json, name: string, energyKey: string, powerKey: string): Line {
    Component(name, Field(m, energyKey), Field(m, powerKey))
  }

  function Cpu(m: Json): Line { ComponentOf(m, "CPU", "cpu_energy_kwh", "cpu_power_w") }
  function Gpu(m: Json): Line { ComponentOf(m, "GPU", "gpu_energy_kwh", "gpu_power_w") }
  function Ram(m: Json): Line { ComponentOf(m, "RAM", "ram_energy_kwh", "ram_power_w") }

  /** A component line is pushed when its energy or its power is shown. */
  predicate ComponentShown(l: Line)
    requires l.Component?
  {
    !ShowsDash(l.energy) || !ShowsDash(l.power)
  }

  function LocationOf(m: Json): Line {
    Location(Field(m, "country"), Field(m, "region"), Field(m, "cloud_provider"))
  }

  /** The location line is pushed when any of country, region and cloud is shown. */
  predicate LocationShown(l: Line)
    requires l.Location?
  {
    !ShowsDash(l.country) || !ShowsDash(l.region) || !ShowsDash(l.cloud)
  }

  /** The lines of `buildAnalysisBlock`, in the order they are pushed. */
  function CodecarbonLines(m: Json, h: Headline, lang: string, fws: seq<string>, smells: seq<string>): seq<Line> {
    var head := [Language(lang), Frameworks(fws), Footprint(h)];
    if JsTruthy(m) then
      head
      + Opt(!ShowsDash(Field(m, "duration_s")), Duration(Field(m, "duration_s")))
      + Opt(!ShowsDash(Field(m, "energy_kwh")), Energy(Field(m, "energy_kwh")))
      + Opt(ComponentShown(Cpu(m)), Cpu(m))
      + Opt(ComponentShown(Gpu(m)), Gpu(m))
      + Opt(ComponentShown(Ram(m)), Ram(m))
      + Opt(LocationShown(LocationOf(m)), LocationOf(m))
      + [Smells(smells)]
    else
      head + [Smells(smells)]
  }

  /** `buildAnalysisBlock`: the fixed header lines, the measurement lines of a truthy
      payload that are not the dash, the smells line, and the quick suggestions. */
  method BuildAnalysisBlock(m: Json, h: Headline, lang: string, fws: seq<string>, smells: seq<string>)
    returns (rep: Report)
    ensures rep.lines == CodecarbonLines(m, h, lang, fws, smells)
    ensures rep.recos == Applicable(QuickRules, smells, fws)
  {
    var recos := QuickSuggestions(smells, fws);
    var head := [Language(lang), Frameworks(fws), Footprint(h)];
    var lines := head;
    if JsTruthy(m) {
      var duration := Field(m, "duration_s");
      var energy := Field(m, "energy_kwh");
      var cpu, gpu, ram := Cpu(m), Gpu(m), Ram(m);
      var location := LocationOf(m);
      if !ShowsDash(duration) { lines := lines + [Duration(duration)]; }
      assert lines == head + Opt(!ShowsDash(duration), Duration(duration));
      if !ShowsDash(energy) { lines := lines + [Energy(energy)]; }
      assert lines == head + Opt(!ShowsDash(duration), Duration(duration))
                     + Opt(!ShowsDash(energy), Energy(energy));
      if !ShowsDash(cpu.energy) || !ShowsDash(cpu.power) { lines := lines + [cpu]; }
      assert lines == head + Opt(!ShowsDash(duration), Duration(duration))
                     + Opt(!ShowsDash(energy), Energy(energy)) + Opt(ComponentShown(cpu), cpu);
      if !ShowsDash(gpu.energy) || !ShowsDash(gpu.power) { lines := lines + [gpu]; }
      assert lines == head + Opt(!ShowsDash(duration), Duration(duration))
                     + Opt(!ShowsDash(energy), Energy(energy)) + Opt(ComponentShown(cpu), cpu)
                     + Opt(ComponentShown(gpu), gpu);
      if !ShowsDash(ram.energy) || !ShowsDash(ram.power) { lines := lines + [ram]; }
      assert lines == head + Opt(!ShowsDash(duration), Duration(duration))
                     + Opt(!ShowsDash(energy), Energy(energy)) + Opt(ComponentShown(cpu), cpu)
                     + Opt(ComponentShown(gpu), gpu) + Opt(ComponentShown(ram), ram);
      if !ShowsDash(location.country) || !ShowsDash(location.region) || !ShowsDash(location.cloud) {
        lines := lines + [location];
      }
      assert lines == head + Opt(!ShowsDash(duration), Duration(duration))
                     + Opt(!ShowsDash(energy), Energy(energy)) + Opt(ComponentShown(cpu), cpu)
                     + Opt(ComponentShown(gpu), gpu) + Opt(ComponentShown(ram), ram)
                     + Opt(LocationShown(location), location);
    }
    lines := lines + [Smells(smells)];
    rep := Report(lines, recos);
  }

  /** The report starts with the language, frameworks and footprint lines and its last line
      lists the smells. */
  lemma LemmaLinesFrame(m: Json, h: Headline, lang: string, fws: seq<string>, smells: seq<string>)
    ensures var ls := CodecarbonLines(m, h, lang, fws, smells);
            |ls| >= 4 && ls[..3] == [Language(lang), Frameworks(fws), Footprint(h)]
            && ls[|ls| - 1] == Smells(smells)
  {
  }

  /** Among lines where only three pushed lines are component lines, with distinct names,
      each of the three occurs exactly when it is pushed. */
  lemma LemmaComponentsOnce(a: seq<Line>, b: seq<Line>, c1: bool, l1: Line, c2: bool, l2: Line, c3: bool, l3: Line)
    requires forall l :: l in a + b ==> !l.Component?
    requires l1.Component? && l2.Component? && l3.Component?
    requires l1.name != l2.name && l1.name != l3.name && l2.name != l3.name
    ensures var ls := a + Opt(c1, l1) + Opt(c2, l2) + Opt(c3, l3) + b;
            (l1 in ls <==> c1) && (l2 in ls <==> c2) && (l3 in ls <==> c3)
  {
  }

  /** Each of the CPU, GPU and RAM lines appears exactly when the payload is truthy and the
      component's energy or power is not the dash. */
  lemma LemmaComponentLines(m: Json, h: Headline, lang: string, fws: seq<string>, smells: seq<string>)
    ensures Cpu(m) in CodecarbonLines(m, h, lang, fws, smells) <==> JsTruthy(m) && ComponentShown(Cpu(m))
    ensures Gpu(m) in CodecarbonLines(m, h, lang, fws, smells) <==> JsTruthy(m) && ComponentShown(Gpu(m))
    ensures Ram(m) in CodecarbonLines(m, h, lang, fws, smells) <==> JsTruthy(m) && ComponentShown(Ram(m))
  {
    var cpu, gpu, ram := Cpu(m), Gpu(m), Ram(m);
    assert cpu.name[0] == 'C' && gpu.name[0] == 'G' && ram.name[0] == 'R';
    if JsTruthy(m) {
      var a := [Language(lang), Frameworks(fws), Footprint(h)]
               + Opt(!ShowsDash(Field(m, "duration_s")), Duration(Field(m, "duration_s")))
               + Opt(!ShowsDash(Field(m, "energy_kwh")), Energy(Field(m, "energy_kwh")));
      var b := Opt(LocationShown(LocationOf(m)), LocationOf(m)) + [Smells(smells)];
      assert forall l: Line :: l in a + b ==> !l.Component?;
      LemmaComponentsOnce(a, b, ComponentShown(cpu), cpu, ComponentShown(gpu), gpu, ComponentShown(ram), ram);
    }
  }

  /** The location line appears exactly when the payload is truthy and any of country,
      region and cloud provider is not the dash. */
  lemma LemmaLocationLine(m: Json, h: Headline, lang: string, fws: seq<string>, smells: seq<string>)
    ensures LocationOf(m) in CodecarbonLines(m, h, lang, fws, smells) <==> JsTruthy(m) && LocationShown(LocationOf(m))
  {
  }

  /** The CPU line is kept for a payload that reports only the CPU power, with the energy
      slot left as the dash. */
  lemma LemmaPowerOnly(m: Json, h: Headline, lang: string, fws: seq<string>, smells: seq<string>, w: real)
    requires m == JObj(map["cpu_power_w" := JNum(w)])
    ensures Component("CPU", Dash, Num(w)) in CodecarbonLines(m, h, lang, fws, smells)
  {
    assert Cpu(m) == Component("CPU", Dash, Num(w));
  }

  /** An output that is not JSON leaves only the fixed lines: the empty payload `{}` that
      replaces it is truthy but holds no field. */
  lemma LemmaUnparsedOutput(out: string, parse: string -> Option<Json>, parseFloat: string -> JsNumber,
                            h: Headline, lang: string, fws: seq<string>, smells: seq<string>)
    requires parse(out).None?
    ensures CodecarbonLines(ParsePayload(out, parse, parseFloat).m, h, lang, fws, smells)
            == [Language(lang), Frameworks(fws), Footprint(h), Smells(smells)]
  {
    var m := ParsePayload(out, parse, parseFloat).m;
    assert m == JObj(map[]);
    assert Field(m, "duration_s") == Dash;
  }

  /** The answer to one `analyzeCode` message: a request for code when it is blank, the
      rejection message when running the wrapper failed, and the report otherwise, read from
      the trimmed output streams. */
  method Respond(code: string, run: ExecResult, parse: string -> Option<Json>, parseFloat: string -> JsNumber,
                 lang: string, fws: seq<string>, smells: seq<string>)
    returns (resp: Response)
    ensures BlankCode(code) ==> resp == Message(PasteCodeMessage)
    ensures !BlankCode(code) && run.ExecFailed? ==> resp == Message("Analyse indisponible : " + run.message)
    ensures !BlankCode(code) && run.ExecOk? ==>
              var p := ParsePayload(JsTrim(run.stdout), parse, parseFloat);
              resp.Analysis?
              && resp.report.lines == CodecarbonLines(p.m, HeadlineOf(p.kg, JsTrim(run.stderr), CarbonUnavailable),
                                                      lang, fws, smells)
              && resp.report.recos == Applicable(QuickRules, smells, fws)
  {
    if JsTrim(code) == "" {
      return Message(PasteCodeMessage);
    }
    match run
    case ExecFailed(message) =>
      resp := Message("Analyse indisponible : " + message);
    case ExecOk(stdout, stderr) =>
      var out := JsTrim(stdout);
      var err := JsTrim(stderr);
      var p := ParsePayload(out, parse, parseFloat);
      var headline := HeadlineOf(p.kg, err, CarbonUnavailable);
      var rep := BuildAnalysisBlock(p.m, headline, lang, fws, smells);
      resp := Analysis(rep);
  }
}
