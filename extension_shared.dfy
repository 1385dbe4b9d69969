/**
  What the four editor extensions (extension-codecarbon.ts, extension-carbontracker.ts,
  extension-eco2ai.ts and extension-tracarbon.ts) have in common once a wrapper has printed
  its result: `fmtNum`, the `JSON.parse` / `parseFloat` fallback that recovers the
  `emissions_kg` figure, the headline choice, and the frame of the report posted back to the
  webview (fixed title, rule, the report lines, and the recommendations block).

  Numbers are kept symbolic: a report line carries the value `fmtNum` was given, not the
  digits `toExponential` or `toFixed` would print.
 */
module ExtensionShared {
  import opened Wrappers
  import opened Values
  import opened Text

  /** A JavaScript number as the extensions can meet it (from `parseFloat` or a JSON field). */
  datatype JsNumber = NaN | PosInf | NegInf | Finite(r: real)

  /** What `fmtNum(v, f)` prints: the dash, a finite number (through the formatter `f`, or
      `String(v)` without one), or `String(v)` of a value that is not a number. */
  datatype Shown = Dash | Num(n: real) | Str(v: Json)

  /** `String(v) === '—'` for a JSON value: the dash itself, or an array of exactly one element
      that prints as the dash (an array prints its elements joined with commas). */
  predicate PrintsDash(v: Json) {
    match v
    case JStr(s) => s == "—"
    case JArr(items) => |items| == 1 && PrintsDash(items[0])
    case _ => false
  }

  /** `fmtNum(v, f)` with `undefined` modelled as None. A payload number is a real here, so
      the `isFinite` test is taken to hold for it: the wrappers' `json.dumps` writes a finite
      float as a literal that `JSON.parse` reads back as a finite number, and an infinity or
      NaN as `Infinity` or `NaN`, which `JSON.parse` rejects. A literal beyond the double
      range, such as `1e400`, which `JSON.parse` reads as an infinity, is not modelled. */
  function FmtNum(v: Option<Json>): (r: Shown)
    ensures r.Dash? <==> v.None? || v.value == JNull || v.value == JStr("")
    ensures r.Num? <==> v.Some? && v.value.JNum?
    ensures r.Num? ==> r.n == v.value.n
    ensures r.Str? ==> v == Some(r.v) && !r.v.JNum?
  {
    if v.None? || v.value == JNull || v.value == JStr("") then Dash
    else if v.value.JNum? then Num(v.value.n)
    else Str(v.value)
  }

  /** The printed text of `r` is `'—'`. */
  predicate ShowsDash(r: Shown) {
    r.Dash? || (r.Str? && PrintsDash(r.v))
  }

  /** The report tests `fmtNum(v) !== '—'`: a line is kept for a value exactly when it is
      present, not null, not the empty string and does not itself print as the dash. In
      particular every number is kept, zero included. */
  lemma LemmaShownValue(v: Option<Json>)
    ensures !ShowsDash(FmtNum(v)) <==>
              v.Some? && v.value != JNull && v.value != JStr("") && !PrintsDash(v.value)
    ensures v.Some? && v.value.JNum? ==> !ShowsDash(FmtNum(v))
  {
  }

  /** `payload.emissions_kg` when it is a number (`typeof … === 'number'`). */
  function EmissionsKg(m: Json): (r: Option<real>)
    ensures r.Some? <==> JsProp(m, "emissions_kg").Some? && JsProp(m, "emissions_kg").value.JNum?
    ensures r.Some? ==> r.value == JsProp(m, "emissions_kg").value.n
  {
    var p := JsProp(m, "emissions_kg");
    if p.Some? && p.value.JNum? then Some(p.value.n) else None
  }

  /** The payload and the emissions figure after the parse block of `runCarbon`,
      `runCarbonTracker` and `runEco2AI`. */
  datatype Payload = Payload(m: Json, kg: JsNumber)

  /** `JSON.parse(out)` (`parse`, None when it throws) followed by a read of `emissions_kg`.
      Reading a property of a parsed `null` throws as well, so both failures land in the
      `catch`: the payload becomes `{}` and the figure is `parseFloat(out)` when finite. */
  function ParsePayload(out: string, parse: string -> Option<Json>, parseFloat: string -> JsNumber): (r: Payload)
    ensures r.m != JNull
    ensures r.kg.NaN? || r.kg.Finite?
    ensures parse(out).Some? && parse(out).value != JNull ==>
              r.m == parse(out).value
              && (r.kg.Finite? <==> EmissionsKg(r.m).Some?)
              && (r.kg.Finite? ==> r.kg.r == EmissionsKg(r.m).value)
    ensures parse(out).None? || parse(out).value == JNull ==>
              r.m == JObj(map[])
              && (r.kg.Finite? <==> parseFloat(out).Finite?)
              && (r.kg.Finite? ==> r.kg == parseFloat(out))
  {
    var p := parse(out);
    if p.Some? && p.value != JNull then
      var e := EmissionsKg(p.value);
      Payload(p.value, if e.Some? then Finite(e.value) else NaN)
    else
      var f := parseFloat(out);
      Payload(JObj(map[]), if f.Finite? then f else NaN)
  }

  /** The headline on the "Empreinte carbone estimée" line. */
  datatype Headline =
    | Scientific(sciKg: real)    // `kg.toExponential(2)`
    | Fixed(kg: JsNumber)        // `kg.toFixed(5)`
    | Failed(err: string)        // `Erreur : <stderr>`
    | Unavailable(text: string)  // the extension's fallback text

  const CarbonUnavailable := "Empreinte : indisponible"

  /** The headline choice: a known figure is printed (in scientific notation when it lies
      strictly between 0 and 1e-5), otherwise the trimmed process stderr when there is one,
      otherwise the fallback text. */
  function HeadlineOf(kg: JsNumber, err: string, fallback: string): (h: Headline)
    ensures h.Scientific? <==> kg.Finite? && 0.0 < kg.r < 0.00001
    ensures h.Scientific? ==> h.sciKg == kg.r
    ensures h.Fixed? <==> !kg.NaN? && !(kg.Finite? && 0.0 < kg.r < 0.00001)
    ensures h.Fixed? ==> h.kg == kg
    ensures h.Failed? <==> kg.NaN? && err != ""
    ensures h.Failed? ==> h.err == err
    ensures h.Unavailable? <==> kg.NaN? && err == ""
    ensures h.Unavailable? ==> h.text == fallback
  {
    if !kg.NaN? then
      if kg.Finite? && 0.0 < kg.r && kg.r < 0.00001 then Scientific(kg.r) else Fixed(kg)
    else if err != "" then Failed(err)
    else Unavailable(fallback)
  }

  /** The stderr of the process never reaches the headline while a figure is known. */
  lemma LemmaFigureWins(kg: JsNumber, err: string, fallback: string)
    requires !kg.NaN?
    ensures HeadlineOf(kg, err, fallback) == HeadlineOf(kg, "", fallback)
    ensures !HeadlineOf(kg, err, fallback).Failed? && !HeadlineOf(kg, err, fallback).Unavailable?
  {
  }

  /** One line of the report, before its numbers are printed. */
  datatype Line =
    | Language(lang: string)                                // `Langage : …`
    | Frameworks(fws: seq<string>)                          // joined with ", ", or the dash
    | Interpreter(info: string)                             // `Interpréteur : …`
    | Footprint(headline: Headline)                         // `Empreinte carbone estimée : …`
    | Duration(d: Shown)                                    // `Durée : … s`
    | Energy(e: Shown)                                      // `Énergie totale : …`
    | Component(name: string, energy: Shown, power: Shown)  // `CPU : … / …`
    | Location(country: Shown, region: Shown, cloud: Shown) // `Pays : … | Région : … | Cloud : …`
    | Place(placeCountry: Shown, placeRegion: Option<Shown>) // `Pays/Région : …[ | …]`
    | Co2(g: Shown)                                         // `CO₂eq total : …`
    | Notes(notes: seq<string>)                             // `Notes :` and one note per line
    | Smells(smells: seq<string>)                           // `Motifs énergivores détectés : …`

  /** A report: its lines and the recommendations listed after them. */
  datatype Report = Report(lines: seq<Line>, recos: seq<string>)

  /** Keeps `l` when `c` holds: one conditional `lines.push(l)`. */
  function Opt(c: bool, l: Line): (r: seq<Line>)
    ensures c ==> r == [l]
    ensures !c ==> r == []
  {
    if c then [l] else []
  }

  const ReportTitle := "Analyse de l’empreinte carbone du code"
  const ReportRule := "-------------------------------------"
  const RecosHeader := "Recommandations :"
  const NoRecos := "• Aucune recommandation détectée."

  /** Each recommendation behind a bullet. */
  function Bullets(recos: seq<string>): (r: seq<string>)
    ensures |r| == |recos|
    ensures forall i :: 0 <= i < |recos| ==> r[i] == "• " + recos[i]
  {
    seq(|recos|, i requires 0 <= i < |recos| => "• " + recos[i])
  }

  /** The block after "Recommandations :": one bullet per recommendation, or a single bullet
      saying that there is none. */
  function RecosBlock(recos: seq<string>): (r: string)
    ensures recos == [] ==> r == NoRecos
    ensures |recos| == 1 ==> r == "• " + recos[0]
    ensures recos != [] ==> r == Join(Bullets(recos), "\n")
  {
    if recos == [] then NoRecos else Join(Bullets(recos), "\n")
  }

  /** With two or more recommendations, the block is the first bullet, a newline, and the
      block of the rest: the bullets appear one per line, in order. */
  lemma LemmaRecosBlockCons(recos: seq<string>)
    requires |recos| >= 2
    ensures RecosBlock(recos) == "• " + recos[0] + "\n" + RecosBlock(recos[1..])
  {
    assert Bullets(recos)[1..] == Bullets(recos[1..]);
  }

  /** The text of a report whose lines `render` prints; the codecarbon, carbontracker and
      eco2ai extensions build it as one array joined with newlines. */
  function ReportText(rep: Report, render: Line -> string): string {
    Join([ReportTitle, ReportRule] + Rendered(rep.lines, render) + [RecosHeader, RecosBlock(rep.recos)], "\n")
  }

  function Rendered(lines: seq<Line>, render: Line -> string): (r: seq<string>)
    ensures |r| == |lines|
    ensures forall i :: 0 <= i < |lines| ==> r[i] == render(lines[i])
  {
    seq(|lines|, i requires 0 <= i < |lines| => render(lines[i]))
  }

  /** Joining a concatenation puts one separator between the two joined halves. */
  lemma {:induction false} LemmaJoinAppend(a: seq<string>, b: seq<string>, sep: string)
    requires a != [] && b != []
    ensures Join(a + b, sep) == Join(a, sep) + sep + Join(b, sep)
    decreases |a|
  {
    if |a| == 1 {
      assert (a + b)[1..] == b;
    } else {
      assert (a + b)[1..] == a[1..] + b;
      LemmaJoinAppend(a[1..], b, sep);
    }
  }

  /** Every report starts with the title and the rule and ends with the recommendations
      header and block; with at least one line, the text is also the one the tracarbon
      extension builds by concatenation. */
  lemma LemmaReportFrame(rep: Report, render: Line -> string)
    requires rep.lines != []
    ensures ReportText(rep, render) ==
              ReportTitle + "\n" + ReportRule + "\n" + Join(Rendered(rep.lines, render), "\n")
              + "\n" + RecosHeader + "\n" + RecosBlock(rep.recos)
  {
    var head := [ReportTitle, ReportRule];
    var body := Rendered(rep.lines, render);
    var tail := [RecosHeader, RecosBlock(rep.recos)];
    var h, j, t := ReportTitle + "\n" + ReportRule, Join(body, "\n"), RecosHeader + "\n" + RecosBlock(rep.recos);
    assert head + body + tail == head + (body + tail);
    LemmaJoinAppend(head, body + tail, "\n");
    LemmaJoinAppend(body, tail, "\n");
    assert head[1..] == [ReportRule];
    assert Join(head, "\n") == h;
    assert tail[1..] == [RecosBlock(rep.recos)];
    assert Join(tail, "\n") == t;
    calc {
      ReportText(rep, render);
      h + "\n" + (j + "\n" + t);
      h + "\n" + j + "\n" + t;
    }
  }

  /** What running a wrapper gave: the rejection of `execFileAsync` (or of the temporary file
      set-up) with its message, or both output streams. */
  datatype ExecResult = ExecFailed(message: string) | ExecOk(stdout: string, stderr: string)

  /** What an extension posts back to the webview for one analysis. */
  datatype Response = Message(text: string) | Analysis(report: Report)

  const PasteCodeMessage := "Veuillez coller un code à analyser."

  /** `!code.trim()`. */
  predicate BlankCode(code: string) {
    JsTrim(code) == ""
  }

  /** A code is blank exactly when every character is JavaScript white space. */
  lemma LemmaBlankCode(code: string)
    ensures BlankCode(code) <==> forall i :: 0 <= i < |code| ==> IsJsSpace(code[i])
  {
    LemmaStrip(code, IsJsSpace);
  }

  /** The block posted when the tool is missing from the selected interpreter. */
  function ToolMissingBlock(tip: seq<string>): string {
    ReportTitle + "\n" + ReportRule + "\n" + "Empreinte carbone estimée : Erreur\n"
    + "Notes :\n" + Join(tip, "\n")
  }

  /** `interpInfo || '(inconnu)'`. */
  function OrUnknown(info: string): (r: string)
    ensures info != "" ==> r == info
    ensures info == "" ==> r == "(inconnu)"
  {
    if info != "" then info else "(inconnu)"
  }

  /** The preflight check: the probe ran without error and printed `OK`. */
  predicate PreflightOk(r: ExecResult) {
    r.ExecOk? && Contains(r.stdout, "OK")
  }
}
