/**
  The benchmark driver (bench_all.py): runs the four measuring wrappers one after another
  on the same target script, recovers each wrapper's JSON payload from output that may be
  polluted by library logging, and lays the results out as an aligned table.

  Running a wrapper is a subprocess: its captured output is an input (`capture`). Parsing a
  JSON text is the oracle `parse` (None when `json.loads` raises).
 */
module Bench {
  import opened Wrappers
  import opened Values
  import opened Text
  import opened Search

  // ----- wrapper location -----

  /** `tool_path(rel)`: `src/<rel>` if it exists, else `src/test/<rel>` if that exists,
      else `src/<rel>` as the default. Paths are relative to the repository root. */
  function ToolPath(rel: string, isFile: string -> bool): (r: string)
    ensures isFile("src/" + rel) ==> r == "src/" + rel
    ensures !isFile("src/" + rel) && isFile("src/test/" + rel) ==> r == "src/test/" + rel
    ensures !isFile("src/" + rel) && !isFile("src/test/" + rel) ==> r == "src/" + rel
  {
    var p1 := "src/" + rel;
    if isFile(p1) then p1
    else
      var p2 := "src/test/" + rel;
      if isFile(p2) then p2 else p1
  }

  /** The wrapper location is the first existing candidate, with the first candidate as the
      fallback. */
  lemma LemmaToolPathFirstExisting(rel: string, isFile: string -> bool)
    ensures ToolPath(rel, isFile) == FirstWhere(["src/" + rel, "src/test/" + rel], isFile).GetOr("src/" + rel)
  {
    var c := ["src/" + rel, "src/test/" + rel];
    if !isFile(c[0]) && isFile(c[1]) {
      assert FirstIndex(c, isFile) == Some(1);
    }
  }

  datatype Tool = Tool(name: string, script: string)

  /** The TOOLS table, in its fixed order. */
  function Tools(isFile: string -> bool): (ts: seq<Tool>)
    ensures |ts| == 4
    ensures ts[0].name == "codecarbon" && ts[1].name == "carbontracker"
    ensures ts[2].name == "eco2ai" && ts[3].name == "tracarbon"
  {
    [ Tool("codecarbon", ToolPath("codecarbon-api.py", isFile)),
      Tool("carbontracker", ToolPath("carbontracker-api.py", isFile)),
      Tool("eco2ai", ToolPath("eco2ai-api.py", isFile)),
      Tool("tracarbon", ToolPath("tracarbon-api.py", isFile)) ]
  }

  // ----- JSON extraction from noisy output -----

  /** Python `s.rfind(c)`: an index holding `c`, or -1 (that it is the last one is
      `LemmaRFindLast`). */
  function RFind(s: string, c: char): (r: int)
    ensures -1 <= r < |s|
    ensures r >= 0 ==> s[r] == c
    decreases |s|
  {
    if s == [] then -1
    else if s[|s| - 1] == c then |s| - 1
    else RFind(s[..|s| - 1], c)
  }

  /** `rfind` finds the last occurrence, and -1 means there is none. */
  lemma {:induction false} LemmaRFindLast(s: string, c: char)
    ensures forall i :: RFind(s, c) < i < |s| ==> s[i] != c
    ensures RFind(s, c) == -1 <==> forall i :: 0 <= i < |s| ==> s[i] != c
    decreases |s|
  {
    if s != [] && s[|s| - 1] != c {
      var t := s[..|s| - 1];
      LemmaRFindLast(t, c);
      assert forall i :: 0 <= i < |t| ==> t[i] == s[i];
    }
  }

  /** `[i for i, ch in enumerate(s) if ch == c]`: positions of `c`, ascending (that all of
      them are listed is `LemmaPositionsComplete`). */
  function Positions(s: string, c: char): (r: seq<nat>)
    ensures forall k :: 0 <= k < |r| ==> r[k] < |s| && s[r[k]] == c
    decreases |s|
  {
    if s == [] then []
    else
      var init := Positions(s[..|s| - 1], c);
      if s[|s| - 1] == c then init + [|s| - 1] else init
  }

  /** Every position of `c` is listed, and the list is strictly increasing. */
  lemma {:induction false} LemmaPositionsComplete(s: string, c: char)
    ensures forall i :: 0 <= i < |s| && s[i] == c ==> i in Positions(s, c)
    ensures forall k, l :: 0 <= k < l < |Positions(s, c)| ==> Positions(s, c)[k] < Positions(s, c)[l]
    decreases |s|
  {
    if s != [] {
      var t := s[..|s| - 1];
      LemmaPositionsComplete(t, c);
      assert forall i :: 0 <= i < |t| ==> t[i] == s[i];
    }
  }

  /** `st` is a start that `extract_json` tries on the stripped text `s` whose last `}` is at
      `end`: a `{` at or before it. */
  predicate IsCandidate(s: string, end: int, st: int) {
    0 <= st <= end < |s| && s[st] == '{'
  }

  /** The slice tried for candidate start `st`: it always ends at `end`. Other starts are
      never tried; they get the empty text. */
  function Slice(s: string, end: int, st: int): string {
    if IsCandidate(s, end, st) then s[st..end + 1] else []
  }

  /** The loop over the candidate starts, from the rightmost one leftwards. */
  function TryStarts(s: string, end: int, starts: seq<nat>, parse: string -> Option<Json>): Option<Json>
    decreases |starts|
  {
    if starts == [] then None
    else
      var p := parse(Slice(s, end, starts[|starts| - 1]));
      if p.Some? then p else TryStarts(s, end, starts[..|starts| - 1], parse)
  }

  /** What `extract_json(text)` returns; None is Python's None. */
  function ExtractJsonSpec(text: string, parse: string -> Option<Json>): Option<Json>
  {
    var s := PyStrip(text);
    if s == [] then None
    else
      var end := RFind(s, '}');
      if end == -1 then None
      else
        TryStarts(s, end, Positions(s[..end + 1], '{'), parse)
  }

  /** `extract_json`: strip, locate the last `}`, collect the `{` positions up to it, and
      try the slices from the rightmost start leftwards, returning the first that parses. */
  method ExtractJson(text: string, parse: string -> Option<Json>) returns (r: Option<Json>)
    ensures r == ExtractJsonSpec(text, parse)
  {
    var s := PyStrip(text);
    if s == [] {
      return None;
    }
    var end := RFind(s, '}');
    if end == -1 {
      return None;
    }
    var starts := Positions(s[..end + 1], '{');
    var k := |starts|;
    assert starts[..k] == starts;
    while k > 0
      invariant 0 <= k <= |starts|
      invariant TryStarts(s, end, starts, parse) == TryStarts(s, end, starts[..k], parse)
    {
      var st := starts[k - 1];
      assert IsCandidate(s, end, st);
      var p := parse(s[st..end + 1]);
      if p.Some? {
        assert TryStarts(s, end, starts[..k], parse) == p;
        return p;
      }
      assert starts[..k][..k - 1] == starts[..k - 1];
      k := k - 1;
    }
    return None;
  }

  /** Characterisation of the loop: it returns the parse of the rightmost start whose slice
      parses, and None exactly when no tried slice parses. */
  lemma {:induction false} LemmaTryStarts(s: string, end: int, starts: seq<nat>, parse: string -> Option<Json>)
    ensures TryStarts(s, end, starts, parse).None? <==>
              forall k :: 0 <= k < |starts| ==> parse(Slice(s, end, starts[k])).None?
    ensures TryStarts(s, end, starts, parse).Some? ==>
              exists k :: 0 <= k < |starts| && parse(Slice(s, end, starts[k])) == TryStarts(s, end, starts, parse)
                          && forall l :: k < l < |starts| ==> parse(Slice(s, end, starts[l])).None?
    decreases |starts|
  {
    if starts != [] {
      var n := |starts| - 1;
      var init := starts[..n];
      LemmaTryStarts(s, end, init, parse);
      assert forall k :: 0 <= k < n ==> init[k] == starts[k];
      var p := parse(Slice(s, end, starts[n]));
      if p.None? {
        assert TryStarts(s, end, starts, parse) == TryStarts(s, end, init, parse);
        if TryStarts(s, end, init, parse).Some? {
          var k :| 0 <= k < n && parse(Slice(s, end, init[k])) == TryStarts(s, end, init, parse)
                   && forall l :: k < l < n ==> parse(Slice(s, end, init[l])).None?;
          assert parse(Slice(s, end, starts[k])) == TryStarts(s, end, starts, parse);
          assert forall l :: k < l < |starts| ==> parse(Slice(s, end, starts[l])).None?;
        }
      } else {
        assert TryStarts(s, end, starts, parse) == p;
      }
    }
  }

  /** `extract_json` gives None for an empty or blank text. */
  lemma LemmaExtractBlank(text: string, parse: string -> Option<Json>)
    requires forall i :: 0 <= i < |text| ==> IsPySpace(text[i])
    ensures ExtractJsonSpec(text, parse).None?
  {
    LemmaStrip(text, IsPySpace);
  }

  /** `extract_json` gives None when the stripped text holds no `}`. */
  lemma LemmaExtractNoClosingBrace(text: string, parse: string -> Option<Json>)
    requires forall i :: 0 <= i < |PyStrip(text)| ==> PyStrip(text)[i] != '}'
    ensures ExtractJsonSpec(text, parse).None?
  {
  }

  /** The `{` positions collected up to `end` are exactly the candidate starts, in strictly
      increasing order. */
  lemma LemmaCandidatesListed(s: string, end: int)
    requires 0 <= end < |s|
    ensures var starts := Positions(s[..end + 1], '{');
            (forall k :: 0 <= k < |starts| ==> IsCandidate(s, end, starts[k]))
            && (forall st :: IsCandidate(s, end, st) ==> st in starts)
            && (forall i, j :: 0 <= i < j < |starts| ==> starts[i] < starts[j])
  {
    var t := s[..end + 1];
    LemmaPositionsComplete(t, '{');
    forall st | IsCandidate(s, end, st) ensures st in Positions(t, '{') {
      assert t[st] == '{';
    }
  }

  /** In a strictly increasing list, a larger value sits at a later index. */
  lemma LemmaLaterIndex(starts: seq<nat>, k: nat, l: nat)
    requires forall i, j :: 0 <= i < j < |starts| ==> starts[i] < starts[j]
    requires k < |starts| && l < |starts| && starts[k] < starts[l]
    ensures k < l
  {
  }

  /** When the starts list every candidate in increasing order, no candidate to the right of
      `starts[k]` parses once no later start does. */
  lemma LemmaNoParseRightOf(s: string, end: int, starts: seq<nat>, k: nat, parse: string -> Option<Json>)
    requires forall st :: IsCandidate(s, end, st) ==> st in starts
    requires forall i, j :: 0 <= i < j < |starts| ==> starts[i] < starts[j]
    requires k < |starts|
    requires forall l :: k < l < |starts| ==> parse(Slice(s, end, starts[l])).None?
    ensures forall st :: starts[k] < st && IsCandidate(s, end, st) ==> parse(Slice(s, end, st)).None?
  {
    forall st | starts[k] < st && IsCandidate(s, end, st) ensures parse(Slice(s, end, st)).None? {
      var l :| 0 <= l < |starts| && starts[l] == st;
      LemmaLaterIndex(starts, k, l);
    }
  }

  /** The loop finds nothing exactly when no candidate slice parses. */
  lemma LemmaTriedNone(s: string, end: int, parse: string -> Option<Json>)
    requires 0 <= end < |s|
    ensures TryStarts(s, end, Positions(s[..end + 1], '{'), parse).None? <==>
              forall st :: IsCandidate(s, end, st) ==> parse(Slice(s, end, st)).None?
  {
    var starts := Positions(s[..end + 1], '{');
    LemmaCandidatesListed(s, end);
    LemmaTryStarts(s, end, starts, parse);
  }

  /** What the loop finds is the parse of a candidate with no parseable candidate to its
      right. */
  lemma LemmaTriedSome(s: string, end: int, parse: string -> Option<Json>)
    requires 0 <= end < |s|
    requires TryStarts(s, end, Positions(s[..end + 1], '{'), parse).Some?
    ensures var r := TryStarts(s, end, Positions(s[..end + 1], '{'), parse);
            exists st :: IsCandidate(s, end, st) && parse(Slice(s, end, st)) == r
                         && forall st' :: st < st' && IsCandidate(s, end, st') ==> parse(Slice(s, end, st')).None?
  {
    LemmaCandidatesListed(s, end);
    LemmaTriedSomeOf(s, end, Positions(s[..end + 1], '{'), parse);
  }

  /** `LemmaTriedSome` for any list of starts that holds only candidates, every one of them,
      in increasing order. */
  lemma LemmaTriedSomeOf(s: string, end: int, starts: seq<nat>, parse: string -> Option<Json>)
    requires forall k :: 0 <= k < |starts| ==> IsCandidate(s, end, starts[k])
    requires forall st :: IsCandidate(s, end, st) ==> st in starts
    requires forall i, j :: 0 <= i < j < |starts| ==> starts[i] < starts[j]
    requires TryStarts(s, end, starts, parse).Some?
    ensures var r := TryStarts(s, end, starts, parse);
            exists st :: IsCandidate(s, end, st) && parse(Slice(s, end, st)) == r
                         && forall st' :: st < st' && IsCandidate(s, end, st') ==> parse(Slice(s, end, st')).None?
  {
    var r := TryStarts(s, end, starts, parse);
    LemmaTryStarts(s, end, starts, parse);
    var k :| 0 <= k < |starts| && parse(Slice(s, end, starts[k])) == r
             && forall l :: k < l < |starts| ==> parse(Slice(s, end, starts[l])).None?;
    var st := starts[k];
    assert IsCandidate(s, end, st) && parse(Slice(s, end, st)) == r;
    LemmaNoParseRightOf(s, end, starts, k, parse);
  }

  /** The result of `extract_json` is the parse of the slice from the rightmost `{` (at or
      before the last `}`) whose slice parses, i.e. the shortest parseable slice ending at the
      last `}`; it is None exactly when no such slice parses. Every tried slice ends at the
      last `}`. */
  lemma LemmaExtractJson(text: string, parse: string -> Option<Json>)
    ensures var s := PyStrip(text);
            var end := RFind(s, '}');
            (end >= 0 ==> s[end] == '}') && forall i :: end < i < |s| ==> s[i] != '}'
    ensures var s := PyStrip(text);
            var end := RFind(s, '}');
            ExtractJsonSpec(text, parse).None? <==>
              forall st :: IsCandidate(s, end, st) ==> parse(Slice(s, end, st)).None?
    ensures var s := PyStrip(text);
            var end := RFind(s, '}');
            ExtractJsonSpec(text, parse).Some? ==>
              exists st :: IsCandidate(s, end, st) && parse(Slice(s, end, st)) == ExtractJsonSpec(text, parse)
                           && forall st' :: st < st' && IsCandidate(s, end, st') ==> parse(Slice(s, end, st')).None?
  {
    var s := PyStrip(text);
    var end := RFind(s, '}');
    LemmaRFindLast(s, '}');
    if end >= 0 {
      LemmaTriedNone(s, end, parse);
      if ExtractJsonSpec(text, parse).Some? {
        LemmaTriedSome(s, end, parse);
      }
    }
  }

  // ----- one wrapper run -----

  /** A Python value from an optional parse result. */
  function PyValue(o: Option<Json>): Json {
    if o.Some? then o.value else JNull
  }

  /** The record `run` reports when neither stream holds a parseable JSON object. */
  function NoJson(out: string, err: string): Json {
    JObj(map["error" := JStr("no_json"), "stdout" := JStr(PyStrip(out)), "stderr" := JStr(PyStrip(err))])
  }

  /** What `run(cmd)` returns for the captured streams `out` and `err`. */
  function RunSpec(out: string, err: string, parse: string -> Option<Json>): Json {
    var j := PyOr(PyValue(ExtractJsonSpec(out, parse)), PyValue(ExtractJsonSpec(err, parse)));
    if j == JNull then NoJson(out, err) else j
  }

  /** `run`: stdout first, then stderr, then the `no_json` record. */
  method Run(out: string, err: string, parse: string -> Option<Json>) returns (j: Json)
    ensures j == RunSpec(out, err, parse)
  {
    var a := ExtractJson(out, parse);
    var b := ExtractJson(err, parse);
    j := PyOr(PyValue(a), PyValue(b));
    if j == JNull {
      j := NoJson(out, err);
    }
  }

  /** A truthy payload found on stdout is the result, whatever stderr holds. */
  lemma LemmaRunPrefersStdout(out: string, err: string, parse: string -> Option<Json>)
    requires ExtractJsonSpec(out, parse).Some? && PyTruthy(ExtractJsonSpec(out, parse).value)
    ensures RunSpec(out, err, parse) == ExtractJsonSpec(out, parse).value
  {
  }

  /** An empty dictionary (or nothing) on stdout falls through to stderr's payload. */
  lemma LemmaRunFallsBackToStderr(out: string, err: string, parse: string -> Option<Json>)
    requires ExtractJsonSpec(out, parse).None? || !PyTruthy(ExtractJsonSpec(out, parse).value)
    requires ExtractJsonSpec(err, parse).Some? && ExtractJsonSpec(err, parse).value != JNull
    ensures RunSpec(out, err, parse) == ExtractJsonSpec(err, parse).value
  {
  }

  /** With no payload on either stream, the result is the `no_json` record; it is never
      None. */
  lemma LemmaRunNoJson(out: string, err: string, parse: string -> Option<Json>)
    requires ExtractJsonSpec(out, parse).None? && ExtractJsonSpec(err, parse).None?
    ensures RunSpec(out, err, parse) == NoJson(out, err)
  {
  }

  /** The `no_json` record carries the error tag and both stripped texts. */
  lemma LemmaNoJsonFields(out: string, err: string)
    ensures PyGet(NoJson(out, err), "error") == JStr("no_json")
    ensures PyGet(NoJson(out, err), "stdout") == JStr(PyStrip(out))
    ensures PyGet(NoJson(out, err), "stderr") == JStr(PyStrip(err))
  {
  }

  // ----- the comparison table -----

  datatype Captured = Captured(stdout: string, stderr: string)

  /** One table row: name, duration, energy, emissions, error and a note. */
  datatype Row = Row(name: string, duration: Json, energy: Json, emissions: Json, error: Json, note: Json)

  /** Python `v[:n]`: a string or a list is cut to its first `n` elements; slicing any other
      value (a number, a bool, None or a dictionary) raises `TypeError`, which is None. */
  function HeadOf(v: Json, n: nat): (r: Option<Json>)
    ensures r.Some? <==> v.JStr? || v.JArr?
    ensures v.JStr? ==> r.value.JStr? && |r.value.s| == (if |v.s| <= n then |v.s| else n)
                        && r.value.s == v.s[..|r.value.s|]
    ensures v.JArr? ==> r.value.JArr? && |r.value.items| == (if |v.items| <= n then |v.items| else n)
                        && r.value.items == v.items[..|r.value.items|]
  {
    match v
    case JStr(s) => Some(JStr(Take(s, n)))
    case JArr(a) => Some(JArr(if |a| <= n then a else a[..n]))
    case _ => None
  }

  /** The note of a row: `(res.get("stderr") or res.get("stdout") or "")[:120]`. */
  function NoteOf(res: Json): Option<Json> {
    HeadOf(PyOr(PyOr(PyGet(res, "stderr"), PyGet(res, "stdout")), JStr("")), 120)
  }

  /** The row appended for tool `name` whose run returned `res`; None when cutting the note
      raises, which ends the script before the table is printed. */
  function RowOf(name: string, res: Json): (r: Option<Row>)
    ensures r.Some? <==> NoteOf(res).Some?
    ensures r.Some? ==> r.value.name == name && r.value.note == NoteOf(res).value
                        && r.value.duration == PyGet(res, "duration_s") && r.value.energy == PyGet(res, "energy_kwh")
                        && r.value.emissions == PyGet(res, "emissions_kg") && r.value.error == PyGet(res, "error")
  {
    var note := NoteOf(res);
    if note.None? then None
    else Some(Row(name, PyGet(res, "duration_s"), PyGet(res, "energy_kwh"), PyGet(res, "emissions_kg"),
                  PyGet(res, "error"), note.value))
  }

  /** The note is the first truthy of `stderr` and `stdout`, else the empty string, so the
      row raises exactly when that first truthy value is neither a string nor a list. */
  lemma LemmaRowRaises(name: string, res: Json)
    ensures var v := PyOr(PyGet(res, "stderr"), PyGet(res, "stdout"));
            RowOf(name, res).None? <==> PyTruthy(v) && !v.JStr? && !v.JArr?
  {
  }

  /** The `no_json` record holds strings only, so its row never raises, and its note is the
      start of the stripped stderr when that is not empty, else of the stripped stdout. */
  lemma LemmaNoJsonRow(name: string, out: string, err: string)
    ensures RowOf(name, NoJson(out, err)).Some?
    ensures var note := RowOf(name, NoJson(out, err)).value.note.s;
            var src := if PyStrip(err) != "" then PyStrip(err) else PyStrip(out);
            note == src[..|note|] && |note| == (if |src| <= 120 then |src| else 120)
  {
    LemmaNoJsonFields(out, err);
  }

  /** The row of tool `i` of `tools`. */
  function RowAt(tools: seq<Tool>, i: int, capture: Tool -> Captured, parse: string -> Option<Json>): Option<Row>
    requires 0 <= i < |tools|
  {
    RowOf(tools[i].name, RunSpec(capture(tools[i]).stdout, capture(tools[i]).stderr, parse))
  }

  /** The loop over TOOLS: one row per tool, in TOOLS order; None when a row raises. */
  method BuildRows(tools: seq<Tool>, capture: Tool -> Captured, parse: string -> Option<Json>)
    returns (rows: Option<seq<Row>>)
    ensures rows.None? <==> exists i :: 0 <= i < |tools| && RowAt(tools, i, capture, parse).None?
    ensures rows.Some? ==>
              |rows.value| == |tools| && forall i :: 0 <= i < |tools| ==> RowAt(tools, i, capture, parse) == Some(rows.value[i])
  {
    var acc: seq<Row> := [];
    for i := 0 to |tools|
      invariant |acc| == i
      invariant forall k :: 0 <= k < i ==> RowAt(tools, k, capture, parse) == Some(acc[k])
    {
      var row := RunRow(tools, i, capture, parse);
      if row.None? {
        assert RowAt(tools, i, capture, parse).None?;
        return None;
      }
      acc := acc + [row.value];
      assert acc[i] == row.value;
    }
    assert forall i :: 0 <= i < |tools| ==> RowAt(tools, i, capture, parse).Some?;
    rows := Some(acc);
  }

  /** One iteration of the loop: run the tool, then build its row. */
  method RunRow(tools: seq<Tool>, i: int, capture: Tool -> Captured, parse: string -> Option<Json>)
    returns (row: Option<Row>)
    requires 0 <= i < |tools|
    ensures row == RowAt(tools, i, capture, parse)
  {
    var c := capture(tools[i]);
    var res := Run(c.stdout, c.stderr, parse);
    row := RowOf(tools[i].name, res);
  }

  /** `max(len(n) for n, *_ in rows)`. */
  function MaxNameLength(rows: seq<Row>): (w: nat)
    requires rows != []
    ensures forall i :: 0 <= i < |rows| ==> |rows[i].name| <= w
    ensures exists i :: 0 <= i < |rows| && |rows[i].name| == w
    decreases |rows|
  {
    if |rows| == 1 then |rows[0].name|
    else
      var m := MaxNameLength(rows[1..]);
      if |rows[0].name| >= m then |rows[0].name|
      else
        assert forall i :: 1 <= i < |rows| ==> rows[i] == rows[1..][i - 1];
        m
  }

  /** Python `str(v)`, with `show` for the values that are not strings. */
  function PyStr(v: Json, show: Json -> string): string {
    if v.JStr? then v.s else show(v)
  }

  const HeaderTail := "duration_s            energy_kwh            emissions_kg           error/notes"

  /** The header line: `tool` in the name column, two spaces, then the column titles. */
  function Header(w: nat): string {
    LJust("tool", w) + "  " + HeaderTail
  }

  /** The cells after the name: the three right-aligned measures and `err or note`. */
  function Cells(r: Row, show: Json -> string): string {
    RJust(PyStr(r.duration, show), 10)
    + "   " + RJust(PyStr(r.energy, show), 12)
    + "   " + RJust(PyStr(r.emissions, show), 14)
    + "   " + PyStr(PyOr(r.error, r.note), show)
  }

  /** A table line: the padded name, two spaces, then the cells. */
  function TableLine(r: Row, w: nat, show: Json -> string): string {
    LJust(r.name, w) + "  " + Cells(r, show)
  }

  /** The printing loop: one line per row, in row order. */
  method TableLines(rows: seq<Row>, w: nat, show: Json -> string) returns (body: seq<string>)
    ensures |body| == |rows|
    ensures forall i :: 0 <= i < |rows| ==> body[i] == TableLine(rows[i], w, show)
  {
    body := [];
    for i := 0 to |rows|
      invariant |body| == i
      invariant forall k :: 0 <= k < i ==> body[k] == TableLine(rows[k], w, show)
    {
      body := body + [TableLine(rows[i], w, show)];
    }
  }

  /** The printed table: the header, then one line per row, all with the name column as wide
      as the longest name. */
  method RenderTable(rows: seq<Row>, show: Json -> string) returns (lines: seq<string>)
    requires rows != []
    ensures |lines| == |rows| + 1
    ensures lines[0] == Header(MaxNameLength(rows))
    ensures forall i :: 0 <= i < |rows| ==> lines[i + 1] == TableLine(rows[i], MaxNameLength(rows), show)
  {
    var w := MaxNameLength(rows);
    var body := TableLines(rows, w, show);
    lines := [Header(w)] + body;
  }

  /** A name padded to a column of width `w` and followed by two spaces fills the first
      `w + 2` characters with the name and then spaces, whatever follows. */
  lemma LemmaPaddedColumn(name: string, w: nat, tail: string)
    requires |name| <= w
    ensures var line := LJust(name, w) + "  " + tail;
            |line| >= w + 2 && line[..|name|] == name
            && (forall i :: |name| <= i < w + 2 ==> line[i] == ' ')
  {
    var p := LJust(name, w);
    var line := p + "  " + tail;
    assert p == name + Spaces(w - |name|) || p == name;
    assert line[..|name|] == p[..|name|];
    forall i | |name| <= i < w + 2 ensures line[i] == ' ' {
      if i < w {
        assert line[i] == p[i];
      } else {
        assert line[i] == ("  " + tail)[i - w];
      }
    }
  }

  /** The name column is aligned: when the name fits the column width `w` (as every name
      does for `w == MaxNameLength(rows)`), a line starts with exactly `w` characters holding
      the name and then spaces, followed by the two-space separator. */
  lemma LemmaNameColumnAligned(r: Row, w: nat, show: Json -> string)
    requires |r.name| <= w
    ensures var line := TableLine(r, w, show);
            |line| >= w + 2 && line[..|r.name|] == r.name
            && (forall i :: |r.name| <= i < w + 2 ==> line[i] == ' ')
  {
    LemmaPaddedColumn(r.name, w, Cells(r, show));
  }

  /** The header shares the name column of the table lines: `tool`, spaces up to the column
      width, the two-space separator, then the titles. */
  lemma LemmaHeaderAligned(w: nat)
    requires 4 <= w
    ensures var h := Header(w);
            |h| == w + 2 + |HeaderTail| && h[..4] == "tool"
            && (forall i :: 4 <= i < w + 2 ==> h[i] == ' ') && h[w + 2..] == HeaderTail
  {
    LemmaPaddedColumn("tool", w, HeaderTail);
    var p := LJust("tool", w);
    assert |p| == w;
    assert Header(w)[w + 2..] == HeaderTail;
  }

  /** When the three measures fit their columns (10, 12 and 14 characters), `err or note`
      starts at the same column, `w + 47`, on every line. */
  lemma LemmaMessageColumn(r: Row, w: nat, show: Json -> string)
    requires |r.name| <= w
    requires |PyStr(r.duration, show)| <= 10 && |PyStr(r.energy, show)| <= 12 && |PyStr(r.emissions, show)| <= 14
    ensures |TableLine(r, w, show)| >= w + 47
    ensures TableLine(r, w, show)[w + 47..] == PyStr(PyOr(r.error, r.note), show)
  {
    var a := LJust(r.name, w) + "  " + RJust(PyStr(r.duration, show), 10)
             + "   " + RJust(PyStr(r.energy, show), 12) + "   " + RJust(PyStr(r.emissions, show), 14) + "   ";
    var msg := PyStr(PyOr(r.error, r.note), show);
    assert |a| == w + 47;
    assert TableLine(r, w, show) == a + msg;
  }

  /** The whole script: the rows of the four tools and the printed table; nothing is printed
      when a row raises. */
  method Benchmark(isFile: string -> bool, capture: Tool -> Captured, parse: string -> Option<Json>,
                   show: Json -> string)
    returns (rows: Option<seq<Row>>, lines: seq<string>)
    ensures rows.None? <==> exists i :: 0 <= i < 4 && RowAt(Tools(isFile), i, capture, parse).None?
    ensures rows.None? ==> lines == []
    ensures rows.Some? ==>
              |rows.value| == 4 && |lines| == 5
              && (forall i :: 0 <= i < 4 ==> RowAt(Tools(isFile), i, capture, parse) == Some(rows.value[i]))
              && lines[0] == Header(MaxNameLength(rows.value))
              && forall i :: 0 <= i < 4 ==> lines[i + 1] == TableLine(rows.value[i], MaxNameLength(rows.value), show)
  {
    var tools := Tools(isFile);
    rows := BuildRows(tools, capture, parse);
    if rows.None? {
      return None, [];
    }
    lines := RenderTable(rows.value, show);
  }
}
