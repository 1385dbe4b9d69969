# Green-software result normalisation, modelled in Dafny

Green Assistant measures the carbon footprint of a code snippet with one of four
libraries: CodeCarbon, CarbonTracker, Eco2AI and Tracarbon. One wrapper script per library
runs the snippet, reads what the library left behind (a CSV file, log files or a metric
report) and prints one JSON record. That record holds `duration_s`, `energy_kwh`,
`co2eq_g`, `emissions_kg` and, after a failure, `run_error`/`stderr` or `error`/`notes`.

Three programs read these records back:
- the Streamlit app (`src/app.py`), which also measures in-process;
- four editor extensions (`src/extension-*.ts`);
- the benchmark driver (`bench_all.py`).

This project models that normalisation layer and the small pure helpers around it. It
proves what each piece promises:
- fallback orders and "first match wins";
- sentinel-aware number parsing;
- the kg↔g conversion invariants;
- the JSON extraction from noisy output;
- the classification of wrapper output;
- the lines of each extension's report;
- the choice of interpreter.

Modelling conventions:
- Python values and JSON payloads are one datatype, `Values.Json`. JSON null and Python
  None are `JNull`.
- On the TypeScript side, a missing property (`undefined`) is `None` of an `Option<Json>`.
- The parsers are oracles passed as parameters:
  - `float()` on a string is `toFloat: string -> Option<real>`, with None when it raises;
  - `json.loads` and `JSON.parse` are `parse: string -> Option<Json>`;
  - JavaScript `parseFloat` is `parseFloat: string -> JsNumber`, which can give NaN or an
    infinity.
- Operations with effects become inputs or parameters:
  - file and directory existence is `isFile`/`isDir`;
  - the libraries' outputs (CSV rows, parsed logs, metric reports, the stop value) are
    inputs;
  - how the snippet ended is a `RunOutcome`;
  - a subprocess's captured streams are a `Proc`, `Captured` or `ExecResult`.
- Report lines stay symbolic (`ExtensionShared.Line`). Each line carries the values it
  prints, and printing a line is a parameter `render`.
- The detectors that scan the code with regular expressions give the language, the
  framework list and the smell list. These are inputs.

Modules follow the source files:
- `CsvFields`: `_ffloat` and `_pick`, shared by the CSV-based wrappers.
- `Snippet`: the `run_error`/`stderr` attachment.
- `Eco2aiApi`, `CodecarbonApi`, `TracarbonApi`, `CarbontrackerApi`: the four wrappers.
- `Suggestions`: the recommendation tables of the app and the extensions.
- `App`: `src/app.py`.
- `ExtensionShared`: what the four extensions have in common.
- `ExtensionPython`: interpreter selection.
- `ExtensionCodecarbon`, `ExtensionCarbontracker`, `ExtensionEco2ai`, `ExtensionTracarbon`:
  one module per extension.
- `Bench`: `bench_all.py`.
- `Values`, `Text`, `Search` and `Wrappers`: Python and JavaScript value semantics,
  `strip`/`trim`/`lower`/`ljust`/`rjust`, ordered search and `Option`.

## Model

| member | source | states |
|---|---|---|
| Values.PyFloat | src/tracarbon-api.py:15-19 | Python `float(v)`: a number is itself, a bool is 1.0 or 0.0, a string goes to the parse oracle, and None, a list or a dictionary raise |
| Values.PyNumber | src/app.py:494-515 | `isinstance(v, (int, float))` holds exactly for numbers and bools, and gives the number, a bool counting as 1 or 0 |
| Values.LemmaPyFalsy | src/app.py:520 | Python's falsy values are exactly None, False, 0, "", [] and {} |
| Values.LemmaTruthinessDiffers | src/extension-codecarbon.ts:141 | JavaScript truthiness differs from Python's exactly on the empty list and the empty dictionary, which JavaScript counts as true |
| Text.Lower | src/tracarbon-api.py:82 | `lower()` keeps the length and lower-cases each ASCII letter in place |
| Text.LemmaPyStrip | src/tracarbon-api.py:108 | `strip()` keeps the slice between the outermost characters that are not Python white space, and is empty exactly when every character is white space |
| Text.LemmaJsTrim | src/extension-tracarbon.ts:201-202 | `trim()` does the same for JavaScript white space |
| Text.LemmaStripTrimDiffer | src/extension-tracarbon.ts:201-202 | Python strips U+0085 and U+001C, which JavaScript keeps, and JavaScript strips U+FEFF, which Python keeps |
| Text.LJust | bench_all.py:68-71 | `ljust(w)` gives `w` characters when the text is shorter, and the text itself otherwise |
| Text.LemmaLJust | bench_all.py:68-71 | `ljust` keeps the text at the start and adds only spaces after it |
| Text.RJust | bench_all.py:71 | `rjust(w)` gives `w` characters when the text is shorter, and the text itself otherwise |
| Text.LemmaRJust | bench_all.py:71 | `rjust` keeps the text at the end and adds only spaces before it |
| CsvFields.Get | src/eco2ai-api.py:17 | `row.get(k)` is present exactly when the column is in the row, with the row's value |
| CsvFields.FFloat | src/eco2ai-api.py:9-13 | `_ffloat`: the sentinels None, "" and "None" give the default; any other result is the successful `float()` of the value; a parse failure gives the default and never raises |
| CsvFields.LemmaFFloatKnown | src/codecarbon-api.py:11-15 | with the default None, `_ffloat` yields the number `v` exactly when the value is not a sentinel and `float()` gives `v` |
| CsvFields.Pick | src/eco2ai-api.py:15-19 | the loop over the names returns what the reference `PickSpec` returns (the first qualifying name's value) |
| CsvFields.LemmaPick | src/eco2ai-api.py:15-19 | `_pick` gives None exactly when no name is present with a non-sentinel value; otherwise it gives the value of the first such name in argument order, which is never a sentinel |
| CsvFields.LastRow | src/eco2ai-api.py:41-45 | a row is read exactly when the file was read and holds rows, and it is the last row |
| CsvFields.LemmaLastRowOnly | src/codecarbon-api.py:52-53 | rows before the last never change what is read |
| Snippet.RunError | src/eco2ai-api.py:29-35 | an error is recorded exactly when the snippet raised something other than `SystemExit`, and its text is the stripped traceback |
| Snippet.AttachRunError | src/eco2ai-api.py:58-60 | without an error the dictionary is unchanged; with one, `run_error = True` and `stderr` are added |
| Snippet.LemmaAttachKeeps | src/eco2ai-api.py:58-60 | attaching the error leaves every key other than `run_error` and `stderr` as it was, and sets `run_error` exactly when there is an error |
| Eco2aiApi.GramsOf | src/eco2ai-api.py:53 | grams exist exactly when kilograms exist, and are kilograms × 1000 |
| Eco2aiApi.RunAndTrackFile | src/eco2ai-api.py:21-60 | `country` is always None; `run_error` follows how the snippet ended; without a last CSV row every measure is None; with one, each field is `_ffloat` of `_pick` over its column names in order; `co2eq_g = emissions_kg × 1000`, and both are None together |
| Eco2aiApi.LemmaPayload | src/eco2ai-api.py:39-60 | the printed record carries `run_error` exactly when the snippet raised, with the stripped traceback as `stderr`; `country` is null; `emissions_kg` and `co2eq_g` are null together |
| CodecarbonApi.StopValue | src/codecarbon-api.py:33 | `tracker.stop() or 0.0`: a missing stop value becomes 0.0 |
| CodecarbonApi.MeasureFile | src/codecarbon-api.py:16-66 | a record exists exactly when the subprocess returned; `emissions_kg` is never None; `stderr` is the stripped captured text only when `returncode != 0`; the location fields stay None; without a last row every measure is None; with one, each field is `_ffloat` of its one fixed column, and a parseable `emissions` column overrides the stop value |
| CodecarbonApi.LemmaEmissionsSource | src/codecarbon-api.py:62-64 | the emissions are the CSV `emissions` value when it parses, and the stop value (or 0.0) otherwise |
| CodecarbonApi.LemmaNoCsv | src/codecarbon-api.py:35-44 | before the CSV is read (and after a failed or absent read), every measured field is None and the emissions are the stop value, or 0.0 when there is none |
| TracarbonApi.AsFloat | src/tracarbon-api.py:15-19 | `_as_float`: a number is itself, a bool is 1.0 or 0.0, a string is `float()` of it, and None, a list or a dictionary give the default None |
| TracarbonApi.ValueFromMetricObjAsWritten | src/tracarbon-api.py:22-37 | as written: the `.value` attribute, else a dictionary's `"value"` entry, else the object itself |
| TracarbonApi.LemmaNestedValueLost | src/tracarbon-api.py:29-35 | the metric `{"value": {"value": 3.2}}` yields the inner dictionary, which `_as_float` cannot read, so the nested branch never runs |
| TracarbonApi.ValueFromMetricObj | src/tracarbon-api.py:22-37 | as the comment at line 32 describes it: the nested `{"value": {"value": x}}` form yields `x` |
| TracarbonApi.LemmaNestedValueRead | src/tracarbon-api.py:32-35 | the corrected reading gives 3.2 for the nested example |
| TracarbonApi.LemmaValueVersionsAgree | src/tracarbon-api.py:27-37 | both readings agree on every object except a dictionary whose `"value"` is itself a dictionary holding `"value"` |
| TracarbonApi.ReadValue | src/tracarbon-api.py:83 | the reading the loop uses is `_value_from_metric_obj` as written; the intended one differs from it only on a nested metric |
| TracarbonApi.MetricValue | src/tracarbon-api.py:83-85 | `_as_float(_value_from_metric_obj(metric))`: a model object gives `float()` of its `.value`; as written a nested metric never reads as a number, while the intended reading takes its inner value |
| TracarbonApi.LemmaLastValue | src/tracarbon-api.py:81-96 | `LastValue`, the value the loop leaves for a kind (energy, or carbon), is None exactly when no metric of that kind reads as a number; otherwise it is the value of such a metric, and no later metric of the kind reads as a number; for either reading |
| TracarbonApi.SplitCarbon | src/tracarbon-api.py:91-96 | both fields are set exactly when a value was read; `co2eq_g = emissions_kg × 1000`; a value above 1000 is taken as grams, otherwise as kilograms |
| TracarbonApi.CollectMetrics | src/tracarbon-api.py:77-98 | the loop, reading metrics as written, gives the `LastValue` energy and the g/kg split of the carbon `LastValue` |
| TracarbonApi.RunAndTrackFile | src/tracarbon-api.py:40-108 | the record holds the measured duration, the collected energy (as written), the kg/g pair with `co2eq_g = emissions_kg × 1000` (both set or both None), and `run_error` exactly when the snippet raised |
| TracarbonApi.LemmaUnreadableSkipped | src/tracarbon-api.py:83-85 | a metric whose value does not read as a number changes nothing, for either reading (as written, a nested metric is such a metric) |
| TracarbonApi.LemmaLaterOverwrites | src/tracarbon-api.py:81-96 | a later readable metric of a kind overwrites whatever came before it, for either reading |
| TracarbonApi.LemmaCaseInsensitive | src/tracarbon-api.py:82-88 | names are lower-cased before matching: two names with the same lower-cased form are of the same kinds, and a name is of the kinds of its lower-cased form; so `EnergyConsumption` is an energy metric, and `CarbonEmission` and `CO2` are carbon metrics |
| TracarbonApi.LemmaReadingsAgree | src/tracarbon-api.py:29-88 | without a nested metric of the kind, the loop as written and the intended loop give the same value |
| TracarbonApi.LemmaNestedMetricSkipped | src/tracarbon-api.py:29-96 | the report `[("CarbonEmission", {"value": {"value": 3.2}})]` leaves `emissions_kg` and `co2eq_g` None as written, and gives 3.2 kg and 3200 g as intended |
| CarbontrackerApi.Candidates | src/carbontracker-api.py:57-67 | the three places, in order: the log directory, its `carbontracker` subdirectory (only if it exists), and `~/.carbontracker/logs` (only if it exists) |
| CarbontrackerApi.LemmaSearchSpec | src/carbontracker-api.py:57-67 | the search yields a non-empty list only from the first place tried that gave one, having tried no earlier place with a list; a parse that raises ends the search the same way, so no later place is tried; it yields the empty list exactly when every place tried gave nothing |
| CarbontrackerApi.SearchLogs | src/carbontracker-api.py:56-67 | the successive fallbacks compute the reference search over the three places |
| CarbontrackerApi.LemmaFirstPlaceWins | src/carbontracker-api.py:57-60 | logs found in the log directory itself end the search |
| CarbontrackerApi.ActualOf | src/carbontracker-api.py:71 | `(last or {}).get("actual") or {}`: a falsy log or a falsy `actual` gives the empty dictionary; a dictionary `actual` is used as is; `.get` on a truthy non-dictionary raises |
| CarbontrackerApi.Conv | src/carbontracker-api.py:72-77 | a missing or null key gives None; a present key gives `float()` of its value, or raises when that fails |
| CarbontrackerApi.FromLogs | src/carbontracker-api.py:69-81 | `emissions_kg` is set exactly when `co2eq_g` is, and equals `co2eq_g / 1000`; a parse that raised or found no logs leaves every field None |
| CarbontrackerApi.LemmaFromLogsAllConvert | src/carbontracker-api.py:69-78 | when every value converts, each field is the conversion of its key in the last log's `actual` |
| CarbontrackerApi.LemmaEarlyFailure | src/carbontracker-api.py:56-81 | a failure before the first value is stored leaves every field None |
| CarbontrackerApi.LemmaPartialOnRaise | src/carbontracker-api.py:75-81 | a later conversion that raises keeps the earlier fields: a readable duration stays set when the energy cannot be read |
| CarbontrackerApi.ReadMeasures | src/carbontracker-api.py:69-81 | the step-by-step assignments compute `FromLogs` |
| CarbontrackerApi.RunAndTrackFile | src/carbontracker-api.py:26-87 | the record is `FromLogs` of the three-place search, it keeps the kg = g / 1000 invariant, and it carries `run_error` exactly when the snippet raised |
| Suggestions.Applicable | src/app.py:273-281 | no more suggestions than rules |
| Suggestions.LemmaSnoc | src/app.py:274-280 | testing one more rule appends exactly that rule's contribution |
| Suggestions.LemmaApplicableMembers | src/app.py:273-281 | a text is suggested exactly when a rule carrying it fires |
| Suggestions.LemmaNoDuplicates | src/app.py:273-281 | with distinct texts, no suggestion appears twice |
| Suggestions.LemmaUnmentionedSmell | src/app.py:273-281 | a smell that no rule mentions changes nothing |
| Suggestions.SuggestionsFor | src/app.py:273-281 | the appends compute the app's rule table, in its fixed order |
| Suggestions.QuickSuggestions | src/extension-codecarbon.ts:61-71 | the pushes compute the extensions' quick table, in its fixed order |
| Suggestions.TracarbonSuggestionsFor | src/extension-tracarbon.ts:59-80 | the pushes compute the Tracarbon extension's table, in its fixed order |
| Suggestions.LemmaUnfold5 | src/extension-codecarbon.ts:61-71 | a five-rule table suggests its rules' contributions in order |
| Suggestions.LemmaUnfold6 | src/app.py:274-280 | a six-rule table suggests its rules' contributions in order |
| Suggestions.LemmaTablesDistinct | src/extension-carbontracker.ts:39-49 | every table has distinct texts, so no suggestion is listed twice |
| Suggestions.LemmaQuickNumpyPandasOnce | src/extension-eco2ai.ts:39-49 | when both the NumPy smell and the Pandas framework hold, the combined text appears, once, and no suggestion is listed twice |
| Suggestions.LemmaAppIgnoresNestedLoops | src/app.py:257-281 | the nested-loop smell that the app detects yields no suggestion |
| App.ShortCodePreview | src/app.py:195-197 | the preview holds no newline and is at most `n + 1` long; it is the stripped, single-line code when that fits in `n`, and its first `n` characters followed by "…" otherwise |
| App.Co2Level | src/app.py:218-225 | `lv-bad` exactly for kg ≥ 0.01, `lv-warn` exactly for 0.001 ≤ kg < 0.01, and `lv-ok` exactly for None or kg < 0.001 |
| App.LemmaCo2LevelMonotone | src/app.py:218-225 | more emissions never give a milder level |
| App.Co2FmtKg | src/app.py:204-207 | None gives the dash; scientific notation is used exactly for 0 < kg < 1e-5; otherwise the fixed form |
| App.ToolChipCls | src/app.py:227-233 | the class of the first backend name contained in the lower-cased label, in the order cc, ct, e2, tr; "" when none is contained |
| App.LemmaToolChipCaseInsensitive | src/app.py:227-233 | the chip ignores case: any label gets the class of its lower-cased form |
| App.LemmaToolChipLabels | src/app.py:227-233 | the select-box labels `CodeCarbon`, `CarbonTracker`, `Eco2AI` and `Tracarbon` get their own classes |
| App.MissingBackend | src/app.py:292-293 | a missing library gives exactly the keys `error`, `notes` and `stderr` |
| App.CodecarbonBase | src/app.py:316-320 | the starting dictionary holds the stop value and None for the duration and the three energies, and no `error` or `run_error` key |
| App.CodecarbonFill | src/app.py:330-334 | the five assignments set the duration and energies from the row and keep the stop value and the absence of `error` and `run_error` |
| App.LemmaCodecarbonDict | src/app.py:316-336 | the app keeps the stop value as it is (None stays None); without a last row the energies are None; with one, each is `_ffloat` of its column |
| App.MeasureWithCodecarbon | src/app.py:289-338 | a failed import gives the `codecarbon_missing` record; otherwise the dictionary with the run error attached |
| App.AppFromLogs | src/app.py:368-387 | the duration is always set; kg is set exactly when grams are, as grams / 1000; a parse that raised or found no logs keeps only the wall-clock duration |
| App.LemmaAppDuration | src/app.py:377-387 | the log's duration replaces the wall-clock one when it is present and converts; when it is None, or its `float()` raises into the `except: pass`, the wall-clock duration stays |
| App.AppReadMeasures | src/app.py:376-385 | each `if … is not None` assignment computes `AppFromLogs` |
| App.CarbontrackerDict | src/app.py:363-385 | the four measured fields, with no `error`, `run_error` or `stderr` key |
| App.MeasureWithCarbontracker | src/app.py:340-389 | a failed import gives the `carbontracker_missing` record; otherwise the fields of the three-place search from the wall-clock start, with `run_error = True` and the stripped traceback as `stderr` exactly when the snippet raised |
| App.CountryOf | src/app.py:429 | `last.get("country") or None`: null exactly when the column is missing or empty |
| App.Eco2aiDict | src/app.py:399 | the five-field dictionary holds each given value under its key and has no `error` or `run_error` key |
| App.MeasureWithEco2ai | src/app.py:391-433 | a failed import gives the `eco2ai_missing` record; otherwise the dictionary filled from the last CSV row (or left all None) with the run error attached |
| App.LemmaEco2aiFields | src/app.py:399-432 | once Eco2AI imports there is no `error` key and `run_error` is present exactly when the snippet raised; without a last row every field is None; with one, the fields come from the first column name of each measure, g = kg × 1000, and the country is copied when non-empty |
| App.ClassifyWrapperOutput | src/app.py:453-458 | a JSON dictionary is the result; other JSON gives `tracarbon_invalid_json` with the output cut to 400; unparsable output gives `tracarbon_no_json` with stderr (or else the output) cut to 400 |
| App.LemmaWrapperNotesBounded | src/app.py:456-458 | every error the classification produces has notes of at most 400 characters |
| App.TracarbonViaWrapper | src/app.py:435-458 | no wrapper gives `tracarbon_wrapper_missing`; a failed process gives `tracarbon_wrapper_failed` with the exception text; otherwise the classified output |
| App.LemmaWrapperLookupOrder | src/app.py:437-441 | `src/tracarbon-api.py` is preferred, then `tracarbon-api.py`; neither gives the missing-wrapper error |
| App.HeadlineOf | src/app.py:493-499 | `emissions_kg` when it is a number, else `co2eq_g / 1000` when that is a number, else "Empreinte : indisponible" |
| App.GramsOf | src/app.py:501-507 | `co2eq_g` when it is a number, else `emissions_kg × 1000`, else the dash |
| App.LemmaHeadlineGramsAgree | src/app.py:493-507 | the headline is unavailable exactly when the grams are; when the grams are shown, the headline shows that quantity in kilograms |
| App.ContextSpec | src/app.py:518-520 | context entries come only from the listed keys with truthy values, and there are no more entries than keys |
| App.LemmaContextComplete | src/app.py:518-520 | every listed key with a truthy value is shown |
| App.RenderContext | src/app.py:518-520 | the context loop computes the reference list |
| App.FmtNumText | src/app.py:199-213 | `_fmt_num`: the dash exactly for None, the formatted number exactly for an int, float or bool, otherwise `str(x)` |
| App.Component | src/app.py:513-515 | one extras entry for a component exactly when its energy is a number, with that value |
| App.Extras | src/app.py:512-515 | at most three energy entries, in the order CPU, GPU, RAM |
| App.LemmaExtrasMembers | src/app.py:512-515 | the CPU, GPU and RAM entries are each present exactly when that `*_energy_kwh` is an int or float, carrying its value, and nothing else is listed |
| App.RenderResult | src/app.py:484-521 | the result card has the headline, the grams figure, the duration and energy figures set from `duration_s` and `energy_kwh`, the extras of `Extras` from the three `*_energy_kwh` values, and the context |
| App.ShowRun | src/app.py:562-580 | a result with an `error` key is shown as an error: its notes (or `Erreur <error>`), with the `stderr` details exactly when they are truthy; any other result is shown as the card `RenderResult` builds (headline, grams, duration, energy, CPU/GPU/RAM extras and context, each tied to the result) with one bullet per recommendation, or "Aucune recommandation détectée." when there are none |
| ExtensionShared.FmtNum | src/extension-codecarbon.ts:74-78 | the dash exactly for undefined, null and ""; a number exactly for JSON numbers, with their value; any other value is stringified |
| ExtensionShared.LemmaShownValue | src/extension-carbontracker.ts:52-56 | a value gives a line exactly when it does not print as the dash, and a number always gives one |
| ExtensionShared.EmissionsKg | src/extension-codecarbon.ts:111 | kg is taken from the payload only when `emissions_kg` is a number |
| ExtensionShared.ParsePayload | src/extension-codecarbon.ts:107-116 | a non-null JSON output is the payload, with kg from its numeric `emissions_kg`; otherwise (a parse that throws, or `null`, which throws on the property read) the payload is `{}` and kg is `parseFloat(out)` when finite, so an infinity from `parseFloat` is never kept |
| ExtensionShared.HeadlineOf | src/extension-codecarbon.ts:118-120 | scientific notation exactly for 0 < kg < 1e-5, fixed exactly for other non-NaN kg, `Erreur : <stderr>` exactly for NaN with stderr, and the fallback text exactly for NaN without |
| ExtensionShared.LemmaFigureWins | src/extension-eco2ai.ts:114-116 | stderr never reaches the headline while a figure is known |
| ExtensionShared.Opt | src/extension-codecarbon.ts:154 | a conditional push keeps its line exactly when its condition holds |
| ExtensionShared.Bullets | src/extension-codecarbon.ts:165 | one `• ` bullet per recommendation, in order |
| ExtensionShared.RecosBlock | src/extension-codecarbon.ts:165 | one `• ` bullet per recommendation, in order, joined by newlines (a single one is just its bullet); no recommendation gives "• Aucune recommandation détectée." |
| ExtensionShared.LemmaRecosBlockCons | src/extension-codecarbon.ts:165 | with two or more recommendations the block is the first bullet, a newline, then the block of the rest, so the bullets are one per line in order |
| ExtensionShared.Rendered | src/extension-codecarbon.ts:167-173 | one printed line per report line, in order |
| ExtensionShared.LemmaJoinAppend | src/extension-tracarbon.ts:267-272 | joining a concatenation puts exactly one separator between the halves |
| ExtensionShared.LemmaReportFrame | src/extension-codecarbon.ts:165-173 | every report is the title, the rule, the lines, "Recommandations :" and the block, one per line; this equals the concatenation form of the Tracarbon extension |
| ExtensionShared.LemmaBlankCode | src/extension-codecarbon.ts:199 | a code is blank exactly when every character is JavaScript white space |
| ExtensionShared.OrUnknown | src/extension-eco2ai.ts:199 | `interpInfo \|\| '(inconnu)'` |
| ExtensionPython.BareFallback | src/extension-codecarbon.ts:86 | the platform's bare name is `py` or `python3`, never `python` |
| ExtensionPython.RootVenvs | src/extension-codecarbon.ts:82-85 | without a workspace root (missing or empty) no venv is considered; otherwise two candidates |
| ExtensionPython.LemmaVenvNotBare | src/extension-codecarbon.ts:88 | a venv path is never taken for a bare name |
| ExtensionPython.PickPythonCmd | src/extension-codecarbon.ts:80-92 | the first existing venv path, else `py` on Windows and `python3` elsewhere; the trailing `python` is never returned |
| ExtensionPython.PythonSetting | src/extension-eco2ai.ts:57-64 | an existing non-empty `defaultInterpreterPath` wins, then an existing non-empty `pythonPath`; nothing exactly when neither qualifies |
| ExtensionPython.WorkspaceVenvs | src/extension-eco2ai.ts:69-74 | the four venv candidates, in order |
| ExtensionPython.ResolvePython | src/extension-eco2ai.ts:65-78 | the setting, else the first existing venv candidate, else `py -3` on Windows, else `python3` |
| ExtensionPython.LemmaInterpInfoPlain | src/extension-eco2ai.ts:189 | a command without arguments is shown as is: the space before the empty argument list is trimmed away |
| ExtensionPython.LemmaInterpInfoLauncher | src/extension-tracarbon.ts:171 | the Windows launcher is shown as `py -3` |
| ExtensionPython.PipCommand | src/extension-eco2ai.ts:194-196 | the `py -3 -m pip install` form exactly for the `py` launcher, else the quoted interpreter path |
| ExtensionPython.LemmaPipCommandForm | src/extension-tracarbon.ts:176-178 | the two forms start differently: the quoted form exactly when the command is not `py` |
| ExtensionCodecarbon.BuildAnalysisBlock | src/extension-codecarbon.ts:129-174 | the pushes give the header lines, then the non-dash measurement, component and location lines of a truthy payload in order, then the smells line; the recommendations are the quick table's |
| ExtensionCodecarbon.LemmaLinesFrame | src/extension-codecarbon.ts:135-164 | the report starts with the language, frameworks and footprint lines and ends with the smells line |
| ExtensionCodecarbon.LemmaComponentLines | src/extension-codecarbon.ts:156-158 | each CPU, GPU and RAM line appears exactly when the payload is truthy and the energy or power is not the dash |
| ExtensionCodecarbon.LemmaLocationLine | src/extension-codecarbon.ts:159-161 | the location line appears exactly when the payload is truthy and any of country, region and cloud is shown |
| ExtensionCodecarbon.LemmaPowerOnly | src/extension-codecarbon.ts:156 | a payload with only the CPU power still gets the CPU line, with the dash for the energy |
| ExtensionCodecarbon.LemmaUnparsedOutput | src/extension-codecarbon.ts:112-116 | an output that is not JSON leaves exactly the fixed lines |
| ExtensionCodecarbon.Respond | src/extension-codecarbon.ts:197-210 | blank code gives the request for code; a failed run gives `Analyse indisponible : <message>`; otherwise the report from the trimmed streams |
| ExtensionCarbontracker.BuildAnalysisBlock | src/extension-carbontracker.ts:107-142 | the pushes give the header lines, the non-dash duration, energy, CO₂ and place lines of a truthy payload, and the smells line; the recommendations are the quick table's |
| ExtensionCarbontracker.LemmaMeasureLines | src/extension-carbontracker.ts:126-128 | each of the duration, energy and CO₂ lines appears exactly when the payload is truthy and the value is not the dash |
| ExtensionCarbontracker.LemmaPlaceLine | src/extension-carbontracker.ts:129 | the place line appears exactly when the country or the region is shown, and carries ` \| region` exactly when the region is shown |
| ExtensionCarbontracker.LemmaCountryOnly | src/extension-carbontracker.ts:129 | a country without a region gives the place line without the region |
| ExtensionCarbontracker.Respond | src/extension-carbontracker.ts:163-177 | blank code gives the request for code; a failed run gives the rejection message; otherwise the report from the trimmed streams |
| ExtensionEco2ai.PayloadNotes | src/extension-eco2ai.ts:146 | a note exists exactly when the payload's `stderr` is a string that is not blank, and it is that string trimmed |
| ExtensionEco2ai.BuildReport | src/extension-eco2ai.ts:125-159 | the pushes give the header lines with the interpreter, the non-dash measures and the note of a truthy payload, and the smells line; the recommendations are the quick table's |
| ExtensionEco2ai.LemmaNotesLine | src/extension-eco2ai.ts:146 | a Notes line appears exactly when the payload is truthy and has a note, and it then carries that note |
| ExtensionEco2ai.LemmaBlankStderrNoNote | src/extension-eco2ai.ts:146 | a blank payload `stderr` adds no note |
| ExtensionEco2ai.Eco2aiTip | src/extension-eco2ai.ts:197-203 | the tip names the interpreter (or "(inconnu)") and gives the install command for that interpreter |
| ExtensionEco2ai.Respond | src/extension-eco2ai.ts:180-222 | blank code gives the request for code and nothing runs; a failed preflight gives the install tip; a failed run gives the rejection message; otherwise the report |
| ExtensionTracarbon.CatchKg | src/extension-tracarbon.ts:214-218 | the `catch` figure is `parseFloat(out)` unless it is NaN, so an infinity is kept |
| ExtensionTracarbon.ParseOutputAsWritten | src/extension-tracarbon.ts:205-219 | as written: `m` is the parsed value even when it is `null`; a failed parse leaves `{}` and takes `parseFloat(out)` unless it is NaN |
| ExtensionTracarbon.LemmaNullOutputPostsNothing | src/extension-tracarbon.ts:205-248 | for the output `null`, the callback throws on reading `m["duration_s"]` and posts nothing |
| ExtensionTracarbon.ParseOutput | src/extension-tracarbon.ts:205-219 | corrected: the callback always posts; a parsed `null` is treated like a failed parse |
| ExtensionTracarbon.LemmaParseAgainstOthers | src/extension-tracarbon.ts:205-219 | as written, the payload is the other extensions' payload except for the output `null`, kept here and `{}` there; kg is the same unless `parseFloat` gives an infinity, which this extension keeps and the others drop; the intended parse always gives the others' payload |
| ExtensionTracarbon.ReadOutput | src/extension-tracarbon.ts:205-219 | the parse block computes the as-written parse, `m` taking a parsed `null` |
| ExtensionTracarbon.PushLines | src/extension-tracarbon.ts:242-265 | the pushes give `TracarbonLines`: the header lines, the measures that are not the dash, the smells line, then the Notes line when there is a note |
| ExtensionTracarbon.NotesOf | src/extension-tracarbon.ts:261-265 | at most two notes; the process stderr comes first when present; no notes exactly when both sources are empty |
| ExtensionTracarbon.HandleOutput | src/extension-tracarbon.ts:199-274 | for the as-written parse, nothing is posted exactly when the output parses to `null`; otherwise the callback's report: the header lines with the interpreter, the non-dash measures, the smells line and then the Notes line, with the headline falling back to "Erreur lors de l’analyse" |
| ExtensionTracarbon.LemmaNotesOrder | src/extension-tracarbon.ts:261-265 | with both sources present, the Notes line lists the process stderr before the payload's stderr |
| ExtensionTracarbon.LemmaNotesLine | src/extension-tracarbon.ts:265 | with a note, the Notes line is the last line, right after the smells line; without one, the smells line is last |
| ExtensionTracarbon.LemmaPlainNumberOutput | src/extension-tracarbon.ts:214-230 | a non-JSON output whose `parseFloat` is a number of at least 1e-5 gives that figure, in fixed form, in the headline even with a stderr, and that stderr is the only note |
| ExtensionTracarbon.TracarbonTip | src/extension-tracarbon.ts:176-185 | the tip names the interpreter (or "(inconnu)") and gives `pip install tracarbon` for that interpreter |
| ExtensionTracarbon.Respond | src/extension-tracarbon.ts:160-283 | a failure before the run gives the unexpected-error message; a failed preflight gives the install tip; otherwise the callback's report whatever the run's exit status, and no answer at all for an output that parses to `null` |
| Bench.ToolPath | bench_all.py:8-13 | `src/rel` if it exists, else `src/test/rel` if that exists, else `src/rel` |
| Bench.LemmaToolPathFirstExisting | bench_all.py:8-13 | the location is the first existing candidate, with the first as the default |
| Bench.Tools | bench_all.py:37-42 | the four tools in fixed order: codecarbon, carbontracker, eco2ai, tracarbon |
| Bench.RFind | bench_all.py:26 | `rfind` gives -1 or an index holding the character |
| Bench.LemmaRFindLast | bench_all.py:26-27 | no later index holds the character, and -1 means it does not occur |
| Bench.Positions | bench_all.py:28 | every listed position holds `{` |
| Bench.LemmaPositionsComplete | bench_all.py:28-29 | every `{` up to the last `}` is listed, in strictly increasing order |
| Bench.ExtractJson | bench_all.py:22-35 | the loop returns what the reference `ExtractJsonSpec` returns |
| Bench.LemmaTryStarts | bench_all.py:30-35 | the loop gives None exactly when no tried slice parses; otherwise the parse of a start with no parseable start to its right |
| Bench.LemmaCandidatesListed | bench_all.py:28-29 | the collected `{` positions are exactly the candidate starts at or before the last `}`, in strictly increasing order |
| Bench.LemmaTriedNone | bench_all.py:28-35 | the loop over the collected starts finds nothing exactly when no candidate slice parses |
| Bench.LemmaTriedSome | bench_all.py:28-35 | what the loop finds is the parse of a candidate with no parseable candidate to its right |
| Bench.LemmaExtractBlank | bench_all.py:24-25 | an empty or blank text gives None |
| Bench.LemmaExtractNoClosingBrace | bench_all.py:26-27 | a text without `}` gives None |
| Bench.LemmaExtractJson | bench_all.py:22-35 | the end index is the last `}` of the stripped text; every tried slice runs from a `{` to it; the result is the parse of the rightmost start whose slice parses (the shortest parseable slice); None exactly when no candidate parses |
| Bench.Run | bench_all.py:46-55 | `run` computes the reference `RunSpec` |
| Bench.LemmaRunPrefersStdout | bench_all.py:52 | a truthy payload on stdout is the result, whatever stderr holds |
| Bench.LemmaRunFallsBackToStderr | bench_all.py:52 | an empty dictionary or nothing on stdout falls through to stderr's payload |
| Bench.LemmaRunNoJson | bench_all.py:53-55 | with no payload on either stream, the result is the `no_json` record |
| Bench.LemmaNoJsonFields | bench_all.py:54 | the `no_json` record carries the error tag and both stripped texts |
| Bench.HeadOf | bench_all.py:65 | `v[:n]` keeps the first `n` characters of a string or items of a list, and raises for any other value |
| Bench.RowOf | bench_all.py:59-65 | the row holds the name and the result's `duration_s`, `energy_kwh`, `emissions_kg` and `error`, and the cut note; it raises exactly when the note cannot be cut |
| Bench.LemmaRowRaises | bench_all.py:65 | the row raises exactly when the first truthy of `stderr` and `stdout` is neither a string nor a list |
| Bench.LemmaNoJsonRow | bench_all.py:54-65 | the `no_json` record never raises; its note is the start of the stripped stderr, or of the stripped stdout when that is empty, at most 120 characters |
| Bench.RunRow | bench_all.py:59-65 | one pass of the loop: the tool's captured output is run and cut into the row `RowAt` gives for that tool |
| Bench.BuildRows | bench_all.py:57-65 | one row per tool, in TOOLS order, each made from that tool's run; none when some tool's note raises |
| Bench.MaxNameLength | bench_all.py:67 | the width is at least every name's length and equals one of them |
| Bench.TableLines | bench_all.py:70-71 | one line per row, in row order |
| Bench.RenderTable | bench_all.py:66-71 | the header, then one line per row, all with the name column as wide as the longest name |
| Bench.LemmaNameColumnAligned | bench_all.py:68-71 | a name that fits the column is followed by spaces up to the column width and then the two-space separator |
| Bench.LemmaHeaderAligned | bench_all.py:68 | `Header`: `tool`, spaces to the name column width, the two-space separator, then the column titles |
| Bench.LemmaMessageColumn | bench_all.py:69-71 | `TableLine` and `Cells`: when the measures fit their 10-, 12- and 14-character columns, `err or note` starts at the same column of every line |
| Bench.Benchmark | bench_all.py:37-71 | nothing is printed when a row raises; otherwise four rows in TOOLS order, each from that tool's run, and five printed lines |

Three corrections from reading the source:
- The Tracarbon extension's `fmt` (src/extension-tracarbon.ts:232-240) differs from `fmtNum`
  by not testing `isFinite`. The two differ only on an infinite number, and a payload number is
  a real in this model (see "Left out"), so `ExtensionShared.FmtNum` models both. A finite
  float printed by `json.dumps` parses back to a finite JavaScript number, and `json.dumps`
  prints an infinity or NaN as `Infinity` or `NaN`, which `JSON.parse` rejects.
- In the carbontracker wrapper, the comment at src/carbontracker-api.py:80 says every value
  stays None when parsing fails. The code stores each field as soon as it is converted, so a
  later conversion that raises keeps the earlier ones. The model follows the code
  (`CarbontrackerApi.LemmaPartialOnRaise`).
- `tracker.stop() or 0.0` makes the `is not None` test at src/codecarbon-api.py:36 dead, so
  the wrapper's emissions are never null. The app (src/app.py:319) has no `or 0.0`, so its
  None stays None.

## Left out

- Subprocesses, `runpy`, temporary files and directories and their cleanup, `time.sleep`, and
  the execution timeouts (120 s and 180 s for the runs, 15 s for the preflight): their results
  are inputs (`RunOutcome`, `Proc`, `ExecResult`, `WrapperRun`), and a timeout is one more
  failure.
- The measuring libraries (trackers, `parse_all_logs`, the metric report): their outputs are
  inputs.
- `float()`, `json.loads`, `JSON.parse`, `parseFloat` and file existence: these are oracles.
  No number or JSON grammar is modelled, and NaN or infinite Python floats coming from
  `float()` are not distinguished from other reals.
- The `JSON_OUT` file write, `print`, `json.dumps` key order and the `__main__` argument
  checks of the wrappers: output I/O.
- `_dump_and_print` (src/carbontracker-api.py:13-23): writing I/O.
- The Streamlit page, CSS, `st.*` calls, session state and the history sidebar of src/app.py:
  UI. The history card itself uses `ToolChipCls`, `Co2Level`, `Co2FmtKg` and
  `ShortCodePreview`, which are modelled.
- The digits printed by `_fmt_s`, `_fmt_kwh`, `_fmt_g`, `toExponential`, `toFixed` and
  `_co2_fmt_kg`: floating-point presentation. Report lines and the result card keep their
  values symbolically (`Shown`, `Headline`, `KgText`, `GramsText`, `NumText`, which records
  which branch of `_fmt_num` is taken), and printing is the parameter `render` or `show`.
- `detect_language`, `detect_frameworks_python`, `_has_sleep_in_loop` and
  `detect_energy_smells_python`, and their TypeScript counterparts: regular-expression
  semantics. Their results are inputs.
- The webview HTML, activation, dispose and message plumbing of the extensions: UI.
- The `label` and `note` fields of `resolvePython`'s result: they are never shown.
- Normalisation by `path.join` (`..`, duplicate separators): paths are plain concatenations
  with the platform separator.
- A JSON number is a real: a literal beyond the double range, such as `1e400`, which
  `JSON.parse` reads as `Infinity`, is not modelled. For such an `emissions_kg` the
  CodeCarbon extension would show the headline `Infinity kgCO₂`, and `fmtNum` and Tracarbon's
  `fmt` would both print `Infinity`, Tracarbon's with its unit.
- `Text.Lower`: ASCII letters only; Unicode case mapping is not modelled.
- `resolve_target` in bench_all.py: a file-system probe with path resolution.
- bench_cpu_60s.py: a timed busy loop.
- The compiled out/*.js copies: the TypeScript sources are modelled.
- TracarbonApi.CollectMetrics: an exception raised by `.items()` or by reading a metric in the
  middle of the loop, which would keep the fields set so far, is not modelled. The report is a
  list of (name, metric) pairs whose reading does not raise.
- App.MeasureWithCarbontracker: an exception from the tracker's constructor or epoch calls is
  not modelled separately; the wall-clock duration of a completed run is an input.
- App.MeasureWithCodecarbon: an exception from the `EmissionsTracker(...)` constructor or from
  `start`/`stop`, which lie outside any `except` and end the call, is not modelled; the
  tracker is taken to start and stop.
- App.MeasureWithEco2ai: an exception from the `eco2ai.Tracker(...)` constructor or from
  `start`/`stop`, which lie outside any `except` and end the call, is not modelled; the
  tracker is taken to start and stop.
- ExtensionTracarbon.HandleOutput: `execFile`'s own error argument is ignored by the source,
  and so it is absent here; a run that fails still goes through the callback.

## Findings

| source | as written | input that shows it | evidently intended | confidence | as-written member | corrected member |
|---|---|---|---|---|---|---|
| src/tracarbon-api.py:29-35 | a dictionary holding `"value"` returns that entry at once, so the nested branch for `{'value': {'value': x}}` can never run | metric `{"value": {"value": 3.2}}`: the inner dictionary is returned, `_as_float` fails, and the metric is skipped | the nested form yields `x` (3.2), as the comment at line 32 says | medium, not executed | TracarbonApi.ValueFromMetricObjAsWritten (with TracarbonApi.LemmaNestedValueLost and TracarbonApi.LemmaNestedMetricSkipped) | TracarbonApi.ValueFromMetricObj (with TracarbonApi.LemmaNestedValueRead and TracarbonApi.LemmaReadingsAgree) |
| src/extension-tracarbon.ts:205-219, 248 | `m = parsed` is assigned before `parsed["emissions_kg"]` throws on `null`, so `m` stays `null` and reading `m["duration_s"]` throws inside the callback | wrapper stdout `null` | `m` stays `{}` as on any other parse failure, and a report is posted | low, not executed | ExtensionTracarbon.ParseOutputAsWritten (with ExtensionTracarbon.LemmaNullOutputPostsNothing) | ExtensionTracarbon.ParseOutput (with ExtensionTracarbon.LemmaParseAgainstOthers) |

The Tracarbon wrapper's loop (`TracarbonApi.CollectMetrics`) and the Tracarbon extension's
callback (`ExtensionTracarbon.HandleOutput`, `ExtensionTracarbon.Respond`) follow the code as
written, so that they describe what the program does. The corrected definitions stand beside
them, with the lemmas that say where the two differ: `TracarbonApi.LemmaReadingsAgree` and
`TracarbonApi.LemmaNestedMetricSkipped` for the metric reading, and
`ExtensionTracarbon.LemmaParseAgainstOthers` for the parse.
