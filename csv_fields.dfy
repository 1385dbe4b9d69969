/**
  Reading fields out of the last row of a tracker's CSV file: `_ffloat` (sentinel-aware
  float conversion that never raises) and `_pick` (first qualifying column among several
  candidate names). The same `_ffloat` is defined in eco2ai-api.py, codecarbon-api.py and
  app.py; it is modelled once here.

  A CSV row is `map<string, string>`. `csv.DictReader` fills the missing fields of a short
  row with None; such a field is modelled as an absent key, which `_ffloat`, `_pick` and
  `dict.get` treat exactly like a None value.
 */
module CsvFields {
  import opened Wrappers
  import opened Search

  type CsvRow = map<string, string>

  /** What a CSV read produced: no file, a read that raised, or the list of rows. */
  datatype CsvArtifact = NoFile | ReadFailed | Read(rows: seq<CsvRow>)

  /** The values `_ffloat` and `_pick` treat as unknown: None, "" and "None". */
  predicate IsSentinel(x: Option<string>) {
    x.None? || x.value == "" || x.value == "None"
  }

  /** `row.get(k)`. */
  function Get(row: CsvRow, k: string): (r: Option<string>)
    ensures r.Some? <==> k in row
    ensures r.Some? ==> r.value == row[k]
  {
    if k in row then Some(row[k]) else None
  }

  /** `_ffloat(x, default)`: the default for a sentinel, else `float(x)`, and the default
      again when `float` raises (`toFloat` gives None). */
  function FFloat(x: Option<string>, default: Option<real>, toFloat: string -> Option<real>): (r: Option<real>)
    ensures IsSentinel(x) ==> r == default
    ensures r != default ==> !IsSentinel(x) && toFloat(x.value) == r
    ensures !IsSentinel(x) && toFloat(x.value).Some? ==> r == toFloat(x.value)
    ensures !IsSentinel(x) && toFloat(x.value).None? ==> r == default
  {
    if IsSentinel(x) then default
    else
      var f := toFloat(x.value);
      if f.Some? then f else default
  }

  /** With the default None (as every caller uses it), `_ffloat` yields a number exactly when
      the value is a real value that parses, and that number is the parse. */
  lemma LemmaFFloatKnown(x: Option<string>, toFloat: string -> Option<real>, v: real)
    ensures FFloat(x, None, toFloat) == Some(v) <==> !IsSentinel(x) && toFloat(x.value) == Some(v)
  {
  }

  /** A column qualifies for `_pick` when it is present and not a sentinel. */
  predicate Qualifies(row: CsvRow, n: string) {
    n in row && !IsSentinel(Some(row[n]))
  }

  /** What `_pick(row, *names)` returns: the value of the first qualifying name. */
  function PickSpec(row: CsvRow, names: seq<string>): Option<string> {
    var n := FirstWhere(names, n => Qualifies(row, n));
    if n.Some? then Some(row[n.value]) else None
  }

  /** `_pick`: scan the names in argument order and return the first qualifying value. */
  method Pick(row: CsvRow, names: seq<string>) returns (r: Option<string>)
    ensures r == PickSpec(row, names)
  {
    for i := 0 to |names|
      invariant forall j :: 0 <= j < i ==> !Qualifies(row, names[j])
    {
      if names[i] in row && !IsSentinel(Some(row[names[i]])) {
        var w := FirstWhere(names, n => Qualifies(row, n));
        assert w.Some? && w.value == names[i] by {
          var k :| 0 <= k < |names| && names[k] == w.value && Qualifies(row, names[k])
                   && forall j :: 0 <= j < k ==> !Qualifies(row, names[j]);
          assert k == i;
        }
        return Some(row[names[i]]);
      }
    }
    return None;
  }

  /** `_pick` returns the value of the first name, in argument order, that is present and
      not a sentinel, and None exactly when no name qualifies. */
  lemma LemmaPick(row: CsvRow, names: seq<string>)
    ensures PickSpec(row, names).None? <==> forall j :: 0 <= j < |names| ==> !Qualifies(row, names[j])
    ensures PickSpec(row, names).Some? ==>
              exists k :: 0 <= k < |names| && Qualifies(row, names[k]) && PickSpec(row, names) == Some(row[names[k]])
                          && forall j :: 0 <= j < k ==> !Qualifies(row, names[j])
    ensures PickSpec(row, names).Some? ==> !IsSentinel(PickSpec(row, names))
  {
  }

  /** `rows[-1]` when there are rows (`if rows:`), else nothing to read. */
  function LastRow(a: CsvArtifact): (r: Option<CsvRow>)
    ensures r.Some? <==> a.Read? && a.rows != []
    ensures r.Some? ==> r.value == a.rows[|a.rows| - 1]
  {
    if a.Read? && a.rows != [] then Some(a.rows[|a.rows| - 1]) else None
  }

  /** Only the last row matters: rows before it never change what is read. */
  lemma LemmaLastRowOnly(rows: seq<CsvRow>, earlier: seq<CsvRow>, last: CsvRow)
    requires rows == earlier + [last]
    ensures LastRow(Read(rows)) == Some(last)
    ensures LastRow(Read(rows)) == LastRow(Read([last]))
  {
  }
}
