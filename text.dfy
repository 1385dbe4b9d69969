/**
  String operations of Python and JavaScript that the normalisation code relies on:
  `str.strip()` and `String.prototype.trim()`, ASCII lower-casing, substring search,
  slicing by a maximum length, padding and joining.
 */
module Text {

  /** Python `str.isspace()`: the Unicode White_Space characters plus the four separators
      U+001C to U+001F. */
  predicate IsPySpace(c: char) {
    ('\t' <= c <= '\r') || ('\U{1C}' <= c <= ' ') || c == '\U{85}' || c == '\U{A0}'
    || c == '\U{1680}' || ('\U{2000}' <= c <= '\U{200A}') || c == '\U{2028}' || c == '\U{2029}'
    || c == '\U{202F}' || c == '\U{205F}' || c == '\U{3000}'
  }

  /** What JavaScript's `trim()` removes: white space and line terminators (U+0085 is not
      one of them, U+FEFF is). */
  predicate IsJsSpace(c: char) {
    ('\t' <= c <= '\r') || c == ' ' || c == '\U{A0}' || c == '\U{1680}'
    || ('\U{2000}' <= c <= '\U{200A}') || c == '\U{2028}' || c == '\U{2029}'
    || c == '\U{202F}' || c == '\U{205F}' || c == '\U{3000}' || c == '\U{FEFF}'
  }

  /** Drops the leading characters that satisfy `sp` (what it keeps: `LemmaTrimStart`). */
  function TrimStart(s: string, sp: char -> bool): (r: string)
    ensures |r| <= |s|
    decreases |s|
  {
    if s != [] && sp(s[0]) then TrimStart(s[1..], sp) else s
  }

  /** Drops the trailing characters that satisfy `sp` (what it keeps: `LemmaTrimEnd`). */
  function TrimEnd(s: string, sp: char -> bool): (r: string)
    ensures |r| <= |s|
    decreases |s|
  {
    if s != [] && sp(s[|s| - 1]) then TrimEnd(s[..|s| - 1], sp) else s
  }

  /** `TrimStart` keeps a suffix, removes only trimmed characters and stops at the first
      character that is not trimmed. */
  lemma {:induction false} LemmaTrimStart(s: string, sp: char -> bool)
    ensures TrimStart(s, sp) == s[|s| - |TrimStart(s, sp)|..]
    ensures forall i :: 0 <= i < |s| - |TrimStart(s, sp)| ==> sp(s[i])
    ensures TrimStart(s, sp) != [] ==> !sp(TrimStart(s, sp)[0])
    decreases |s|
  {
    if s != [] && sp(s[0]) {
      LemmaTrimStart(s[1..], sp);
    }
  }

  /** `TrimEnd` keeps a prefix, removes only trimmed characters and stops at the last
      character that is not trimmed. */
  lemma {:induction false} LemmaTrimEnd(s: string, sp: char -> bool)
    ensures TrimEnd(s, sp) == s[..|TrimEnd(s, sp)|]
    ensures forall i :: |TrimEnd(s, sp)| <= i < |s| ==> sp(s[i])
    ensures TrimEnd(s, sp) != [] ==> !sp(TrimEnd(s, sp)[|TrimEnd(s, sp)| - 1])
    decreases |s|
  {
    if s != [] && sp(s[|s| - 1]) {
      var t := s[..|s| - 1];
      LemmaTrimEnd(t, sp);
      assert forall i :: 0 <= i < |t| ==> t[i] == s[i];
    }
  }

  /** Both ends trimmed. */
  function Strip(s: string, sp: char -> bool): (r: string)
    ensures |r| <= |s|
  {
    TrimEnd(TrimStart(s, sp), sp)
  }

  /** `Strip` keeps a contiguous slice of `s` that neither starts nor ends with a trimmed
      character; everything cut away on either side is a trimmed character, and the result is
      empty exactly when every character is trimmed. */
  lemma LemmaStrip(s: string, sp: char -> bool)
    ensures var r := Strip(s, sp);
            exists i :: OccursAt(s, r, i) && (forall j :: 0 <= j < i ==> sp(s[j]))
                        && (forall j :: i + |r| <= j < |s| ==> sp(s[j]))
    ensures var r := Strip(s, sp); r != [] ==> !sp(r[0]) && !sp(r[|r| - 1])
    ensures Strip(s, sp) == [] <==> forall i :: 0 <= i < |s| ==> sp(s[i])
  {
    var t := TrimStart(s, sp);
    var r := TrimEnd(t, sp);
    LemmaTrimStart(s, sp);
    LemmaTrimEnd(t, sp);
    var i := |s| - |t|;
    assert r == s[i..][..|r|];
    assert OccursAt(s, r, i);
    forall j | i + |r| <= j < |s| ensures sp(s[j]) {
      assert s[j] == t[j - i];
    }
    if r != [] {
      assert r[0] == t[0];
    }
    if r == [] {
      assert t == [];
    }
    assert Strip(s, sp) == r;
    assert OccursAt(s, r, i) && (forall j :: 0 <= j < i ==> sp(s[j]))
           && (forall j :: i + |r| <= j < |s| ==> sp(s[j]));
  }

  function PyStrip(s: string): string { Strip(s, IsPySpace) }

  function JsTrim(s: string): string { Strip(s, IsJsSpace) }

  /** Python `s.strip()` keeps the slice between the outermost characters that are not
      white space, and is empty exactly when every character is white space. */
  lemma LemmaPyStrip(s: string)
    ensures var r := PyStrip(s);
            exists i :: OccursAt(s, r, i) && (forall j :: 0 <= j < i ==> IsPySpace(s[j]))
                        && (forall j :: i + |r| <= j < |s| ==> IsPySpace(s[j]))
    ensures var r := PyStrip(s); r != [] ==> !IsPySpace(r[0]) && !IsPySpace(r[|r| - 1])
    ensures PyStrip(s) == [] <==> forall i :: 0 <= i < |s| ==> IsPySpace(s[i])
  {
    LemmaStrip(s, IsPySpace);
    var r := PyStrip(s);
    var i :| OccursAt(s, r, i) && (forall j :: 0 <= j < i ==> IsPySpace(s[j]))
             && (forall j :: i + |r| <= j < |s| ==> IsPySpace(s[j]));
    assert OccursAt(s, r, i);
  }

  /** JavaScript `s.trim()`, the same with the JavaScript white space. */
  lemma LemmaJsTrim(s: string)
    ensures var r := JsTrim(s);
            exists i :: OccursAt(s, r, i) && (forall j :: 0 <= j < i ==> IsJsSpace(s[j]))
                        && (forall j :: i + |r| <= j < |s| ==> IsJsSpace(s[j]))
    ensures var r := JsTrim(s); r != [] ==> !IsJsSpace(r[0]) && !IsJsSpace(r[|r| - 1])
    ensures JsTrim(s) == [] <==> forall i :: 0 <= i < |s| ==> IsJsSpace(s[i])
  {
    LemmaStrip(s, IsJsSpace);
    var r := JsTrim(s);
    var i :| OccursAt(s, r, i) && (forall j :: 0 <= j < i ==> IsJsSpace(s[j]))
             && (forall j :: i + |r| <= j < |s| ==> IsJsSpace(s[j]));
    assert OccursAt(s, r, i);
  }

  /** The two languages disagree on white space: Python strips U+0085 and U+001C, which
      JavaScript keeps, and JavaScript strips U+FEFF, which Python keeps. */
  lemma LemmaStripTrimDiffer()
    ensures PyStrip("\U{85}") == "" && JsTrim("\U{85}") == "\U{85}"
    ensures PyStrip("\U{1C}") == "" && JsTrim("\U{1C}") == "\U{1C}"
    ensures PyStrip("\U{FEFF}") == "\U{FEFF}" && JsTrim("\U{FEFF}") == ""
  {
    assert TrimStart("\U{85}", IsPySpace) == TrimStart("\U{85}"[1..], IsPySpace);
    assert TrimStart("\U{1C}", IsPySpace) == TrimStart("\U{1C}"[1..], IsPySpace);
    assert TrimStart("\U{FEFF}", IsJsSpace) == TrimStart("\U{FEFF}"[1..], IsJsSpace);
  }

  /** Python `str.lower()` restricted to ASCII letters. */
  function LowerChar(c: char): char {
    if 'A' <= c <= 'Z' then (c as int + 32) as char else c
  }

  function Lower(s: string): (r: string)
    ensures |r| == |s|
    ensures forall i :: 0 <= i < |s| ==> r[i] == LowerChar(s[i])
  {
    seq(|s|, i requires 0 <= i < |s| => LowerChar(s[i]))
  }

  /** Lowering twice is lowering once. */
  lemma LemmaLowerIdempotent(s: string)
    ensures Lower(Lower(s)) == Lower(s)
  {
    var t := Lower(s);
    assert forall i :: 0 <= i < |s| ==> Lower(t)[i] == LowerChar(LowerChar(s[i])) == t[i];
  }

  /** `p` occurs in `s` starting at index `i`. */
  predicate OccursAt(s: string, p: string, i: int) {
    0 <= i && i + |p| <= |s| && s[i..i + |p|] == p
  }

  /** Python `p in s` / JavaScript `s.includes(p)` for strings. */
  predicate Contains(s: string, p: string) {
    exists i :: 0 <= i <= |s| - |p| && OccursAt(s, p, i)
  }

  /** `p` does not occur in `s` when no window of `s` holds `p`'s character at offset `k`
      in that place. */
  lemma LemmaNotContains(s: string, p: string, k: nat)
    requires k < |p|
    requires forall j :: k <= j <= |s| - |p| + k ==> s[j] != p[k]
    ensures !Contains(s, p)
  {
    forall i | 0 <= i <= |s| - |p|
      ensures !OccursAt(s, p, i)
    {
      assert s[i..i + |p|][k] == s[i + k];
    }
  }

  /** Python `s[:n]` for `n >= 0`. */
  function Take(s: string, n: nat): (r: string)
    ensures |r| <= n && |r| <= |s| && r == s[..|r|]
    ensures |s| <= n ==> r == s
    ensures |s| > n ==> |r| == n
  {
    if |s| <= n then s else s[..n]
  }

  function Spaces(n: nat): (r: string)
    ensures |r| == n && forall i :: 0 <= i < n ==> r[i] == ' '
  {
    seq(n, _ => ' ')
  }

  /** Python `s.ljust(w)`: `s` padded on the right with spaces to at least `w` characters. */
  function LJust(s: string, w: nat): (r: string)
    ensures |s| <= w ==> |r| == w
    ensures |s| >= w ==> r == s
    ensures |r| >= |s|
  {
    if |s| >= w then s else s + Spaces(w - |s|)
  }

  /** `LJust` adds spaces after `s` and nothing else. */
  lemma LemmaLJust(s: string, w: nat)
    ensures LJust(s, w)[..|s|] == s
    ensures forall i :: |s| <= i < |LJust(s, w)| ==> LJust(s, w)[i] == ' '
  {
  }

  /** Python `s.rjust(w)`: `s` padded on the left with spaces to at least `w` characters. */
  function RJust(s: string, w: nat): (r: string)
    ensures |s| <= w ==> |r| == w
    ensures |s| >= w ==> r == s
    ensures |r| >= |s|
  {
    if |s| >= w then s else Spaces(w - |s|) + s
  }

  /** `RJust` adds spaces before `s` and nothing else. */
  lemma LemmaRJust(s: string, w: nat)
    ensures RJust(s, w)[|RJust(s, w)| - |s|..] == s
    ensures forall i :: 0 <= i < |RJust(s, w)| - |s| ==> RJust(s, w)[i] == ' '
  {
  }

  /** Python `sep.join(parts)` / JavaScript `parts.join(sep)`. */
  function Join(parts: seq<string>, sep: string): string
  {
    if parts == [] then ""
    else if |parts| == 1 then parts[0]
    else parts[0] + sep + Join(parts[1..], sep)
  }

  /** Python `s.replace(a, b)` for one character: every `a` becomes `b`. */
  function ReplaceChar(s: string, a: char, b: char): (r: string)
    ensures |r| == |s|
    ensures forall i :: 0 <= i < |s| ==> r[i] == (if s[i] == a then b else s[i])
  {
    seq(|s|, i requires 0 <= i < |s| => if s[i] == a then b else s[i])
  }
}
