/** Ordered candidate search: "the first candidate that qualifies wins". */
module Search {
  import opened Wrappers

  /** Index of the first element of `cands` that satisfies `p`. */
  function FirstIndex<T>(cands: seq<T>, p: T -> bool): (r: Option<nat>)
    ensures r.Some? ==> r.value < |cands| && p(cands[r.value])
    ensures r.Some? ==> forall j :: 0 <= j < r.value ==> !p(cands[j])
    ensures r.None? <==> forall j :: 0 <= j < |cands| ==> !p(cands[j])
    decreases |cands|
  {
    if cands == [] then None
    else if p(cands[0]) then Some(0)
    else
      var rest := FirstIndex(cands[1..], p);
      if rest.Some? then Some(rest.value + 1) else None
  }

  /** The first element of `cands` that satisfies `p`, if any. */
  function FirstWhere<T>(cands: seq<T>, p: T -> bool): (r: Option<T>)
    ensures r.None? <==> forall j :: 0 <= j < |cands| ==> !p(cands[j])
    ensures r.Some? ==> exists k :: 0 <= k < |cands| && cands[k] == r.value && p(cands[k])
                                    && forall j :: 0 <= j < k ==> !p(cands[j])
  {
    var k := FirstIndex(cands, p);
    if k.Some? then Some(cands[k.value]) else None
  }

  /** Filter, as JavaScript's `Array.prototype.filter`: keeps order. */
  function Filter<T>(s: seq<T>, p: T -> bool): (r: seq<T>)
    ensures |r| <= |s|
    ensures forall x :: x in r ==> x in s && p(x)
    ensures forall x :: x in s && p(x) ==> x in r
    ensures r != [] ==> FirstWhere(s, p) == Some(r[0])
    ensures r == [] <==> FirstWhere(s, p).None?
    decreases |s|
  {
    if s == [] then []
    else if p(s[0]) then [s[0]] + Filter(s[1..], p)
    else
      assert forall x :: x in s[1..] ==> x in s;
      LemmaFirstWhereTail(s, p);
      Filter(s[1..], p)
  }

  lemma LemmaFirstWhereTail<T>(s: seq<T>, p: T -> bool)
    requires s != [] && !p(s[0])
    ensures FirstWhere(s, p) == FirstWhere(s[1..], p)
  {
    var k := FirstIndex(s[1..], p);
    if k.Some? {
      assert FirstIndex(s, p) == Some(k.value + 1);
    }
  }
}
