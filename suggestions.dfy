/**
  Smell-to-suggestion tables. The web app (`suggestions_for` in src/app.py), the CodeCarbon,
  CarbonTracker and Eco2AI extensions (`quickSuggestions`, identical in the three) and the
  Tracarbon extension (`suggestionsFor`) each test a fixed list of conditions in order and
  append one text per condition that holds. Each table is a list of rules; each source
  function is a method that appends step by step, proved equal to the rules that fire.

  The smell and framework lists are inputs: the regular-expression detectors that produce
  them are not part of this model.
 */
module Suggestions {

  /** What makes a rule fire: a smell, a framework, or either of the two. */
  datatype Trigger = Smell(smell: string) | Framework(fw: string) | Either(eSmell: string, eFw: string)

  datatype Rule = Rule(trigger: Trigger, text: string)

  predicate Fires(t: Trigger, smells: seq<string>, fws: seq<string>) {
    match t
    case Smell(s) => s in smells
    case Framework(f) => f in fws
    case Either(s, f) => s in smells || f in fws
  }

  /** The suggestion a rule contributes: its text when it fires, nothing otherwise. */
  function Step(r: Rule, smells: seq<string>, fws: seq<string>): seq<string> {
    if Fires(r.trigger, smells, fws) then [r.text] else []
  }

  /** The texts of the rules that fire, in table order. */
  function Applicable(rules: seq<Rule>, smells: seq<string>, fws: seq<string>): (r: seq<string>)
    ensures |r| <= |rules|
    decreases |rules|
  {
    if rules == [] then []
    else Applicable(rules[..|rules| - 1], smells, fws) + Step(rules[|rules| - 1], smells, fws)
  }

  /** Testing one more rule of the table appends its contribution. */
  lemma LemmaSnoc(rules: seq<Rule>, k: nat, smells: seq<string>, fws: seq<string>)
    requires k < |rules|
    ensures Applicable(rules[..k + 1], smells, fws) == Applicable(rules[..k], smells, fws) + Step(rules[k], smells, fws)
  {
    assert rules[..k + 1][..k] == rules[..k];
  }

  /** A text is suggested exactly when a rule carrying it fires. */
  lemma {:induction false} LemmaApplicableMembers(rules: seq<Rule>, smells: seq<string>, fws: seq<string>, t: string)
    ensures t in Applicable(rules, smells, fws) <==>
              exists k :: 0 <= k < |rules| && rules[k].text == t && Fires(rules[k].trigger, smells, fws)
    decreases |rules|
  {
    if rules != [] {
      var n := |rules| - 1;
      var front := rules[..n];
      LemmaApplicableMembers(front, smells, fws, t);
      var a, last := Applicable(front, smells, fws), Step(rules[n], smells, fws);
      assert Applicable(rules, smells, fws) == a + last;
      assert t in a + last <==> t in a || t in last;
      if t in a {
        var k :| 0 <= k < |front| && front[k].text == t && Fires(front[k].trigger, smells, fws);
        assert rules[k] == front[k];
      }
      if exists k :: 0 <= k < |rules| && rules[k].text == t && Fires(rules[k].trigger, smells, fws) {
        var k :| 0 <= k < |rules| && rules[k].text == t && Fires(rules[k].trigger, smells, fws);
        if k < n {
          assert front[k] == rules[k];
        }
      }
    }
  }

  /** Texts of a table are distinct. */
  predicate DistinctTexts(rules: seq<Rule>) {
    forall i, j :: 0 <= i < j < |rules| ==> rules[i].text != rules[j].text
  }

  /** With distinct texts, no suggestion appears twice, whatever fires. */
  lemma {:induction false} LemmaNoDuplicates(rules: seq<Rule>, smells: seq<string>, fws: seq<string>)
    requires DistinctTexts(rules)
    ensures var r := Applicable(rules, smells, fws);
            forall i, j :: 0 <= i < j < |r| ==> r[i] != r[j]
    decreases |rules|
  {
    if rules != [] {
      var n := |rules| - 1;
      var front := rules[..n];
      assert DistinctTexts(front) by {
        forall i, j | 0 <= i < j < |front| ensures front[i].text != front[j].text {
          assert front[i] == rules[i] && front[j] == rules[j];
        }
      }
      LemmaNoDuplicates(front, smells, fws);
      if Fires(rules[n].trigger, smells, fws) {
        assert rules[n].text !in Applicable(front, smells, fws) by {
          LemmaApplicableMembers(front, smells, fws, rules[n].text);
          forall k | 0 <= k < |front| ensures front[k].text != rules[n].text {
            assert front[k] == rules[k];
          }
        }
      }
    }
  }

  /** A smell no rule mentions changes nothing. */
  predicate Unmentioned(rules: seq<Rule>, s: string) {
    forall k :: 0 <= k < |rules| ==> rules[k].trigger.Framework? || TriggerSmell(rules[k].trigger) != s
  }

  function TriggerSmell(t: Trigger): string
    requires !t.Framework?
  {
    if t.Smell? then t.smell else t.eSmell
  }

  lemma {:induction false} LemmaUnmentionedSmell(rules: seq<Rule>, smells: seq<string>, fws: seq<string>, s: string)
    requires Unmentioned(rules, s)
    ensures Applicable(rules, smells + [s], fws) == Applicable(rules, smells, fws)
    decreases |rules|
  {
    if rules != [] {
      var n := |rules| - 1;
      var front := rules[..n];
      assert Unmentioned(front, s) by {
        forall k | 0 <= k < |front|
          ensures front[k].trigger.Framework? || TriggerSmell(front[k].trigger) != s
        {
          assert front[k] == rules[k];
        }
      }
      LemmaUnmentionedSmell(front, smells, fws, s);
      assert Fires(rules[n].trigger, smells + [s], fws) == Fires(rules[n].trigger, smells, fws);
    }
  }

  // ---------------------------------------------------------------- the web app

  const NumpyText := "Vectoriser avec NumPy (np.dot, np.sum, broadcasting)."
  const PandasText := "Préférer les opérations Pandas vectorisées à apply/itertuples."
  const JoinText := "Utiliser ''.join() ou io.StringIO plutôt que s += ... en boucle."

  const AppNumpy := Rule(Smell("non_vectorise_alors_numpy_dispo"), NumpyText)
  const AppSleep := Rule(Smell("sleep_dans_boucle"), "Éviter time.sleep() dans les boucles ; utiliser un scheduler/événements.")
  const AppIo := Rule(Smell("IO_dans_boucle"), "Regrouper les I/O hors boucle (bufferisation, lecture/écriture en bloc).")
  const AppJoin := Rule(Smell("concat_string_dans_boucle"), JoinText)
  const AppRequests := Rule(Smell("requetes_repetitives_sequentielles"), "Mutualiser (requests.Session) + paralléliser (asyncio/threading) avec throttling.")
  const AppPandas := Rule(Framework("pandas"), PandasText)

  const AppRules: seq<Rule> := [AppNumpy, AppSleep, AppIo, AppJoin, AppRequests, AppPandas]

  /** `suggestions_for`: one test per line, each appending its suggestion. */
  method SuggestionsFor(smells: seq<string>, fws: seq<string>) returns (s: seq<string>)
    ensures s == Applicable(AppRules, smells, fws)
  {
    s := [];
    if "non_vectorise_alors_numpy_dispo" in smells { s := s + [AppNumpy.text]; }
    assert s == Step(AppNumpy, smells, fws);
    if "sleep_dans_boucle" in smells { s := s + [AppSleep.text]; }
    assert s == Step(AppNumpy, smells, fws) + Step(AppSleep, smells, fws);
    if "IO_dans_boucle" in smells { s := s + [AppIo.text]; }
    assert s == Step(AppNumpy, smells, fws) + Step(AppSleep, smells, fws) + Step(AppIo, smells, fws);
    if "concat_string_dans_boucle" in smells { s := s + [AppJoin.text]; }
    assert s == Step(AppNumpy, smells, fws) + Step(AppSleep, smells, fws) + Step(AppIo, smells, fws)
           + Step(AppJoin, smells, fws);
    if "requetes_repetitives_sequentielles" in smells { s := s + [AppRequests.text]; }
    assert s == Step(AppNumpy, smells, fws) + Step(AppSleep, smells, fws) + Step(AppIo, smells, fws)
           + Step(AppJoin, smells, fws) + Step(AppRequests, smells, fws);
    if "pandas" in fws { s := s + [AppPandas.text]; }
    assert s == Step(AppNumpy, smells, fws) + Step(AppSleep, smells, fws) + Step(AppIo, smells, fws)
           + Step(AppJoin, smells, fws) + Step(AppRequests, smells, fws) + Step(AppPandas, smells, fws);
    LemmaUnfold6(AppRules, smells, fws);
  }

  // ------------------------------------ the CodeCarbon, CarbonTracker and Eco2AI extensions

  const QuickSleep := Rule(Smell("sleep_dans_boucle"), "Éviter time.sleep() dans les boucles (scheduler/événements).")
  const QuickNested := Rule(Smell("boucles_imbriquees"), "Réduire la profondeur ou vectoriser (NumPy/Pandas).")
  const QuickRepeat := Rule(Smell("boucle_inutile_xN"), "Limiter les répétitions (réduire range(), mémoïsation).")
  const QuickIo := Rule(Smell("IO_dans_boucle"), "Regrouper les I/O (lecture/écriture en bloc, bufferisation).")
  const QuickVector := Rule(Either("non_vectorise_avec_numpy", "pandas"), "Vectoriser avec NumPy/Pandas (broadcasting, groupby, agg).")

  const QuickRules: seq<Rule> := [QuickSleep, QuickNested, QuickRepeat, QuickIo, QuickVector]

  /** `quickSuggestions`: the combined NumPy/Pandas test is one condition, so its text is
      appended once even when both the smell and the framework are present. */
  method QuickSuggestions(smells: seq<string>, fws: seq<string>) returns (s: seq<string>)
    ensures s == Applicable(QuickRules, smells, fws)
  {
    s := [];
    if "sleep_dans_boucle" in smells { s := s + [QuickSleep.text]; }
    assert s == Step(QuickRules[0], smells, fws);
    if "boucles_imbriquees" in smells { s := s + [QuickNested.text]; }
    assert s == Step(QuickRules[0], smells, fws) + Step(QuickRules[1], smells, fws);
    if "boucle_inutile_xN" in smells { s := s + [QuickRepeat.text]; }
    assert s == Step(QuickRules[0], smells, fws) + Step(QuickRules[1], smells, fws) + Step(QuickRules[2], smells, fws);
    if "IO_dans_boucle" in smells { s := s + [QuickIo.text]; }
    assert s == Step(QuickRules[0], smells, fws) + Step(QuickRules[1], smells, fws) + Step(QuickRules[2], smells, fws)
           + Step(QuickRules[3], smells, fws);
    if "non_vectorise_avec_numpy" in smells || "pandas" in fws { s := s + [QuickVector.text]; }
    assert s == Step(QuickRules[0], smells, fws) + Step(QuickRules[1], smells, fws) + Step(QuickRules[2], smells, fws)
           + Step(QuickRules[3], smells, fws) + Step(QuickRules[4], smells, fws);
    LemmaUnfold5(QuickRules, smells, fws);
  }

  // ---------------------------------------------------------- the Tracarbon extension

  const TracNumpy := Rule(Smell("non_vectorise_alors_numpy_dispo"), NumpyText)
  const TracSleep := Rule(Smell("sleep_dans_boucle"), "Éviter time.sleep() dans les boucles; utiliser un scheduler/événements.")
  const TracIo := Rule(Smell("IO_dans_boucle"), "Regrouper les I/O hors boucle (bufferisation, lecture/écriture en bloc).")
  const TracJoin := Rule(Smell("concat_string_dans_boucle"), JoinText)
  const TracRequests := Rule(Smell("requetes_repetitives_sequentielles"), "Mutualiser (requests.Session) et paralléliser (asyncio/threading) avec throttle.")
  const TracPandas := Rule(Framework("pandas"), PandasText)

  const TracarbonRules: seq<Rule> := [TracNumpy, TracSleep, TracIo, TracJoin, TracRequests, TracPandas]

  /** `suggestionsFor` of the Tracarbon extension. */
  method TracarbonSuggestionsFor(smells: seq<string>, fws: seq<string>) returns (s: seq<string>)
    ensures s == Applicable(TracarbonRules, smells, fws)
  {
    s := [];
    if "non_vectorise_alors_numpy_dispo" in smells { s := s + [TracNumpy.text]; }
    assert s == Step(TracNumpy, smells, fws);
    if "sleep_dans_boucle" in smells { s := s + [TracSleep.text]; }
    assert s == Step(TracNumpy, smells, fws) + Step(TracSleep, smells, fws);
    if "IO_dans_boucle" in smells { s := s + [TracIo.text]; }
    assert s == Step(TracNumpy, smells, fws) + Step(TracSleep, smells, fws) + Step(TracIo, smells, fws);
    if "concat_string_dans_boucle" in smells { s := s + [TracJoin.text]; }
    assert s == Step(TracNumpy, smells, fws) + Step(TracSleep, smells, fws) + Step(TracIo, smells, fws)
           + Step(TracJoin, smells, fws);
    if "requetes_repetitives_sequentielles" in smells { s := s + [TracRequests.text]; }
    assert s == Step(TracNumpy, smells, fws) + Step(TracSleep, smells, fws) + Step(TracIo, smells, fws)
           + Step(TracJoin, smells, fws) + Step(TracRequests, smells, fws);
    if "pandas" in fws { s := s + [TracPandas.text]; }
    assert s == Step(TracNumpy, smells, fws) + Step(TracSleep, smells, fws) + Step(TracIo, smells, fws)
           + Step(TracJoin, smells, fws) + Step(TracRequests, smells, fws) + Step(TracPandas, smells, fws);
    LemmaUnfold6(TracarbonRules, smells, fws);
  }

  // ------------------------------------------------------------------ unfolding

  /** A five- or six-rule table suggests the concatenation of its rules' contributions. */
  lemma LemmaUnfold5(rules: seq<Rule>, smells: seq<string>, fws: seq<string>)
    requires |rules| == 5
    ensures Applicable(rules, smells, fws)
            == Step(rules[0], smells, fws) + Step(rules[1], smells, fws) + Step(rules[2], smells, fws)
               + Step(rules[3], smells, fws) + Step(rules[4], smells, fws)
  {
    var s0, s1, s2 := Step(rules[0], smells, fws), Step(rules[1], smells, fws), Step(rules[2], smells, fws);
    var s3, s4 := Step(rules[3], smells, fws), Step(rules[4], smells, fws);
    assert Applicable(rules[..1], smells, fws) == s0 by {
      assert rules[..0] == [];
      LemmaSnoc(rules, 0, smells, fws);
    }
    assert Applicable(rules[..2], smells, fws) == s0 + s1 by { LemmaSnoc(rules, 1, smells, fws); }
    assert Applicable(rules[..3], smells, fws) == s0 + s1 + s2 by { LemmaSnoc(rules, 2, smells, fws); }
    assert Applicable(rules[..4], smells, fws) == s0 + s1 + s2 + s3 by { LemmaSnoc(rules, 3, smells, fws); }
    assert Applicable(rules[..5], smells, fws) == s0 + s1 + s2 + s3 + s4 by { LemmaSnoc(rules, 4, smells, fws); }
    assert rules[..5] == rules;
  }

  lemma LemmaUnfold6(rules: seq<Rule>, smells: seq<string>, fws: seq<string>)
    requires |rules| == 6
    ensures Applicable(rules, smells, fws)
            == Step(rules[0], smells, fws) + Step(rules[1], smells, fws) + Step(rules[2], smells, fws)
               + Step(rules[3], smells, fws) + Step(rules[4], smells, fws) + Step(rules[5], smells, fws)
  {
    assert rules[..6] == rules;
    LemmaUnfold5(rules[..5], smells, fws);
    LemmaSnoc(rules, 5, smells, fws);
  }

  // ----------------------------------------------------------- table properties

  /** Every table has distinct texts, so no suggestion is ever listed twice; in particular
      the combined NumPy/Pandas text of the extensions appears at most once. */
  lemma LemmaTablesDistinct()
    ensures DistinctTexts(AppRules) && DistinctTexts(QuickRules) && DistinctTexts(TracarbonRules)
  {
  }

  lemma LemmaQuickNumpyPandasOnce(smells: seq<string>, fws: seq<string>)
    requires "non_vectorise_avec_numpy" in smells && "pandas" in fws
    ensures var r := Applicable(QuickRules, smells, fws);
            QuickRules[4].text in r && forall i, j :: 0 <= i < j < |r| ==> r[i] != r[j]
  {
    LemmaTablesDistinct();
    LemmaNoDuplicates(QuickRules, smells, fws);
    LemmaApplicableMembers(QuickRules, smells, fws, QuickRules[4].text);
  }

  /** `boucles_imbriquees` is detected by the app but none of its rules mentions it. */
  lemma LemmaAppIgnoresNestedLoops(smells: seq<string>, fws: seq<string>)
    ensures Applicable(AppRules, smells + ["boucles_imbriquees"], fws) == Applicable(AppRules, smells, fws)
  {
    LemmaUnmentionedSmell(AppRules, smells, fws, "boucles_imbriquees");
  }
}
