/** The synergy optimizer: scores every ordered pair of loaded module names
    and maps each module to the first partner with the highest score. */
module Synergy {
  import opened Wrappers
  import Loader

  /** What evaluating the connection expression for one pair does. */
  datatype Evaluation =
    | Scored(score: int)
    | Raised(cause: string) // raised a subclass of Exception

  /** A connection expression: scores an ordered pair of module names. */
  type Formula = (string, string) -> Evaluation

  /** The optimizer's failure kinds: a failed pair evaluation, and the
      aggregate that every failure of a whole analysis is wrapped into. */
  datatype SynergyError =
    | ModuleConnectionError(cause: string)
    | SynergyAnalysisError(inner: SynergyError)

  function Abs(x: int): (r: nat)
    ensures r == x || r == -x
  {
    if x < 0 then -x else x
  }

  /** The connection score of two module names: the distance of the sum of
      their lengths, taken modulo 3, from 1. Both operands are non-negative,
      so the remainder agrees with the source's `%`. */
  function ConnectionScore(module1: string, module2: string): (r: int)
    ensures r == 0 || r == 1
    ensures r == 0 <==> (|module1| + |module2|) % 3 == 1
  {
    Abs(1 - (|module1| + |module2|) % 3)
  }

  /** The connection expression a new optimizer evaluates; it never raises. */
  const SourceFormula: Formula :=
    (module1: string, module2: string) => Scored(ConnectionScore(module1, module2))

  /** The score depends on the two names only through their lengths, so it
      is symmetric and two pairs of equally long names score the same. */
  lemma ConnectionScoreByLengths(a: string, b: string, c: string, d: string)
    requires |a| + |b| == |c| + |d|
    ensures ConnectionScore(a, b) == ConnectionScore(c, d)
    ensures ConnectionScore(a, b) == ConnectionScore(b, a)
  {
  }

  /** Two worked values: lengths 2 + 2 give 0, lengths 1 + 2 give 1. */
  lemma ConnectionScoreExamples()
    ensures ConnectionScore("ab", "cd") == 0
    ensures ConnectionScore("a", "bb") == 1
  {
  }

  /** Every candidate pair (m1, names[k]) with k < n and names[k] != m1
      evaluates to a score. */
  ghost predicate ScoredBelow(names: seq<string>, formula: Formula, m1: string, n: nat)
    requires n <= |names|
  {
    forall k :: 0 <= k < n && names[k] != m1 ==> formula(m1, names[k]).Scored?
  }

  /** Every ordered pair of different module names evaluates to a score. */
  ghost predicate AllEvaluate(names: seq<string>, formula: Formula)
  {
    forall m1 :: m1 in names ==> ScoredBelow(names, formula, m1, |names|)
  }

  /** (a, b) is the first pair of different names, in the order of the
      nested scan, whose evaluation raises. */
  ghost predicate FirstRaised(names: seq<string>, formula: Formula, a: int, b: int)
  {
    0 <= a < |names| && 0 <= b < |names| && names[a] != names[b] &&
    formula(names[a], names[b]).Raised? &&
    (forall a', b' :: 0 <= a' < a && 0 <= b' < |names| && names[a'] != names[b'] ==>
       formula(names[a'], names[b']).Scored?) &&
    (forall b' :: 0 <= b' < b && names[a] != names[b'] ==> formula(names[a], names[b']).Scored?)
  }

  /** The index of the partner that a scan of names[..n] for m1 keeps: the
      running maximum starts at the -1 sentinel and a candidate replaces the
      kept one only when it scores strictly higher. -1 when none is kept. */
  ghost function BestIndex(names: seq<string>, formula: Formula, m1: string, n: nat): (j: int)
    requires n <= |names| && ScoredBelow(names, formula, m1, n)
    ensures -1 <= j < n
    ensures j >= 0 ==> names[j] != m1
    decreases n
  {
    if n == 0 then -1
    else
      var j := BestIndex(names, formula, m1, n - 1);
      var kept := if j == -1 then -1 else formula(m1, names[j]).score;
      if names[n - 1] != m1 && formula(m1, names[n - 1]).score > kept then n - 1 else j
  }

  /** The name of the partner the scan for m1 keeps, or "" when it keeps none. */
  ghost function Partner(names: seq<string>, formula: Formula, m1: string): string
    requires ScoredBelow(names, formula, m1, |names|)
  {
    var j := BestIndex(names, formula, m1, |names|);
    if j == -1 then "" else names[j]
  }

  /** The synergy map the analysis produces: every module whose kept partner
      is a non-empty name, mapped to that partner. Keys and values are module
      names, and no module is mapped to itself. */
  ghost function Synergies(names: seq<string>, formula: Formula): (syn: map<string, string>)
    requires AllEvaluate(names, formula)
    ensures forall m :: m in syn ==> m in names && syn[m] in names && syn[m] != m && syn[m] != ""
  {
    map m | m in names && Partner(names, formula, m) != "" :: Partner(names, formula, m)
  }

  /** names[j] is a first-maximal partner of m1 among names[..n]: it is not
      m1, beats the -1 sentinel, scores at least as high as every candidate,
      and strictly higher than every candidate before it. */
  ghost predicate BestBelow(names: seq<string>, formula: Formula, m1: string, j: int, n: nat)
  {
    0 <= j < n <= |names| && ScoredBelow(names, formula, m1, n) &&
    names[j] != m1 && formula(m1, names[j]).score > -1 &&
    (forall k :: 0 <= k < n && names[k] != m1 ==> formula(m1, names[k]).score <= formula(m1, names[j]).score) &&
    (forall k :: 0 <= k < j && names[k] != m1 ==> formula(m1, names[k]).score < formula(m1, names[j]).score)
  }

  /** No candidate among names[..n] beats the -1 sentinel (vacuous when
      there is no candidate at all). */
  ghost predicate NoneBelow(names: seq<string>, formula: Formula, m1: string, n: nat)
  {
    n <= |names| && ScoredBelow(names, formula, m1, n) &&
    forall k :: 0 <= k < n && names[k] != m1 ==> formula(m1, names[k]).score <= -1
  }

  /** names[j] is the first-maximal partner of m1 over all module names. */
  ghost predicate IsBestPartner(names: seq<string>, formula: Formula, m1: string, j: int)
  {
    BestBelow(names, formula, m1, j, |names|)
  }

  /** A first-maximal partner is unique. */
  lemma BestBelowUnique(names: seq<string>, formula: Formula, m1: string, j1: int, j2: int, n: nat)
    requires BestBelow(names, formula, m1, j1, n) && BestBelow(names, formula, m1, j2, n)
    ensures j1 == j2
  {
  }

  /** The scan keeps exactly the first-maximal partner: if it keeps one, that
      one is first-maximal; if it keeps none, no candidate beats the sentinel. */
  lemma {:induction false} BestIndexIsFirstMaximal(names: seq<string>, formula: Formula, m1: string, n: nat)
    requires n <= |names| && ScoredBelow(names, formula, m1, n)
    ensures BestIndex(names, formula, m1, n) == -1 ==> NoneBelow(names, formula, m1, n)
    ensures BestIndex(names, formula, m1, n) != -1 ==>
              BestBelow(names, formula, m1, BestIndex(names, formula, m1, n), n)
    decreases n
  {
    if n > 0 {
      assert ScoredBelow(names, formula, m1, n - 1);
      BestIndexIsFirstMaximal(names, formula, m1, n - 1);
    }
  }

  /** The synergy map against the first-maximal specification: a module is a
      key exactly when it has a first-maximal partner with a non-empty name,
      and then it is mapped to that partner. */
  lemma SynergiesAreFirstMaximal(names: seq<string>, formula: Formula, i: nat)
    requires AllEvaluate(names, formula) && i < |names|
    ensures names[i] in Synergies(names, formula) <==>
              exists j :: IsBestPartner(names, formula, names[i], j) && names[j] != ""
    ensures forall j :: IsBestPartner(names, formula, names[i], j) && names[j] != "" ==>
              names[i] in Synergies(names, formula) && Synergies(names, formula)[names[i]] == names[j]
  {
    var m1 := names[i];
    assert m1 in names;
    BestIndexIsFirstMaximal(names, formula, m1, |names|);
    var b := BestIndex(names, formula, m1, |names|);
    forall j | IsBestPartner(names, formula, m1, j) ensures j == b {
      BestBelowUnique(names, formula, m1, j, b, |names|);
    }
  }

  /** When every candidate partner of names[i] evaluates and scores at least
      0, some other module exists, and no name is empty, names[i] is a key of
      the synergy map. */
  lemma EveryModuleHasPartner(names: seq<string>, formula: Formula, i: nat, other: nat)
    requires AllEvaluate(names, formula)
    requires i < |names| && other < |names| && names[other] != names[i]
    requires forall k :: 0 <= k < |names| && names[k] != names[i] ==>
               formula(names[i], names[k]).Scored? && formula(names[i], names[k]).score >= 0
    requires forall k :: 0 <= k < |names| ==> names[k] != ""
    ensures names[i] in Synergies(names, formula)
  {
    assert names[i] in names;
    BestIndexIsFirstMaximal(names, formula, names[i], |names|);
    assert formula(names[i], names[other]).score >= 0;
  }

  /** With the source's connection expression every pair evaluates, and when
      there are at least two distinct, non-empty module names every module is
      a key of the synergy map. */
  lemma SourceFormulaPartnersEveryModule(names: seq<string>)
    requires |names| >= 2
    requires forall a, b :: 0 <= a < b < |names| ==> names[a] != names[b]
    requires forall k :: 0 <= k < |names| ==> names[k] != ""
    ensures AllEvaluate(names, SourceFormula)
    ensures Synergies(names, SourceFormula).Keys == set m | m in names
  {
    forall m | m in names ensures m in Synergies(names, SourceFormula) {
      var i :| 0 <= i < |names| && names[i] == m;
      var other := if i == 0 then 1 else 0;
      EveryModuleHasPartner(names, SourceFormula, i, other);
    }
  }

  /** The synergy map is the one map that holds exactly the modules whose
      kept partner has a non-empty name, each bound to that partner. */
  lemma SynergiesEqual(names: seq<string>, formula: Formula, expected: map<string, string>)
    requires AllEvaluate(names, formula)
    requires forall m :: m in expected ==> m in names
    requires forall m :: m in names ==>
               (m in expected <==> Partner(names, formula, m) != "") &&
               (m in expected ==> expected[m] == Partner(names, formula, m))
    ensures Synergies(names, formula) == expected
  {
  }

  /** With zero or one module the synergy map is empty. */
  lemma FewModulesNoSynergies(names: seq<string>, formula: Formula)
    requires |names| <= 1 && AllEvaluate(names, formula)
    ensures Synergies(names, formula) == map[]
  {
  }

  /** The kept partners of "x", "yy" and "zzz" among those three names. */
  lemma ThreeModulePartners(names: seq<string>)
    requires names == ["x", "yy", "zzz"]
    ensures AllEvaluate(names, SourceFormula)
    ensures Partner(names, SourceFormula, "x") == "yy"
    ensures Partner(names, SourceFormula, "yy") == "x"
    ensures Partner(names, SourceFormula, "zzz") == "yy"
  {
    assert SourceFormula("x", "yy").score == 1 && SourceFormula("x", "zzz").score == 0;
    assert SourceFormula("yy", "x").score == 1 && SourceFormula("yy", "zzz").score == 1;
    assert SourceFormula("zzz", "x").score == 0 && SourceFormula("zzz", "yy").score == 1;
    assert BestIndex(names, SourceFormula, "x", 3) == 1 by {
      assert BestIndex(names, SourceFormula, "x", 1) == -1;
      assert BestIndex(names, SourceFormula, "x", 2) == 1;
    }
    assert BestIndex(names, SourceFormula, "yy", 3) == 0 by {
      assert BestIndex(names, SourceFormula, "yy", 1) == 0;
      assert BestIndex(names, SourceFormula, "yy", 2) == 0;
    }
    assert BestIndex(names, SourceFormula, "zzz", 3) == 1 by {
      assert BestIndex(names, SourceFormula, "zzz", 1) == 0;
      assert BestIndex(names, SourceFormula, "zzz", 2) == 1;
    }
  }

  /** Three modules "x", "yy", "zzz" under the source's expression: scores
      are 1 for (x, yy), 0 for (x, zzz) and 1 for (yy, zzz), so "yy" ties
      between its two partners and keeps the first one, "x". */
  lemma ThreeModuleExample()
    ensures AllEvaluate(["x", "yy", "zzz"], SourceFormula)
    ensures Synergies(["x", "yy", "zzz"], SourceFormula) == map["x" := "yy", "yy" := "x", "zzz" := "yy"]
  {
    var names := ["x", "yy", "zzz"];
    ThreeModulePartners(names);
    SynergiesEqual(names, SourceFormula, map["x" := "yy", "yy" := "x", "zzz" := "yy"]);
  }

  /** The kept partners among the loader's three default module names, in
      the order a new registry stores them. Lengths 10, 9 and 6 give score 0
      to every pair with "perception" and 1 to ("reasoning", "memory"). */
  lemma DefaultModulePartners(names: seq<string>)
    requires names == ["perception", "reasoning", "memory"]
    ensures AllEvaluate(names, SourceFormula)
    ensures Partner(names, SourceFormula, "perception") == "reasoning"
    ensures Partner(names, SourceFormula, "reasoning") == "memory"
    ensures Partner(names, SourceFormula, "memory") == "reasoning"
  {
    assert SourceFormula("perception", "reasoning").score == 0 && SourceFormula("perception", "memory").score == 0;
    assert SourceFormula("reasoning", "perception").score == 0 && SourceFormula("reasoning", "memory").score == 1;
    assert SourceFormula("memory", "perception").score == 0 && SourceFormula("memory", "reasoning").score == 1;
    assert BestIndex(names, SourceFormula, "perception", 3) == 1 by {
      assert BestIndex(names, SourceFormula, "perception", 1) == -1;
      assert BestIndex(names, SourceFormula, "perception", 2) == 1;
    }
    assert BestIndex(names, SourceFormula, "reasoning", 3) == 2 by {
      assert BestIndex(names, SourceFormula, "reasoning", 1) == 0;
      assert BestIndex(names, SourceFormula, "reasoning", 2) == 0;
    }
    assert BestIndex(names, SourceFormula, "memory", 3) == 1 by {
      assert BestIndex(names, SourceFormula, "memory", 1) == 0;
      assert BestIndex(names, SourceFormula, "memory", 2) == 1;
    }
  }

  /** The synergy map over the three default module names in load order:
      "perception", which ties at score 0 with both others, keeps the first
      of them, "reasoning". */
  lemma DefaultModuleSynergies(names: seq<string>)
    requires names == ["perception", "reasoning", "memory"]
    ensures AllEvaluate(names, SourceFormula)
    ensures Synergies(names, SourceFormula) ==
              map["perception" := "reasoning", "reasoning" := "memory", "memory" := "reasoning"]
  {
    DefaultModulePartners(names);
    SynergiesEqual(names, SourceFormula, map["perception" := "reasoning", "reasoning" := "memory", "memory" := "reasoning"]);
  }

  /** The synergy map of a new loader's registry once its three default
      modules have loaded: the optimizer sees the names in the order the
      registry stored them. */
  lemma DefaultRegistrySynergies<H>(sys: Loader.ImportSystem<H>)
    requires forall n :: n in Loader.DefaultModulePaths ==> Loader.LoadStep(sys, n).Ok?
    ensures AllEvaluate(Loader.LoadOrder([], Loader.DefaultModulePaths, sys), SourceFormula)
    ensures Synergies(Loader.LoadOrder([], Loader.DefaultModulePaths, sys), SourceFormula) ==
              map["perception" := "reasoning", "reasoning" := "memory", "memory" := "reasoning"]
  {
    Loader.DefaultLoadOrder(sys);
    DefaultModuleSynergies(Loader.LoadOrder([], Loader.DefaultModulePaths, sys));
  }

  /** The registry's order decides ties: listed as "perception", "memory",
      "reasoning", the same names give "perception" the partner "memory". */
  lemma RegistryOrderDecidesTies(names: seq<string>)
    requires names == ["perception", "memory", "reasoning"]
    ensures AllEvaluate(names, SourceFormula)
    ensures Partner(names, SourceFormula, "perception") == "memory"
  {
    assert "perception" in names;
    assert SourceFormula("perception", "memory").score == 0 && SourceFormula("perception", "reasoning").score == 0;
    assert BestIndex(names, SourceFormula, "perception", 2) == 1 by {
      assert BestIndex(names, SourceFormula, "perception", 1) == -1;
    }
  }

  /** The optimizer over the module names of a loaded registry, in the
      registry's insertion order (`Loader.ModuleLoader.keyOrder`). */
  class SynergyOptimizer {
    const modules: seq<string>
    const formula: Formula

    /** An optimizer evaluating the source's connection expression. */
    constructor(modules: seq<string>)
      ensures this.modules == modules && formula == SourceFormula
    {
      this.modules := modules;
      formula := SourceFormula;
    }

    /** An optimizer evaluating another connection expression. */
    constructor WithFormula(modules: seq<string>, formula: Formula)
      ensures this.modules == modules && this.formula == formula
    {
      this.modules := modules;
      this.formula := formula;
    }

    /** Scores one ordered pair; a raised evaluation becomes the connection
        error. With the source's expression the score lies in {0, 1}. */
    function EvaluateConnection(module1: string, module2: string): (r: Result<int, SynergyError>)
      ensures r.Ok? <==> formula(module1, module2).Scored?
      ensures r.Ok? ==> r.value == formula(module1, module2).score
      ensures r.Err? ==> r.error == ModuleConnectionError(formula(module1, module2).cause)
      ensures formula == SourceFormula ==> r.Ok? && 0 <= r.value <= 1
    {
      match formula(module1, module2)
      case Scored(s) => Ok(s)
      case Raised(c) => Err(ModuleConnectionError(c))
    }

    /** The inner scan for one module: the kept partner's name, or "" when
        no candidate beats the sentinel. A raised evaluation aborts the scan
        with the connection error of the first candidate that raised. */
    method ScanPartners(module1: string) returns (r: Result<string, SynergyError>)
      ensures r.Ok? <==> ScoredBelow(modules, formula, module1, |modules|)
      ensures r.Ok? ==> r.value == Partner(modules, formula, module1)
      ensures r.Err? ==> exists b :: (0 <= b < |modules| && modules[b] != module1 &&
                                      formula(module1, modules[b]).Raised? &&
                                      ScoredBelow(modules, formula, module1, b) &&
                                      r.error == ModuleConnectionError(formula(module1, modules[b]).cause))
    {
      var n := |modules|;
      var maxScore := -1;
      var bestModule := "";
      for j := 0 to n
        invariant ScoredBelow(modules, formula, module1, j)
        invariant var b := BestIndex(modules, formula, module1, j);
                  maxScore == (if b == -1 then -1 else formula(module1, modules[b]).score) &&
                  bestModule == (if b == -1 then "" else modules[b])
      {
        var module2 := modules[j];
        if module1 != module2 {
          var evaluated := EvaluateConnection(module1, module2);
          if evaluated.Err? {
            return Err(evaluated.error);
          }
          var score := evaluated.value;
          if score > maxScore {
            maxScore := score;
            bestModule := module2;
          }
        }
      }
      return Ok(bestModule);
    }

    /** Maps every module to the partner its scan keeps, omitting modules
        whose scan keeps none or keeps the empty name. The first raised
        evaluation aborts the analysis with the aggregate error. */
    method FindSynergies() returns (r: Result<map<string, string>, SynergyError>)
      ensures r.Ok? <==> AllEvaluate(modules, formula)
      ensures r.Ok? ==> r.value == Synergies(modules, formula)
      ensures r.Err? ==> exists a, b :: (FirstRaised(modules, formula, a, b) &&
                                         r.error == SynergyAnalysisError(ModuleConnectionError(formula(modules[a], modules[b]).cause)))
    {
      var n := |modules|;
      var synergies: map<string, string> := map[];
      for i := 0 to n
        invariant forall m :: m in modules[..i] ==> ScoredBelow(modules, formula, m, n)
        invariant synergies == map m | m in modules[..i] && Partner(modules, formula, m) != "" :: Partner(modules, formula, m)
      {
        var module1 := modules[i];
        var best := ScanPartners(module1);
        if best.Err? {
          ghost var b :| 0 <= b < n && modules[b] != module1 && formula(module1, modules[b]).Raised? &&
                         ScoredBelow(modules, formula, module1, b) &&
                         best.error == ModuleConnectionError(formula(module1, modules[b]).cause);
          assert FirstRaised(modules, formula, i, b) by {
            forall a', b' | 0 <= a' < i && 0 <= b' < n && modules[a'] != modules[b']
              ensures formula(modules[a'], modules[b']).Scored?
            {
              assert modules[a'] in modules[..i];
            }
          }
          assert modules[i] in modules;
          return Err(SynergyAnalysisError(best.error));
        }
        var bestModule := best.value;
        assert modules[..i + 1] == modules[..i] + [module1];
        if bestModule != "" {
          synergies := synergies[module1 := bestModule];
        }
      }
      assert modules[..n] == modules;
      return Ok(synergies);
    }
  }
}
