/**
 * The selection helpers of the integration module: the requirement
 * validator, the multi-criteria score and ranking with its weight
 * normalisation, the automatic selection insights and the comparison table.
 */
module IntegrationExample {
  import opened Materials

  // ---------------------------------------------------------------------------
  // Requirement validator (validate_material_selection)
  // ---------------------------------------------------------------------------

  /** One application requirement: `kind` is "minimum" or "maximum" (any other
      kind is never checked) and `value` the bound. */
  datatype Requirement = Requirement(kind: string, value: real)

  /** A failed requirement, standing for the "<label> < v" / "<label> > v" text. */
  datatype Violation = BelowMinimum(prop: string, bound: real) | AboveMaximum(prop: string, bound: real)

  datatype Validation = Validation(passes: bool, failed: seq<Violation>)

  /** The requirement's label maps to a non-empty key that the material has
      (the source's `if prop_key and prop_key in material_data`). */
  predicate Measured(catalog: Catalog, m: Material, propLabel: string)
  {
    Get(catalog, propLabel).Some? && Get(catalog, propLabel).value != "" && Get(catalog, propLabel).value in m.props
  }

  /** The failure one requirement records for a material, if any. */
  function Check(catalog: Catalog, m: Material, req: (string, Requirement)): Option<Violation>
  {
    if !Measured(catalog, m, req.0) then None
    else
      var range := m.props[Get(catalog, req.0).value];
      if req.1.kind == "minimum" then
        (if range.hi < req.1.value then Some(BelowMinimum(req.0, req.1.value)) else None)
      else if req.1.kind == "maximum" then
        (if range.lo > req.1.value then Some(AboveMaximum(req.0, req.1.value)) else None)
      else None
  }

  /** The failures of a material, in requirement order. */
  function Violations(catalog: Catalog, m: Material, reqs: Dict<Requirement>): seq<Violation>
    decreases |reqs|
  {
    if reqs == [] then []
    else
      var last := reqs[|reqs| - 1];
      Violations(catalog, m, reqs[..|reqs| - 1])
        + (match Check(catalog, m, last) case None => [] case Some(v) => [v])
  }

  /** The requirement checks of one material: the failures in requirement
      order, and `passes` false exactly when there is one. */
  method CheckRequirements(catalog: Catalog, m: Material, reqs: Dict<Requirement>) returns (passesValidation: bool, failed: seq<Violation>)
    ensures failed == Violations(catalog, m, reqs)
    ensures passesValidation <==> failed == []
  {
    passesValidation := true;
    failed := [];
    var j := 0;
    while j < |reqs|
      invariant 0 <= j <= |reqs|
      invariant failed == Violations(catalog, m, reqs[..j])
      invariant passesValidation <==> failed == []
    {
      assert reqs[..j + 1][..j] == reqs[..j];
      var reqProperty, req := reqs[j].0, reqs[j].1;
      var propKey := Get(catalog, reqProperty);
      if propKey.Some? && propKey.value != "" && propKey.value in m.props {
        var materialRange := m.props[propKey.value];
        if req.kind == "minimum" {
          if materialRange.hi < req.value {
            passesValidation := false;
            failed := failed + [BelowMinimum(reqProperty, req.value)];
          }
        } else if req.kind == "maximum" {
          if materialRange.lo > req.value {
            passesValidation := false;
            failed := failed + [AboveMaximum(reqProperty, req.value)];
          }
        }
      }
      j := j + 1;
    }
    assert reqs[..j] == reqs;
  }

  /**
   * `validate_material_selection`: one result per material, in input order;
   * `passes` is false exactly when some requirement failed, and the failures
   * are listed in requirement order.
   */
  method ValidateMaterialSelection(catalog: Catalog, materials: Dict<Material>, reqs: Dict<Requirement>)
    returns (results: Dict<Validation>)
    ensures |results| == |materials|
    ensures forall i | 0 <= i < |results| ::
      && results[i].0 == materials[i].0
      && results[i].1.failed == Violations(catalog, materials[i].1, reqs)
      && (results[i].1.passes <==> results[i].1.failed == [])
  {
    results := [];
    var i := 0;
    while i < |materials|
      invariant 0 <= i <= |materials| && |results| == i
      invariant forall k | 0 <= k < i ::
        && results[k].0 == materials[k].0
        && results[k].1.failed == Violations(catalog, materials[k].1, reqs)
        && (results[k].1.passes <==> results[k].1.failed == [])
    {
      var passesValidation, failed := CheckRequirements(catalog, materials[i].1, reqs);
      results := results + [(materials[i].0, Validation(passesValidation, failed))];
      i := i + 1;
    }
  }

  /** A "minimum" requirement on `p` with bound `v` fails: the property is
      measured and the material's maximum is below the bound. */
  predicate FailsMinimum(catalog: Catalog, m: Material, p: string, v: real)
  {
    Measured(catalog, m, p) && m.props[Get(catalog, p).value].hi < v
  }

  /** A "maximum" requirement on `p` with bound `v` fails: the property is
      measured and the material's minimum is above the bound. */
  predicate FailsMaximum(catalog: Catalog, m: Material, p: string, v: real)
  {
    Measured(catalog, m, p) && m.props[Get(catalog, p).value].lo > v
  }

  /**
   * A failure "p < v" is recorded exactly when a "minimum" requirement on p
   * with bound v is present and the material's maximum is below v; requirements
   * whose label is unknown or whose property the material lacks never fail.
   */
  lemma {:induction false} BelowMinimumIff(catalog: Catalog, m: Material, reqs: Dict<Requirement>, p: string, v: real)
    ensures BelowMinimum(p, v) in Violations(catalog, m, reqs)
      <==> FailsMinimum(catalog, m, p, v) && (p, Requirement("minimum", v)) in reqs
    decreases |reqs|
  {
    if reqs != [] {
      var n := |reqs| - 1;
      BelowMinimumIff(catalog, m, reqs[..n], p, v);
      assert reqs == reqs[..n] + [reqs[n]];
    }
  }

  /** A failure "p > v" is recorded exactly when a "maximum" requirement on p
      with bound v is present and the material's minimum is above v. */
  lemma {:induction false} AboveMaximumIff(catalog: Catalog, m: Material, reqs: Dict<Requirement>, p: string, v: real)
    ensures AboveMaximum(p, v) in Violations(catalog, m, reqs)
      <==> FailsMaximum(catalog, m, p, v) && (p, Requirement("maximum", v)) in reqs
    decreases |reqs|
  {
    if reqs != [] {
      var n := |reqs| - 1;
      AboveMaximumIff(catalog, m, reqs[..n], p, v);
      assert reqs == reqs[..n] + [reqs[n]];
    }
  }

  /** The failures of a concatenation of requirement lists are those of the
      first list followed by those of the second: failures keep requirement order. */
  lemma {:induction false} ViolationsAppend(catalog: Catalog, m: Material, a: Dict<Requirement>, b: Dict<Requirement>)
    ensures Violations(catalog, m, a + b) == Violations(catalog, m, a) + Violations(catalog, m, b)
    decreases |b|
  {
    if b == [] {
      assert a + b == a;
    } else {
      var n := |b| - 1;
      assert Violations(catalog, m, a + b[..n]) == Violations(catalog, m, a) + Violations(catalog, m, b[..n]) by {
        ViolationsAppend(catalog, m, a, b[..n]);
      }
      assert (a + b)[..|a + b| - 1] == a + b[..n];
      assert (a + b)[|a + b| - 1] == b[n];
    }
  }

  /** A requirement that is not measured for the material never adds a failure. */
  lemma UnmeasuredRequirementNeverFails(catalog: Catalog, m: Material, a: Dict<Requirement>, req: (string, Requirement), b: Dict<Requirement>)
    requires !Measured(catalog, m, req.0)
    ensures Violations(catalog, m, a + [req] + b) == Violations(catalog, m, a + b)
  {
    ViolationsAppend(catalog, m, a + [req], b);
    ViolationsAppend(catalog, m, a, [req]);
    ViolationsAppend(catalog, m, a, b);
    assert Violations(catalog, m, [req]) == [] by {
      assert [req][..0] == [];
    }
  }

  // ---------------------------------------------------------------------------
  // Multi-criteria score and ranking (multi_criteria_analysis)
  // ---------------------------------------------------------------------------

  /** The criteria that `CUSTOM_PERFORMANCE_INDICES` defines. */
  const PerformanceIndexNames: seq<string> := ["Resistencia/Peso", "Rigidez/Peso", "Eficiencia Térmica", "Costo-Beneficio"]

  /** The fixed normalised value every recognised criterion contributes. */
  const PlaceholderValue: real := 0.5

  function Sum(xs: seq<real>): real
    decreases |xs|
  {
    if xs == [] then 0.0 else Sum(xs[..|xs| - 1]) + xs[|xs| - 1]
  }

  /** The weights of the recognised criteria, in weight order. */
  function RecognisedWeights(weights: Dict<real>): seq<real>
    decreases |weights|
  {
    if weights == [] then []
    else
      var last := weights[|weights| - 1];
      RecognisedWeights(weights[..|weights| - 1]) + (if last.0 in PerformanceIndexNames then [last.1] else [])
  }

  /** The accumulated `score`: the sum of weight * placeholder over recognised criteria. */
  function PlaceholderScore(weights: Dict<real>): real
    decreases |weights|
  {
    if weights == [] then 0.0
    else
      var last := weights[|weights| - 1];
      PlaceholderScore(weights[..|weights| - 1]) + (if last.0 in PerformanceIndexNames then last.1 * PlaceholderValue else 0.0)
  }

  datatype Scored = Scored(name: string, family: string, score: real)

  datatype Ranked = Ranked(entry: Scored, rank: nat)

  /** The results list before sorting: a row per material having at least one
      recognised criterion, holding its score divided by that number. */
  function Candidates(materials: Dict<Material>, weights: Dict<real>): seq<Scored>
    decreases |materials|
  {
    if materials == [] then []
    else
      var last := materials[|materials| - 1];
      var valid := |RecognisedWeights(weights)|;
      Candidates(materials[..|materials| - 1], weights)
        + (if valid > 0 then [Scored(last.0, last.1.family, PlaceholderScore(weights) / valid as real)] else [])
  }

  predicate NonIncreasing(s: seq<Scored>)
  {
    forall i, j | 0 <= i < j < |s| :: s[i].score >= s[j].score
  }

  /** Inserting into a list sorted by decreasing score, before the first
      entry whose score does not exceed the new one. */
  function InsertByScore(x: Scored, s: seq<Scored>): (r: seq<Scored>)
    ensures multiset(r) == multiset(s) + multiset{x}
    decreases |s|
  {
    if s == [] then [x]
    else if x.score >= s[0].score then [x] + s
    else
      assert s == [s[0]] + s[1..];
      [s[0]] + InsertByScore(x, s[1..])
  }

  /** Prefixing an entry no lower than any entry of a sorted list keeps it sorted. */
  lemma ConsSorted(h: Scored, t: seq<Scored>)
    requires NonIncreasing(t) && forall k | 0 <= k < |t| :: t[k].score <= h.score
    ensures NonIncreasing([h] + t)
  {
    var r := [h] + t;
    forall i, j | 0 <= i < j < |r| ensures r[i].score >= r[j].score {
      assert r[j] == t[j - 1];
      if i > 0 {
        assert r[i] == t[i - 1];
      }
    }
  }

  /** Insertion introduces no score above a bound that the entry and the list respect. */
  lemma {:induction false} InsertByScoreBounded(x: Scored, s: seq<Scored>, b: real)
    requires x.score <= b && forall k | 0 <= k < |s| :: s[k].score <= b
    ensures forall k | 0 <= k < |InsertByScore(x, s)| :: InsertByScore(x, s)[k].score <= b
    decreases |s|
  {
    if s != [] && x.score < s[0].score {
      InsertByScoreBounded(x, s[1..], b);
      var rest := InsertByScore(x, s[1..]);
      assert InsertByScore(x, s) == [s[0]] + rest;
      forall k | 0 < k < 1 + |rest| ensures ([s[0]] + rest)[k].score <= b {
        assert ([s[0]] + rest)[k] == rest[k - 1];
      }
    }
  }

  /** Insertion keeps a list in non-increasing score order. */
  lemma {:induction false} InsertByScoreSorted(x: Scored, s: seq<Scored>)
    requires NonIncreasing(s)
    ensures NonIncreasing(InsertByScore(x, s))
    decreases |s|
  {
    if s != [] && x.score < s[0].score {
      var tail := s[1..];
      assert NonIncreasing(tail);
      assert NonIncreasing(InsertByScore(x, tail)) by {
        InsertByScoreSorted(x, tail);
      }
      assert forall k | 0 <= k < |InsertByScore(x, tail)| :: InsertByScore(x, tail)[k].score <= s[0].score by {
        assert forall k | 0 <= k < |tail| :: tail[k].score <= s[0].score by {
          forall k | 0 <= k < |tail| ensures tail[k].score <= s[0].score {
            assert tail[k] == s[k + 1];
          }
        }
        InsertByScoreBounded(x, tail, s[0].score);
      }
      ConsSorted(s[0], InsertByScore(x, tail));
    } else if s != [] {
      ConsSorted(x, s);
    }
  }

  /** `sort_values('Puntuación', ascending=False)`: a permutation in decreasing
      score order (the relative order of equal scores is not promised). */
  function SortByScore(s: seq<Scored>): (r: seq<Scored>)
    ensures NonIncreasing(r) && multiset(r) == multiset(s)
    decreases |s|
  {
    if s == [] then []
    else
      assert s == [s[0]] + s[1..];
      var sortedTail := SortByScore(s[1..]);
      InsertByScoreSorted(s[0], sortedTail);
      InsertByScore(s[0], sortedTail)
  }

  function Entries(ranking: seq<Ranked>): (r: seq<Scored>)
    ensures |r| == |ranking| && forall i | 0 <= i < |r| :: r[i] == ranking[i].entry
  {
    seq(|ranking|, i requires 0 <= i < |ranking| => ranking[i].entry)
  }

  /** `sort_values('Puntuación', ascending=False)` followed by
      `df['Ranking'] = range(1, len(df) + 1)`. */
  method RankByScore(results: seq<Scored>) returns (ranking: seq<Ranked>)
    ensures multiset(Entries(ranking)) == multiset(results)
    ensures forall i | 0 <= i < |ranking| :: ranking[i].rank == i + 1
    ensures forall i, j | 0 <= i < j < |ranking| :: ranking[i].entry.score >= ranking[j].entry.score
  {
    var sorted := SortByScore(results);
    ranking := [];
    var k := 0;
    while k < |sorted|
      invariant 0 <= k <= |sorted| && |ranking| == k
      invariant forall p | 0 <= p < k :: ranking[p] == Ranked(sorted[p], p + 1)
    {
      ranking := ranking + [Ranked(sorted[k], k + 1)];
      k := k + 1;
    }
    assert Entries(ranking) == sorted;
  }

  /** The inner loop of the analysis: the weighted placeholder values summed
      over the recognised criteria, and how many criteria were recognised. */
  method WeightedPlaceholderScore(weights: Dict<real>) returns (score: real, validCriteria: nat)
    ensures score == PlaceholderScore(weights)
    ensures validCriteria == |RecognisedWeights(weights)|
  {
    score := 0.0;
    validCriteria := 0;
    var j := 0;
    while j < |weights|
      invariant 0 <= j <= |weights|
      invariant score == PlaceholderScore(weights[..j])
      invariant validCriteria == |RecognisedWeights(weights[..j])|
    {
      assert weights[..j + 1][..j] == weights[..j];
      var criterion, weight := weights[j].0, weights[j].1;
      if criterion in PerformanceIndexNames {
        var normalizedValue := PlaceholderValue;
        score := score + weight * normalizedValue;
        validCriteria := validCriteria + 1;
      }
      j := j + 1;
    }
    assert weights[..j] == weights;
  }

  /**
   * `multi_criteria_analysis`: the scored materials, sorted by decreasing
   * score and ranked 1..n.
   */
  method MultiCriteriaAnalysis(materials: Dict<Material>, weights: Dict<real>) returns (ranking: seq<Ranked>)
    ensures multiset(Entries(ranking)) == multiset(Candidates(materials, weights))
    ensures forall i | 0 <= i < |ranking| :: ranking[i].rank == i + 1
    ensures forall i, j | 0 <= i < j < |ranking| :: ranking[i].entry.score >= ranking[j].entry.score
  {
    var results: seq<Scored> := [];
    var i := 0;
    while i < |materials|
      invariant 0 <= i <= |materials|
      invariant results == Candidates(materials[..i], weights)
    {
      var name, props := materials[i].0, materials[i].1;
      var score, validCriteria := WeightedPlaceholderScore(weights);
      assert materials[..i + 1][..i] == materials[..i];
      if validCriteria > 0 {
        var finalScore := score / validCriteria as real;
        results := results + [Scored(name, props.family, finalScore)];
      }
      i := i + 1;
    }
    assert materials[..i] == materials;
    ranking := [];
    if results != [] {
      ranking := RankByScore(results);
    }
  }

  /** The accumulated score is the placeholder times the sum of the recognised weights. */
  lemma {:induction false} PlaceholderScoreSum(weights: Dict<real>)
    ensures PlaceholderScore(weights) == PlaceholderValue * Sum(RecognisedWeights(weights))
    decreases |weights|
  {
    if weights != [] {
      var n := |weights| - 1;
      PlaceholderScoreSum(weights[..n]);
      var r := RecognisedWeights(weights[..n]);
      if weights[n].0 in PerformanceIndexNames {
        assert RecognisedWeights(weights) == r + [weights[n].1];
        assert (r + [weights[n].1])[..|r|] == r;
        assert Sum(r + [weights[n].1]) == Sum(r) + weights[n].1;
      } else {
        assert RecognisedWeights(weights) == r + [] == r;
      }
    }
  }

  /**
   * Scores: a material is scored only if some criterion is recognised, and
   * then its score is the placeholder-weighted average over the recognised
   * criteria, the same for every material; the rows keep material order.
   */
  lemma {:induction false} CandidateScores(materials: Dict<Material>, weights: Dict<real>)
    ensures var ws := RecognisedWeights(weights);
      && |Candidates(materials, weights)| == (if |ws| > 0 then |materials| else 0)
      && forall i | 0 <= i < |Candidates(materials, weights)| ::
           Candidates(materials, weights)[i]
             == Scored(materials[i].0, materials[i].1.family, PlaceholderValue * Sum(ws) / |ws| as real)
    decreases |materials|
  {
    PlaceholderScoreSum(weights);
    if materials != [] {
      var n := |materials| - 1;
      CandidateScores(materials[..n], weights);
    }
  }

  /** Criteria that are not performance indices are ignored. */
  lemma {:induction false} UnknownCriterionIgnored(a: Dict<real>, c: string, w: real, b: Dict<real>)
    requires c !in PerformanceIndexNames
    ensures RecognisedWeights(a + [(c, w)] + b) == RecognisedWeights(a + b)
    ensures PlaceholderScore(a + [(c, w)] + b) == PlaceholderScore(a + b)
    decreases |b|
  {
    if b == [] {
      assert (a + [(c, w)] + b)[..|a|] == a;
      assert a + b == a;
    } else {
      var n := |b| - 1;
      UnknownCriterionIgnored(a, c, w, b[..n]);
      assert (a + [(c, w)] + b)[..|a + [(c, w)] + b| - 1] == a + [(c, w)] + b[..n];
      assert (a + b)[..|a + b| - 1] == a + b[..n];
    }
  }

  // ---------------------------------------------------------------------------
  // Weight normalisation (example_usage_in_streamlit)
  // ---------------------------------------------------------------------------

  /** The sum of the weights, as `total_weight` accumulates it. */
  function TotalWeight(weights: Dict<real>): real
    decreases |weights|
  {
    if weights == [] then 0.0 else TotalWeight(weights[..|weights| - 1]) + weights[|weights| - 1].1
  }

  function Scale(weights: Dict<real>, total: real): (r: Dict<real>)
    requires total != 0.0
    ensures |r| == |weights|
    ensures forall i | 0 <= i < |r| :: r[i] == (weights[i].0, weights[i].1 / total)
  {
    seq(|weights|, i requires 0 <= i < |weights| => (weights[i].0, weights[i].1 / total))
  }

  lemma {:induction false} ScaleTotal(weights: Dict<real>, total: real)
    requires total != 0.0
    ensures TotalWeight(Scale(weights, total)) == TotalWeight(weights) / total
    decreases |weights|
  {
    if weights != [] {
      var n := |weights| - 1;
      ScaleTotal(weights[..n], total);
      assert Scale(weights, total)[..n] == Scale(weights[..n], total);
    }
  }

  /** `{k: v/total_weight for k, v in weights.items()}` when the total is positive. */
  function NormalizeWeights(weights: Dict<real>): (r: Dict<real>)
    ensures Keys(r) == Keys(weights)
    ensures TotalWeight(weights) > 0.0 ==> TotalWeight(r) == 1.0
    ensures TotalWeight(weights) <= 0.0 ==> r == weights
    ensures TotalWeight(weights) > 0.0 ==> forall i | 0 <= i < |r| :: r[i].1 * TotalWeight(weights) == weights[i].1
  {
    var total := TotalWeight(weights);
    if total > 0.0 then
      ScaleTotal(weights, total);
      Scale(weights, total)
    else weights
  }

  // ---------------------------------------------------------------------------
  // Selection insights (generate_material_insights)
  // ---------------------------------------------------------------------------

  datatype Insight =
    | DominantFamily(family: string, count: nat)
    | StrongReduction(percent: real)
    | WeakReduction(percent: real)
    | WidePriceRange(lo: real, hi: real)

  /** `families[family] = families.get(family, 0) + 1`. */
  function Bump(counts: Dict<nat>, family: string): Dict<nat>
    decreases |counts|
  {
    if counts == [] then [(family, 1)]
    else if counts[0].0 == family then [(family, counts[0].1 + 1)] + counts[1..]
    else [counts[0]] + Bump(counts[1..], family)
  }

  /** The family counts, keyed in order of first appearance. */
  function FamilyCounts(materials: Dict<Material>): Dict<nat>
    decreases |materials|
  {
    if materials == [] then [] else Bump(FamilyCounts(materials[..|materials| - 1]), materials[|materials| - 1].1.family)
  }

  /** How many materials belong to `family`. */
  function Occurrences(materials: Dict<Material>, family: string): nat
    decreases |materials|
  {
    if materials == [] then 0
    else Occurrences(materials[..|materials| - 1], family) + (if materials[|materials| - 1].1.family == family then 1 else 0)
  }

  function CountOf(counts: Dict<nat>, family: string): nat
  {
    match Get(counts, family) case None => 0 case Some(n) => n
  }

  function TotalCount(counts: Dict<nat>): nat
    decreases |counts|
  {
    if counts == [] then 0 else counts[0].1 + TotalCount(counts[1..])
  }

  /** Bumping a family adds one to its count and leaves every other count alone. */
  lemma {:induction false} BumpCount(counts: Dict<nat>, family: string, g: string)
    ensures CountOf(Bump(counts, family), g) == CountOf(counts, g) + (if g == family then 1 else 0)
    decreases |counts|
  {
    var r := Bump(counts, family);
    if counts == [] {
      assert r[1..] == [];
    } else if counts[0].0 == family {
      assert r[1..] == counts[1..];
    } else {
      assert r[1..] == Bump(counts[1..], family);
      BumpCount(counts[1..], family, g);
    }
  }

  /** Bumping adds one to the total. */
  lemma {:induction false} BumpTotal(counts: Dict<nat>, family: string)
    ensures TotalCount(Bump(counts, family)) == TotalCount(counts) + 1
    decreases |counts|
  {
    var r := Bump(counts, family);
    if counts == [] {
      assert r[1..] == [];
    } else if counts[0].0 == family {
      assert r[1..] == counts[1..];
    } else {
      assert r[1..] == Bump(counts[1..], family);
      BumpTotal(counts[1..], family);
    }
  }

  /** Bumping keeps the keys, appending the family if it is new. */
  lemma {:induction false} BumpKeys(counts: Dict<nat>, family: string)
    ensures Keys(Bump(counts, family)) == if family in Keys(counts) then Keys(counts) else Keys(counts) + [family]
    decreases |counts|
  {
    if counts == [] {
      assert Keys(Bump(counts, family)) == [family];
    } else if counts[0].0 == family {
      assert family in Keys(counts) by { assert Keys(counts)[0] == family; }
      assert Keys(Bump(counts, family)) == Keys(counts);
    } else {
      var rest := counts[1..];
      var ks := if family in Keys(rest) then Keys(rest) else Keys(rest) + [family];
      assert Keys(Bump(rest, family)) == ks by { BumpKeys(rest, family); }
      assert Keys(counts) == [counts[0].0] + Keys(rest) by { KeysCons(counts); }
      assert Keys(Bump(counts, family)) == [counts[0].0] + Keys(Bump(rest, family)) by { KeysCons(Bump(counts, family)); }
    }
  }

  /** Keys of a non-empty dictionary: the first key, then the keys of the rest. */
  lemma KeysCons<V>(d: Dict<V>)
    requires d != []
    ensures Keys(d) == [d[0].0] + Keys(d[1..])
  {
  }

  lemma BumpIsDict(counts: Dict<nat>, family: string)
    requires IsDict(counts)
    ensures IsDict(Bump(counts, family))
  {
    BumpKeys(counts, family);
    var ks := Keys(Bump(counts, family));
    assert forall i, j | 0 <= i < j < |ks| :: ks[i] != ks[j];
  }

  /**
   * The family counts form a dictionary in which every family's count is the
   * number of materials in it, and the counts sum to the number of materials.
   */
  lemma {:induction false} FamilyCountsCorrect(materials: Dict<Material>)
    ensures IsDict(FamilyCounts(materials))
    ensures forall f :: CountOf(FamilyCounts(materials), f) == Occurrences(materials, f)
    ensures TotalCount(FamilyCounts(materials)) == |materials|
    decreases |materials|
  {
    if materials != [] {
      var n := |materials| - 1;
      var prev := FamilyCounts(materials[..n]);
      var family := materials[n].1.family;
      FamilyCountsCorrect(materials[..n]);
      BumpTotal(prev, family);
      BumpIsDict(prev, family);
      forall f ensures CountOf(FamilyCounts(materials), f) == Occurrences(materials, f) {
        BumpCount(prev, family, f);
      }
    }
  }

  /** The counter's keys are exactly the families of the selected materials. */
  lemma {:induction false} FamilyKeysMembers(materials: Dict<Material>, f: string)
    ensures f in Keys(FamilyCounts(materials)) <==> exists j | 0 <= j < |materials| :: materials[j].1.family == f
    decreases |materials|
  {
    if materials != [] {
      var n := |materials| - 1;
      var prev := FamilyCounts(materials[..n]);
      var family := materials[n].1.family;
      assert f in Keys(FamilyCounts(materials)) <==> f in Keys(prev) || f == family by {
        BumpKeys(prev, family);
      }
      assert f in Keys(prev) <==> exists j | 0 <= j < n :: materials[..n][j].1.family == f by {
        FamilyKeysMembers(materials[..n], f);
      }
      if f in Keys(prev) {
        var j :| 0 <= j < n && materials[..n][j].1.family == f;
        assert materials[j].1.family == f;
      } else if f == family {
        assert materials[n].1.family == f;
      } else {
        forall j | 0 <= j < |materials| ensures materials[j].1.family != f {
          if j < n {
            assert materials[j] == materials[..n][j];
          }
        }
      }
    }
  }


  /**
   * The counter's keys come in order of first appearance: the family at
   * index k appears no later than any material of a family at index k2 >= k.
   */
  lemma {:induction false} FamilyKeysInOrder(materials: Dict<Material>, k: int, k2: int, i: int)
    requires 0 <= k <= k2 < |FamilyCounts(materials)|
    requires 0 <= i < |materials| && materials[i].1.family == FamilyCounts(materials)[k2].0
    ensures exists j | 0 <= j <= i :: materials[j].1.family == FamilyCounts(materials)[k].0
    decreases |materials|
  {
    var n := |materials| - 1;
    var prev := FamilyCounts(materials[..n]);
    var family := materials[n].1.family;
    var ks := Keys(FamilyCounts(materials));
    assert ks == if family in Keys(prev) then Keys(prev) else Keys(prev) + [family] by {
      BumpKeys(prev, family);
    }
    assert IsDict(FamilyCounts(materials)) by { FamilyCountsCorrect(materials); }
    if i < n {
      assert materials[..n][i].1.family == ks[k2];
      assert ks[k2] in Keys(prev) by { FamilyKeysMembers(materials[..n], ks[k2]); }
      assert k2 < |prev|;
      assert prev[k].0 == ks[k] && prev[k2].0 == ks[k2];
      FamilyKeysInOrder(materials[..n], k, k2, i);
      var j :| 0 <= j <= i && materials[..n][j].1.family == prev[k].0;
      assert materials[j].1.family == FamilyCounts(materials)[k].0;
    } else if k < |prev| {
      assert ks[k] == Keys(prev)[k] && Keys(prev)[k] in Keys(prev);
      FamilyKeysMembers(materials[..n], ks[k]);
      var j :| 0 <= j < n && materials[..n][j].1.family == ks[k];
      assert materials[j].1.family == FamilyCounts(materials)[k].0;
    } else {
      assert ks[k] == family;
      assert materials[n].1.family == FamilyCounts(materials)[k].0;
    }
  }

  /** `max(families, key=families.get)`: the first entry with the largest count. */
  function FirstMaxIndex(counts: Dict<nat>): (k: nat)
    requires |counts| > 0
    ensures k < |counts|
    ensures forall i | 0 <= i < |counts| :: counts[i].1 <= counts[k].1
    ensures forall i | 0 <= i < k :: counts[i].1 < counts[k].1
    decreases |counts|
  {
    if |counts| == 1 then 0
    else
      var k := FirstMaxIndex(counts[..|counts| - 1]);
      if counts[|counts| - 1].1 > counts[k].1 then |counts| - 1 else k
  }

  /** The endpoints of the price intervals of the materials that have one. */
  function Prices(materials: Dict<Material>): seq<real>
    decreases |materials|
  {
    if materials == [] then []
    else
      var m := materials[|materials| - 1].1;
      Prices(materials[..|materials| - 1]) + (if "price" in m.props then [m.props["price"].lo, m.props["price"].hi] else [])
  }

  /** Python's `min` over a non-empty list. */
  function SeqMin(xs: seq<real>): (r: real)
    requires xs != []
    ensures (exists i | 0 <= i < |xs| :: xs[i] == r) && forall i | 0 <= i < |xs| :: r <= xs[i]
    decreases |xs|
  {
    if |xs| == 1 then xs[0]
    else
      var r := SeqMin(xs[..|xs| - 1]);
      if xs[|xs| - 1] < r then xs[|xs| - 1] else r
  }

  /** Python's `max` over a non-empty list. */
  function SeqMax(xs: seq<real>): (r: real)
    requires xs != []
    ensures (exists i | 0 <= i < |xs| :: xs[i] == r) && forall i | 0 <= i < |xs| :: xs[i] <= r
    decreases |xs|
  {
    if |xs| == 1 then xs[0]
    else
      var r := SeqMax(xs[..|xs| - 1]);
      if xs[|xs| - 1] > r then xs[|xs| - 1] else r
  }

  /** The dominant-family message, absent when the selection is empty. */
  function FamilyInsight(filtered: Dict<Material>): seq<Insight>
  {
    var counts := FamilyCounts(filtered);
    if counts == [] then [] else
      var k := FirstMaxIndex(counts);
      [DominantFamily(counts[k].0, counts[k].1)]
  }

  function ReductionPercent(originalCount: nat, filteredCount: nat): real
    requires originalCount > 0
  {
    ((originalCount as real - filteredCount as real) / originalCount as real) * 100.0
  }

  /** The reduction message: above 50 % one, below 10 % the other, else none. */
  function ReductionInsight(originalCount: nat, filteredCount: nat): seq<Insight>
    requires originalCount > 0
  {
    var p := ReductionPercent(originalCount, filteredCount);
    if p > 50.0 then [StrongReduction(p)] else if p < 10.0 then [WeakReduction(p)] else []
  }

  /** The price message; a zero minimum price makes the ratio a division by zero. */
  function PriceInsight(prices: seq<real>): Result<seq<Insight>, string>
  {
    if prices == [] then Ok([])
    else if SeqMin(prices) == 0.0 then Err("float division by zero")
    else if SeqMax(prices) / SeqMin(prices) > 10.0 then Ok([WidePriceRange(SeqMin(prices), SeqMax(prices))])
    else Ok([])
  }

  /** What `generate_material_insights` returns, or the ZeroDivisionError it
      raises for an empty original set or a zero minimum price. */
  function InsightsResult(filtered: Dict<Material>, original: Dict<Material>): Result<seq<Insight>, string>
  {
    if |original| == 0 then Err("division by zero")
    else match PriceInsight(Prices(filtered))
      case Err(e) => Err(e)
      case Ok(price) => Ok(FamilyInsight(filtered) + ReductionInsight(|original|, |filtered|) + price)
  }

  /** The family-counting loop of `generate_material_insights`. */
  method CountFamilies(filtered: Dict<Material>) returns (families: Dict<nat>)
    ensures families == FamilyCounts(filtered)
  {
    families := [];
    var i := 0;
    while i < |filtered|
      invariant 0 <= i <= |filtered|
      invariant families == FamilyCounts(filtered[..i])
    {
      assert filtered[..i + 1][..i] == filtered[..i];
      families := Bump(families, filtered[i].1.family);
      i := i + 1;
    }
    assert filtered[..i] == filtered;
  }

  /** The price-collecting loop of `generate_material_insights`. */
  method CollectPrices(filtered: Dict<Material>) returns (prices: seq<real>)
    ensures prices == Prices(filtered)
  {
    prices := [];
    var i := 0;
    while i < |filtered|
      invariant 0 <= i <= |filtered|
      invariant prices == Prices(filtered[..i])
    {
      assert filtered[..i + 1][..i] == filtered[..i];
      var m := filtered[i].1;
      if "price" in m.props {
        prices := prices + [m.props["price"].lo, m.props["price"].hi];
      }
      i := i + 1;
    }
    assert filtered[..i] == filtered;
  }

  /** `generate_material_insights`. */
  method GenerateMaterialInsights(filtered: Dict<Material>, original: Dict<Material>) returns (r: Result<seq<Insight>, string>)
    ensures r == InsightsResult(filtered, original)
  {
    var insights: seq<Insight> := [];
    var families := CountFamilies(filtered);
    if families != [] {
      var k := FirstMaxIndex(families);
      insights := insights + [DominantFamily(families[k].0, families[k].1)];
    }
    assert insights == FamilyInsight(filtered);
    var originalCount, filteredCount := |original|, |filtered|;
    if originalCount == 0 {
      return Err("division by zero");
    }
    var reductionPercent := ReductionPercent(originalCount, filteredCount);
    if reductionPercent > 50.0 {
      insights := insights + [StrongReduction(reductionPercent)];
    } else if reductionPercent < 10.0 {
      insights := insights + [WeakReduction(reductionPercent)];
    }
    assert insights == FamilyInsight(filtered) + ReductionInsight(originalCount, filteredCount);
    var prices := CollectPrices(filtered);
    ghost var before := insights;
    ghost var price: seq<Insight> := [];
    if prices != [] {
      var minPrice, maxPrice := SeqMin(prices), SeqMax(prices);
      if minPrice == 0.0 {
        return Err("float division by zero");
      }
      if maxPrice / minPrice > 10.0 {
        price := [WidePriceRange(minPrice, maxPrice)];
        insights := insights + [WidePriceRange(minPrice, maxPrice)];
      }
    }
    assert PriceInsight(Prices(filtered)) == Ok(price) && insights == before + price;
    return Ok(insights);
  }

  /**
   * The dominant-family insight names a family of maximal size with its true
   * count; there is none for an empty selection.
   */
  lemma DominantFamilyIsMostFrequent(filtered: Dict<Material>)
    ensures filtered == [] <==> FamilyInsight(filtered) == []
    ensures filtered != [] ==>
      var d := FamilyInsight(filtered)[0];
      && d.count == Occurrences(filtered, d.family) > 0
      && (forall g :: Occurrences(filtered, g) <= d.count)
      && forall i | 0 <= i < |filtered| && Occurrences(filtered, filtered[i].1.family) == d.count ::
           exists j | 0 <= j <= i :: filtered[j].1.family == d.family
  {
    if filtered != [] {
      var counts := FamilyCounts(filtered);
      assert IsDict(counts) && forall f :: CountOf(counts, f) == Occurrences(filtered, f) by {
        FamilyCountsCorrect(filtered);
      }
      var k := FirstMaxIndex(counts);
      var d := FamilyInsight(filtered)[0];
      assert d.count == counts[k].1 == CountOf(counts, d.family) by { GetAt(counts, k); }
      forall g ensures Occurrences(filtered, g) <= d.count {
        if Get(counts, g).Some? {
          var i :| 0 <= i < |counts| && counts[i] == (g, Get(counts, g).value) && forall j | 0 <= j < i :: counts[j].0 != g;
        }
      }
      var f := filtered[|filtered| - 1].1.family;
      assert Occurrences(filtered, f) > 0;
      assert d.count > 0;
      assert forall i | 0 <= i < |filtered| && Occurrences(filtered, filtered[i].1.family) == d.count ::
          exists j | 0 <= j <= i :: filtered[j].1.family == d.family by {
        DominantFamilySeenFirst(filtered);
      }
    }
  }

  /** Among families of maximal size, the insight names the one seen first. */
  lemma DominantFamilySeenFirst(filtered: Dict<Material>)
    requires filtered != []
    ensures FamilyInsight(filtered) != []
    ensures var d := FamilyInsight(filtered)[0];
      forall i | 0 <= i < |filtered| && Occurrences(filtered, filtered[i].1.family) == d.count ::
        exists j | 0 <= j <= i :: filtered[j].1.family == d.family
  {
    var counts := FamilyCounts(filtered);
    assert IsDict(counts) && forall f :: CountOf(counts, f) == Occurrences(filtered, f) by {
      FamilyCountsCorrect(filtered);
    }
    assert filtered[0].1.family in Keys(counts) by { FamilyKeysMembers(filtered, filtered[0].1.family); }
    var k := FirstMaxIndex(counts);
    forall i | 0 <= i < |filtered| && Occurrences(filtered, filtered[i].1.family) == counts[k].1
      ensures exists j | 0 <= j <= i :: filtered[j].1.family == counts[k].0
    {
      var g := filtered[i].1.family;
      assert g in Keys(counts) by { FamilyKeysMembers(filtered, g); }
      var k2 :| 0 <= k2 < |counts| && Keys(counts)[k2] == g;
      GetAt(counts, k2);
      assert counts[k2].1 == counts[k].1;
      FamilyKeysInOrder(filtered, k, k2, i);
    }
  }

  /** Comparing a quotient with a threshold, for a positive denominator. */
  lemma {:induction false} QuotientThreshold(n: real, d: real, t: real)
    requires d > 0.0
    ensures n / d > t <==> n > t * d
    ensures n / d < t <==> n < t * d
  {
    var q := n / d;
    assert q * d == n;
    if q > t {
      assert (q - t) * d > 0.0;
    } else {
      assert (t - q) * d >= 0.0;
    }
    if q < t {
      assert (t - q) * d > 0.0;
    } else {
      assert (q - t) * d >= 0.0;
    }
  }

  /** The reduction thresholds in whole numbers: above 50 % exactly when fewer
      than half remain, below 10 % exactly when more than nine tenths remain. */
  lemma ReductionThresholds(originalCount: nat, filteredCount: nat)
    requires originalCount > 0
    ensures ReductionPercent(originalCount, filteredCount) > 50.0 <==> 2 * filteredCount < originalCount
    ensures ReductionPercent(originalCount, filteredCount) < 10.0 <==> 10 * filteredCount > 9 * originalCount
  {
    var o, f := originalCount as real, filteredCount as real;
    QuotientThreshold(o - f, o, 0.5);
    QuotientThreshold(o - f, o, 0.1);
    assert 2 * filteredCount < originalCount <==> 2.0 * f < o;
    assert 10 * filteredCount > 9 * originalCount <==> 10.0 * f > 9.0 * o;
  }

  /** An empty original set makes the percentage a division by zero. */
  lemma EmptyOriginalRaises(filtered: Dict<Material>)
    ensures InsightsResult(filtered, []).Err?
  {
  }

  /** With a positive minimum price, the price insight appears exactly when the
      largest price endpoint exceeds ten times the smallest. */
  lemma WidePriceRangeIff(prices: seq<real>)
    requires prices != [] && SeqMin(prices) > 0.0
    ensures PriceInsight(prices).Ok?
    ensures PriceInsight(prices).value != [] <==> SeqMax(prices) > 10.0 * SeqMin(prices)
  {
    var lo, hi := SeqMin(prices), SeqMax(prices);
    QuotientThreshold(hi, lo, 10.0);
  }

  /** A zero minimum price raises; a selection without prices adds no price insight. */
  lemma PriceInsightErrors(prices: seq<real>)
    ensures PriceInsight(prices).Err? <==> prices != [] && SeqMin(prices) == 0.0
    ensures prices == [] ==> PriceInsight(prices) == Ok([])
  {
  }

  // ---------------------------------------------------------------------------
  // Comparison table (create_material_comparison_table)
  // ---------------------------------------------------------------------------

  /** One column per catalog property: "avg (min-max)" if the material has it, else "N/A". */
  function SummaryColumns(catalog: Catalog, props: map<string, Range>): Row
    decreases |catalog|
  {
    if catalog == [] then []
    else
      var last := catalog[|catalog| - 1];
      SummaryColumns(catalog[..|catalog| - 1], props)
        + [(last.0, if last.1 in props then Summary(Midpoint(props[last.1]), props[last.1].lo, props[last.1].hi) else NotAvailable)]
  }

  function ComparisonRow(catalog: Catalog, name: string, m: Material): Row
  {
    [("Material", Text(name)), ("Familia", Text(m.family))] + SummaryColumns(catalog, m.props)
  }

  /** The rows for the selected names that are in the database, in selection order. */
  function ComparisonRows(selected: seq<string>, database: MaterialDatabase): seq<Row>
    decreases |selected|
  {
    if selected == [] then []
    else
      var name := selected[|selected| - 1];
      ComparisonRows(selected[..|selected| - 1], database)
        + (match Get(database.materials, name)
           case None => []
           case Some(m) => [ComparisonRow(database.properties, name, m)])
  }

  /** The row of one found material: name and family, then a summary or
      "N/A" cell for every catalog property, in catalog order. */
  method BuildComparisonRow(catalog: Catalog, name: string, m: Material) returns (row: Row)
    ensures row == ComparisonRow(catalog, name, m)
  {
    row := [("Material", Text(name)), ("Familia", Text(m.family))];
    ghost var header := row;
    var j := 0;
    while j < |catalog|
      invariant 0 <= j <= |catalog|
      invariant row == header + SummaryColumns(catalog[..j], m.props)
    {
      assert catalog[..j + 1][..j] == catalog[..j];
      var propDisplay, propKey := catalog[j].0, catalog[j].1;
      if propKey in m.props {
        var r := m.props[propKey];
        var avg := (r.lo + r.hi) / 2.0;
        row := row + [(propDisplay, Summary(avg, r.lo, r.hi))];
      } else {
        row := row + [(propDisplay, NotAvailable)];
      }
      j := j + 1;
    }
    assert catalog[..j] == catalog;
  }

  /** `create_material_comparison_table`. */
  method CreateMaterialComparisonTable(selected: seq<string>, database: MaterialDatabase) returns (rows: seq<Row>)
    ensures rows == ComparisonRows(selected, database)
  {
    rows := [];
    if selected == [] {
      return;
    }
    var i := 0;
    while i < |selected|
      invariant 0 <= i <= |selected|
      invariant rows == ComparisonRows(selected[..i], database)
    {
      var name := selected[i];
      assert selected[..i + 1][..i] == selected[..i];
      var found := Get(database.materials, name);
      if found.Some? {
        var row := BuildComparisonRow(database.properties, name, found.value);
        rows := rows + [row];
      }
      i := i + 1;
    }
    assert selected[..i] == selected;
  }

  lemma {:induction false} SummaryColumnsAt(catalog: Catalog, props: map<string, Range>, j: nat)
    requires j < |catalog|
    ensures |SummaryColumns(catalog, props)| == |catalog|
    ensures SummaryColumns(catalog, props)[j] == (catalog[j].0,
      if catalog[j].1 in props then Summary(Midpoint(props[catalog[j].1]), props[catalog[j].1].lo, props[catalog[j].1].hi)
      else NotAvailable)
    decreases |catalog|
  {
    var n := |catalog| - 1;
    if j < n {
      SummaryColumnsAt(catalog[..n], props, j);
    } else if n > 0 {
      SummaryColumnsAt(catalog[..n], props, 0);
    }
  }

  /**
   * Every catalog property gets its own column in a comparison row: the
   * midpoint and the endpoints when the material has the property, "N/A"
   * otherwise.
   */
  lemma ComparisonRowCells(catalog: Catalog, name: string, m: Material, j: nat)
    requires IsDict(catalog) && j < |catalog|
    requires catalog[j].0 != "Material" && catalog[j].0 != "Familia"
    ensures var key := catalog[j].1;
      Get(ComparisonRow(catalog, name, m), catalog[j].0)
        == Some(if key in m.props then Summary(Midpoint(m.props[key]), m.props[key].lo, m.props[key].hi) else NotAvailable)
  {
    var cols := SummaryColumns(catalog, m.props);
    SummaryColumnsAt(catalog, m.props, j);
    forall i | 0 <= i < |catalog| ensures cols[i].0 == catalog[i].0 {
      SummaryColumnsAt(catalog, m.props, i);
    }
    SummaryColumnsAt(catalog, m.props, j);
    assert IsDict(cols);
    GetAt(cols, j);
    GetAppend([("Material", Text(name)), ("Familia", Text(m.family))], cols, catalog[j].0);
  }
  /** With the application's own catalog, every label's cell of the comparison
      row is the property's summary, or "N/A" when the material lacks it. */
  lemma AppComparisonRowCells(name: string, m: Material, j: nat)
    requires j < |PropertyCatalog()|
    ensures var key := PropertyCatalog()[j].1;
      Get(ComparisonRow(PropertyCatalog(), name, m), PropertyCatalog()[j].0)
        == Some(if key in m.props then Summary(Midpoint(m.props[key]), m.props[key].lo, m.props[key].hi) else NotAvailable)
  {
    PropertyCatalogLabels();
    ComparisonRowCells(PropertyCatalog(), name, m, j);
  }

}
