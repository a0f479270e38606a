/**
 * The analysis and export helpers: the performance-index table, the choice
 * of Pareto candidates for the frontier, the CSV rows of the exported list
 * and the selection report.
 */
module AdvancedFeatures {
  import opened Materials
  import AshbyApp

  // ---------------------------------------------------------------------------
  // Performance indices (MaterialAnalyzer.calculate_material_indices)
  // ---------------------------------------------------------------------------

  /** The quotient of two interval midpoints, as numpy divides floats: a zero
      denominator gives an infinite or undefined value rather than an error. */
  function RatioCell(num: Range, den: Range): Cell
  {
    if Midpoint(den) == 0.0 then NonFinite else Num(Midpoint(num) / Midpoint(den))
  }

  /** The index column `column`, present when the material has both `numKey` and density. */
  function IndexColumn(m: Material, numKey: string, column: string): Row
  {
    if numKey in m.props && "density" in m.props then [(column, RatioCell(m.props[numKey], m.props["density"]))] else []
  }

  /** One row of the index table: name, family, then E/ρ, σy/ρ and KIC/ρ when defined. */
  function IndexRow(name: string, m: Material): Row
  {
    [("Material", Text(name)), ("Familia", Text(m.family))]
      + IndexColumn(m, "young_modulus", "E/ρ")
      + IndexColumn(m, "yield_strength", "σy/ρ")
      + IndexColumn(m, "fracture_toughness", "KIC/ρ")
  }

  /** `calculate_material_indices`: one row per material, in dictionary order. */
  method CalculateMaterialIndices(materials: Dict<Material>) returns (rows: seq<Row>)
    ensures |rows| == |materials|
    ensures forall i | 0 <= i < |rows| :: rows[i] == IndexRow(materials[i].0, materials[i].1)
  {
    rows := [];
    var i := 0;
    while i < |materials|
      invariant 0 <= i <= |materials| && |rows| == i
      invariant forall k | 0 <= k < i :: rows[k] == IndexRow(materials[k].0, materials[k].1)
    {
      var name, props := materials[i].0, materials[i].1;
      var row: Row := [("Material", Text(name)), ("Familia", Text(props.family))];
      if "young_modulus" in props.props && "density" in props.props {
        var eAvg, rhoAvg := Midpoint(props.props["young_modulus"]), Midpoint(props.props["density"]);
        row := row + [("E/ρ", if rhoAvg == 0.0 then NonFinite else Num(eAvg / rhoAvg))];
      }
      if "yield_strength" in props.props && "density" in props.props {
        var sigmaAvg, rhoAvg := Midpoint(props.props["yield_strength"]), Midpoint(props.props["density"]);
        row := row + [("σy/ρ", if rhoAvg == 0.0 then NonFinite else Num(sigmaAvg / rhoAvg))];
      }
      if "fracture_toughness" in props.props && "density" in props.props {
        var kAvg, rhoAvg := Midpoint(props.props["fracture_toughness"]), Midpoint(props.props["density"]);
        row := row + [("KIC/ρ", if rhoAvg == 0.0 then NonFinite else Num(kAvg / rhoAvg))];
      }
      rows := rows + [row];
      i := i + 1;
    }
  }

  /** A finite index times the mean density gives back the mean of the numerator. */
  lemma RatioCellMeaning(num: Range, den: Range)
    ensures RatioCell(num, den).NonFinite? <==> den.lo + den.hi == 0.0
    ensures RatioCell(num, den).Num? ==> RatioCell(num, den).x * Midpoint(den) == Midpoint(num)
  {
  }

  lemma {:induction false} GetSingleton(column: string, c: Cell, k: string)
    ensures Get([(column, c)], k) == if k == column then Some(c) else None
  {
    assert [(column, c)][1..] == [];
  }

  lemma {:induction false} GetIndexColumn(m: Material, numKey: string, column: string, k: string)
    ensures Get(IndexColumn(m, numKey, column), k)
      == if k == column && numKey in m.props && "density" in m.props then Some(RatioCell(m.props[numKey], m.props["density"])) else None
  {
    if numKey in m.props && "density" in m.props {
      GetSingleton(column, RatioCell(m.props[numKey], m.props["density"]), k);
    }
  }

  /** Looking up an index label in an index row finds the first index column
      carrying that label. */
  lemma {:induction false} IndexRowLookup(name: string, m: Material, key: string)
    requires key != "Material" && key != "Familia"
    ensures var e, s, k := IndexColumn(m, "young_modulus", "E/ρ"), IndexColumn(m, "yield_strength", "σy/ρ"), IndexColumn(m, "fracture_toughness", "KIC/ρ");
      Get(IndexRow(name, m), key) == if Get(e, key).Some? then Get(e, key) else if Get(s, key).Some? then Get(s, key) else Get(k, key)
  {
    var header: Row := [("Material", Text(name)), ("Familia", Text(m.family))];
    var e, s, k := IndexColumn(m, "young_modulus", "E/ρ"), IndexColumn(m, "yield_strength", "σy/ρ"), IndexColumn(m, "fracture_toughness", "KIC/ρ");
    assert IndexRow(name, m) == header + (e + (s + k));
    GetAppend(header, e + (s + k), key);
    GetAppend(e, s + k, key);
    GetAppend(s, k, key);
    assert Get(header, key).None?;
  }

  /**
   * Each index column is present exactly when the material has the
   * numerator property and a density, and then holds the quotient of their
   * midpoints; the name and family come first.
   */
  lemma IndexRowCells(name: string, m: Material)
    ensures IndexRow(name, m)[..2] == [("Material", Text(name)), ("Familia", Text(m.family))]
    ensures Get(IndexRow(name, m), "E/ρ")
      == if "young_modulus" in m.props && "density" in m.props then Some(RatioCell(m.props["young_modulus"], m.props["density"])) else None
    ensures Get(IndexRow(name, m), "σy/ρ")
      == if "yield_strength" in m.props && "density" in m.props then Some(RatioCell(m.props["yield_strength"], m.props["density"])) else None
    ensures Get(IndexRow(name, m), "KIC/ρ")
      == if "fracture_toughness" in m.props && "density" in m.props then Some(RatioCell(m.props["fracture_toughness"], m.props["density"])) else None
  {
    assert IndexRow(name, m)[..2] == [("Material", Text(name)), ("Familia", Text(m.family))] by {
      var header: Row := [("Material", Text(name)), ("Familia", Text(m.family))];
      var rest := IndexColumn(m, "young_modulus", "E/ρ") + IndexColumn(m, "yield_strength", "σy/ρ") + IndexColumn(m, "fracture_toughness", "KIC/ρ");
      assert IndexRow(name, m) == header + rest;
      assert (header + rest)[..2] == header;
    }
    assert Get(IndexRow(name, m), "E/ρ")
      == if "young_modulus" in m.props && "density" in m.props then Some(RatioCell(m.props["young_modulus"], m.props["density"])) else None by {
      IndexRowLookup(name, m, "E/ρ");
      GetIndexColumn(m, "young_modulus", "E/ρ", "E/ρ");
    }
    assert Get(IndexRow(name, m), "σy/ρ")
      == if "yield_strength" in m.props && "density" in m.props then Some(RatioCell(m.props["yield_strength"], m.props["density"])) else None by {
      IndexRowLookup(name, m, "σy/ρ");
      GetIndexColumn(m, "young_modulus", "E/ρ", "σy/ρ");
      GetIndexColumn(m, "yield_strength", "σy/ρ", "σy/ρ");
    }
    assert Get(IndexRow(name, m), "KIC/ρ")
      == if "fracture_toughness" in m.props && "density" in m.props then Some(RatioCell(m.props["fracture_toughness"], m.props["density"])) else None by {
      IndexRowLookup(name, m, "KIC/ρ");
      GetIndexColumn(m, "young_modulus", "E/ρ", "KIC/ρ");
      GetIndexColumn(m, "yield_strength", "σy/ρ", "KIC/ρ");
      GetIndexColumn(m, "fracture_toughness", "KIC/ρ", "KIC/ρ");
    }
  }

  // ---------------------------------------------------------------------------
  // Pareto candidates (MaterialAnalyzer.create_pareto_frontier)
  // ---------------------------------------------------------------------------

  /** What happens to the figure: left as it is, or handed the points (and
      their material names) from which the convex hull is computed. */
  datatype Frontier = Unchanged | HullRequested(points: seq<(real, real)>, names: seq<string>)

  /** The upper-right corners (both maxima) of the materials having both axis properties. */
  function ParetoPoints(source: Dict<Material>, xKey: string, yKey: string): seq<(real, real)>
    decreases |source|
  {
    if source == [] then []
    else
      var last := source[|source| - 1].1;
      ParetoPoints(source[..|source| - 1], xKey, yKey)
        + (if xKey in last.props && yKey in last.props then [(last.props[xKey].hi, last.props[yKey].hi)] else [])
  }

  /** The names of those materials, parallel to the points. */
  function ParetoNames(source: Dict<Material>, xKey: string, yKey: string): seq<string>
    decreases |source|
  {
    if source == [] then []
    else
      var last := source[|source| - 1];
      ParetoNames(source[..|source| - 1], xKey, yKey)
        + (if xKey in last.1.props && yKey in last.1.props then [last.0] else [])
  }

  /** The outcome of `create_pareto_frontier`: a KeyError for an unknown axis
      label (the x label is looked up first); no hull for fewer than three points. */
  function FrontierResult(catalog: Catalog, source: Dict<Material>, xLabel: string, yLabel: string): Result<Frontier, string>
  {
    match Get(catalog, xLabel)
    case None => Err(xLabel)
    case Some(xKey) =>
      match Get(catalog, yLabel)
      case None => Err(yLabel)
      case Some(yKey) =>
        var points := ParetoPoints(source, xKey, yKey);
        if |points| < 3 then Ok(Unchanged) else Ok(HullRequested(points, ParetoNames(source, xKey, yKey)))
  }

  /** `create_pareto_frontier`, up to the hull computation itself. */
  method CreateParetoFrontier(catalog: Catalog, source: Dict<Material>, xLabel: string, yLabel: string)
    returns (r: Result<Frontier, string>)
    ensures r == FrontierResult(catalog, source, xLabel, yLabel)
  {
    var points: seq<(real, real)> := [];
    var materials: seq<string> := [];
    var xKey := Get(catalog, xLabel);
    if xKey.None? { return Err(xLabel); }
    var yKey := Get(catalog, yLabel);
    if yKey.None? { return Err(yLabel); }
    var i := 0;
    while i < |source|
      invariant 0 <= i <= |source|
      invariant points == ParetoPoints(source[..i], xKey.value, yKey.value)
      invariant materials == ParetoNames(source[..i], xKey.value, yKey.value)
    {
      var name, data := source[i].0, source[i].1;
      assert source[..i + 1][..i] == source[..i];
      if xKey.value in data.props && yKey.value in data.props {
        var xVal, yVal := data.props[xKey.value].hi, data.props[yKey.value].hi;
        points := points + [(xVal, yVal)];
        materials := materials + [name];
      }
      i := i + 1;
    }
    assert source[..i] == source;
    if |points| < 3 {
      return Ok(Unchanged);
    }
    return Ok(HullRequested(points, materials));
  }

  /**
   * The Pareto candidates are exactly the materials the chart draws for the
   * same axes, in the same order: each point is the upper-right corner of that
   * material's box, named after it.
   */
  lemma {:induction false} ParetoMatchesChart(source: Dict<Material>, xKey: string, yKey: string)
    ensures var traces := AshbyApp.Traces(source, xKey, yKey);
      && |ParetoPoints(source, xKey, yKey)| == |traces|
      && |ParetoNames(source, xKey, yKey)| == |traces|
      && forall i | 0 <= i < |traces| ::
           && ParetoPoints(source, xKey, yKey)[i] == (traces[i].x.hi, traces[i].y.hi)
           && ParetoNames(source, xKey, yKey)[i] == traces[i].name
    decreases |source|
  {
    if source != [] {
      ParetoMatchesChart(source[..|source| - 1], xKey, yKey);
    }
  }

  /**
   * With both labels known, the hull is requested exactly when at least three
   * materials have both axis properties, and then over exactly their corners.
   */
  lemma FrontierNeedsThreePoints(catalog: Catalog, source: Dict<Material>, xLabel: string, yLabel: string)
    requires Get(catalog, xLabel).Some? && Get(catalog, yLabel).Some?
    ensures var xKey, yKey := Get(catalog, xLabel).value, Get(catalog, yLabel).value;
      var traces := AshbyApp.Traces(source, xKey, yKey);
      && FrontierResult(catalog, source, xLabel, yLabel).Ok?
      && (FrontierResult(catalog, source, xLabel, yLabel).value.HullRequested? <==> |traces| >= 3)
      && (FrontierResult(catalog, source, xLabel, yLabel).value.HullRequested? <==> AshbyApp.WithBothKeys(source, xKey, yKey) >= 3)
      && (|traces| >= 3 ==>
            var f := FrontierResult(catalog, source, xLabel, yLabel).value;
            && |f.points| == |f.names| == |traces|
            && forall i | 0 <= i < |traces| :: f.points[i] == (traces[i].x.hi, traces[i].y.hi) && f.names[i] == traces[i].name)
  {
    ParetoMatchesChart(source, Get(catalog, xLabel).value, Get(catalog, yLabel).value);
    AshbyApp.TracesCount(source, Get(catalog, xLabel).value, Get(catalog, yLabel).value);
  }

  /** An unknown axis label raises, the x label first. */
  lemma FrontierUnknownLabel(catalog: Catalog, source: Dict<Material>, xLabel: string, yLabel: string)
    ensures Get(catalog, xLabel).None? ==> FrontierResult(catalog, source, xLabel, yLabel) == Err(xLabel)
    ensures Get(catalog, xLabel).Some? && Get(catalog, yLabel).None? ==> FrontierResult(catalog, source, xLabel, yLabel) == Err(yLabel)
    ensures FrontierResult(catalog, source, xLabel, yLabel).Ok? <==> Get(catalog, xLabel).Some? && Get(catalog, yLabel).Some?
  {
  }

  // ---------------------------------------------------------------------------
  // Exported list (ExportTools.export_materials_list)
  // ---------------------------------------------------------------------------

  /** One CSV record: name, family, then "<label> (min)" and "<label> (max)" per property held. */
  function ExportRow(catalog: Catalog, name: string, m: Material): Row
  {
    [("Material", Text(name)), ("Familia", Text(m.family))] + RangeColumns(catalog, m.props, " (min)", " (max)")
  }

  /** The records `export_materials_list` turns into CSV, one per material. */
  method ExportMaterialsList(catalog: Catalog, materials: Dict<Material>) returns (data: seq<Row>)
    ensures |data| == |materials|
    ensures forall i | 0 <= i < |data| :: data[i] == ExportRow(catalog, materials[i].0, materials[i].1)
  {
    data := [];
    var i := 0;
    while i < |materials|
      invariant 0 <= i <= |materials| && |data| == i
      invariant forall k | 0 <= k < i :: data[k] == ExportRow(catalog, materials[k].0, materials[k].1)
    {
      var name, props := materials[i].0, materials[i].1;
      var row: Row := [("Material", Text(name)), ("Familia", Text(props.family))];
      var j := 0;
      while j < |catalog|
        invariant 0 <= j <= |catalog|
        invariant row == [("Material", Text(name)), ("Familia", Text(props.family))] + RangeColumns(catalog[..j], props.props, " (min)", " (max)")
      {
        assert catalog[..j + 1][..j] == catalog[..j];
        var propDisplay, propKey := catalog[j].0, catalog[j].1;
        if propKey in props.props {
          var minVal, maxVal := props.props[propKey].lo, props.props[propKey].hi;
          row := row + [(propDisplay + " (min)", Num(minVal)), (propDisplay + " (max)", Num(maxVal))];
        }
        j := j + 1;
      }
      assert catalog[..j] == catalog;
      data := data + [row];
      i := i + 1;
    }
  }

  /** An exported record has the name and family, then a min and a max column
      for every catalog property the material has, and no other column. */
  lemma ExportRowColumns(catalog: Catalog, name: string, m: Material)
    ensures ExportRow(catalog, name, m)[..2] == [("Material", Text(name)), ("Familia", Text(m.family))]
    ensures HasRangeColumns(catalog, m.props, " (min)", " (max)", ExportRow(catalog, name, m)[2..])
    ensures OnlyRangeColumns(catalog, m.props, " (min)", " (max)", ExportRow(catalog, name, m)[2..])
  {
    RangeColumnsExact(catalog, m.props, " (min)", " (max)");
    assert ExportRow(catalog, name, m)[2..] == RangeColumns(catalog, m.props, " (min)", " (max)");
  }

  // ---------------------------------------------------------------------------
  // Selection report (ExportTools.generate_selection_report)
  // ---------------------------------------------------------------------------

  /** The report's lines, without the date line and the Markdown decoration. */
  datatype ReportLine =
    | Overview(analysed: nat)
    | AppliedFilter(propLabel: string, lo: real, hi: real)
    | CandidatesHeading
    | Candidate(name: string, family: string)

  /** One line per active filter, in filter order. */
  function FilterLines(filters: Dict<Filter>): seq<ReportLine>
    decreases |filters|
  {
    if filters == [] then []
    else
      var last := filters[|filters| - 1];
      FilterLines(filters[..|filters| - 1])
        + (if last.1.active then [AppliedFilter(last.0, last.1.range.lo, last.1.range.hi)] else [])
  }

  /** The line each filter would print, active or not, in filter order. */
  function AllFilterLines(filters: Dict<Filter>): (lines: seq<ReportLine>)
    ensures |lines| == |filters|
  {
    seq(|filters|, i requires 0 <= i < |filters| => AppliedFilter(filters[i].0, filters[i].1.range.lo, filters[i].1.range.hi))
  }

  /** How many filters are active. */
  function ActiveCount(filters: Dict<Filter>): nat
    decreases |filters|
  {
    if filters == [] then 0
    else ActiveCount(filters[..|filters| - 1]) + (if filters[|filters| - 1].1.active then 1 else 0)
  }

  /** One entry per material, in dictionary order. */
  function CandidateLines(materials: Dict<Material>): seq<ReportLine>
    decreases |materials|
  {
    if materials == [] then []
    else
      var last := materials[|materials| - 1];
      CandidateLines(materials[..|materials| - 1]) + [Candidate(last.0, last.1.family)]
  }

  function Report(materials: Dict<Material>, filters: Dict<Filter>): seq<ReportLine>
  {
    [Overview(|materials|)] + FilterLines(filters) + [CandidatesHeading] + CandidateLines(materials)
  }

  /** `generate_selection_report`. */
  method GenerateSelectionReport(materials: Dict<Material>, filters: Dict<Filter>) returns (report: seq<ReportLine>)
    ensures report == Report(materials, filters)
  {
    report := [Overview(|materials|)];
    var i := 0;
    while i < |filters|
      invariant 0 <= i <= |filters|
      invariant report == [Overview(|materials|)] + FilterLines(filters[..i])
    {
      assert filters[..i + 1][..i] == filters[..i];
      var filterName, filterConfig := filters[i].0, filters[i].1;
      if filterConfig.active {
        var minVal, maxVal := filterConfig.range.lo, filterConfig.range.hi;
        report := report + [AppliedFilter(filterName, minVal, maxVal)];
      }
      i := i + 1;
    }
    assert filters[..i] == filters;
    report := report + [CandidatesHeading];
    ghost var head := report;
    i := 0;
    while i < |materials|
      invariant 0 <= i <= |materials|
      invariant report == head + CandidateLines(materials[..i])
    {
      assert materials[..i + 1][..i] == materials[..i];
      report := report + [Candidate(materials[i].0, materials[i].1.family)];
      i := i + 1;
    }
    assert materials[..i] == materials;
  }

  /** A filter is listed exactly when it is active, with its own bounds. */
  lemma {:induction false} FilterLinesExact(filters: Dict<Filter>, name: string, lo: real, hi: real)
    ensures AppliedFilter(name, lo, hi) in FilterLines(filters) <==> (name, Filter(true, Range(lo, hi))) in filters
    ensures |FilterLines(filters)| <= |filters|
    ensures forall l | l in FilterLines(filters) :: l.AppliedFilter?
    decreases |filters|
  {
    if filters != [] {
      var n := |filters| - 1;
      FilterLinesExact(filters[..n], name, lo, hi);
      assert filters == filters[..n] + [filters[n]];
    }
  }

  /** The filter lines keep the filters' order and number one per active filter. */
  lemma {:induction false} FilterLinesInOrder(filters: Dict<Filter>)
    ensures SubsequenceOf(FilterLines(filters), AllFilterLines(filters))
    ensures |FilterLines(filters)| == ActiveCount(filters)
    decreases |filters|
  {
    if filters != [] {
      var n := |filters| - 1;
      var a, b := FilterLines(filters), AllFilterLines(filters);
      FilterLinesInOrder(filters[..n]);
      assert b[..n] == AllFilterLines(filters[..n]);
      if filters[n].1.active {
        assert a[..|a| - 1] == FilterLines(filters[..n]);
      } else {
        assert a == FilterLines(filters[..n]);
      }
    }
  }

  /** Every material is listed once, in dictionary order, with its family. */
  lemma {:induction false} CandidateLinesExact(materials: Dict<Material>)
    ensures |CandidateLines(materials)| == |materials|
    ensures forall i | 0 <= i < |materials| :: CandidateLines(materials)[i] == Candidate(materials[i].0, materials[i].1.family)
    decreases |materials|
  {
    if materials != [] {
      CandidateLinesExact(materials[..|materials| - 1]);
    }
  }

  /**
   * The report opens with the number of materials analysed, then the lines
   * of the active filters, then a single candidates heading followed by every
   * material in order.
   */
  lemma ReportLayout(materials: Dict<Material>, filters: Dict<Filter>)
    ensures var report := Report(materials, filters);
      var h := 1 + |FilterLines(filters)|;
      && report[0] == Overview(|materials|)
      && |report| == h + 1 + |materials|
      && report[1..h] == FilterLines(filters)
      && report[h] == CandidatesHeading
      && report[h + 1..] == CandidateLines(materials)
  {
    var fl, cl := FilterLines(filters), CandidateLines(materials);
    var front := [Overview(|materials|)] + fl + [CandidatesHeading];
    assert Report(materials, filters) == front + cl;
    assert front[1..1 + |fl|] == fl;
    CandidateLinesExact(materials);
  }

  /** Between the overview and the heading come only filter lines, one per
      active filter at most. */
  lemma ReportFilterSection(materials: Dict<Material>, filters: Dict<Filter>)
    ensures var report := Report(materials, filters);
      var h := 1 + |FilterLines(filters)|;
      && h <= 1 + |filters|
      && h == 1 + ActiveCount(filters)
      && h < |report|
      && report[h] == CandidatesHeading
      && forall i | 0 < i < h :: report[i].AppliedFilter?
  {
    var fl := FilterLines(filters);
    var front := [Overview(|materials|)] + fl;
    assert Report(materials, filters) == front + [CandidatesHeading] + CandidateLines(materials);
    assert |fl| <= |filters| && forall l | l in fl :: l.AppliedFilter? by {
      FilterLinesExact(filters, "", 0.0, 0.0);
    }
    assert |fl| == ActiveCount(filters) by { FilterLinesInOrder(filters); }
    forall i | 0 < i < 1 + |fl| ensures Report(materials, filters)[i].AppliedFilter? {
      assert Report(materials, filters)[i] == front[i] == fl[i - 1];
    }
  }

  /** After the heading every material is listed once, in order, with its family. */
  lemma ReportCandidateSection(materials: Dict<Material>, filters: Dict<Filter>)
    ensures |Report(materials, filters)| == |FilterLines(filters)| + 2 + |materials|
    ensures forall i | 0 <= i < |materials| ::
      Report(materials, filters)[|FilterLines(filters)| + 2 + i] == Candidate(materials[i].0, materials[i].1.family)
  {
    var cl := CandidateLines(materials);
    var front := [Overview(|materials|)] + FilterLines(filters) + [CandidatesHeading];
    assert Report(materials, filters) == front + cl;
    assert |cl| == |materials| by { CandidateLinesExact(materials); }
    forall i | 0 <= i < |materials|
      ensures Report(materials, filters)[|FilterLines(filters)| + 2 + i] == Candidate(materials[i].0, materials[i].1.family)
    {
      assert cl[i] == Candidate(materials[i].0, materials[i].1.family) by { CandidateLinesExact(materials); }
      assert (front + cl)[|front| + i] == cl[i];
    }
  }
}
