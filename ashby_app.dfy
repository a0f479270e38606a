/**
 * The selection logic of the main application: the range-overlap filter
 * (`MaterialFilter.apply_filters`), the choice of materials that the Ashby
 * chart draws (`AshbyChartGenerator.create_ashby_chart`) and the flat rows of
 * `MaterialDatabase.get_dataframe`.
 */
module AshbyApp {
  import opened Materials

  // ---------------------------------------------------------------------------
  // Range-overlap filter
  // ---------------------------------------------------------------------------

  /** The filter's overlap test: the intervals are disjoint exactly when one lies
      strictly beyond the other, so touching endpoints overlap. */
  predicate Overlaps(material: Range, filter: Range)
  {
    !(material.hi < filter.lo || material.lo > filter.hi)
  }

  /** The value `x` lies in the closed interval `r`. */
  predicate Within(x: real, r: Range)
  {
    r.lo <= x <= r.hi
  }

  /** For well-formed intervals the test holds exactly when the intervals share
      a point, endpoints included. */
  lemma OverlapsIffSharedPoint(material: Range, filter: Range)
    requires material.lo <= material.hi && filter.lo <= filter.hi
    ensures Overlaps(material, filter) <==> exists x: real :: Within(x, material) && Within(x, filter)
  {
    if Overlaps(material, filter) {
      var x := if material.lo < filter.lo then filter.lo else material.lo;
      assert Within(x, material) && Within(x, filter);
    }
  }

  /** How the scan of the filters ends for one material: it is kept, it is
      dropped (the scan broke out), or a filter label is missing from the
      catalog (the lookup raises KeyError). */
  datatype Verdict = Keep | Drop | UnknownLabel(missing: string)

  /** The effect of one filter entry on a material that the earlier filters kept. */
  function Step(catalog: Catalog, m: Material, entry: (string, Filter)): Verdict
  {
    if !entry.1.active then Keep
    else match Get(catalog, entry.0)
      case None => UnknownLabel(entry.0)
      case Some(key) =>
        if key in m.props && !Overlaps(m.props[key], entry.1.range) then Drop else Keep
  }

  /** The verdict of scanning `filters` in order, stopping at the first filter
      that drops the material or fails its lookup. */
  function Screen(catalog: Catalog, m: Material, filters: Dict<Filter>): Verdict
    decreases |filters|
  {
    if filters == [] then Keep
    else
      var v := Screen(catalog, m, filters[..|filters| - 1]);
      if v.Keep? then Step(catalog, m, filters[|filters| - 1]) else v
  }

  /** Filter entry `e` constrains material `m`: it is active, its label is in
      the catalog and the material has the property. */
  predicate Applies(catalog: Catalog, m: Material, e: (string, Filter))
  {
    e.1.active && Get(catalog, e.0).Some? && Get(catalog, e.0).value in m.props
  }

  /** The selection rule: every filter that constrains the material overlaps it. */
  predicate Admits(catalog: Catalog, m: Material, filters: Dict<Filter>)
  {
    forall i | 0 <= i < |filters| ::
      Applies(catalog, m, filters[i]) ==> Overlaps(m.props[Get(catalog, filters[i].0).value], filters[i].1.range)
  }

  /** Every active filter names a catalog property. */
  predicate LabelsKnown(catalog: Catalog, filters: Dict<Filter>)
  {
    forall i | 0 <= i < |filters| :: filters[i].1.active ==> Get(catalog, filters[i].0).Some?
  }

  /** The materials the rule admits, in database order. */
  function Selected(catalog: Catalog, db: Dict<Material>, filters: Dict<Filter>): Dict<Material>
    decreases |db|
  {
    if db == [] then []
    else
      var last := db[|db| - 1];
      Selected(catalog, db[..|db| - 1], filters) + (if Admits(catalog, last.1, filters) then [last] else [])
  }

  /** What `apply_filters` returns or raises: the kept entries in database
      order, or the first unknown label the scan reaches. */
  function FilterResult(catalog: Catalog, db: Dict<Material>, filters: Dict<Filter>): Result<Dict<Material>, string>
    decreases |db|
  {
    if db == [] then Ok([])
    else
      match FilterResult(catalog, db[..|db| - 1], filters)
      case Err(propLabel) => Err(propLabel)
      case Ok(kept) =>
        var last := db[|db| - 1];
        match Screen(catalog, last.1, filters)
        case UnknownLabel(propLabel) => Err(propLabel)
        case Drop => Ok(kept)
        case Keep => Ok(kept + [last])
  }

  /** Once the scan has stopped, later filters are never looked at. */
  lemma {:induction false} ScreenStops(catalog: Catalog, m: Material, filters: Dict<Filter>, j: nat)
    requires j <= |filters| && !Screen(catalog, m, filters[..j]).Keep?
    ensures Screen(catalog, m, filters) == Screen(catalog, m, filters[..j])
    decreases |filters|
  {
    if j < |filters| {
      var n := |filters| - 1;
      assert filters[..n][..j] == filters[..j];
      ScreenStops(catalog, m, filters[..n], j);
    } else {
      assert filters[..j] == filters;
    }
  }

  /** Once an error is raised for a prefix of the database, it is the result. */
  lemma {:induction false} FilterErrorStops(catalog: Catalog, db: Dict<Material>, filters: Dict<Filter>, i: nat)
    requires i <= |db| && FilterResult(catalog, db[..i], filters).Err?
    ensures FilterResult(catalog, db, filters) == FilterResult(catalog, db[..i], filters)
    decreases |db|
  {
    if i < |db| {
      var n := |db| - 1;
      assert db[..n][..i] == db[..i];
      FilterErrorStops(catalog, db[..n], filters, i);
    } else {
      assert db[..i] == db;
    }
  }

  /**
   * `MaterialFilter.apply_filters`: a material is kept unless some active
   * filter on a property it has is disjoint from its interval; the scan of
   * the filters breaks at the first such filter; an active filter whose label
   * is not in the catalog raises.
   */
  method ApplyFilters(database: MaterialDatabase, filters: Dict<Filter>) returns (r: Result<Dict<Material>, string>)
    ensures r == FilterResult(database.properties, database.materials, filters)
  {
    var catalog, db := database.properties, database.materials;
    var filtered: Dict<Material> := [];
    var i := 0;
    while i < |db|
      invariant 0 <= i <= |db|
      invariant FilterResult(catalog, db[..i], filters) == Ok(filtered)
    {
      var name, m := db[i].0, db[i].1;
      var verdict := ScreenMaterial(catalog, m, filters);
      assert db[..i + 1][..i] == db[..i];
      if verdict.UnknownLabel? {
        assert FilterResult(catalog, db, filters) == Err(verdict.missing) by {
          FilterErrorStops(catalog, db, filters, i + 1);
        }
        return Err(verdict.missing);
      }
      if verdict == Keep {
        filtered := filtered + [(name, m)];
      }
      i := i + 1;
    }
    assert db[..i] == db;
    return Ok(filtered);
  }

  /** The inner loop of `apply_filters` over the filters, for one material:
      `continue` past inactive filters, raise on an unknown label, `break` on
      the first interval that misses. */
  method ScreenMaterial(catalog: Catalog, m: Material, filters: Dict<Filter>) returns (verdict: Verdict)
    ensures verdict == Screen(catalog, m, filters)
  {
    var j := 0;
    while j < |filters|
      invariant 0 <= j <= |filters|
      invariant Screen(catalog, m, filters[..j]) == Keep
    {
      assert filters[..j + 1][..j] == filters[..j];
      var propLabel, config := filters[j].0, filters[j].1;
      if !config.active {
        j := j + 1;
        continue;
      }
      var key := Get(catalog, propLabel);
      if key.None? {
        ScreenStops(catalog, m, filters, j + 1);
        return UnknownLabel(propLabel);
      }
      if key.value in m.props {
        var materialRange, filterRange := m.props[key.value], config.range;
        if materialRange.hi < filterRange.lo || materialRange.lo > filterRange.hi {
          ScreenStops(catalog, m, filters, j + 1);
          return Drop;
        }
      }
      j := j + 1;
    }
    assert filters[..j] == filters;
    return Keep;
  }


  /** Where the scan does not raise, it keeps exactly the materials the rule admits. */
  lemma {:induction false} ScreenMeaning(catalog: Catalog, m: Material, filters: Dict<Filter>)
    ensures !Screen(catalog, m, filters).UnknownLabel? ==>
      (Screen(catalog, m, filters) == Keep <==> Admits(catalog, m, filters))
    decreases |filters|
  {
    if filters != [] {
      var n := |filters| - 1;
      var init := filters[..n];
      ScreenMeaning(catalog, m, init);
      assert forall i | 0 <= i < n :: init[i] == filters[i];
      if Screen(catalog, m, init) == Drop {
        var i :| 0 <= i < n && Applies(catalog, m, init[i])
          && !Overlaps(m.props[Get(catalog, init[i].0).value], init[i].1.range);
        assert filters[i] == init[i];
      }
    }
  }

  /** The scan of `m` reaches filter j with the material still kept, and that
      filter is active with a label missing from the catalog. */
  predicate RaisesAt(catalog: Catalog, m: Material, filters: Dict<Filter>, j: int)
  {
    && 0 <= j < |filters|
    && filters[j].1.active && Get(catalog, filters[j].0).None?
    && Screen(catalog, m, filters[..j]) == Keep
  }

  /** The scan raises exactly when it reaches an active filter whose label is
      not in the catalog, every earlier filter having kept the material. */
  lemma {:induction false} ScreenRaisesIff(catalog: Catalog, m: Material, filters: Dict<Filter>)
    ensures Screen(catalog, m, filters).UnknownLabel? <==> exists j :: RaisesAt(catalog, m, filters, j)
    decreases |filters|
  {
    if filters != [] {
      var n := |filters| - 1;
      var init := filters[..n];
      assert Screen(catalog, m, init).UnknownLabel? <==> exists j :: RaisesAt(catalog, m, init, j) by {
        ScreenRaisesIff(catalog, m, init);
      }
      if exists j :: RaisesAt(catalog, m, filters, j) {
        var j :| RaisesAt(catalog, m, filters, j);
        assert filters[..j + 1][..j] == filters[..j];
        ScreenStops(catalog, m, filters, j + 1);
      }
      if Screen(catalog, m, filters).UnknownLabel? {
        if Screen(catalog, m, init).UnknownLabel? {
          var j :| RaisesAt(catalog, m, init, j);
          assert init[..j] == filters[..j] && init[j] == filters[j];
          assert RaisesAt(catalog, m, filters, j);
        } else {
          assert RaisesAt(catalog, m, filters, n);
        }
      }
    }
  }

  /** With every active label in the catalog, the scan never raises. */
  lemma KnownLabelsNeverRaise(catalog: Catalog, m: Material, filters: Dict<Filter>)
    requires LabelsKnown(catalog, filters)
    ensures Screen(catalog, m, filters) == (if Admits(catalog, m, filters) then Keep else Drop)
  {
    ScreenRaisesIff(catalog, m, filters);
    ScreenMeaning(catalog, m, filters);
  }

  /**
   * The filter's outcome: it raises exactly when the scan of some material
   * raises, and otherwise returns exactly the admitted materials.
   */
  lemma {:induction false} FilterResultMeaning(catalog: Catalog, db: Dict<Material>, filters: Dict<Filter>)
    ensures FilterResult(catalog, db, filters).Err? <==>
      exists i | 0 <= i < |db| :: Screen(catalog, db[i].1, filters).UnknownLabel?
    ensures FilterResult(catalog, db, filters).Ok? ==>
      FilterResult(catalog, db, filters).value == Selected(catalog, db, filters)
    decreases |db|
  {
    if db != [] {
      var n := |db| - 1;
      var init := db[..n];
      FilterResultMeaning(catalog, init, filters);
      ScreenMeaning(catalog, db[n].1, filters);
      assert forall i | 0 <= i < n :: init[i] == db[i];
    }
  }

  /** When every active filter names a catalog property, the filter returns the
      admitted materials. */
  lemma FilterWithKnownLabels(catalog: Catalog, db: Dict<Material>, filters: Dict<Filter>)
    requires LabelsKnown(catalog, filters)
    ensures FilterResult(catalog, db, filters) == Ok(Selected(catalog, db, filters))
  {
    FilterResultMeaning(catalog, db, filters);
    forall i | 0 <= i < |db| ensures !Screen(catalog, db[i].1, filters).UnknownLabel? {
      KnownLabelsNeverRaise(catalog, db[i].1, filters);
    }
  }

  /** An active filter with an unknown label, preceded only by inactive ones,
      makes the filter raise on any non-empty database. */
  lemma UnknownLabelRaises(catalog: Catalog, db: Dict<Material>, filters: Dict<Filter>, j: nat)
    requires |db| > 0 && j < |filters|
    requires filters[j].1.active && Get(catalog, filters[j].0).None?
    requires forall k | 0 <= k < j :: !filters[k].1.active
    ensures FilterResult(catalog, db, filters).Err?
  {
    var m := db[0].1;
    assert Screen(catalog, m, filters[..j]) == Keep by {
      NoActiveFilterKeeps(catalog, m, filters[..j]);
    }
    assert RaisesAt(catalog, m, filters, j);
    ScreenRaisesIff(catalog, m, filters);
    assert Screen(catalog, db[0].1, filters).UnknownLabel?;
    FilterResultMeaning(catalog, db, filters);
  }

  /** A scan over inactive filters only keeps every material. */
  lemma {:induction false} NoActiveFilterKeeps(catalog: Catalog, m: Material, filters: Dict<Filter>)
    requires forall k | 0 <= k < |filters| :: !filters[k].1.active
    ensures Screen(catalog, m, filters) == Keep
    decreases |filters|
  {
    if filters != [] {
      var n := |filters| - 1;
      NoActiveFilterKeeps(catalog, m, filters[..n]);
    }
  }

  /** With no active filter the whole database comes back, in order, with every
      record unchanged. */
  lemma {:induction false} NoActiveFilterReturnsAll(catalog: Catalog, db: Dict<Material>, filters: Dict<Filter>)
    requires forall k | 0 <= k < |filters| :: !filters[k].1.active
    ensures FilterResult(catalog, db, filters) == Ok(db)
    decreases |db|
  {
    if db != [] {
      var n := |db| - 1;
      var last := db[n];
      assert FilterResult(catalog, db[..n], filters) == Ok(db[..n]) by {
        NoActiveFilterReturnsAll(catalog, db[..n], filters);
      }
      assert Screen(catalog, last.1, filters) == Keep by {
        NoActiveFilterKeeps(catalog, last.1, filters);
      }
      assert db[..n] + [last] == db;
    }
  }

  /** Inserting a filter entry that does not drop the material and cannot raise
      leaves the scan's verdict unchanged. */
  lemma {:induction false} ScreenIgnoresNeutral(catalog: Catalog, m: Material, a: Dict<Filter>, e: (string, Filter), b: Dict<Filter>)
    requires Step(catalog, m, e) == Keep
    ensures Screen(catalog, m, a + [e] + b) == Screen(catalog, m, a + b)
    decreases |b|
  {
    if b == [] {
      assert a + [e] + b == a + [e];
      assert (a + [e])[..|a|] == a;
      assert a + b == a;
    } else {
      var n := |b| - 1;
      ScreenIgnoresNeutral(catalog, m, a, e, b[..n]);
      assert (a + [e] + b)[..|a + [e] + b| - 1] == a + [e] + b[..n];
      assert (a + b)[..|a + b| - 1] == a + b[..n];
    }
  }

  /** A filter on a property the material lacks never excludes it (nor raises). */
  lemma MissingPropertyNeverExcludes(catalog: Catalog, m: Material, a: Dict<Filter>, propLabel: string, f: Filter, b: Dict<Filter>)
    requires Get(catalog, propLabel).Some? && Get(catalog, propLabel).value !in m.props
    ensures Screen(catalog, m, a + [(propLabel, f)] + b) == Screen(catalog, m, a + b)
  {
    ScreenIgnoresNeutral(catalog, m, a, (propLabel, f), b);
  }

  /** An inactive filter has no effect on the result, whatever its label and range. */
  lemma {:induction false} InactiveFilterIgnored(catalog: Catalog, db: Dict<Material>, a: Dict<Filter>, propLabel: string, f: Filter, b: Dict<Filter>)
    requires !f.active
    ensures FilterResult(catalog, db, a + [(propLabel, f)] + b) == FilterResult(catalog, db, a + b)
    decreases |db|
  {
    if db != [] {
      var n := |db| - 1;
      InactiveFilterIgnored(catalog, db[..n], a, propLabel, f, b);
      ScreenIgnoresNeutral(catalog, db[n].1, a, (propLabel, f), b);
    }
  }

  /** The admitted materials form a sub-dictionary of the database: nothing is
      added, the order is kept and each name maps to its own record. */
  lemma {:induction false} SelectedIsSubdictionary(catalog: Catalog, db: Dict<Material>, filters: Dict<Filter>)
    ensures SubsequenceOf(Selected(catalog, db, filters), db)
    ensures IsDict(db) ==> IsDict(Selected(catalog, db, filters))
    decreases |db|
  {
    if db != [] {
      var n := |db| - 1;
      var s := Selected(catalog, db, filters);
      var s' := Selected(catalog, db[..n], filters);
      SelectedIsSubdictionary(catalog, db[..n], filters);
      if Admits(catalog, db[n].1, filters) {
        assert s[..|s| - 1] == s' && s[|s| - 1] == db[n];
      } else {
        assert s == s';
        SubsequenceDropLast(s', db);
      }
      if IsDict(db) {
        SubsequenceOfDict(s, db);
      }
    }
  }

  /** Dropping the last element of the whole keeps a subsequence of the prefix. */
  lemma SubsequenceDropLast<T>(a: seq<T>, b: seq<T>)
    requires b != [] && SubsequenceOf(a, b[..|b| - 1])
    ensures SubsequenceOf(a, b)
  {
  }

  // ---------------------------------------------------------------------------
  // Materials drawn on the Ashby chart
  // ---------------------------------------------------------------------------

  /** One envelope trace: the material and the two intervals its envelope spans. */
  datatype Trace = Trace(name: string, family: string, color: string, x: Range, y: Range)

  /** The traces for the entries having both axis properties, in dictionary order. */
  function Traces(source: Dict<Material>, xKey: string, yKey: string): seq<Trace>
    decreases |source|
  {
    if source == [] then []
    else
      var last := source[|source| - 1];
      Traces(source[..|source| - 1], xKey, yKey)
        + (if xKey in last.1.props && yKey in last.1.props
           then [Trace(last.0, last.1.family, last.1.color, last.1.props[xKey], last.1.props[yKey])]
           else [])
  }

  /** The traces `create_ashby_chart` adds: `None` stands for the whole database,
      and an unknown axis label raises before anything is drawn. */
  function ChartTraces(database: MaterialDatabase, xLabel: string, yLabel: string, filtered: Option<Dict<Material>>): Result<seq<Trace>, string>
  {
    var source := if filtered.None? then database.materials else filtered.value;
    match Get(database.properties, xLabel)
    case None => Err(xLabel)
    case Some(xKey) =>
      match Get(database.properties, yLabel)
      case None => Err(yLabel)
      case Some(yKey) => Ok(Traces(source, xKey, yKey))
  }

  /** `AshbyChartGenerator.create_ashby_chart`, up to the envelope geometry of
      each trace. */
  method CreateAshbyChart(database: MaterialDatabase, xLabel: string, yLabel: string, filtered: Option<Dict<Material>>)
    returns (r: Result<seq<Trace>, string>)
    ensures r == ChartTraces(database, xLabel, yLabel, filtered)
  {
    var materialsToPlot := if filtered.None? then database.materials else filtered.value;
    var xKey := Get(database.properties, xLabel);
    if xKey.None? { return Err(xLabel); }
    var yKey := Get(database.properties, yLabel);
    if yKey.None? { return Err(yLabel); }
    var traces: seq<Trace> := [];
    var i := 0;
    while i < |materialsToPlot|
      invariant 0 <= i <= |materialsToPlot|
      invariant traces == Traces(materialsToPlot[..i], xKey.value, yKey.value)
    {
      var name, data := materialsToPlot[i].0, materialsToPlot[i].1;
      assert materialsToPlot[..i + 1][..i] == materialsToPlot[..i];
      if xKey.value in data.props && yKey.value in data.props {
        traces := traces + [Trace(name, data.family, data.color, data.props[xKey.value], data.props[yKey.value])];
      }
      i := i + 1;
    }
    assert materialsToPlot[..i] == materialsToPlot;
    return Ok(traces);
  }

  /** Trace `t` is drawn for an entry of `source` that has both axis properties. */
  ghost predicate TraceOf(source: Dict<Material>, xKey: string, yKey: string, t: Trace)
  {
    exists i | 0 <= i < |source| ::
      && xKey in source[i].1.props && yKey in source[i].1.props
      && t == Trace(source[i].0, source[i].1.family, source[i].1.color, source[i].1.props[xKey], source[i].1.props[yKey])
  }

  /** How many materials have both axis properties. */
  function WithBothKeys(source: Dict<Material>, xKey: string, yKey: string): nat
    decreases |source|
  {
    if source == [] then 0
    else
      var last := source[|source| - 1];
      WithBothKeys(source[..|source| - 1], xKey, yKey) + (if xKey in last.1.props && yKey in last.1.props then 1 else 0)
  }

  /** Traces follow the dictionary: those of a concatenation are the first part's, then the second's. */
  lemma {:induction false} TracesAppend(a: Dict<Material>, b: Dict<Material>, xKey: string, yKey: string)
    ensures Traces(a + b, xKey, yKey) == Traces(a, xKey, yKey) + Traces(b, xKey, yKey)
    decreases |b|
  {
    if b == [] {
      assert a + b == a;
    } else {
      var n := |b| - 1;
      assert Traces(a + b[..n], xKey, yKey) == Traces(a, xKey, yKey) + Traces(b[..n], xKey, yKey) by {
        TracesAppend(a, b[..n], xKey, yKey);
      }
      assert (a + b)[..|a + b| - 1] == a + b[..n];
      assert (a + b)[|a + b| - 1] == b[n];
    }
  }

  /** There is one trace for every material having both axis properties. */
  lemma {:induction false} TracesCount(source: Dict<Material>, xKey: string, yKey: string)
    ensures |Traces(source, xKey, yKey)| == WithBothKeys(source, xKey, yKey)
    decreases |source|
  {
    if source != [] {
      TracesCount(source[..|source| - 1], xKey, yKey);
    }
  }

  /** A single material gives its trace when it has both axis properties, and nothing otherwise. */
  lemma TracesOfOne(m: (string, Material), xKey: string, yKey: string)
    ensures Traces([m], xKey, yKey)
      == if xKey in m.1.props && yKey in m.1.props then [Trace(m.0, m.1.family, m.1.color, m.1.props[xKey], m.1.props[yKey])] else []
  {
    assert [m][..0] == [];
  }

  /** Exactly the entries having both axis properties are drawn, each with its
      own intervals and colour. */
  lemma {:induction false} TracesExact(source: Dict<Material>, xKey: string, yKey: string)
    ensures forall t | t in Traces(source, xKey, yKey) :: TraceOf(source, xKey, yKey, t)
    ensures forall i | 0 <= i < |source| && xKey in source[i].1.props && yKey in source[i].1.props ::
      Trace(source[i].0, source[i].1.family, source[i].1.color, source[i].1.props[xKey], source[i].1.props[yKey])
        in Traces(source, xKey, yKey)
    ensures |Traces(source, xKey, yKey)| <= |source|
    decreases |source|
  {
    if source != [] {
      var n := |source| - 1;
      var init := source[..n];
      TracesExact(init, xKey, yKey);
      assert forall i | 0 <= i < n :: init[i] == source[i];
      forall t | t in Traces(source, xKey, yKey) ensures TraceOf(source, xKey, yKey, t) {
        if t in Traces(init, xKey, yKey) {
          assert TraceOf(init, xKey, yKey, t);
          var i :| 0 <= i < |init| && xKey in init[i].1.props && yKey in init[i].1.props
            && t == Trace(init[i].0, init[i].1.family, init[i].1.color, init[i].1.props[xKey], init[i].1.props[yKey]);
          assert source[i] == init[i];
        } else {
          assert xKey in source[n].1.props && yKey in source[n].1.props;
        }
      }
    }
  }

  /** `None` draws the whole database, an empty dictionary draws nothing. */
  lemma ChartSelection(database: MaterialDatabase, xLabel: string, yLabel: string)
    requires Get(database.properties, xLabel).Some? && Get(database.properties, yLabel).Some?
    ensures ChartTraces(database, xLabel, yLabel, None)
      == Ok(Traces(database.materials, Get(database.properties, xLabel).value, Get(database.properties, yLabel).value))
    ensures ChartTraces(database, xLabel, yLabel, Some([])) == Ok([])
  {
  }

  // ---------------------------------------------------------------------------
  // get_dataframe
  // ---------------------------------------------------------------------------

  /** The dataframe row of one material: its name, family and colour, then the
      `<label>_min` / `<label>_max` columns of the properties it has. */
  function DataFrameRow(catalog: Catalog, name: string, m: Material): Row
  {
    [("Material", Text(name)), ("Familia", Text(m.family)), ("Color", Text(m.color))]
      + RangeColumns(catalog, m.props, "_min", "_max")
  }

  /** `MaterialDatabase.get_dataframe`: one row per material, in database order. */
  method GetDataFrame(database: MaterialDatabase) returns (rows: seq<Row>)
    ensures |rows| == |database.materials|
    ensures forall i | 0 <= i < |rows| ::
      rows[i] == DataFrameRow(database.properties, database.materials[i].0, database.materials[i].1)
  {
    var catalog := database.properties;
    rows := [];
    var i := 0;
    while i < |database.materials|
      invariant 0 <= i <= |database.materials|
      invariant |rows| == i
      invariant forall k | 0 <= k < i ::
        rows[k] == DataFrameRow(catalog, database.materials[k].0, database.materials[k].1)
    {
      var material, props := database.materials[i].0, database.materials[i].1;
      var row: Row := [("Material", Text(material)), ("Familia", Text(props.family)), ("Color", Text(props.color))];
      var j := 0;
      while j < |catalog|
        invariant 0 <= j <= |catalog|
        invariant row == [("Material", Text(material)), ("Familia", Text(props.family)), ("Color", Text(props.color))]
          + RangeColumns(catalog[..j], props.props, "_min", "_max")
      {
        var propName, propKey := catalog[j].0, catalog[j].1;
        assert catalog[..j + 1][..j] == catalog[..j];
        if propKey in props.props {
          row := row + [(propName + "_min", Num(props.props[propKey].lo)), (propName + "_max", Num(props.props[propKey].hi))];
        }
        j := j + 1;
      }
      assert catalog[..j] == catalog;
      rows := rows + [row];
      i := i + 1;
    }
  }

  /** A dataframe row has `_min`/`_max` columns equal to the interval endpoints
      for exactly the catalog properties the material has. */
  lemma DataFrameRowColumns(catalog: Catalog, name: string, m: Material)
    ensures DataFrameRow(catalog, name, m)[..3]
      == [("Material", Text(name)), ("Familia", Text(m.family)), ("Color", Text(m.color))]
    ensures HasRangeColumns(catalog, m.props, "_min", "_max", DataFrameRow(catalog, name, m)[3..])
    ensures OnlyRangeColumns(catalog, m.props, "_min", "_max", DataFrameRow(catalog, name, m)[3..])
  {
    RangeColumnsExact(catalog, m.props, "_min", "_max");
    assert DataFrameRow(catalog, name, m)[3..] == RangeColumns(catalog, m.props, "_min", "_max");
  }
}
