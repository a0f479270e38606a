/**
 * The shared data model of the material catalog: property intervals,
 * materials, insertion-ordered dictionaries, the label -> key property
 * catalog, filter settings and the table rows that the views build.
 */
module Materials {

  datatype Option<T> = None | Some(value: T)

  datatype Result<T, E> = Ok(value: T) | Err(error: E)

  /** A closed property interval, written `[min, max]` in the catalog. */
  datatype Range = Range(lo: real, hi: real)

  /** The mean of the two endpoints (what `np.mean` gives for a `[min, max]` pair). */
  function Midpoint(r: Range): (m: real)
    ensures r.lo <= r.hi ==> r.lo <= m <= r.hi
    ensures m - r.lo == r.hi - m
  {
    (r.lo + r.hi) / 2.0
  }

  /** One catalog record: its family tag, display colour and the properties it has. */
  datatype Material = Material(family: string, color: string, props: map<string, Range>)

  /** A Python dictionary with string keys: its entries in insertion order. */
  type Dict<V> = seq<(string, V)>

  /** No key occurs twice, as in every Python dictionary. */
  predicate IsDict<V>(d: Dict<V>)
  {
    forall i, j | 0 <= i < j < |d| :: d[i].0 != d[j].0
  }

  function Keys<V>(d: Dict<V>): (ks: seq<string>)
    ensures |ks| == |d| && forall i | 0 <= i < |d| :: ks[i] == d[i].0
  {
    seq(|d|, i requires 0 <= i < |d| => d[i].0)
  }

  /** Dictionary lookup: the value of the first entry with key `k`, if any. */
  function Get<V>(d: Dict<V>, k: string): (r: Option<V>)
    ensures r.None? <==> forall i | 0 <= i < |d| :: d[i].0 != k
    ensures r.Some? ==> exists i | 0 <= i < |d| :: d[i] == (k, r.value) && forall j | 0 <= j < i :: d[j].0 != k
  {
    if d == [] then None
    else if d[0].0 == k then Some(d[0].1)
    else
      var r := Get(d[1..], k);
      assert r.Some? ==> exists i | 0 <= i < |d[1..]| :: d[1..][i] == (k, r.value) && forall j | 0 <= j < i :: d[1..][j].0 != k;
      assert r.Some? ==> exists i | 0 <= i < |d| :: d[i] == (k, r.value) && forall j | 0 <= j < i :: d[j].0 != k by {
        if r.Some? {
          var i :| 0 <= i < |d[1..]| && d[1..][i] == (k, r.value) && forall j | 0 <= j < i :: d[1..][j].0 != k;
          assert d[i + 1] == (k, r.value);
          assert forall j | 0 <= j < i + 1 :: d[j].0 != k by {
            forall j | 0 <= j < i + 1 ensures d[j].0 != k {
              if j > 0 { assert d[j] == d[1..][j - 1]; }
            }
          }
        }
      }
      r
  }

  /** In a dictionary, the lookup of a key stored at index i yields the value at i. */
  lemma {:induction false} GetAt<V>(d: Dict<V>, i: nat)
    requires IsDict(d) && i < |d|
    ensures Get(d, d[i].0) == Some(d[i].1)
  {
    var r := Get(d, d[i].0);
    assert r.Some?;
    var k :| 0 <= k < |d| && d[k] == (d[i].0, r.value) && forall j | 0 <= j < k :: d[j].0 != d[i].0;
    assert k == i;
  }

  /** Lookup in a concatenation tries the first part, then the second. */
  lemma {:induction false} GetAppend<V>(a: Dict<V>, b: Dict<V>, k: string)
    ensures Get(a + b, k) == if Get(a, k).Some? then Get(a, k) else Get(b, k)
  {
    if a == [] {
      assert a + b == b;
    } else {
      assert (a + b)[0] == a[0];
      assert (a + b)[1..] == a[1..] + b;
      GetAppend(a[1..], b, k);
    }
  }

  /** The property catalog: display label -> internal property key. */
  type Catalog = Dict<string>

  /** The database object: the material table and the property catalog. */
  datatype MaterialDatabase = MaterialDatabase(materials: Dict<Material>, properties: Catalog)

  /** The eight properties the application knows, in their display order. */
  function PropertyCatalog(): (c: Catalog)
    ensures |c| == 8 && IsDict(c)
  {
    [ ("Módulo de Young (GPa)", "young_modulus"),
      ("Límite Elástico (MPa)", "yield_strength"),
      ("Densidad (kg/m³)", "density"),
      ("Tenacidad a la Fractura (MPa√m)", "fracture_toughness"),
      ("Conductividad Térmica (W/m·K)", "thermal_conductivity"),
      ("Coef. Expansión Térmica (µm/m°C)", "thermal_expansion"),
      ("Temp. Máx. Servicio (°C)", "max_service_temp"),
      ("Precio (€/kg)", "price") ]
  }

  /** No property key is listed under two labels, and the density label maps
      to the density key. */
  lemma PropertyCatalogKeys()
    ensures forall i, j | 0 <= i < j < |PropertyCatalog()| :: PropertyCatalog()[i].1 != PropertyCatalog()[j].1
    ensures Get(PropertyCatalog(), "Densidad (kg/m³)") == Some("density")
  {
    var c := PropertyCatalog();
    assert forall i, j | 0 <= i < j < |c| :: c[i].1 != c[j].1;
    GetAt(c, 2);
  }

  /** No catalog label collides with the name and family columns of a table
      row, and no property key with a record's `family` or `color` field. */
  lemma PropertyCatalogLabels()
    ensures forall j | 0 <= j < |PropertyCatalog()| ::
      && PropertyCatalog()[j].0 != "Material" && PropertyCatalog()[j].0 != "Familia"
      && PropertyCatalog()[j].1 != "family" && PropertyCatalog()[j].1 != "color"
  {
    var c := PropertyCatalog();
    assert forall j | 0 <= j < |c| :: c[j].0 != "Material" && c[j].0 != "Familia" && c[j].1 != "family" && c[j].1 != "color";
  }

  /** One filter setting from the sidebar: whether it is on, and its range. */
  datatype Filter = Filter(active: bool, range: Range)

  /** A table cell. Number formatting is abstracted away: `Summary` stands for
      the "avg (min-max)" text and `NonFinite` for numpy's inf/nan. */
  datatype Cell = Text(s: string) | Num(x: real) | NonFinite | Summary(mean: real, lo: real, hi: real) | NotAvailable

  /** A table row: column name -> cell, in column order. */
  type Row = Dict<Cell>

  /**
   * The `<label><minSuffix>` / `<label><maxSuffix>` column pairs that a
   * row gets for the catalog properties the material has, in catalog order.
   */
  function RangeColumns(catalog: Catalog, props: map<string, Range>, minSuffix: string, maxSuffix: string): Row
    decreases |catalog|
  {
    if catalog == [] then []
    else
      var last := catalog[|catalog| - 1];
      RangeColumns(catalog[..|catalog| - 1], props, minSuffix, maxSuffix)
        + (if last.1 in props
           then [(last.0 + minSuffix, Num(props[last.1].lo)), (last.0 + maxSuffix, Num(props[last.1].hi))]
           else [])
  }

  /** Every catalog property the material has contributes its min and max column. */
  ghost predicate HasRangeColumns(catalog: Catalog, props: map<string, Range>, minSuffix: string, maxSuffix: string, cols: Row)
  {
    forall j | 0 <= j < |catalog| && catalog[j].1 in props ::
      (catalog[j].0 + minSuffix, Num(props[catalog[j].1].lo)) in cols
      && (catalog[j].0 + maxSuffix, Num(props[catalog[j].1].hi)) in cols
  }

  /** Column `c` is the min or the max column of catalog property j of the material. */
  ghost predicate IsRangeColumnOf(catalog: Catalog, props: map<string, Range>, minSuffix: string, maxSuffix: string, c: (string, Cell), j: int)
  {
    && 0 <= j < |catalog| && catalog[j].1 in props
    && (c == (catalog[j].0 + minSuffix, Num(props[catalog[j].1].lo))
        || c == (catalog[j].0 + maxSuffix, Num(props[catalog[j].1].hi)))
  }

  /** Column `c` is the min or the max column of some catalog property the material has. */
  ghost predicate IsRangeColumn(catalog: Catalog, props: map<string, Range>, minSuffix: string, maxSuffix: string, c: (string, Cell))
  {
    exists j :: IsRangeColumnOf(catalog, props, minSuffix, maxSuffix, c, j)
  }

  /** Every column is the min or max column of some catalog property the material has. */
  ghost predicate OnlyRangeColumns(catalog: Catalog, props: map<string, Range>, minSuffix: string, maxSuffix: string, cols: Row)
  {
    forall k | 0 <= k < |cols| :: IsRangeColumn(catalog, props, minSuffix, maxSuffix, cols[k])
  }

  /** Column k comes from some catalog property the material has. */
  lemma {:induction false} RangeColumnSource(catalog: Catalog, props: map<string, Range>, minSuffix: string, maxSuffix: string, k: nat)
    requires k < |RangeColumns(catalog, props, minSuffix, maxSuffix)|
    ensures IsRangeColumn(catalog, props, minSuffix, maxSuffix, RangeColumns(catalog, props, minSuffix, maxSuffix)[k])
    decreases |catalog|
  {
    var n := |catalog| - 1;
    var init, last := catalog[..n], catalog[n];
    var prev := RangeColumns(init, props, minSuffix, maxSuffix);
    var tail: Row := if last.1 in props
      then [(last.0 + minSuffix, Num(props[last.1].lo)), (last.0 + maxSuffix, Num(props[last.1].hi))]
      else [];
    var cols := prev + tail;
    assert cols == RangeColumns(catalog, props, minSuffix, maxSuffix);
    if k < |prev| {
      RangeColumnSource(init, props, minSuffix, maxSuffix, k);
      assert cols[k] == prev[k];
      var j :| IsRangeColumnOf(init, props, minSuffix, maxSuffix, prev[k], j);
      assert init[j] == catalog[j];
      assert IsRangeColumnOf(catalog, props, minSuffix, maxSuffix, cols[k], j);
    } else {
      assert cols[k] == tail[k - |prev|];
      assert IsRangeColumnOf(catalog, props, minSuffix, maxSuffix, cols[k], n);
    }
  }

  /** Column pairs present for every catalog property the material has. */
  lemma {:induction false} RangeColumnsPresent(catalog: Catalog, props: map<string, Range>, minSuffix: string, maxSuffix: string)
    ensures HasRangeColumns(catalog, props, minSuffix, maxSuffix, RangeColumns(catalog, props, minSuffix, maxSuffix))
    decreases |catalog|
  {
    if catalog != [] {
      var n := |catalog| - 1;
      var init, last := catalog[..n], catalog[n];
      RangeColumnsPresent(init, props, minSuffix, maxSuffix);
      var prev := RangeColumns(init, props, minSuffix, maxSuffix);
      var tail: Row := if last.1 in props
        then [(last.0 + minSuffix, Num(props[last.1].lo)), (last.0 + maxSuffix, Num(props[last.1].hi))]
        else [];
      var cols := prev + tail;
      assert cols == RangeColumns(catalog, props, minSuffix, maxSuffix);
      forall j | 0 <= j < |catalog| && catalog[j].1 in props
        ensures (catalog[j].0 + minSuffix, Num(props[catalog[j].1].lo)) in cols
        ensures (catalog[j].0 + maxSuffix, Num(props[catalog[j].1].hi)) in cols
      {
        if j < n {
          assert init[j] == catalog[j];
        } else {
          assert tail[0] in cols && tail[1] in cols;
        }
      }
    }
  }

  /**
   * A row gets a min and a max column, holding the interval endpoints, for
   * every catalog property the material has, and no other columns.
   */
  lemma RangeColumnsExact(catalog: Catalog, props: map<string, Range>, minSuffix: string, maxSuffix: string)
    ensures HasRangeColumns(catalog, props, minSuffix, maxSuffix, RangeColumns(catalog, props, minSuffix, maxSuffix))
    ensures OnlyRangeColumns(catalog, props, minSuffix, maxSuffix, RangeColumns(catalog, props, minSuffix, maxSuffix))
  {
    RangeColumnsPresent(catalog, props, minSuffix, maxSuffix);
    var cols := RangeColumns(catalog, props, minSuffix, maxSuffix);
    forall k | 0 <= k < |cols|
      ensures IsRangeColumn(catalog, props, minSuffix, maxSuffix, cols[k])
    {
      RangeColumnSource(catalog, props, minSuffix, maxSuffix, k);
    }
  }

  /** `a` is `b` with some entries left out, the rest kept in order. */
  ghost predicate SubsequenceOf<T>(a: seq<T>, b: seq<T>)
    decreases |b|
  {
    if a == [] then true
    else if b == [] then false
    else (a[|a| - 1] == b[|b| - 1] && SubsequenceOf(a[..|a| - 1], b[..|b| - 1]))
         || SubsequenceOf(a, b[..|b| - 1])
  }

  /** Every element of a subsequence is an element of the whole. */
  lemma {:induction false} SubsequenceMembers<T>(a: seq<T>, b: seq<T>)
    requires SubsequenceOf(a, b)
    ensures forall x | x in a :: x in b
    decreases |b|
  {
    if a != [] {
      if a[|a| - 1] == b[|b| - 1] && SubsequenceOf(a[..|a| - 1], b[..|b| - 1]) {
        SubsequenceMembers(a[..|a| - 1], b[..|b| - 1]);
        forall x | x in a ensures x in b {
          if x != a[|a| - 1] {
            assert a == a[..|a| - 1] + [a[|a| - 1]];
            assert x in a[..|a| - 1];
          }
        }
      } else {
        SubsequenceMembers(a, b[..|b| - 1]);
      }
    }
  }

  /** A subsequence of a dictionary is a dictionary (sub-dictionary). */
  lemma {:induction false} SubsequenceOfDict<V>(a: Dict<V>, b: Dict<V>)
    requires SubsequenceOf(a, b) && IsDict(b)
    ensures IsDict(a)
    decreases |b|
  {
    if a != [] {
      var a', b' := a[..|a| - 1], b[..|b| - 1];
      assert IsDict(b');
      if a[|a| - 1] == b[|b| - 1] && SubsequenceOf(a', b') {
        SubsequenceOfDict(a', b');
        SubsequenceMembers(a', b');
        forall i | 0 <= i < |a'| ensures a'[i].0 != a[|a| - 1].0 {
          assert a'[i] in b';
          var k :| 0 <= k < |b'| && b'[k] == a'[i];
          assert b[k] == b'[k];
        }
        assert forall i, j | 0 <= i < j < |a| :: a[i].0 != a[j].0 by {
          forall i, j | 0 <= i < j < |a| ensures a[i].0 != a[j].0 {
            if j < |a| - 1 { assert a[i] == a'[i] && a[j] == a'[j]; }
            else { assert a[i] == a'[i]; }
          }
        }
      } else {
        SubsequenceOfDict(a, b');
      }
    }
  }
}
