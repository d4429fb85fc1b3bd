/** The row filter of the map builder: inclusive ranges on import value and
    tariff rate, then an optional allow-list of country names. */
module Filter {
  import opened Wrappers
  import opened Seqs
  import opened Rows

  /** The filter settings: two inclusive ranges and the selected countries
      (an empty selection means no restriction). */
  datatype Query = Query(minImports: real, maxImports: real, minTariff: real, maxTariff: real, selected: seq<string>)

  /** `lo <= x <= hi` on a pandas column; every comparison with NaN is false. */
  predicate InRange(x: Option<real>, lo: real, hi: real)
  {
    x.Some? && lo <= x.value && x.value <= hi
  }

  /** The four-way comparison mask. */
  predicate InRanges(q: Query, r: Row)
  {
    InRange(r.imports, q.minImports, q.maxImports) && InRange(r.tariff, q.minTariff, q.maxTariff)
  }

  /** `CTYNAME.isin(selected_countries)`. */
  predicate Selected(q: Query, r: Row)
  {
    r.name in q.selected
  }

  /** The whole condition a row must meet to stay. */
  predicate Keep(q: Query, r: Row)
  {
    InRanges(q, r) && (|q.selected| == 0 || Selected(q, r))
  }

  /** `filtered_df`: the range mask first, then the allow-list when one is given. */
  function FilterRows(rows: seq<Row>, q: Query): seq<Row>
  {
    var inRange := Where(rows, r => InRanges(q, r));
    if |q.selected| > 0 then Where(inRange, r => Selected(q, r)) else inRange
  }

  /** The two steps together keep exactly the rows meeting the whole condition,
      in their original order. */
  lemma FilterIsMask(rows: seq<Row>, q: Query)
    ensures FilterRows(rows, q) == Where(rows, r => Keep(q, r))
  {
    if |q.selected| > 0 {
      WhereWhere(rows, r => InRanges(q, r), r => Selected(q, r), r => Keep(q, r));
    } else {
      WhereWhere(rows, r => InRanges(q, r), r => true, r => Keep(q, r));
      WhereEvery(Where(rows, r => InRanges(q, r)), r => true);
    }
  }

  /** A row survives exactly when both values lie in their inclusive ranges
      and, if countries are selected, its own name is one of them. */
  lemma FilterMembers(rows: seq<Row>, q: Query, r: Row)
    ensures r in FilterRows(rows, q) <==>
      r in rows && r.imports.Some? && q.minImports <= r.imports.value <= q.maxImports
      && r.tariff.Some? && q.minTariff <= r.tariff.value <= q.maxTariff
      && (|q.selected| > 0 ==> r.name in q.selected)
  {
    FilterIsMask(rows, q);
    WhereSpec(rows, x => Keep(q, x));
  }

  /** Every surviving row has both numbers (NaN never passes). */
  lemma FilterHasNumbers(rows: seq<Row>, q: Query)
    ensures forall r :: r in FilterRows(rows, q) ==> r.imports.Some? && r.tariff.Some?
  {
    forall r | r in FilterRows(rows, q) ensures r.imports.Some? && r.tariff.Some? {
      FilterMembers(rows, q, r);
    }
  }

  /** With a non-empty selection, every surviving row's original name is selected. */
  lemma FilterAllowList(rows: seq<Row>, q: Query)
    requires |q.selected| > 0
    ensures forall r :: r in FilterRows(rows, q) ==> r.name in q.selected
  {
    forall r | r in FilterRows(rows, q) ensures r.name in q.selected {
      FilterMembers(rows, q, r);
    }
  }

  /** A range whose minimum exceeds its maximum keeps nothing. */
  lemma FilterEmptyRange(rows: seq<Row>, q: Query)
    requires q.minImports > q.maxImports || q.minTariff > q.maxTariff
    ensures FilterRows(rows, q) == []
  {
    WhereNone(rows, r => InRanges(q, r));
  }

  /** Filtering never reorders: it distributes over concatenation. */
  lemma FilterAppend(a: seq<Row>, b: seq<Row>, q: Query)
    ensures FilterRows(a + b, q) == FilterRows(a, q) + FilterRows(b, q)
  {
    FilterIsMask(a + b, q);
    FilterIsMask(a, q);
    FilterIsMask(b, q);
    WhereAppend(a, b, r => Keep(q, r));
  }

  /** Selecting China and the United States over wide ranges keeps those two
      rows and drops Canada. */
  lemma FilterSelectionExample(china: Row, us: Row, canada: Row)
    requires china.name == "China" && us.name == "United States" && canada.name == "Canada"
    requires china.imports == Some(438.9) && china.tariff == Some(34.0)
    requires us.imports == Some(0.0) && us.tariff == Some(0.0)
    requires canada.imports == Some(412.7) && canada.tariff == Some(25.0)
    ensures FilterRows([china, us, canada], Query(0.0, 1000000.0, 0.0, 100.0, ["China", "United States"])) == [china, us]
  {
    var q := Query(0.0, 1000000.0, 0.0, 100.0, ["China", "United States"]);
    var rows := [china, us, canada];
    assert InRanges(q, china) && InRanges(q, us) && InRanges(q, canada);
    WhereEvery(rows, r => InRanges(q, r));
    assert Selected(q, china) && Selected(q, us);
    assert !Selected(q, canada) by {
      assert canada.name != "China" && canada.name != "United States";
    }
    WhereCons(canada, [], r => Selected(q, r));
    WhereCons(us, [canada], r => Selected(q, r));
    WhereCons(china, [us, canada], r => Selected(q, r));
    assert [canada] + [] == [canada] && [us] + [canada] == [us, canada] && [china] + [us, canada] == rows;
  }
}
