/** The geometry mapper: from one filtered row to one map point (or none),
    with the piecewise bubble size, and the six parallel lists a group of
    points is handed to the chart as. */
module Geometry {
  import opened Wrappers
  import opened Seqs
  import opened Registry
  import opened Rows

  /** What `np.log2` must satisfy for the size rule to behave: monotone on the
      positive reals, and 8 * log2(100) at least 15 (it is about 53.15). The
      logarithm itself is a parameter: its floating-point value is not modelled. */
  ghost predicate LogLike(log2: real -> real)
  {
    (forall x, y :: 0.0 < x <= y ==> log2(x) <= log2(y)) && 8.0 * log2(100.0) >= 15.0
  }

  /** `bubble_size`: 5 below 1, 10 on [1, 10), 20 on [10, 100), and
      5 + 8 * log2(imports) from 100 up. */
  function BubbleSize(imports: real, log2: real -> real): real
  {
    if imports < 1.0 then 5.0
    else if imports < 10.0 then 10.0
    else if imports < 100.0 then 20.0
    else 5.0 + 8.0 * log2(imports)
  }

  /** A bubble is never smaller than 5, and from 100 up never smaller than the
      20 of the step below. */
  lemma BubbleSizeAtLeastFive(imports: real, log2: real -> real)
    requires LogLike(log2)
    ensures BubbleSize(imports, log2) >= 5.0
    ensures imports >= 100.0 ==> BubbleSize(imports, log2) >= 20.0
  {
    if imports >= 100.0 {
      assert log2(100.0) <= log2(imports);
    }
  }

  /** A larger import value never gets a smaller bubble. */
  lemma BubbleSizeMonotone(x: real, y: real, log2: real -> real)
    requires LogLike(log2)
    requires x <= y
    ensures BubbleSize(x, log2) <= BubbleSize(y, log2)
  {
    if x >= 100.0 {
      assert log2(x) <= log2(y);
    } else if y >= 100.0 {
      BubbleSizeAtLeastFive(y, log2);
    }
  }

  /** The hover text's content: country, imports, tariff rate and "Yes"/"No"
      for the swing flag. Its number formatting is not modelled. */
  datatype Hover = Hover(name: string, imports: real, tariff: real, swing: bool)

  /** One point of the map, with the group it belongs to. */
  datatype Point = Point(lon: real, lat: real, size: real, tariff: real, name: string, hover: Hover, swing: bool)

  /** Rows that reached the loop through the filter have both numbers. */
  predicate HasNumbers(r: Row)
  {
    r.imports.Some? && r.tariff.Some?
  }

  /** One iteration of the loop: the point a filtered row becomes, or `None`
      when its name resolves to no entry of the table. */
  function MapRow(t: Table, r: Row, log2: real -> real): (p: Option<Point>)
    requires HasNumbers(r)
    ensures p.None? <==> Resolve(t, r.name).None?
    ensures p.Some? ==> var i := Resolve(t, r.name).value;
      && p.value.name == t[i].0 && p.value.lat == t[i].1.lat && p.value.lon == t[i].1.lon
      && p.value.size == BubbleSize(r.imports.value, log2) && p.value.tariff == r.tariff.value
      && p.value.swing == IsSwing(r.swing)
      && p.value.hover == Hover(t[i].0, r.imports.value, r.tariff.value, IsSwing(r.swing))
  {
    match Resolve(t, r.name)
    case None => None
    case Some(i) =>
      var name := t[i].0;
      var swing := IsSwing(r.swing);
      var imports, tariff := r.imports.value, r.tariff.value;
      Some(Point(t[i].1.lon, t[i].1.lat, BubbleSize(imports, log2), tariff, name,
                 Hover(name, imports, tariff, swing), swing))
  }

  /** The points of a sequence of filtered rows, in row order, unresolved rows left out. */
  function MapRows(t: Table, rows: seq<Row>, log2: real -> real): seq<Point>
    requires forall r :: r in rows ==> HasNumbers(r)
  {
    if rows == [] then []
    else
      (match MapRow(t, rows[0], log2) case None => [] case Some(p) => [p])
      + MapRows(t, rows[1..], log2)
  }

  /** A row that resolves to nothing. */
  predicate Unresolved(t: Table, r: Row)
  {
    Resolve(t, r.name).None?
  }

  /** Mapping keeps the row order: it distributes over concatenation. */
  lemma {:induction false} MapRowsAppend(t: Table, a: seq<Row>, b: seq<Row>, log2: real -> real)
    requires forall r :: r in a ==> HasNumbers(r)
    requires forall r :: r in b ==> HasNumbers(r)
    ensures MapRows(t, a + b, log2) == MapRows(t, a, log2) + MapRows(t, b, log2)
  {
    if a != [] {
      assert (a + b)[1..] == a[1..] + b;
      MapRowsAppend(t, a[1..], b, log2);
    } else {
      assert a + b == b;
    }
  }

  /** Every filtered row gives a point except the unresolved ones: the number
      of points is the number of rows minus the number of dropped rows. */
  lemma {:induction false} MapRowsCount(t: Table, rows: seq<Row>, log2: real -> real)
    requires forall r :: r in rows ==> HasNumbers(r)
    ensures |MapRows(t, rows, log2)| + |Where(rows, r => Unresolved(t, r))| == |rows|
  {
    if rows != [] {
      MapRowsCount(t, rows[1..], log2);
    }
  }

  /** Every point carries a table key as its name, its coordinate is that
      key's, and its bubble is at least 5. */
  lemma {:induction false} MapRowsPoints(t: Table, rows: seq<Row>, log2: real -> real)
    requires forall r :: r in rows ==> HasNumbers(r)
    requires LogLike(log2)
    ensures forall p :: p in MapRows(t, rows, log2) ==>
      exists i :: 0 <= i < |t| && t[i] == (p.name, Registry.Coord(p.lat, p.lon)) && KeyIndex(t, p.name, 0) == Some(i)
    ensures forall p :: p in MapRows(t, rows, log2) ==> p.size >= 5.0
  {
    if rows != [] {
      MapRowsPoints(t, rows[1..], log2);
      var r := rows[0];
      match MapRow(t, r, log2)
      case None =>
      case Some(p) =>
        var i := Resolve(t, r.name).value;
        assert t[i] == (p.name, Registry.Coord(p.lat, p.lon));
        BubbleSizeAtLeastFive(r.imports.value, log2);
    }
  }

  /** Every point is the point of one of the rows, so it carries that row's
      tariff rate and swing flag. */
  lemma {:induction false} MapRowsOrigin(t: Table, rows: seq<Row>, log2: real -> real)
    requires forall r :: r in rows ==> HasNumbers(r)
    ensures forall p :: p in MapRows(t, rows, log2) ==>
      exists r :: r in rows && HasNumbers(r) && MapRow(t, r, log2) == Some(p)
  {
    if rows != [] {
      MapRowsOrigin(t, rows[1..], log2);
      forall p | p in MapRows(t, rows, log2)
        ensures exists r :: r in rows && HasNumbers(r) && MapRow(t, r, log2) == Some(p)
      {
        if p in MapRows(t, rows[1..], log2) {
          var r :| r in rows[1..] && HasNumbers(r) && MapRow(t, r, log2) == Some(p);
          assert r in rows;
        } else {
          assert MapRow(t, rows[0], log2) == Some(p);
        }
      }
    }
  }

  /** Every row that resolves gives its point. */
  lemma {:induction false} MapRowsComplete(t: Table, rows: seq<Row>, log2: real -> real, r: Row)
    requires forall r :: r in rows ==> HasNumbers(r)
    requires r in rows
    ensures HasNumbers(r) && (MapRow(t, r, log2).Some? ==> MapRow(t, r, log2).value in MapRows(t, rows, log2))
  {
    if rows[0] != r {
      MapRowsComplete(t, rows[1..], log2, r);
    }
  }

  /** The points of one group: `swing` selects the swing-state points. */
  function Group(ps: seq<Point>, swing: bool): seq<Point>
  {
    Where(ps, (p: Point) => p.swing == swing)
  }

  /** Every point lands in exactly one of the two groups, and each group keeps
      the order of the points. */
  lemma GroupsPartition(ps: seq<Point>, qs: seq<Point>)
    ensures |Group(ps, true)| + |Group(ps, false)| == |ps|
    ensures forall p :: p in Group(ps, true) ==> p in ps && p.swing
    ensures forall p :: p in Group(ps, false) ==> p in ps && !p.swing
    ensures forall p :: p in ps ==> p in Group(ps, p.swing)
    ensures Group(ps + qs, true) == Group(ps, true) + Group(qs, true)
    ensures Group(ps + qs, false) == Group(ps, false) + Group(qs, false)
  {
    WhereSplit(ps, (p: Point) => p.swing == true, (p: Point) => p.swing == false);
    WhereAppend(ps, qs, (p: Point) => p.swing == true);
    WhereAppend(ps, qs, (p: Point) => p.swing == false);
    WhereSpec(ps, (p: Point) => p.swing == true);
    WhereSpec(ps, (p: Point) => p.swing == false);
  }

  /** The six lists one group is built into: lon, lat, size, tariff rate,
      country name and hover text. */
  datatype Columns = Columns(lons: seq<real>, lats: seq<real>, sizes: seq<real>, tariffs: seq<real>,
                             names: seq<string>, hovers: seq<Hover>)
  {
    /** The six lists have one entry per point. */
    predicate Parallel()
    {
      |lats| == |lons| && |sizes| == |lons| && |tariffs| == |lons| && |names| == |lons| && |hovers| == |lons|
    }

    /** The six `append` calls of one point. */
    function Append(p: Point): Columns
    {
      Columns(lons + [p.lon], lats + [p.lat], sizes + [p.size], tariffs + [p.tariff], names + [p.name], hovers + [p.hover])
    }
  }

  /** Adding one point at the end adds it to the columns of its own group and
      leaves the other group's columns as they were. */
  lemma ColumnsOfGroupSnoc(ps: seq<Point>, p: Point, swing: bool)
    ensures ColumnsOf(Group(ps + [p], swing)) ==
      if p.swing == swing then ColumnsOf(Group(ps, swing)).Append(p) else ColumnsOf(Group(ps, swing))
  {
    GroupsPartition(ps, [p]);
    WhereCons(p, [], (x: Point) => x.swing == swing);
    assert [p] + [] == [p];
    var g := Group(ps, swing);
    if p.swing == swing {
      assert Group([p], swing) == [p];
      assert (g + [p])[..|g + [p]| - 1] == g;
    } else {
      assert Group([p], swing) == [];
      assert g + [] == g;
    }
  }

  /** The points of one more row: those of the rows before it, then its own. */
  lemma MapRowsSnoc(t: Table, rows: seq<Row>, i: nat, log2: real -> real)
    requires i < |rows|
    requires forall r :: r in rows ==> HasNumbers(r)
    ensures HasNumbers(rows[i])
    ensures MapRows(t, rows[..i + 1], log2) ==
      MapRows(t, rows[..i], log2) + match MapRow(t, rows[i], log2) case None => [] case Some(p) => [p]
  {
    assert rows[i] in rows;
    assert rows[..i + 1] == rows[..i] + [rows[i]];
    MapRowsAppend(t, rows[..i], [rows[i]], log2);
    assert [rows[i]][1..] == [];
  }

  /** One more row changes the columns of a group only if the row gives a
      point of that group, and then by appending that point. */
  lemma GroupColumnsSnoc(t: Table, rows: seq<Row>, i: nat, log2: real -> real, swing: bool)
    requires i < |rows|
    requires forall r :: r in rows ==> HasNumbers(r)
    ensures HasNumbers(rows[i])
    ensures ColumnsOf(Group(MapRows(t, rows[..i + 1], log2), swing)) ==
      match MapRow(t, rows[i], log2)
      case Some(p) => if p.swing == swing then ColumnsOf(Group(MapRows(t, rows[..i], log2), swing)).Append(p)
                      else ColumnsOf(Group(MapRows(t, rows[..i], log2), swing))
      case None => ColumnsOf(Group(MapRows(t, rows[..i], log2), swing))
  {
    MapRowsSnoc(t, rows, i, log2);
    var before := MapRows(t, rows[..i], log2);
    match MapRow(t, rows[i], log2)
    case None =>
      assert before + [] == before;
    case Some(p) =>
      ColumnsOfGroupSnoc(before, p, swing);
  }

  /** Six empty lists. */
  function NoColumns(): Columns
  {
    Columns([], [], [], [], [], [])
  }

  /** A group's points appended one by one, in order. Entry k of every list
      belongs to point k, so the lists stay the same length. */
  function ColumnsOf(ps: seq<Point>): (c: Columns)
    ensures c.Parallel() && |c.lons| == |ps|
    ensures forall k :: 0 <= k < |ps| ==>
      && c.lons[k] == ps[k].lon && c.lats[k] == ps[k].lat && c.sizes[k] == ps[k].size
      && c.tariffs[k] == ps[k].tariff && c.names[k] == ps[k].name && c.hovers[k] == ps[k].hover
  {
    if ps == [] then NoColumns() else ColumnsOf(ps[..|ps| - 1]).Append(ps[|ps| - 1])
  }
}
