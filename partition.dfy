/** The loop of the map builder over the filtered rows: each row's name is
    resolved, its bubble sized, and its point appended to the swing lists or
    to the regular lists. */
module Partition {
  import opened Wrappers
  import opened Registry
  import opened Rows
  import opened Geometry

  /** Fills the regular and the swing lists in one pass over `rows`. The result
      is, for each group, the six columns of that group's points, in row order. */
  method BuildGroups(t: Table, rows: seq<Row>, log2: real -> real) returns (regular: Columns, swing: Columns)
    requires forall r :: r in rows ==> HasNumbers(r)
    ensures regular == ColumnsOf(Group(MapRows(t, rows, log2), false))
    ensures swing == ColumnsOf(Group(MapRows(t, rows, log2), true))
  {
    regular, swing := NoColumns(), NoColumns();
    for i := 0 to |rows|
      invariant regular == ColumnsOf(Group(MapRows(t, rows[..i], log2), false))
      invariant swing == ColumnsOf(Group(MapRows(t, rows[..i], log2), true))
    {
      GroupColumnsSnoc(t, rows, i, log2, false);
      GroupColumnsSnoc(t, rows, i, log2, true);
      var row := rows[i];
      var imports, tariff := row.imports.value, row.tariff.value;
      var isSwing := IsSwing(row.swing);
      var found := Resolve(t, row.name);
      if found.None? {
        continue;
      }
      var k := found.value;
      var name := t[k].0;
      var lat, lon := t[k].1.lat, t[k].1.lon;
      var bubbleSize := BubbleSize(imports, log2);
      var hover := Hover(name, imports, tariff, isSwing);
      var p := Point(lon, lat, bubbleSize, tariff, name, hover, isSwing);
      assert MapRow(t, row, log2) == Some(p);
      if isSwing {
        swing := swing.Append(p);
      } else {
        regular := regular.Append(p);
      }
    }
    assert rows[..|rows|] == rows;
  }
}
