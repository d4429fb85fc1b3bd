/** `create_bubble_map`: the figure of four traces built from the data and
    the sidebar's choices. The traces are, in order, the country shading,
    the regular bubbles (omitted when highlighting leaves none), the swing
    bubbles and a stand-alone colour bar. */
module BubbleMap {
  import opened Wrappers
  import opened Seqs
  import opened Registry
  import opened Rows
  import opened Filter
  import opened Geometry
  import opened Partition
  import opened Iso3

  /** The top of the shared tariff colour scale (`cmax=50`). */
  const ColorMax: real := 50.0

  /** The opacity of a visible bubble layer. */
  const Visible: real := 0.7

  /** The two bubble layers. */
  datatype Layer = Regular | Swing

  /** The traces the figure receives. Styling that never varies (colour
      scale names, line widths, marker mode) is not part of the model. */
  datatype Trace =
    | Shading(locations: seq<Location>, z: seq<int>, text: seq<string>)
    | Bubbles(layer: Layer, lons: seq<real>, lats: seq<real>, sizes: seq<real>, colors: seq<real>,
              text: seq<string>, hovertext: Option<seq<Hover>>, opacity: real, hoverOn: bool,
              cmin: real, cmax: real)
    | ColorBar(cmin: real, cmax: real)

  /** The plotly figure: a list of traces that grows one `add_trace` at a time. */
  class Figure {
    var traces: seq<Trace>

    constructor()
      ensures traces == []
    {
      traces := [];
    }

    method AddTrace(tr: Trace)
      modifies this
      ensures traces == old(traces) + [tr]
    {
      traces := traces + [tr];
    }
  }

  predicate IsLayer(tr: Trace, layer: Layer)
  {
    tr.Bubbles? && tr.layer == layer
  }

  /** The country shading of the swing names: China, the United States,
      then the listed swing countries. */
  function ShadingTrace(names: seq<string>): Trace
  {
    var codes := Iso3Codes(names);
    Shading(Locations(codes), ZValues(codes), ShadingText(names))
  }

  /** The regular bubbles: invisible and without hover text when highlighting. */
  function RegularTrace(c: Columns, minTariff: real, highlight: bool): Trace
  {
    Bubbles(Regular, c.lons, c.lats, c.sizes, c.tariffs, c.names,
            if highlight then None else Some(c.hovers),
            if highlight then 0.0 else Visible, !highlight, minTariff, ColorMax)
  }

  /** The swing bubbles: always visible, always with hover text. */
  function SwingTrace(c: Columns, minTariff: real): Trace
  {
    Bubbles(Swing, c.lons, c.lats, c.sizes, c.tariffs, c.names, Some(c.hovers),
            Visible, true, minTariff, ColorMax)
  }

  /** The points of the rows that pass the filter. */
  function Points(data: seq<Row>, q: Query, log2: real -> real, t: Table): seq<Point>
  {
    FilterHasNumbers(data, q);
    MapRows(t, FilterRows(data, q), log2)
  }

  /** The traces added for the two groups' columns, in order: the shading,
      the regular bubbles unless highlighting leaves none, the swing
      bubbles, the colour bar. */
  function Layout(regular: Columns, swing: Columns, minTariff: real, highlight: bool): seq<Trace>
  {
    [ShadingTrace(swing.names)]
    + (if !highlight || |regular.lons| > 0 then [RegularTrace(regular, minTariff, highlight)] else [])
    + [SwingTrace(swing, minTariff), ColorBar(minTariff, ColorMax)]
  }

  /** The traces of the figure built from `data`. */
  function MapTraces(data: seq<Row>, q: Query, highlight: bool, log2: real -> real, t: Table): seq<Trace>
  {
    var ps := Points(data, q, log2, t);
    Layout(ColumnsOf(Group(ps, false)), ColumnsOf(Group(ps, true)), q.minTariff, highlight)
  }

  /** Builds the figure for `data` under the sidebar's choices `q` and the
      highlight toggle, placing countries with the country table. */
  method CreateBubbleMap(data: seq<Row>, q: Query, highlight: bool, log2: real -> real) returns (fig: Figure)
    ensures fresh(fig)
    ensures fig.traces == MapTraces(data, q, highlight, log2, CountryCoords())
  {
    var rows := FilterRows(data, q);
    FilterHasNumbers(data, q);
    var regular, swing := BuildGroups(CountryCoords(), rows, log2);
    var codes := SwingIso3(swing.names);
    fig := Draw(regular, swing, codes, q.minTariff, highlight);
  }

  /** The `add_trace` calls of the map builder. */
  method Draw(regular: Columns, swing: Columns, codes: seq<Code>, minTariff: real, highlight: bool) returns (fig: Figure)
    requires codes == Iso3Codes(swing.names)
    ensures fresh(fig)
    ensures fig.traces == Layout(regular, swing, minTariff, highlight)
  {
    fig := new Figure();
    fig.AddTrace(Shading(Locations(codes), ZValues(codes), ShadingText(swing.names)));
    if !highlight || |regular.lons| > 0 {
      fig.AddTrace(RegularTrace(regular, minTariff, highlight));
    }
    fig.AddTrace(SwingTrace(swing, minTariff));
    fig.AddTrace(ColorBar(minTariff, ColorMax));
  }

  /** The number of bubbles drawn by a list of traces. */
  function MarkerCount(traces: seq<Trace>): nat
  {
    if traces == [] then 0
    else (if traces[0].Bubbles? then |traces[0].lons| else 0) + MarkerCount(traces[1..])
  }

  lemma {:induction false} MarkerCountAppend(a: seq<Trace>, b: seq<Trace>)
    ensures MarkerCount(a + b) == MarkerCount(a) + MarkerCount(b)
  {
    if a == [] {
      assert a + b == b;
    } else {
      assert (a + b)[1..] == a[1..] + b;
      MarkerCountAppend(a[1..], b);
    }
  }

  /** The filtered rows have both numbers, and each point comes from one of them. */
  lemma PointsOrigin(data: seq<Row>, q: Query, log2: real -> real, t: Table)
    ensures forall r :: r in FilterRows(data, q) ==> HasNumbers(r)
    ensures forall p :: p in Points(data, q, log2, t) ==>
      exists r :: r in FilterRows(data, q) && HasNumbers(r) && MapRow(t, r, log2) == Some(p)
  {
    FilterHasNumbers(data, q);
    MapRowsOrigin(t, FilterRows(data, q), log2);
  }

  /** The two possible figures: four traces, or three without the regular bubbles. */
  lemma LayoutCases(regular: Columns, swing: Columns, minTariff: real, highlight: bool)
    ensures var tr := Layout(regular, swing, minTariff, highlight);
      if !highlight || |regular.lons| > 0 then
        tr == [ShadingTrace(swing.names), RegularTrace(regular, minTariff, highlight),
               SwingTrace(swing, minTariff), ColorBar(minTariff, ColorMax)]
      else
        tr == [ShadingTrace(swing.names), SwingTrace(swing, minTariff), ColorBar(minTariff, ColorMax)]
  {
  }

  /** A bubble trace's lists have one entry per bubble. */
  predicate Aligned(b: Trace)
  {
    b.Bubbles? ==>
      && |b.lats| == |b.lons| && |b.sizes| == |b.lons| && |b.colors| == |b.lons| && |b.text| == |b.lons|
      && (b.hovertext.Some? ==> |b.hovertext.value| == |b.lons|)
  }

  /** Every bubble trace draws the columns of its own group. */
  lemma LayoutBubbles(regular: Columns, swing: Columns, minTariff: real, highlight: bool)
    requires regular.Parallel() && swing.Parallel()
    ensures var tr := Layout(regular, swing, minTariff, highlight);
      forall i :: 0 <= i < |tr| && tr[i].Bubbles? ==>
        var c := if tr[i].layer == Swing then swing else regular;
        && tr[i].lons == c.lons && tr[i].lats == c.lats && tr[i].sizes == c.sizes
        && tr[i].colors == c.tariffs && tr[i].text == c.names && Aligned(tr[i])
  {
    LayoutCases(regular, swing, minTariff, highlight);
  }

  /** Bubble k of trace `b` is drawn for point `p`: at its place, with its
      size, coloured by its tariff rate, labelled with its name, and in the
      layer of its group. */
  predicate Draws(b: Trace, k: nat, p: Point)
  {
    && b.Bubbles? && k < |b.lons| && k < |b.lats| && k < |b.sizes| && k < |b.colors| && k < |b.text|
    && b.lons[k] == p.lon && b.lats[k] == p.lat && b.sizes[k] == p.size
    && b.colors[k] == p.tariff && b.text[k] == p.name && p.swing == (b.layer == Swing)
  }

  /** Entry k of a group's columns is the point of a filtered row that
      resolves, and the point is in that group. */
  lemma GroupOrigin(data: seq<Row>, q: Query, log2: real -> real, t: Table, swing: bool, k: nat)
    returns (r: Row, p: Point)
    requires k < |Group(Points(data, q, log2, t), swing)|
    ensures r in FilterRows(data, q) && HasNumbers(r) && MapRow(t, r, log2) == Some(p)
    ensures var c := ColumnsOf(Group(Points(data, q, log2, t), swing));
      && c.lons[k] == p.lon && c.lats[k] == p.lat && c.sizes[k] == p.size
      && c.tariffs[k] == p.tariff && c.names[k] == p.name && p.swing == swing
  {
    var ps := Points(data, q, log2, t);
    var g := Group(ps, swing);
    GroupsPartition(ps, []);
    p := g[k];
    assert p in g;
    PointsOrigin(data, q, log2, t);
    r :| r in FilterRows(data, q) && HasNumbers(r) && MapRow(t, r, log2) == Some(p);
  }

  /** Bubble k of trace i is the point of a filtered row that resolves, in
      the trace's group. */
  lemma BubbleOrigin(data: seq<Row>, q: Query, highlight: bool, log2: real -> real, t: Table, i: nat, k: nat)
    returns (r: Row, p: Point)
    requires i < |MapTraces(data, q, highlight, log2, t)|
    requires MapTraces(data, q, highlight, log2, t)[i].Bubbles?
    requires k < |MapTraces(data, q, highlight, log2, t)[i].lons|
    ensures r in FilterRows(data, q) && HasNumbers(r) && MapRow(t, r, log2) == Some(p)
    ensures Draws(MapTraces(data, q, highlight, log2, t)[i], k, p)
  {
    var ps := Points(data, q, log2, t);
    var cr, cs := ColumnsOf(Group(ps, false)), ColumnsOf(Group(ps, true));
    var tr := Layout(cr, cs, q.minTariff, highlight);
    assert tr == MapTraces(data, q, highlight, log2, t);
    LayoutBubbles(cr, cs, q.minTariff, highlight);
    var swing := tr[i].layer == Swing;
    var c := if swing then cs else cr;
    assert c == ColumnsOf(Group(ps, swing));
    assert tr[i].lons == c.lons;
    r, p := GroupOrigin(data, q, log2, t, swing, k);
    assert Draws(tr[i], k, p);
  }

  /** Every list of a bubble trace has one entry per bubble. */
  lemma MapTracesAligned(data: seq<Row>, q: Query, highlight: bool, log2: real -> real, t: Table)
    ensures var tr := MapTraces(data, q, highlight, log2, t);
      forall i :: 0 <= i < |tr| ==> Aligned(tr[i])
  {
    var ps := Points(data, q, log2, t);
    LayoutBubbles(ColumnsOf(Group(ps, false)), ColumnsOf(Group(ps, true)), q.minTariff, highlight);
  }

  /** Bubble k of trace `b` stands for row `r`: the row's name resolves, the
      bubble is labelled with the key it resolved to, coloured by the row's
      tariff rate, sized by its imports, and in the swing layer exactly when
      the row is a swing state. */
  predicate StandsFor(b: Trace, k: nat, r: Row, t: Table, log2: real -> real)
  {
    && HasNumbers(r) && Resolve(t, r.name).Some?
    && b.Bubbles? && k < |b.text| && k < |b.colors| && k < |b.sizes|
    && b.text[k] == t[Resolve(t, r.name).value].0
    && b.colors[k] == r.tariff.value
    && b.sizes[k] == BubbleSize(r.imports.value, log2)
    && (b.layer == Swing <==> IsSwing(r.swing))
  }

  /** The row behind bubble k of trace i passed the filter. */
  lemma BubbleRow(data: seq<Row>, q: Query, highlight: bool, log2: real -> real, t: Table, i: nat, k: nat)
    returns (r: Row)
    requires i < |MapTraces(data, q, highlight, log2, t)|
    requires MapTraces(data, q, highlight, log2, t)[i].Bubbles?
    requires k < |MapTraces(data, q, highlight, log2, t)[i].lons|
    ensures r in data && Keep(q, r)
    ensures StandsFor(MapTraces(data, q, highlight, log2, t)[i], k, r, t, log2)
  {
    var p;
    r, p := BubbleOrigin(data, q, highlight, log2, t, i, k);
    FilterMembers(data, q, r);
  }

  /** Some row of the data that passed the filter stands behind bubble k of `b`. */
  ghost predicate Backed(data: seq<Row>, q: Query, b: Trace, k: nat, t: Table, log2: real -> real)
  {
    exists r :: r in data && Keep(q, r) && StandsFor(b, k, r, t, log2)
  }

  /** Every bubble stands for a row of the data that passed the filter. */
  lemma BubblesFromFilteredRows(data: seq<Row>, q: Query, highlight: bool, log2: real -> real, t: Table)
    ensures var tr := MapTraces(data, q, highlight, log2, t);
      forall i, k :: 0 <= i < |tr| && tr[i].Bubbles? && 0 <= k < |tr[i].lons| ==> Backed(data, q, tr[i], k, t, log2)
  {
    var tr := MapTraces(data, q, highlight, log2, t);
    forall i, k | 0 <= i < |tr| && tr[i].Bubbles? && 0 <= k < |tr[i].lons|
      ensures Backed(data, q, tr[i], k, t, log2)
    {
      var r := BubbleRow(data, q, highlight, log2, t, i, k);
    }
  }

  /** All bubbles and the colour bar share one colour range, from the
      minimum tariff chosen to 50. */
  lemma SharedColorScale(regular: Columns, swing: Columns, minTariff: real, highlight: bool)
    ensures var tr := Layout(regular, swing, minTariff, highlight);
      forall i :: 0 <= i < |tr| && !tr[i].Shading? ==> tr[i].cmin == minTariff && tr[i].cmax == ColorMax
  {
    LayoutCases(regular, swing, minTariff, highlight);
  }

  /** Every bubble's colour value lies within the tariff range chosen. */
  lemma ColorsWithinTariffRange(data: seq<Row>, q: Query, highlight: bool, log2: real -> real, t: Table)
    ensures var tr := MapTraces(data, q, highlight, log2, t);
      forall i, k :: 0 <= i < |tr| && tr[i].Bubbles? && 0 <= k < |tr[i].lons| && k < |tr[i].colors| ==>
        q.minTariff <= tr[i].colors[k] <= q.maxTariff
  {
    var tr := MapTraces(data, q, highlight, log2, t);
    forall i, k | 0 <= i < |tr| && tr[i].Bubbles? && 0 <= k < |tr[i].lons| && k < |tr[i].colors|
      ensures q.minTariff <= tr[i].colors[k] <= q.maxTariff
    {
      var r := BubbleRow(data, q, highlight, log2, t, i, k);
    }
  }

  /** The shading comes first and the colour bar last, with the swing
      bubbles just before it; the regular bubbles, second, are there exactly
      when highlighting is off or some regular point exists. */
  lemma TraceOrder(regular: Columns, swing: Columns, minTariff: real, highlight: bool)
    ensures var tr := Layout(regular, swing, minTariff, highlight);
      && 3 <= |tr| <= 4
      && tr[0].Shading? && tr[|tr| - 1].ColorBar? && IsLayer(tr[|tr| - 2], Swing)
      && (forall i :: 0 <= i < |tr| && tr[i].Bubbles? ==> i == |tr| - 2 || (i == 1 && IsLayer(tr[i], Regular)))
      && ((exists i :: 0 <= i < |tr| && IsLayer(tr[i], Regular)) <==> !highlight || |regular.lons| > 0)
  {
    LayoutCases(regular, swing, minTariff, highlight);
    var tr := Layout(regular, swing, minTariff, highlight);
    if !highlight || |regular.lons| > 0 {
      assert IsLayer(tr[1], Regular);
    }
  }

  /** Some filtered row resolves to a regular (non-swing) country exactly
      when the regular group has a point. */
  lemma RegularGroupNonEmpty(data: seq<Row>, q: Query, log2: real -> real, t: Table)
    ensures |ColumnsOf(Group(Points(data, q, log2, t), false)).lons| > 0 <==>
      exists r :: r in FilterRows(data, q) && !Unresolved(t, r) && !IsSwing(r.swing)
  {
    var ps := Points(data, q, log2, t);
    PointsOrigin(data, q, log2, t);
    if r :| r in FilterRows(data, q) && !Unresolved(t, r) && !IsSwing(r.swing) {
      MapRowsComplete(t, FilterRows(data, q), log2, r);
      var p := MapRow(t, r, log2).value;
      GroupsPartition(ps, []);
      assert p in Group(ps, false);
    } else if |Group(ps, false)| > 0 {
      var r, p := GroupOrigin(data, q, log2, t, false, 0);
      assert false;
    }
  }

  /** The regular bubbles are drawn unless highlighting is on and no
      filtered row that resolves is a regular (non-swing) country. */
  lemma RegularLayerPresence(data: seq<Row>, q: Query, highlight: bool, log2: real -> real, t: Table)
    ensures var tr := MapTraces(data, q, highlight, log2, t);
      (exists i :: 0 <= i < |tr| && IsLayer(tr[i], Regular)) <==>
      (!highlight || exists r :: r in FilterRows(data, q) && !Unresolved(t, r) && !IsSwing(r.swing))
  {
    var ps := Points(data, q, log2, t);
    var cr, cs := ColumnsOf(Group(ps, false)), ColumnsOf(Group(ps, true));
    assert MapTraces(data, q, highlight, log2, t) == Layout(cr, cs, q.minTariff, highlight);
    TraceOrder(cr, cs, q.minTariff, highlight);
    RegularGroupNonEmpty(data, q, log2, t);
  }

  /** Highlighting makes the regular bubbles invisible and removes their
      hover text; the swing bubbles are always visible with hover text. */
  lemma HighlightStyle(regular: Columns, swing: Columns, minTariff: real, highlight: bool)
    ensures var tr := Layout(regular, swing, minTariff, highlight);
      forall i :: 0 <= i < |tr| && IsLayer(tr[i], Regular) ==>
        if highlight then tr[i].opacity == 0.0 && !tr[i].hoverOn && tr[i].hovertext == None
        else tr[i].opacity == Visible && tr[i].hoverOn && tr[i].hovertext == Some(regular.hovers)
    ensures var tr := Layout(regular, swing, minTariff, highlight);
      forall i :: 0 <= i < |tr| && IsLayer(tr[i], Swing) ==>
        tr[i].opacity == Visible && tr[i].hoverOn && tr[i].hovertext == Some(swing.hovers)
  {
    LayoutCases(regular, swing, minTariff, highlight);
  }

  /** Not a regular bubble trace. */
  predicate NotRegular(tr: Trace)
  {
    !IsLayer(tr, Regular)
  }

  /** Leaving out the regular bubbles leaves the shading, the swing bubbles
      and the colour bar, whatever the highlight. */
  lemma LayoutWithoutRegular(regular: Columns, swing: Columns, minTariff: real, highlight: bool)
    ensures Where(Layout(regular, swing, minTariff, highlight), NotRegular) ==
      [ShadingTrace(swing.names), SwingTrace(swing, minTariff), ColorBar(minTariff, ColorMax)]
  {
    var a, b, c := ShadingTrace(swing.names), SwingTrace(swing, minTariff), ColorBar(minTariff, ColorMax);
    LayoutCases(regular, swing, minTariff, highlight);
    if !highlight || |regular.lons| > 0 {
      WhereDropsSecond(a, RegularTrace(regular, minTariff, highlight), b, c, NotRegular);
    } else {
      WhereKeepsThree(a, b, c, NotRegular);
    }
  }

  /** Toggling the highlight changes the regular bubbles only: every other
      trace is the same, and the regular bubbles, when drawn both ways, sit
      at the same places with the same sizes, colours and names. */
  lemma HighlightChangesOnlyRegular(regular: Columns, swing: Columns, minTariff: real)
    ensures var on, off := Layout(regular, swing, minTariff, true), Layout(regular, swing, minTariff, false);
      Where(on, NotRegular) == Where(off, NotRegular)
    ensures var on, off := Layout(regular, swing, minTariff, true), Layout(regular, swing, minTariff, false);
      |on| == 4 ==> on[1].lons == off[1].lons && on[1].lats == off[1].lats && on[1].sizes == off[1].sizes
                    && on[1].colors == off[1].colors && on[1].text == off[1].text
  {
    LayoutWithoutRegular(regular, swing, minTariff, true);
    LayoutWithoutRegular(regular, swing, minTariff, false);
    LayoutCases(regular, swing, minTariff, true);
    LayoutCases(regular, swing, minTariff, false);
  }

  /** The bubbles drawn are those of the two groups. */
  lemma {:induction false} LayoutMarkers(regular: Columns, swing: Columns, minTariff: real, highlight: bool)
    ensures MarkerCount(Layout(regular, swing, minTariff, highlight)) == |regular.lons| + |swing.lons|
  {
    var a, b, c := ShadingTrace(swing.names), SwingTrace(swing, minTariff), ColorBar(minTariff, ColorMax);
    var optional := if !highlight || |regular.lons| > 0 then [RegularTrace(regular, minTariff, highlight)] else [];
    assert Layout(regular, swing, minTariff, highlight) == [a] + optional + [b] + [c];
    MarkerCountAppend([a] + optional + [b], [c]);
    MarkerCountAppend([a] + optional, [b]);
    MarkerCountAppend([a], optional);
    assert MarkerCount(optional) == |regular.lons| by {
      if optional != [] {
        assert optional[1..] == [];
      }
    }
    assert [a][1..] == [] && [b][1..] == [] && [c][1..] == [];
  }

  /** Every filtered row is drawn as exactly one bubble, unless its name
      resolves to no entry of the table. */
  lemma MarkerTotal(data: seq<Row>, q: Query, highlight: bool, log2: real -> real, t: Table)
    ensures MarkerCount(MapTraces(data, q, highlight, log2, t)) + |Where(FilterRows(data, q), r => Unresolved(t, r))|
      == |FilterRows(data, q)|
  {
    var ps := Points(data, q, log2, t);
    var cr, cs := ColumnsOf(Group(ps, false)), ColumnsOf(Group(ps, true));
    assert MapTraces(data, q, highlight, log2, t) == Layout(cr, cs, q.minTariff, highlight);
    LayoutMarkers(cr, cs, q.minTariff, highlight);
    GroupsPartition(ps, []);
    FilterHasNumbers(data, q);
    MapRowsCount(t, FilterRows(data, q), log2);
  }

  /** The shading paints China with 1 (red), the United States with 2 (blue)
      and every listed swing country of the swing layer with 3 (purple); its
      text lists China, the United States and the swing layer's names. */
  lemma ShadingOfSwingLayer(regular: Columns, swing: Columns, minTariff: real, highlight: bool)
    ensures |Layout(regular, swing, minTariff, highlight)| >= 3
    ensures var tr := Layout(regular, swing, minTariff, highlight);
      var sh, s := tr[0], tr[|tr| - 2];
      && sh.Shading? && IsLayer(s, Swing)
      && sh.text == ["China", "United States"] + s.text
      && |sh.locations| == |sh.z| && sh.locations[..2] == [CHN, USA] && sh.z[..2] == [1, 2]
      && (forall k :: 2 <= k < |sh.locations| ==>
            && sh.z[k] == 3 && sh.locations[k].Listed?
            && exists j :: 0 <= j < |s.text| && !Skipped(s.text[j]) && Iso3Of(s.text[j]) == Some(sh.locations[k].code))
      && (forall j :: 0 <= j < |s.text| && !Skipped(s.text[j]) && Iso3Of(s.text[j]).Some? ==>
           Listed(Iso3Of(s.text[j]).value) in sh.locations)
  {
    LayoutCases(regular, swing, minTariff, highlight);
    var names := swing.names;
    var codes := Iso3Codes(names);
    var locations := Locations(codes);
    ChoroplethLists(names);
    Iso3CodesSound(names);
    Iso3CodesComplete(names);
    forall k | 2 <= k < |locations|
      ensures exists j :: 0 <= j < |names| && !Skipped(names[j]) && Iso3Of(names[j]) == Some(locations[k].code)
    {
      assert codes[k - 2] in codes;
    }
    forall j | 0 <= j < |names| && !Skipped(names[j]) && Iso3Of(names[j]).Some?
      ensures Listed(Iso3Of(names[j]).value) in locations
    {
      var m :| 0 <= m < |codes| && codes[m] == Iso3Of(names[j]).value;
      assert locations[m + 2] == Listed(codes[m]);
    }
  }

  /** With no data the figure draws no bubble, shades only China and the
      United States, and has three traces when highlighting, else four. */
  lemma EmptyData(q: Query, highlight: bool, log2: real -> real, t: Table)
    ensures var tr := MapTraces([], q, highlight, log2, t);
      && MarkerCount(tr) == 0 && |tr| == (if highlight then 3 else 4)
      && tr[0] == Shading([CHN, USA], [1, 2], ["China", "United States"])
  {
    assert FilterRows([], q) == [];
    assert Points([], q, log2, t) == [];
    var none := ColumnsOf(Group([], false));
    assert none == NoColumns();
    assert MapTraces([], q, highlight, log2, t) == Layout(none, none, q.minTariff, highlight);
    LayoutMarkers(none, none, q.minTariff, highlight);
    LayoutCases(none, none, q.minTariff, highlight);
    assert Locations([]) == [CHN, USA];
    assert ZValues([]) == [1, 2];
    assert ShadingText([]) == ["China", "United States"];
  }

  /** Bubble k of `b` sits on the entry of table `t` its label is the key of,
      and is at least 5 across. */
  ghost predicate OnTable(t: Table, b: Trace, k: nat)
  {
    && b.Bubbles? && k < |b.lons| && k < |b.lats| && k < |b.text| && k < |b.sizes|
    && (exists j :: 0 <= j < |t| && t[j] == (b.text[k], Coord(b.lats[k], b.lons[k])) && KeyIndex(t, b.text[k], 0) == Some(j))
    && b.sizes[k] >= 5.0
  }

  /** Every bubble is placed at the coordinate of the table entry it names. */
  lemma BubblesOnTable(data: seq<Row>, q: Query, highlight: bool, log2: real -> real, t: Table)
    requires LogLike(log2)
    ensures var tr := MapTraces(data, q, highlight, log2, t);
      forall i, k :: 0 <= i < |tr| && tr[i].Bubbles? && 0 <= k < |tr[i].lons| ==> OnTable(t, tr[i], k)
  {
    var tr := MapTraces(data, q, highlight, log2, t);
    MapTracesAligned(data, q, highlight, log2, t);
    forall i, k | 0 <= i < |tr| && tr[i].Bubbles? && 0 <= k < |tr[i].lons|
      ensures OnTable(t, tr[i], k)
    {
      var r, p := BubbleOrigin(data, q, highlight, log2, t, i, k);
      var j := Resolve(t, r.name).value;
      assert t[j] == (p.name, Coord(p.lat, p.lon));
      BubbleSizeAtLeastFive(r.imports.value, log2);
    }
  }
}
