# US import and tariff bubble map, modelled in Dafny

The Streamlit app draws a world map of US imports by country. Each country
is a bubble: the bubble's size follows the import value, and its colour
follows the tariff rate. Geopolitical swing states are drawn in their own
layer, and a shading layer paints China, the United States and the listed
swing countries.

This project models `create_bubble_map`, the function that turns the
import table and the sidebar's choices into the map, together with the
constant `country_coords` table it reads. The pipeline runs in these
steps:

- **Filter.** An inclusive range filter on imports and tariff rate, then
  the optional country allow-list (`Filter`).
- **Country resolution.** An exact key lookup in the coordinate table.
  On a miss, it falls back to the first key that contains the name or
  that the name contains. If neither finds a key, the row is dropped
  (`Registry`).
- **Swing flag.** A tolerant reading of the swing-state flag (`Rows`).
- **Bubble size.** A piecewise rule (`Geometry`).
- **Partition.** The row loop that fills the twelve parallel lists of the
  regular and swing groups (`Partition.BuildGroups`, a method with a
  loop, proved against `Geometry.MapRows`, `Group` and `ColumnsOf`).
- **ISO3 codes.** The swing countries' codes, from a hard-coded chain
  (`Iso3`, with the loop method `SwingIso3`).
- **Figure.** The figure is built by successive `add_trace` calls
  (`BubbleMap.Figure`, a class whose trace list grows).
  `BubbleMap.CreateBubbleMap` is proved to produce `BubbleMap.MapTraces`.
  The lemmas beside it state:
  - the trace order;
  - when the regular layer is omitted;
  - opacity and hover under the highlight toggle;
  - the shared colour range;
  - the number of bubbles;
  - where every bubble comes from.

`Loader.StripPercent` models the one string step of loading:
`re.sub(r'%', '', …)` on the tariff cell.

Some pieces are parameters rather than computed:

- **log2.** `np.log2` is a parameter `log2: real -> real`. The properties
  that need it assume `Geometry.LogLike`: log2 is monotone on positive
  reals, and `8 * log2(100) >= 15`.
- **NaN.** A NaN number is `None` in an `Option<real>`.
- **Swing cell.** The swing-state cell is either a Python `bool` or the
  `str()` form of any other value.

With highlighting on and no regular point, the regular layer is left out
(app.py:414). `BubbleMap.EmptyData` states this for empty data: three
traces when highlighting, four otherwise.

## Model

| member | source | states |
|---|---|---|
| Text.IsSubstring | app.py:317-318 | Python's `needle in hay` between two strings, by scanning `hay` for a position where `needle` is a prefix; `Text.IsSubstringIff` proves it means an occurrence at some index |
| Text.IsSubstringIff | app.py:318 | Python's `a in b` on strings: `needle` occurs in `hay` iff there is a position where `hay` continues with `needle` |
| Text.Lower | app.py:311 | `str.lower()` on ASCII letters: the length is kept, each ASCII upper-case letter is lower-cased in place, and every other character is unchanged |
| Rows.IsSwing | app.py:306-311 | `is_swing_state`: a bool cell is taken as it is, any other cell is swing when its lower-cased string form is "true"; `Rows.IsSwingOtherIff` characterises the non-bool case |
| Rows.IsSwingOtherIff | app.py:306-311 | a non-bool flag counts as swing iff its string form is exactly four characters spelling "true" in any mix of cases |
| Rows.IsSwingExamples | app.py:306-311 | "TRUE", "True" and `True` are swing; " true", "1", "nan" and `False` are not |
| Loader.StripPercent | app.py:24 | `re.sub(r'%', '', s)`: the cell text with every '%' removed; `Loader.StripPercentSpec` states its properties |
| Loader.StripPercentSpec | app.py:24 | the cleaned tariff text holds no '%'; cleaning distributes over concatenation and is idempotent; text without '%' is unchanged |
| Loader.StripTrailingSign | app.py:24 | a cell ending in one '%' loses exactly that sign |
| Loader.StripPercentExamples | app.py:24 | "12.5%" becomes "12.5", and "1%2%" becomes "12": every '%' goes, not only a trailing one |
| Seqs.WhereSpec | app.py:279-288 | a boolean mask keeps a sub-list of the rows: every kept row satisfies the condition, and every row that satisfies it is kept |
| Filter.FilterRows | app.py:279-288 | `filtered_df`: the four-way range mask, then the allow-list when one is given; `Filter.FilterMembers` says which rows survive |
| Filter.FilterIsMask | app.py:279-288 | the range mask followed by the allow-list keeps exactly the rows meeting the conjunction of both, in order |
| Filter.FilterMembers | app.py:279-288 | a row survives iff both numbers lie in their inclusive ranges and, when the allow-list is non-empty, its own name is on it |
| Filter.FilterHasNumbers | app.py:279-284 | no row with a NaN import value or tariff rate survives |
| Filter.FilterAllowList | app.py:287-288 | with a non-empty allow-list, every surviving row's original name is on the list |
| Filter.FilterEmptyRange | app.py:279-284 | a minimum above its maximum leaves no row |
| Filter.FilterAppend | app.py:279-288 | filtering keeps row order: it distributes over concatenation |
| Filter.FilterSelectionExample | app.py:287-288 | with the allow-list China and United States, Canada is dropped and the other two kept in order |
| Registry.KeyIndex | app.py:314 | the index of the first entry with exactly the given key, or None iff no entry has that key |
| Registry.FirstMatch | app.py:316-319 | the first entry, in table order, whose key contains the name or is contained in it, or None iff no key matches |
| Registry.Resolve | app.py:314-323 | a key resolves to its own entry; any other name resolves to the first matching key; None iff neither exists; the resolved key's first entry is the one found |
| Registry.CountryCoordsOnGlobe | app.py:35-271 | the table has 235 entries, and every latitude lies in [-90, 90] and every longitude in [-180, 180] |
| Registry.UnitedStatesResolvesToItself | app.py:260 | "United States" is a key, so it resolves to its own entry, entry 224, at (37.0902, -95.7129) |
| Registry.KoreaSouthDoesNotMatchSouthKorea | app.py:318 | "Korea, South" and "South Korea" do not contain each other, so the fallback never pairs them |
| Geometry.BubbleSize | app.py:327-335 | `bubble_size`: 5 below 1, 10 below 10, 20 below 100, and 5 + 8 * log2(imports) from 100 up |
| Geometry.BubbleSizeAtLeastFive | app.py:327-335 | a bubble is never smaller than 5, and from 100 up never smaller than 20 |
| Geometry.BubbleSizeMonotone | app.py:327-335 | a larger import value never gives a smaller bubble |
| Geometry.MapRow | app.py:314-342 | a row gives no point iff its name resolves to nothing; otherwise the point carries the resolved key, that key's coordinate, the bubble size, the tariff rate and the swing flag |
| Geometry.MapRows | app.py:301-342 | the points of the filtered rows, in row order, unresolved rows skipped; `Geometry.MapRowsCount`, `Geometry.MapRowsOrigin` and `Geometry.MapRowsComplete` characterise it |
| Geometry.MapRowsAppend | app.py:301-323 | the points keep the row order |
| Geometry.MapRowsCount | app.py:301-323 | the number of points is the number of filtered rows minus the unresolved ones |
| Geometry.MapRowsPoints | app.py:314-335 | every point is named by a table key and sits at that key's first entry, and its bubble is at least 5 |
| Geometry.MapRowsOrigin | app.py:301-342 | every point is the point of one of the rows |
| Geometry.MapRowsComplete | app.py:301-342 | every row that resolves contributes its point |
| Geometry.GroupsPartition | app.py:345-358 | every point goes to exactly one of the swing and regular groups, which together hold all points, each in order |
| Geometry.ColumnsOf | app.py:345-358 | a group's six lists stay the same length, and entry k of each belongs to the group's k-th point |
| Partition.BuildGroups | app.py:301-358 | the loop's regular and swing lists are the columns of the regular and swing groups of the filtered rows' points |
| Iso3.Iso3Of | app.py:369-391 | the `if country == ...` chain: the code of each of the 22 listed names, and no code for any other name |
| Iso3.Iso3Codes | app.py:362-394 | `swing_country_iso3`: the codes of the swing names in order, China, the United States and unlisted names contributing none; `Iso3.Iso3CodesSound` and `Iso3.Iso3CodesComplete` characterise it |
| Iso3.SwingIso3 | app.py:362-394 | the loop's code list is the codes of the swing names, skipping China and the United States, in order |
| Iso3.RoundTrip | app.py:370-391 | a name that has a code is the listed name of that code |
| Iso3.Iso3OfInjective | app.py:364-391 | distinct names never share a code, and neither China nor the United States has one |
| Iso3.Iso3CodesAppend | app.py:363-394 | the codes keep the order of the names |
| Iso3.Iso3CodesSound | app.py:363-394 | at most one code per name, and every code is the code of a swing name other than China and the United States |
| Iso3.Iso3CodesComplete | app.py:363-394 | every listed swing name other than China and the United States contributes its code |
| Iso3.ChoroplethLists | app.py:397-400 | `locations` and `z` have equal length and pair China with 1, the United States with 2 and each code with 3; `text` is at least as long |
| Iso3.ChoroplethTextLonger | app.py:397-400 | `text` is longer than `locations` and `z` as soon as a swing name contributes no code |
| BubbleMap.Figure.constructor | app.py:291 | a new figure has no traces |
| BubbleMap.Figure.AddTrace | app.py:397 | `add_trace` appends one trace at the end |
| BubbleMap.Draw | app.py:397-476 | the four `add_trace` calls add the shading, the regular bubbles when drawn, the swing bubbles and the colour bar |
| BubbleMap.CreateBubbleMap | app.py:274-476 | the figure built is a new figure whose traces are those of the data, the sidebar choices and the highlight toggle |
| BubbleMap.Layout | app.py:397-476 | the traces added for the two groups: the shading, the regular bubbles unless highlighting leaves none, the swing bubbles, the colour bar |
| BubbleMap.MapTraces | app.py:274-476 | the traces of the figure for the data, the sidebar choices and the toggle: `Layout` of the columns of the regular and swing groups of the filtered rows' points |
| BubbleMap.LayoutCases | app.py:397-476 | the figure has four traces, or three without the regular bubbles, in that order |
| BubbleMap.TraceOrder | app.py:397-476 | shading first, colour bar last, swing bubbles just before it; the regular bubbles are second and present iff highlighting is off or there is a regular point |
| BubbleMap.RegularGroupNonEmpty | app.py:301-358 | there is a regular point iff some filtered row resolves and is not a swing state |
| BubbleMap.RegularLayerPresence | app.py:414 | the regular bubbles are drawn iff highlighting is off or some filtered row resolves to a non-swing country |
| BubbleMap.HighlightStyle | app.py:426-453 | highlighting makes the regular bubbles opacity 0 with no hover text; otherwise they, and the swing bubbles always, are at 0.7 with hover text |
| BubbleMap.HighlightChangesOnlyRegular | app.py:413-434 | toggling the highlight leaves every other trace unchanged, and the regular bubbles keep their places, sizes, colours and names |
| BubbleMap.SharedColorScale | app.py:421-466 | every bubble layer and the colour bar use the colour range from the minimum tariff chosen to 50 |
| BubbleMap.ColorsWithinTariffRange | app.py:279-284 | every bubble's colour value lies within the tariff range chosen |
| BubbleMap.LayoutBubbles | app.py:413-455 | each bubble trace draws its own group's columns: the places, sizes, tariff colours and names of the swing group for the swing layer and of the regular group for the regular layer, with one entry per bubble in every list |
| BubbleMap.LayoutMarkers | app.py:413-455 | the number of bubbles drawn is the sum of the two groups' sizes, whether or not the regular layer is drawn |
| BubbleMap.MarkerTotal | app.py:279-358 | the number of bubbles drawn is the number of filtered rows minus those whose names resolve to nothing |
| BubbleMap.MapTracesAligned | app.py:345-358 | every list of a bubble trace has one entry per bubble |
| BubbleMap.BubblesFromFilteredRows | app.py:279-358 | every bubble stands for a filtered row whose name resolves; it carries the resolved key, the row's tariff rate and bubble size, and is in the swing layer iff the row is a swing state |
| BubbleMap.BubblesOnTable | app.py:323-335 | every bubble sits at the coordinate of the table entry it names, and is at least 5 across |
| BubbleMap.ShadingOfSwingLayer | app.py:362-411 | the shading paints China 1, the United States 2 and each listed swing country of the swing layer 3; its text is China, the United States and the swing layer's names |
| BubbleMap.EmptyData | app.py:274-476 | with no data, no bubble is drawn, only China and the United States are shaded, and there are three traces when highlighting, else four |

## Left out

- The Streamlit page, the sidebar widgets, the spinner and the data table display are not modelled. They are user interface.
- Reading the CSV file is not modelled. Nor are `pd.to_numeric`, the `float(...)` parse of the tariff text, or the `@st.cache_data` memoisation. These are file I/O and library parsing. Only the '%' removal is modelled.
- Geometry.BubbleSize: the value of `np.log2` is a parameter. Size properties assume only that it is monotone and that `8 * log2(100) >= 15`.
- Floating-point arithmetic is not modelled. Numbers are exact reals.
- Text.Lower: `str.lower()` is modelled for ASCII letters only; every other character is left unchanged, whereas Python also lower-cases non-ASCII letters and can lengthen a string (`'İ'.lower()` has two characters). `Rows.IsSwing` compares the result with "true"; no non-ASCII character lower-cases to 't', 'r', 'u' or 'e' in Python's Unicode data, so the verdict should be the program's on every string, but that is not proved.
- The hover text is modelled as the record of its four values. Its formatting is not modelled: the `:,.2f` rendering and the "Yes"/"No" wording.
- Plotly's figure internals are not modelled. Nor is the layout and geo styling (`update_layout`). Trace styling that never changes is not modelled either: colour-scale names, marker mode, line widths, the choropleth palette and the colour bar title.
- Registry.Resolve: the table is a sequence, and a lookup takes the first entry with a key. The source's keys are distinct, so this is the dictionary lookup, but key distinctness is not proved.
- Registry.KoreaSouthDoesNotMatchSouthKorea: only the pair is proved not to match. That no key at all matches "Korea, South" (so that such a row is dropped) is not proved.
- Registry.CountryCoords: the table is written as one function per initial letter, concatenated in source order. The split lets facts about it be checked one letter at a time.
- Rows with a non-string country name are not modelled. For such a name, Python's `in` would raise an error.

