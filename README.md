# starplot plot session: label placement and plot bookkeeping

This project models the bookkeeping core of a starplot plot session in Dafny.
starplot is a Python library that draws star charts with matplotlib.

A plot session (`StarPlot`) collects:
- the labels it has accepted and their screen boxes;
- the labels it rejected;
- the legend handles, keyed by label;
- the drawn legend;
- a log of what was drawn (markers, lines, polygons, the star scatter).

The model covers the following.
- **Label acceptance.** A proposed label is kept only if its box passes the containment test against the axes box. When collision hiding is on, it must also not intersect any kept box. Kept labels are appended to two index-aligned lists and are never removed.
- **Legend handles.** They are inserted only if absent, and their insertion order is remembered.
- **`plot_object` and its users.** This covers `plot_object`, `_plot_text`, `_plot_planets` and `_plot_moon`, plus the polygon, rectangle, ellipse and circle delegation.
- **The ecliptic plotter.** This is the in-bounds filter and the label stride of `floor(n/3)`.
- **The zenith plot.** This covers:
  - the all-or-nothing constellation-line filter;
  - the star filter and its size branches;
  - the star, constellation and DSO label proposals;
  - `in_bounds` as the circle test of the projection;
  - the `_init_plot` sequence.
- **The DSO tables.** These are `messier`, `ZENITH_BASE`, `DsoType`, `ONGC_TYPE`, `ONGC_TYPE_MAP`, `DEFAULT_DSO_TYPES` and `LEGEND_LABELS`.

Modules:
- `Bbox`: matplotlib's `Bbox.intersection`, which uses closed bounds.
- `Layout`: the pure specification of label acceptance (`Propose`, `ProposeAll`) and its invariants.
- `Legend`: an insert-if-absent dictionary with insertion order.
- `Base`: the class `StarPlot`.
- `Ecliptic`: `plot_ecliptic2`.
- `Zenith`: the class `ZenithPlot`.
- `Dsos`: the tables.
- `Seqs`, `Strings`, `Styles`, `Wrappers`: helpers.

Every imperative method is proved against a specification function on values:
- the new label state is `ProposeAll` of the old one over a named sequence of texts;
- the new legend is `AddHandle` of the old one;
- the drawn log is the old one plus a named sequence.

The properties are then proved about those functions:
- kept boxes of positive size lie inside the axes;
- with collision hiding on, no point lies in two kept boxes;
- earlier labels win;
- legend insertion is idempotent;
- the number of ecliptic labels is 3, 4 or 5;
- the ONGC round trip holds.

Several things the source takes from foreign code are parameters of the model, which leaves them uninterpreted:
- text measurement (`get_window_extent`);
- the projection (`_prepare_coords`, `project_fn(position_of_radec(...))`);
- `in_bounds` of the base session;
- `in_circle`;
- `geod.to_radec`/`rectangle`/`ellipse`;
- the star catalog with projected positions;
- constellation data;
- `stars.hip_names` and `stars.ZENITH_BASE`;
- planet and moon positions.

## Model

| member | source | states |
|---|---|---|
| Bbox.Intersection | src/starplot/base.py:75 | the intersection exists exactly when the boxes overlap on both axes with closed bounds, and a result is a well-formed box |
| Bbox.IntersectionIsCommonPart | src/starplot/base.py:82 | a point lies in the intersection iff it lies in both boxes |
| Bbox.IntersectionEmptyIffDisjoint | src/starplot/base.py:73-77 | there is no intersection iff no point lies in both boxes |
| Bbox.IntersectionSymmetric | src/starplot/base.py:75 | intersection does not depend on argument order |
| Bbox.TouchingBoxesIntersect | src/starplot/base.py:75 | any two boxes where one's right edge is the other's left edge and the height ranges overlap have an intersection of width and area zero, so they count as colliding |
| Bbox.ProductsEqual | src/starplot/base.py:87 | if two nonnegative sides are each at most the matching positive side and the products are equal, the sides are equal; this is the step from equal areas to equal boxes |
| Bbox.PassesContainment | src/starplot/base.py:82-88 | the containment test of `_maybe_remove_label`: the intersection of the axes box with the label box exists and has the label's area |
| Bbox.PassesContainmentIffContained | src/starplot/base.py:84-88 | for a label of positive width and height, the "intersection exists and has the label's area" test holds iff the label lies inside the axes box |
| Bbox.DegenerateLabelPassesContainment | src/starplot/base.py:84-88 | a zero-width label that sticks out of the axes still passes the containment test |
| Layout.Collides | src/starplot/base.py:73-77 | `_is_label_collision`: some kept box has an intersection with the extent |
| Layout.Accepts | src/starplot/base.py:84-90 | the condition of `_maybe_remove_label`: containment passes and, when colliding labels are hidden, there is no collision |
| Layout.Propose | src/starplot/base.py:79-94 | one `_maybe_remove_label` on values: an accepted label and its extent are appended, and a rejected one is recorded as removed |
| Layout.ProposeAll | src/starplot/base.py:79-94 | the labels of a sequence proposed one after the other, first to last |
| Layout.EmptyConsistent | src/starplot/base.py:52-53 | the empty label state satisfies the session invariant: aligned lists, each kept box the measured box of its label and passing the containment test, and with hiding on no two kept boxes intersecting |
| Layout.ProposeConsistent | src/starplot/base.py:79-94 | one proposal keeps the label state consistent |
| Layout.ProposeAllConsistent | src/starplot/base.py:79-94 | any sequence of proposals keeps the label state consistent |
| Layout.ProposeKeepsOrRemoves | src/starplot/base.py:84-94 | an accepted label is appended to both lists; a rejected one leaves both lists unchanged and is recorded as removed |
| Layout.WithoutHidingOnlyContainmentDecides | src/starplot/base.py:84-90 | with collision hiding off, acceptance is exactly the containment test |
| Layout.ProposeAllConcat | src/starplot/base.py:79-94 | proposing `a + b` is proposing `a` and then `b` |
| Layout.ProposeAllExtends | src/starplot/base.py:91-94 | proposals only append: old lists are prefixes of the new ones, and every proposed label ends up kept or removed exactly once |
| Layout.EarlierKeptStayKept | src/starplot/base.py:91-92 | labels kept after `a` are still kept, in the same positions, after any further proposals `b` |
| Layout.ProposeAllSnoc | src/starplot/base.py:79-94 | proposing one more label is one more `Propose` step |
| Layout.ProposeAllSingle | src/starplot/base.py:79-94 | proposing at most one label is zero or one `Propose` step |
| Layout.ProposeAllPair | src/starplot/base.py:79-94 | proposing two labels is two `Propose` steps in order |
| Layout.SecondOfMeetingPairRemoved | src/starplot/base.py:89 | with hiding on, of two acceptable labels whose boxes meet, only the first is kept |
| Layout.FirstPlottedWins | src/starplot/base.py:89-92 | with hiding on, for two meeting labels the kept one is whichever is proposed first |
| Layout.KeptLabelInsideAxes | src/starplot/base.py:84-88 | in a consistent state every kept box (of positive size) lies inside the axes box |
| Layout.KeptLabelsDoNotOverlap | src/starplot/base.py:89 | with hiding on, no point lies in two different kept boxes |
| Legend.AddHandle | src/starplot/base.py:96-107 | the label becomes a key; existing handles are never replaced; a new handle has marker size 16 times the size multiplier and is appended to the order |
| Legend.NoHandlesValid | src/starplot/base.py:54 | the empty legend dictionary is well formed |
| Legend.AddHandleValid | src/starplot/base.py:96-107 | insertion keeps the order a duplicate-free listing of exactly the keys |
| Legend.AddHandleIdempotent | src/starplot/base.py:97 | adding the same label twice, with any styles, equals adding it once |
| Legend.Values | src/starplot/base.py:130 | the handles passed to the legend are the entries in insertion order, one per key |
| Legend.OrderCoversEntries | src/starplot/base.py:130 | a well-formed legend has as many handles in order as keys |
| Legend.DistinctSeqCardinality | src/starplot/base.py:130 | a duplicate-free sequence has as many elements as its set |
| Base.LegendTargetFor | src/starplot/base.py:120-127 | the legend targets the figure exactly for the outside-top and outside-bottom locations |
| Base.CircleAsEllipse | src/starplot/base.py:391-398 | a circle of radius r is the ellipse with height and width 2r, angle 0, same centre and point count |
| Base.StarPlot.constructor | src/starplot/base.py:24-63 | a fresh session stores its settings and has no labels, no handles, no legend and nothing drawn |
| Base.StarPlot.IsLabelCollision | src/starplot/base.py:73-77 | the search answers true iff some kept box intersects the extent |
| Base.StarPlot.MaybeRemoveLabel | src/starplot/base.py:79-94 | the label state becomes `Propose` of the old state: kept iff contained and, with hiding on, not colliding |
| Base.StarPlot.AddLegendHandleMarker | src/starplot/base.py:96-107 | the legend becomes `AddHandle` of the old legend (insert only if absent) |
| Base.StarPlot.RefreshLegend | src/starplot/base.py:109-132 | nothing changes when the legend style is invisible or there are no handles; otherwise the legend is drawn with the handles in insertion order on the target its location selects |
| Base.StarPlot.TextAt | src/starplot/base.py:233-243 | a text is placed at the prepared coordinates of (ra, dec) with the given content and style |
| Base.StarPlot.PlotObject | src/starplot/base.py:196-231 | out of bounds nothing changes; in bounds a marker is drawn, a handle is added only if the object has a legend label, and a label is proposed only if the label style is visible |
| Base.StarPlot.PlotText | src/starplot/base.py:233-245 | exactly one proposal, of the text at the prepared coordinates |
| Base.StarPlot.ObjectTexts | src/starplot/base.py:205-231 | `plot_object` proposes at most one label, and one iff the object is in bounds with a visible label style |
| Base.StarPlot.PlanetMarkers | src/starplot/base.py:253-265 | at most one marker per planet |
| Base.StarPlot.PlanetMarkersExact | src/starplot/base.py:253-265 | the markers are exactly one per in-bounds planet, in list order, at its prepared coordinates in the planet marker style |
| Base.StarPlot.PlanetTexts | src/starplot/base.py:253-265 | at most one label per planet |
| Base.StarPlot.PlanetTextsExact | src/starplot/base.py:253-265 | with a visible planet label style the proposals are exactly the upper-cased names of the in-bounds planets, in list order; with an invisible one there are none |
| Base.StarPlot.PlotPlanet | src/starplot/base.py:254-265 | one planet adds its marker and label through `plot_object`, and the "Planet" handle iff it is in bounds |
| Base.StarPlot.PlanetsPrefix | src/starplot/base.py:253-265 | markers, labels and the "any in bounds" flag of a prefix extend by exactly the next planet's |
| Base.StarPlot.PlanetAdvance | src/starplot/base.py:253-265 | one loop step carries the progress invariant from planet i to i + 1 |
| Base.StarPlot.PlotPlanetStep | src/starplot/base.py:253-265 | one planet step keeps the session valid and advances the progress invariant |
| Base.StarPlot.PlotPlanets | src/starplot/base.py:247-265 | with an invisible marker nothing changes; otherwise all planet markers and labels are added in order, and "Planet" is registered iff some planet is in bounds (once) |
| Base.StarPlot.PlotMoon | src/starplot/base.py:267-284 | with an invisible marker nothing changes; otherwise the moon goes through `plot_object` as "MOON" with legend label "Moon" |
| Base.StarPlot.PolygonPoints | src/starplot/base.py:301-302 | the points map one-to-one, in order, through `to_radec` and the coordinate preparation |
| Base.StarPlot.PlotPolygonPoints | src/starplot/base.py:300-309 | one polygon of the mapped points is drawn and nothing else changes |
| Base.StarPlot.PlotPolygon | src/starplot/base.py:311-318 | `plot_polygon` draws what `_plot_polygon` draws for the same points |
| Base.StarPlot.PlotRectangle | src/starplot/base.py:320-345 | a rectangle draws the polygon of the geodesic rectangle's points |
| Base.StarPlot.PlotEllipse | src/starplot/base.py:347-374 | an ellipse draws the polygon of the geodesic ellipse's points |
| Base.StarPlot.PlotCircle | src/starplot/base.py:376-398 | a circle draws exactly what `plot_ellipse(center, 2r, 2r, angle=0, num_pts)` draws |
| Ecliptic.EclipticLine | src/starplot/plotters/ecliptic.py:9-10 | one point per entry, in order, with x = ra * 15 and y = dec |
| Ecliptic.InBoundsFilter | src/starplot/plotters/ecliptic.py:21-24 | the `inbounds` list: the entries passing `in_bounds`, in their order |
| Ecliptic.InBoundsFilterExact | src/starplot/plotters/ecliptic.py:21-24 | the in-bounds list holds exactly the entries that are in bounds |
| Ecliptic.CollectInBounds | src/starplot/plotters/ecliptic.py:21-24 | the append loop builds the order-preserving in-bounds sublist |
| Ecliptic.LabelSpacing | src/starplot/plotters/ecliptic.py:27 | the spacing is at least 1, and for n > 4 it is floor(n/3), so the `or 1` fallback never fires there |
| Ecliptic.Range | src/starplot/plotters/ecliptic.py:29 | `range(start, n, s)` starts at `start` when `start < n` and is empty otherwise |
| Ecliptic.RangeBounds | src/starplot/plotters/ecliptic.py:29 | every index of the range lies in [start, n) |
| Ecliptic.RangeLast | src/starplot/plotters/ecliptic.py:29 | the last index is below n and one more stride reaches n |
| Ecliptic.LabelIndices | src/starplot/plotters/ecliptic.py:26-29 | every label index is a valid index of the in-bounds list |
| Ecliptic.RangeElements | src/starplot/plotters/ecliptic.py:29 | the k-th index is start + k * s |
| Ecliptic.RangeUnfold | src/starplot/plotters/ecliptic.py:29 | a nonempty range is one index followed by the range one stride on |
| Ecliptic.RangeCount | src/starplot/plotters/ecliptic.py:27-29 | for n > 4 and s = floor(n/3) there are 3 to 5 indices: 3 iff n = 3s, 5 iff n = 5 |
| Ecliptic.LabelCount | src/starplot/plotters/ecliptic.py:26-29 | no labels for at most 4 in-bounds points; otherwise 3 to 5, with 3 iff n is a multiple of 3 and 5 iff n = 5 |
| Ecliptic.LabelTexts | src/starplot/plotters/ecliptic.py:30-38 | label k is "ECLIPTIC" at (ra, dec - 0.4) of the k-th chosen in-bounds point |
| Ecliptic.EclipticTexts | src/starplot/plotters/ecliptic.py:20-38 | the labels `plot_ecliptic2` proposes: none when the label style is invisible or at most 4 points are in bounds, otherwise the labels at the stride indices |
| Ecliptic.EclipticTextsCount | src/starplot/plotters/ecliptic.py:20-29 | labels are proposed iff the label style is visible and more than 4 points are in bounds, and then there are 3 to 5 |
| Ecliptic.LabelTextFromPoint | src/starplot/plotters/ecliptic.py:30-38 | every label sits 0.4 below some point of the in-bounds list |
| Ecliptic.EclipticTextsInBounds | src/starplot/plotters/ecliptic.py:20-38 | every proposed label sits 0.4 below an entry that is in bounds |
| Ecliptic.RangeStep | src/starplot/plotters/ecliptic.py:29 | the indices done so far plus the rest are unchanged by taking one more index |
| Ecliptic.LabelTextsSnoc | src/starplot/plotters/ecliptic.py:30-38 | one more index adds exactly its label at the end |
| Ecliptic.LabelAdvance | src/starplot/plotters/ecliptic.py:29-38 | one `_plot_text` call advances the loop invariant by one stride |
| Ecliptic.LabelDone | src/starplot/plotters/ecliptic.py:29 | when the loop leaves, exactly the labels at all range indices have been proposed |
| Ecliptic.PlotLabels | src/starplot/plotters/ecliptic.py:26-38 | the stride loop proposes the labels at indices 0, s, 2s, ... in order, through the collision rule |
| Ecliptic.PlotEcliptic2 | src/starplot/plotters/ecliptic.py:5-38 | an invisible line draws nothing and proposes nothing (even with visible labels); otherwise the line is drawn and the ecliptic labels are proposed |
| Seqs.Filter | src/starplot/plotters/ecliptic.py:21-24 | an order-preserving filter is no longer than its input |
| Seqs.FilterSnoc | src/starplot/plotters/ecliptic.py:22-24 | one more element extends the filter by that element iff it passes |
| Seqs.FilterSound | src/starplot/plotters/ecliptic.py:23 | whatever the filter keeps is in the input and passes |
| Seqs.FilterComplete | src/starplot/plotters/ecliptic.py:23 | whatever in the input passes is kept |
| Seqs.FilterConcat | src/starplot/zenith.py:161 | filtering distributes over concatenation |
| Seqs.FilterIdempotent | src/starplot/zenith.py:207-209 | filtering twice by the same test equals filtering once |
| Seqs.FilterAll | src/starplot/zenith.py:207-209 | the filter returns its input iff every element passes |
| Strings.UpperChar | src/starplot/zenith.py:141 | a lower-case ASCII letter maps to its capital and everything else is unchanged; the result is never lower case |
| Strings.Upper | src/starplot/zenith.py:141 | upper-casing maps characters one-to-one |
| Strings.UpperIdempotent | src/starplot/zenith.py:248 | upper-casing twice equals once |
| Zenith.IncludedSegments | src/starplot/zenith.py:21-35 | the segments of `stars_1`/`stars_2`: each constellation's segments, in order, when its in-view flag is raised |
| Zenith.ProjectedLines | src/starplot/zenith.py:17-40 | the specification of `create_projected_constellation_lines`: None on a missing position, otherwise the endpoint positions of the included segments |
| Zenith.SegmentPoints | src/starplot/zenith.py:37-40 | pair i of the output is the positions of both ends of segment i |
| Zenith.IncludedKnown | src/starplot/zenith.py:26-27 | every endpoint of an included segment has a position |
| Zenith.IncludedSegmentsConcat | src/starplot/zenith.py:21-35 | inclusion is decided per constellation, so it distributes over concatenation |
| Zenith.AllOrNothing | src/starplot/zenith.py:21-35 | a constellation contributes all its segments, in order, when in view, and none otherwise |
| Zenith.IncludedSegmentsInView | src/starplot/zenith.py:28-35 | every included segment belongs to a constellation with some endpoint inside radius 1.1 |
| Zenith.AllKnownStep | src/starplot/zenith.py:21-27 | the "all positions known" fact extends by one constellation |
| Zenith.IncludedStep | src/starplot/zenith.py:33-35 | one more constellation extends the output by its segments iff it is in view |
| Zenith.ScanConstellation | src/starplot/zenith.py:22-31 | the inner loop fails iff some endpoint has no position; otherwise it lists both endpoints of every segment in order and raises the flag iff some endpoint is within radius 1.1 |
| Zenith.CreateProjectedConstellationLines | src/starplot/zenith.py:17-40 | the loop's result is the specification: a missing position is an error; otherwise the positions of the included segments |
| Zenith.SizeFor | src/starplot/zenith.py:176-181 | magnitude below 2 takes exponent 2.56, 2 to 8 takes 1.68, both on base 8 - m; otherwise the size is the constant 2 times the multiplier |
| Zenith.StarMarkers | src/starplot/zenith.py:167-184 | x, y and size lists have equal length, one entry per bright star inside radius 1, in catalog order, with the size of its branch |
| Zenith.ZenithPlot.InBoundsIsCircle | src/starplot/zenith.py:104-107 | `in_bounds` is the default-radius circle test of the projected point |
| Zenith.ZenithPlot.constructor | src/starplot/zenith.py:65-101 | the part of `__init__` before `_init_plot`: a valid plot holding the given projection and tables, with no labels, handles or drawings yet |
| Zenith.ZenithPlot.LabelledStarsExact | src/starplot/zenith.py:161-213 | a star is labelled iff it is within both magnitude limits, in the circle and in the zenith star set |
| Zenith.ZenithPlot.NamesFollowCatalogOrder | src/starplot/zenith.py:210-213 | because the sorted result is discarded, a fainter star listed first is proposed first |
| Zenith.ZenithPlot.NamedStep | src/starplot/zenith.py:212-227 | one more catalog row adds its name label iff it is in the circle and in the zenith star set |
| Zenith.ZenithPlot.PlotStarLabels | src/starplot/zenith.py:212-227 | the label loop proposes the names of the nameable stars in catalog order |
| Zenith.ZenithPlot.PlotStars | src/starplot/zenith.py:149-227 | the scatter is drawn iff the marker is visible; "Star" is registered in every case; star names are proposed iff the label style is visible |
| Zenith.ZenithPlot.StarTextsOf | src/starplot/zenith.py:214-224 | one name label per star, right of and below it |
| Zenith.ZenithPlot.PlotConstellationLines | src/starplot/zenith.py:116-127 | an invisible line style draws nothing; otherwise the line collection is drawn, or the call fails if a position is missing |
| Zenith.ZenithPlot.ConstellationTextsOf | src/starplot/zenith.py:138-146 | one label per constellation |
| Zenith.ZenithPlot.ConstellationTextsExact | src/starplot/zenith.py:133-146 | the proposed labels are exactly the upper-cased names of constellations in the circle, in the constellation label style |
| Zenith.ZenithPlot.ConstellationStep | src/starplot/zenith.py:133-147 | one more constellation adds its own label or nothing |
| Zenith.ZenithPlot.PlotConstellationLabel | src/starplot/zenith.py:134-147 | one constellation is proposed iff it is in the circle |
| Zenith.ZenithPlot.PlotConstellationLabels | src/starplot/zenith.py:129-147 | an invisible label style proposes nothing; otherwise the in-circle constellations are proposed in order |
| Zenith.ZenithPlot.VisibleDsos | src/starplot/zenith.py:233-237 | every DSO the loop draws is a key of the Messier table |
| Zenith.ZenithPlot.FilterVisibleDsos | src/starplot/zenith.py:233-237 | a filtered list of Messier ids holds only Messier ids |
| Zenith.ZenithPlot.DsoMarkersOf | src/starplot/zenith.py:238-244 | one marker per visible DSO at its projected position |
| Zenith.ZenithPlot.DsoTextsOf | src/starplot/zenith.py:245-255 | one upper-cased label per visible DSO |
| Zenith.ZenithPlot.VisibleDsosExact | src/starplot/zenith.py:233-237 | a DSO is drawn iff it is a zenith base entry inside the circle |
| Zenith.ZenithPlot.PlotDso | src/starplot/zenith.py:234-257 | inside the circle: one marker, one proposal of the upper-cased id and the "DSO" handle; outside: nothing changes |
| Zenith.ZenithPlot.DsoSnoc | src/starplot/zenith.py:233-257 | one more visible DSO adds its marker and its label at the end |
| Zenith.ZenithPlot.DsoAdvanceInside | src/starplot/zenith.py:237-257 | a step inside the circle advances the loop invariant with its marker, label and handle |
| Zenith.ZenithPlot.DsoAdvanceOutside | src/starplot/zenith.py:237 | a step outside the circle advances the loop invariant without changing anything |
| Zenith.ZenithPlot.DsoStart | src/starplot/zenith.py:233 | the loop invariant holds before the first entry |
| Zenith.ZenithPlot.DsoDone | src/starplot/zenith.py:233-257 | after the loop all visible DSOs have been drawn and proposed in list order, and "DSO" is registered iff any was visible |
| Zenith.ZenithPlot.PlotDsoStep | src/starplot/zenith.py:233-257 | one entry keeps the plot valid and advances the loop invariant |
| Zenith.ZenithPlot.PlotDsoBase | src/starplot/zenith.py:229-257 | an invisible marker does nothing; otherwise each in-circle entry, in order, gets a marker and a label, and "DSO" is registered at most once |
| Zenith.ZenithPlot.ProjectedEcliptic | src/starplot/zenith.py:312-316 | one projected point per ecliptic entry, in order |
| Zenith.ZenithPlot.PlotEcliptic | src/starplot/zenith.py:305-325 | the projected ecliptic line is drawn iff its style is visible |
| Zenith.ZenithPlot.PlotCatalog | src/starplot/zenith.py:339-341 | stars, constellation lines and labels run in that order; failure happens iff a line position is missing; on success the proposals are the star names then the constellation names and "Star" is registered |
| Zenith.ZenithPlot.PlotSolarSystem | src/starplot/zenith.py:344-345 | planets then the moon; the proposals are the planet labels then the moon label; no legend key is lost |
| Zenith.ZenithPlot.InitPlot | src/starplot/zenith.py:327-347 | the full sequence proposes catalog, DSO, planet and moon labels in that order and ends with the legend drawn from all handles when the legend style is visible |
| Dsos.Value | src/starplot/data/dsos.py:132-161 | each member's `.value` string, as in the source |
| Dsos.KeyOfEntryInMap | src/starplot/data/dsos.py:164-191 | every listed key is a key of the dictionary built from the entries |
| Dsos.MapValueFromEntry | src/starplot/data/dsos.py:164-191 | every dictionary value comes from a listed entry |
| Dsos.MessierBlock0InRange | src/starplot/data/dsos.py:3-113 | the first block of Messier entries has RA in [0, 24) and dec in [-90, 90] |
| Dsos.MessierBlock1InRange | src/starplot/data/dsos.py:3-113 | the same for the second block |
| Dsos.MessierBlock2InRange | src/starplot/data/dsos.py:3-113 | the same for the third block |
| Dsos.MessierBlock3InRange | src/starplot/data/dsos.py:3-113 | the same for the fourth block |
| Dsos.MessierBlock4InRange | src/starplot/data/dsos.py:3-113 | the same for the fifth block |
| Dsos.MessierBlock5InRange | src/starplot/data/dsos.py:3-113 | the same for the sixth block |
| Dsos.MessierBlock6InRange | src/starplot/data/dsos.py:3-113 | the same for the seventh block |
| Dsos.MessierBlock7InRange | src/starplot/data/dsos.py:3-113 | the same for the eighth block |
| Dsos.MessierBlock8InRange | src/starplot/data/dsos.py:3-113 | the same for the ninth block |
| Dsos.MessierBlock9InRange | src/starplot/data/dsos.py:3-113 | the same for the tenth block |
| Dsos.MessierBlock10InRange | src/starplot/data/dsos.py:3-113 | the same for the last block |
| Dsos.MessierInRange | src/starplot/data/dsos.py:3-113 | every `messier` entry has RA in [0, 24) and dec in [-90, 90] |
| Dsos.ZenithBaseInMessier | src/starplot/data/dsos.py:115-129 | every `ZENITH_BASE` id is a key of `messier`, as the unpacking at zenith.py:234 needs |
| Dsos.FromValue | src/starplot/data/dsos.py:132-161 | `DsoType(s)` succeeds only for the value of a member, and returns that member |
| Dsos.ValueRoundTrip | src/starplot/data/dsos.py:132-161 | `DsoType(t.value) == t` for all 21 members |
| Dsos.ValueRoundTripGroup1 | src/starplot/data/dsos.py:137-142 | the round trip for the first five members (stars and clusters) |
| Dsos.ValueRoundTripGroup2 | src/starplot/data/dsos.py:144-149 | the round trip for the four galaxy members and `NEBULA` |
| Dsos.ValueRoundTripGroup3 | src/starplot/data/dsos.py:150-155 | the round trip for the next five nebula members |
| Dsos.ValueRoundTripGroup4 | src/starplot/data/dsos.py:156-158 | the round trip for the HII region, supernova remnant and nova members |
| Dsos.ValueRoundTripGroup5 | src/starplot/data/dsos.py:159-161 | the round trip for the nonexistent, unknown and duplicate-record members |
| Dsos.OngcCodesDistinct | src/starplot/data/dsos.py:164-191 | all ONGC codes are distinct |
| Dsos.OngcTypeTotal | src/starplot/data/dsos.py:164-191 | `ONGC_TYPE` has an entry for every one of the 21 members |
| Dsos.OngcTypeTotalGroup1 | src/starplot/data/dsos.py:164-191 | the first seven members have an entry |
| Dsos.OngcTypeTotalGroup2 | src/starplot/data/dsos.py:164-191 | the next seven members have an entry |
| Dsos.OngcTypeTotalGroup3 | src/starplot/data/dsos.py:164-191 | the last seven members have an entry |
| Dsos.OngcTypesDistinct | src/starplot/data/dsos.py:164-191 | no member is listed twice |
| Dsos.ToMapAt | src/starplot/data/dsos.py:164-191 | with distinct keys, each listed entry is what the dictionary holds for its key |
| Dsos.Inverted | src/starplot/data/dsos.py:193 | the comprehension turns entry i into (code, member value) |
| Dsos.OngcTypeRoundTrip | src/starplot/data/dsos.py:193 | `ONGC_TYPE_MAP[ONGC_TYPE[t]] == t.value` for every member |
| Dsos.OngcCodeRoundTrip | src/starplot/data/dsos.py:193 | `ONGC_TYPE[DsoType(ONGC_TYPE_MAP[c])] == c` for every code |
| Dsos.OngcTypeInjective | src/starplot/data/dsos.py:164-191 | distinct members have distinct codes |
| Dsos.DefaultDsoTypesShape | src/starplot/data/dsos.py:195-213 | `DEFAULT_DSO_TYPES` is duplicate-free, a subset of `ONGC_TYPE`'s keys, exactly the cluster, galaxy and nebula families plus associations of stars, and excludes double stars |
| Dsos.DefaultDsoTypesFamily | src/starplot/data/dsos.py:195-213 | membership in the defaults is the family rule above |
| Dsos.LegendLabelsByFamily | src/starplot/data/dsos.py:216-228 | only galaxy- and nebula-family types have a legend label, "Galaxy" and "Nebula" respectively |

## Data tables

The constants and the datatype that reproduce the source's tables. Their entries match the source and are in its order. The lemmas about them are in the model table above.

| constant | source | defines |
|---|---|---|
| Dsos.MessierEntries | src/starplot/data/dsos.py:3-113 | the 109 entries of `messier` (id, (ra, dec)) in the source's order |
| Dsos.Messier | src/starplot/data/dsos.py:3-113 | the `messier` dictionary built from those entries |
| Dsos.ZenithBase | src/starplot/data/dsos.py:115-129 | the 13 ids of `ZENITH_BASE` in the source's order |
| Dsos.DsoType | src/starplot/data/dsos.py:132-161 | the 21 members of `DsoType`, in the source's order |
| Dsos.OngcTypeEntries | src/starplot/data/dsos.py:164-191 | the 21 entries of `ONGC_TYPE` (member, code) in the source's order |
| Dsos.OngcType | src/starplot/data/dsos.py:164-191 | the `ONGC_TYPE` dictionary built from those entries |
| Dsos.OngcTypeMap | src/starplot/data/dsos.py:193 | `ONGC_TYPE_MAP`: the dictionary built from the inverted entries |
| Dsos.DefaultDsoTypes | src/starplot/data/dsos.py:195-213 | the members of `DEFAULT_DSO_TYPES` in the source's order |
| Dsos.LegendLabels | src/starplot/data/dsos.py:216-228 | the 9 entries of `LEGEND_LABELS`, as in the source |

## Left out

- Rendering is abstracted. matplotlib drawing (`ax.plot`, `ax.text`, patches, `LineCollection`, `scatter`, `legend`) becomes entries of a drawn log, and `label.remove()` becomes the list of removed labels. Colours, alpha, z-order, clipping, path effects and keyword arguments are not modelled.
- Text measurement (`get_window_extent`) is a function of the text, fixed for the session. The axes box is a constant of the session, because the figure is not resized while labels are placed.
- `adjust_labels` (the adjustText relaxation), `close_fig`, `export` and `draw_reticle` are rendering or I/O, not bookkeeping.
- The zenith `_plot_border`, the info text and `_calc_position` are drawing and date formatting only.
- Floating point is left out. Coordinates and sizes are exact reals. The star-size powers `(8 - m) ** 2.56` and `** 1.68` are kept symbolic, as base, exponent and factor. The figure size and DPI are not modelled. The two size multipliers are fixed by their formulas in `Base.StarPlot.Valid`: `sizeMultiplier == resolution / 3000` and `starSizeMultiplier == sizeMultiplier * style.starMarkerSize / 5`.
- Skyfield (`build_stereographic_projection`, `position_of_radec`, `observe`, `wgs84`, ephemeris loading) and `get_planet_positions` are foreign. The projection is a function parameter. Planet and moon positions and the projected star catalog are inputs.
- `geod.to_radec`, `geod.rectangle` and `geod.ellipse` are uninterpreted. Only the delegation and the one-to-one point mapping are stated.
- `in_circle` lives in `starplot.utils`, which is not part of this model. It is an uninterpreted test. Its default radius is a constant of the plot whose value is not fixed.
- `stars.hip_names`, `stars.ZENITH_BASE`, `constellations.load`/`iterator`/`get` and `ecliptic.RA_DECS` come from data modules that are not part of this model. They are parameters.
- Zenith.ZenithPlot.PlotStarLabels: a missing `hip_names` entry (a KeyError in the source) is not modelled. The name table is total.
- Zenith.CreateProjectedConstellationLines: a missing catalog position (the `.loc` KeyError) is modelled as a `None` result. In `InitPlot` it becomes `ok == false` and the remaining steps are skipped, where the source raises.
- The zenith plot holds a `StarPlot` instead of inheriting from it. `in_bounds` and `_prepare_coords` are the session's function fields, and the zenith constructor ties them to the projection and the circle test.
- Strings.Upper: covers ASCII letters only. Python's `str.upper` also maps non-ASCII letters, and can lengthen a string.
- Strings.UpperChar: maps only the ASCII letters `a` to `z`. Every other character, including non-ASCII letters that `str.upper` would change, is left as it is.
- Bbox.Intersection: follows matplotlib's code, whose closed bounds make touching boxes collide, rather than a strict-overlap reading.
- Zenith.ZenithPlot.InitPlot: states the label proposals and the final legend. It does not restate the drawn log or the full set of legend keys, which the contracts of the steps it calls give one by one.
- Zenith.ZenithPlot.PlotSolarSystem: on the legend it states only that no legend key is lost. The exact handle changes are the contracts of `PlotPlanets` and `PlotMoon`. It does not restate the drawn log either.
- Zenith.ZenithPlot.PlotCatalog: on the legend it states only that "Star" is registered. The full handle change is the contract of `PlotStars`.
- `EclipticPlotter` is modelled as functions of a `StarPlot` session. The mixin's `self` is that session.
- Zenith.ZenithPlot.constructor: models `__init__` up to line 101 of `src/starplot/zenith.py`. The call to `_init_plot` at line 102 is the separate method `InitPlot`, because the star catalog, constellation data, ecliptic points and planet and moon positions it plots are that method's parameters. A constructed plot in the model is therefore empty until `InitPlot` runs.
- Base.StarPlot.PlotRectangle, Base.StarPlot.PlotEllipse, Base.StarPlot.PlotCircle: Dafny has no default arguments. The source's defaults `angle=0` (rectangle and ellipse) and `num_pts=100` (ellipse and circle) must be passed explicitly.
- Zenith.ZenithPlot.PlotCatalog, Zenith.ZenithPlot.InitPlot: the drawn star rows and the line endpoint lookup are separate parameters, where the source takes both from `self._stardata`. The requirement `SameCatalog` ties them together: each row's position is its lookup entry.
