/** The zenith plot: a stereographic view centred on the observer's zenith,
    clipped to the unit circle. */
module Zenith {
  import opened Wrappers
  import opened Seqs
  import opened Strings
  import opened Styles
  import opened Bbox
  import opened Layout
  import opened Legend
  import opened Base
  import Dsos

  /** Radius of the circle test that admits a constellation's lines. */
  const LineRadius: real := 1.1
  /** Radius of the circle test that admits a star marker. */
  const MarkerRadius: real := 1.0
  /** Offset of a star name from its star, in plot coordinates. */
  const StarLabelDx: real := 0.00984
  const StarLabelDy: real := 0.006

  /** A constellation line between two Hipparcos ids. */
  datatype Segment = Segment(star1: int, star2: int)

  /** One constellation of the line data: its name and its segments. */
  datatype ConstellationLines = ConstellationLines(name: string, lines: seq<Segment>)

  /** One constellation of the label data: full name and label position. */
  datatype ConstellationInfo = ConstellationInfo(fullname: string, ra: real, dec: real)

  /** One row of the star catalog after projection, in catalog order. */
  datatype StarRow = StarRow(hip: int, magnitude: real, x: real, y: real)

  /** The projected catalog indexed by Hipparcos id (`.loc`). */
  type Positions = map<int, (real, real)>

  /** `in_circle(x, y, radius)`, which the model leaves uninterpreted. */
  type CircleTest = (real, real, real) -> bool

  // ---------------------------------------------------------------------
  // create_projected_constellation_lines

  predicate SegmentKnown(positions: Positions, s: Segment)
  {
    s.star1 in positions && s.star2 in positions
  }

  /** Every endpoint of every segment has a projected position. */
  predicate AllKnown(positions: Positions, cons: seq<ConstellationLines>)
  {
    forall c, j :: 0 <= c < |cons| && 0 <= j < |cons[c].lines| ==> SegmentKnown(positions, cons[c].lines[j])
  }

  predicate StarInView(positions: Positions, inCircle: CircleTest, star: int)
  {
    star in positions && inCircle(positions[star].0, positions[star].1, LineRadius)
  }

  predicate SegmentInView(positions: Positions, inCircle: CircleTest, s: Segment)
  {
    StarInView(positions, inCircle, s.star1) || StarInView(positions, inCircle, s.star2)
  }

  /** A constellation is in view when one endpoint of one of its segments is. */
  predicate ConstellationInView(positions: Positions, inCircle: CircleTest, con: ConstellationLines)
  {
    exists j :: 0 <= j < |con.lines| && SegmentInView(positions, inCircle, con.lines[j])
  }

  /** The segments of the constellations in view, whole constellations at a
      time, in constellation order and segment order. */
  function IncludedSegments(positions: Positions, inCircle: CircleTest, cons: seq<ConstellationLines>): seq<Segment>
    decreases |cons|
  {
    if cons == [] then []
    else
      var last := cons[|cons| - 1];
      IncludedSegments(positions, inCircle, cons[..|cons| - 1]) +
      (if ConstellationInView(positions, inCircle, last) then last.lines else [])
  }

  function PointOf(p: (real, real)): Point
  {
    Point(p.0, p.1)
  }

  /** The projected endpoints of each segment, pair i from segment i. */
  function SegmentPoints(positions: Positions, segs: seq<Segment>): (r: seq<(Point, Point)>)
    requires forall i :: 0 <= i < |segs| ==> segs[i].star1 in positions && segs[i].star2 in positions
    ensures |r| == |segs|
    ensures forall i :: 0 <= i < |segs| ==>
      r[i] == (PointOf(positions[segs[i].star1]), PointOf(positions[segs[i].star2]))
  {
    seq(|segs|, i requires 0 <= i < |segs| => (PointOf(positions[segs[i].star1]), PointOf(positions[segs[i].star2])))
  }

  lemma {:induction false} IncludedKnown(positions: Positions, inCircle: CircleTest, cons: seq<ConstellationLines>)
    requires AllKnown(positions, cons)
    ensures forall i :: 0 <= i < |IncludedSegments(positions, inCircle, cons)| ==>
      IncludedSegments(positions, inCircle, cons)[i].star1 in positions &&
      IncludedSegments(positions, inCircle, cons)[i].star2 in positions
    decreases |cons|
  {
    if cons != [] {
      var init := cons[..|cons| - 1];
      assert AllKnown(positions, init) by {
        forall c, j | 0 <= c < |init| && 0 <= j < |init[c].lines|
          ensures SegmentKnown(positions, init[c].lines[j])
        {
          assert init[c] == cons[c];
        }
      }
      IncludedKnown(positions, inCircle, init);
      var last := cons[|cons| - 1];
      var a := IncludedSegments(positions, inCircle, init);
      var b: seq<Segment> := if ConstellationInView(positions, inCircle, last) then last.lines else [];
      assert forall j :: 0 <= j < |last.lines| ==> SegmentKnown(positions, last.lines[j]);
      forall i | 0 <= i < |a + b|
        ensures (a + b)[i].star1 in positions && (a + b)[i].star2 in positions
      {
        if i < |a| {
          assert (a + b)[i] == a[i];
        } else {
          assert (a + b)[i] == b[i - |a|];
        }
      }
    }
  }

  /** What `create_projected_constellation_lines` returns: `None` when some
      segment names a star without a position (the `.loc` lookup fails),
      otherwise the segment pairs of the constellations in view. */
  function ProjectedLines(positions: Positions, inCircle: CircleTest, cons: seq<ConstellationLines>): Option<seq<(Point, Point)>>
  {
    if AllKnown(positions, cons) then
      IncludedKnown(positions, inCircle, cons);
      Some(SegmentPoints(positions, IncludedSegments(positions, inCircle, cons)))
    else None
  }

  /** Constellation order is kept: the included segments of a concatenation
      are the included segments of each part. */
  lemma {:induction false} IncludedSegmentsConcat(positions: Positions, inCircle: CircleTest, a: seq<ConstellationLines>, b: seq<ConstellationLines>)
    ensures IncludedSegments(positions, inCircle, a + b) ==
      IncludedSegments(positions, inCircle, a) + IncludedSegments(positions, inCircle, b)
    decreases |b|
  {
    if b == [] {
      assert a + b == a;
    } else {
      var init := b[..|b| - 1];
      var last := b[|b| - 1];
      var tail: seq<Segment> := if ConstellationInView(positions, inCircle, last) then last.lines else [];
      IncludedSegmentsConcat(positions, inCircle, a, init);
      assert (a + b)[..|a + b| - 1] == a + init;
      assert (a + b)[|a + b| - 1] == last;
      calc {
        IncludedSegments(positions, inCircle, a + b);
        IncludedSegments(positions, inCircle, a + init) + tail;
        IncludedSegments(positions, inCircle, a) + IncludedSegments(positions, inCircle, init) + tail;
        IncludedSegments(positions, inCircle, a) + (IncludedSegments(positions, inCircle, init) + tail);
        IncludedSegments(positions, inCircle, a) + IncludedSegments(positions, inCircle, b);
      }
    }
  }

  /** All or nothing: constellation k contributes all of its segments, in
      its own order, when it is in view, and none otherwise. */
  lemma AllOrNothing(positions: Positions, inCircle: CircleTest, cons: seq<ConstellationLines>, k: int)
    requires 0 <= k < |cons|
    ensures IncludedSegments(positions, inCircle, cons) ==
      IncludedSegments(positions, inCircle, cons[..k]) +
      (if ConstellationInView(positions, inCircle, cons[k]) then cons[k].lines else []) +
      IncludedSegments(positions, inCircle, cons[k + 1..])
  {
    assert cons == cons[..k] + [cons[k]] + cons[k + 1..];
    IncludedSegmentsConcat(positions, inCircle, cons[..k] + [cons[k]], cons[k + 1..]);
    IncludedSegmentsConcat(positions, inCircle, cons[..k], [cons[k]]);
    assert [cons[k]][..0] == [];
  }

  /** Every included segment belongs to a constellation that is in view. */
  lemma {:induction false} IncludedSegmentsInView(positions: Positions, inCircle: CircleTest, cons: seq<ConstellationLines>)
    ensures forall s :: s in IncludedSegments(positions, inCircle, cons) ==>
      exists c :: 0 <= c < |cons| && s in cons[c].lines && ConstellationInView(positions, inCircle, cons[c])
    decreases |cons|
  {
    if cons != [] {
      var init := cons[..|cons| - 1];
      IncludedSegmentsInView(positions, inCircle, init);
      forall s | s in IncludedSegments(positions, inCircle, cons)
        ensures exists c :: 0 <= c < |cons| && s in cons[c].lines && ConstellationInView(positions, inCircle, cons[c])
      {
        if s in IncludedSegments(positions, inCircle, init) {
          var c :| 0 <= c < |init| && s in init[c].lines && ConstellationInView(positions, inCircle, init[c]);
          assert cons[c] == init[c];
        } else {
          assert s in cons[|cons| - 1].lines && ConstellationInView(positions, inCircle, cons[|cons| - 1]);
        }
      }
    }
  }

  lemma AllKnownStep(positions: Positions, cons: seq<ConstellationLines>, c: int)
    requires 0 <= c < |cons| && AllKnown(positions, cons[..c])
    requires forall j :: 0 <= j < |cons[c].lines| ==> SegmentKnown(positions, cons[c].lines[j])
    ensures AllKnown(positions, cons[..c + 1])
  {
    var p := cons[..c + 1];
    forall i, j | 0 <= i < |p| && 0 <= j < |p[i].lines|
      ensures SegmentKnown(positions, p[i].lines[j])
    {
      if i < c {
        assert p[i] == cons[..c][i];
      }
    }
  }

  lemma IncludedStep(positions: Positions, inCircle: CircleTest, cons: seq<ConstellationLines>, c: int)
    requires 0 <= c < |cons|
    ensures IncludedSegments(positions, inCircle, cons[..c + 1]) ==
      IncludedSegments(positions, inCircle, cons[..c]) +
      (if ConstellationInView(positions, inCircle, cons[c]) then cons[c].lines else [])
  {
    assert cons[..c + 1][..c] == cons[..c];
  }

  /** The inner loop over one constellation's segments: the two id lists and
      the in-view flag, or `None` at the first star without a position. */
  method ScanConstellation(positions: Positions, inCircle: CircleTest, lines: seq<Segment>)
    returns (r: Option<(seq<int>, seq<int>, bool)>)
    ensures r.None? <==> exists j :: 0 <= j < |lines| && !SegmentKnown(positions, lines[j])
    ensures r.Some? ==>
      && |r.value.0| == |r.value.1| == |lines|
      && (forall j :: 0 <= j < |lines| ==> lines[j] == Segment(r.value.0[j], r.value.1[j]))
      && (r.value.2 <==> exists j :: 0 <= j < |lines| && SegmentInView(positions, inCircle, lines[j]))
  {
    var anyStarInView := false;
    var constars1: seq<int> := [];
    var constars2: seq<int> := [];
    var j := 0;
    while j < |lines|
      invariant 0 <= j <= |lines|
      invariant forall k :: 0 <= k < j ==> SegmentKnown(positions, lines[k])
      invariant anyStarInView <==> exists k :: 0 <= k < j && SegmentInView(positions, inCircle, lines[k])
      invariant |constars1| == |constars2| == j
      invariant forall k :: 0 <= k < j ==> lines[k] == Segment(constars1[k], constars2[k])
    {
      var s1, s2 := lines[j].star1, lines[j].star2;
      if s1 !in positions || s2 !in positions {
        return None;
      }
      var sx1, sy1 := positions[s1].0, positions[s1].1;
      var sx2, sy2 := positions[s2].0, positions[s2].1;
      if inCircle(sx1, sy1, LineRadius) || inCircle(sx2, sy2, LineRadius) {
        anyStarInView := true;
      }
      constars1 := constars1 + [s1];
      constars2 := constars2 + [s2];
      j := j + 1;
    }
    return Some((constars1, constars2, anyStarInView));
  }

  /** `create_projected_constellation_lines`. */
  method CreateProjectedConstellationLines(positions: Positions, inCircle: CircleTest, consdata: seq<ConstellationLines>)
    returns (r: Option<seq<(Point, Point)>>)
    ensures r == ProjectedLines(positions, inCircle, consdata)
  {
    var stars1: seq<int> := [];
    var stars2: seq<int> := [];
    var c := 0;
    while c < |consdata|
      invariant 0 <= c <= |consdata|
      invariant AllKnown(positions, consdata[..c])
      invariant |stars1| == |stars2| == |IncludedSegments(positions, inCircle, consdata[..c])|
      invariant forall i :: 0 <= i < |stars1| ==>
        IncludedSegments(positions, inCircle, consdata[..c])[i] == Segment(stars1[i], stars2[i])
    {
      var scan := ScanConstellation(positions, inCircle, consdata[c].lines);
      if scan.None? {
        assert !AllKnown(positions, consdata) by {
          var j :| 0 <= j < |consdata[c].lines| && !SegmentKnown(positions, consdata[c].lines[j]);
        }
        return None;
      }
      var (constars1, constars2, anyStarInView) := scan.value;
      IncludedStep(positions, inCircle, consdata, c);
      if anyStarInView {
        stars1 := stars1 + constars1;
        stars2 := stars2 + constars2;
      }
      AllKnownStep(positions, consdata, c);
      c := c + 1;
    }
    assert consdata[..c] == consdata;
    IncludedKnown(positions, inCircle, consdata);
    var pairs := seq(|stars1|, i requires 0 <= i < |stars1| && stars1[i] in positions && stars2[i] in positions =>
      (PointOf(positions[stars1[i]]), PointOf(positions[stars2[i]])));
    assert pairs == SegmentPoints(positions, IncludedSegments(positions, inCircle, consdata));
    r := Some(pairs);
  }

  // ---------------------------------------------------------------------
  // _plot_stars

  function AtMostMagnitude(limit: real): StarRow -> bool
  {
    (r: StarRow) => r.magnitude <= limit
  }

  function WithinRadius(inCircle: CircleTest, radius: real): StarRow -> bool
  {
    (r: StarRow) => inCircle(r.x, r.y, radius)
  }

  /** The marker size of a star of magnitude m: the power law (8 - m) to the
      2.56 below magnitude 2, to the 1.68 below magnitude 8, a constant
      beyond; the base of each power is positive. */
  function SizeFor(m: real, k: real): (r: StarSize)
    ensures r.Scaled? <==> m < 8.0
    ensures r.Scaled? ==> r.base == 8.0 - m && r.base > 0.0 && r.factor == k
    ensures r.Scaled? ==> (r.exponent == 2.56 <==> m < 2.0) && (r.exponent == 1.68 <==> 2.0 <= m)
    ensures r.Fixed? ==> r.value == 2.0 * k
  {
    if m < 2.0 then Scaled(8.0 - m, 2.56, k)
    else if m < 8.0 then Scaled(8.0 - m, 1.68, k)
    else Fixed(2.0 * k)
  }

  /** The marker loop of `_plot_stars` over the bright stars: the three
      parallel lists hold one entry per star inside the unit circle. */
  method StarMarkers(bright: seq<StarRow>, inCircle: CircleTest, k: real)
    returns (xs: seq<real>, ys: seq<real>, sizes: seq<StarSize>)
    ensures var drawn := Filter(WithinRadius(inCircle, MarkerRadius), bright);
      && |xs| == |ys| == |sizes| == |drawn|
      && forall i :: 0 <= i < |drawn| ==>
           xs[i] == drawn[i].x && ys[i] == drawn[i].y && sizes[i] == SizeFor(drawn[i].magnitude, k)
  {
    xs, ys, sizes := [], [], [];
    var i := 0;
    while i < |bright|
      invariant 0 <= i <= |bright|
      invariant var drawn := Filter(WithinRadius(inCircle, MarkerRadius), bright[..i]);
        && |xs| == |ys| == |sizes| == |drawn|
        && forall j :: 0 <= j < |drawn| ==>
             xs[j] == drawn[j].x && ys[j] == drawn[j].y && sizes[j] == SizeFor(drawn[j].magnitude, k)
    {
      var star := bright[i];
      FilterSnoc(WithinRadius(inCircle, MarkerRadius), bright, i);
      i := i + 1;
      if !inCircle(star.x, star.y, MarkerRadius) {
        continue;
      }
      var size;
      if star.magnitude < 2.0 {
        size := Scaled(8.0 - star.magnitude, 2.56, k);
      } else if star.magnitude < 8.0 {
        size := Scaled(8.0 - star.magnitude, 1.68, k);
      } else {
        size := Fixed(2.0 * k);
      }
      sizes := sizes + [size];
      xs := xs + [star.x];
      ys := ys + [star.y];
    }
    assert bright[..i] == bright;
  }

  /** A star name sits slightly right of and below its star. */
  function StarLabel(r: StarRow, name: string, s: LabelStyle): Text
  {
    Text(r.x + StarLabelDx, r.y - StarLabelDy, name, s)
  }

  /** The star rows and the line endpoint lookup come from the same
      projected catalog frame: every row's position is its `.loc` entry. */
  predicate SameCatalog(rows: seq<StarRow>, positions: Positions)
  {
    forall r :: r in rows ==> r.hip in positions && positions[r.hip] == (r.x, r.y)
  }

  // ---------------------------------------------------------------------
  // The plot

  /** `in_bounds` of a zenith plot: the projected point passes the circle
      test with the default radius. */
  function CircleBounds(project: (real, real) -> Point, inCircle: CircleTest, radius: real): (real, real) -> bool
  {
    (ra: real, dec: real) => inCircle(project(ra, dec).x, project(ra, dec).y, radius)
  }

  class ZenithPlot {
    const plot: StarPlot
    /** `project_fn(position_of_radec(ra, dec))`. */
    const project: (real, real) -> Point
    const inCircle: CircleTest
    /** The default radius of `in_circle`, which is not part of this model. */
    const defaultRadius: real
    /** `stars.ZENITH_BASE`: the ids of the stars a zenith plot may name. */
    const zenithBaseStars: set<int>
    /** `stars.hip_names`. */
    const hipNames: int -> string
    /** The Messier table and the objects a zenith plot marks. */
    const messier: map<string, (real, real)>
    const dsoBase: seq<string>

    /** `in_bounds`: the projected point passes the default circle test. */
    function InBounds(ra: real, dec: real): bool
    {
      var p := project(ra, dec);
      inCircle(p.x, p.y, defaultRadius)
    }

    ghost predicate Valid()
      reads this, plot
    {
      && plot.Valid()
      && plot.prepareCoords == project
      && plot.inBounds == CircleBounds(project, inCircle, defaultRadius)
      && forall i :: 0 <= i < |dsoBase| ==> dsoBase[i] in messier
    }

    /** The session's bounds test is the zenith circle test of the projected
        point, for every position. */
    lemma InBoundsIsCircle(ra: real, dec: real)
      requires Valid()
      ensures plot.inBounds(ra, dec) <==> inCircle(plot.prepareCoords(ra, dec).x, plot.prepareCoords(ra, dec).y, defaultRadius)
    {
    }

    constructor (limitingMagnitude: real, limitingMagnitudeLabels: real, style: PlotStyle,
                 resolution: nat, hideCollidingLabels: bool, axesExtent: Box,
                 measure: Text -> Box, project: (real, real) -> Point, inCircle: CircleTest,
                 defaultRadius: real, zenithBaseStars: set<int>, hipNames: int -> string, geod: Geod)
      ensures Valid() && fresh(plot)
      ensures this.project == project && this.inCircle == inCircle && this.defaultRadius == defaultRadius
      ensures this.zenithBaseStars == zenithBaseStars && this.hipNames == hipNames
      ensures messier == Dsos.Messier && dsoBase == Dsos.ZenithBase
      ensures plot.limitingMagnitude == limitingMagnitude && plot.limitingMagnitudeLabels == limitingMagnitudeLabels
      ensures plot.style == style && plot.hideCollidingLabels == hideCollidingLabels
      ensures plot.LabelState() == Empty && plot.LegendState() == NoHandles && plot.drawn == []
    {
      plot := new StarPlot(limitingMagnitude, limitingMagnitudeLabels, style, resolution, hideCollidingLabels,
                           axesExtent, measure, project, CircleBounds(project, inCircle, defaultRadius), geod);
      this.project := project;
      this.inCircle := inCircle;
      this.defaultRadius := defaultRadius;
      this.zenithBaseStars := zenithBaseStars;
      this.hipNames := hipNames;
      messier := Dsos.Messier;
      dsoBase := Dsos.ZenithBase;
      Dsos.ZenithBaseInMessier();
    }

    function BrightStars(rows: seq<StarRow>): seq<StarRow>
    {
      Filter(AtMostMagnitude(plot.limitingMagnitude), rows)
    }

    /** The scatter `_plot_stars` draws for the bright stars. */
    function StarScatter(bright: seq<StarRow>): Drawing
    {
      var drawn := Filter(WithinRadius(inCircle, MarkerRadius), bright);
      Scatter(seq(|drawn|, i requires 0 <= i < |drawn| => drawn[i].x),
              seq(|drawn|, i requires 0 <= i < |drawn| => drawn[i].y),
              seq(|drawn|, i requires 0 <= i < |drawn| => SizeFor(drawn[i].magnitude, plot.starSizeMultiplier)),
              plot.style.star.marker)
    }

    function NameableStar(): StarRow -> bool
    {
      (r: StarRow) => inCircle(r.x, r.y, defaultRadius) && r.hip in zenithBaseStars
    }

    /** The stars `_plot_stars` names, in catalog order. */
    function LabelledStars(bright: seq<StarRow>): seq<StarRow>
    {
      Filter(NameableStar(), Filter(AtMostMagnitude(plot.limitingMagnitudeLabels), bright))
    }

    function StarTexts(bright: seq<StarRow>): seq<Text>
    {
      StarTextsOf(LabelledStars(bright))
    }

    /** A star is named exactly when it is within both magnitude limits,
        inside the default circle and one of the zenith base stars. */
    lemma LabelledStarsExact(rows: seq<StarRow>)
      ensures forall r :: r in LabelledStars(BrightStars(rows)) <==>
        && r in rows && r.magnitude <= plot.limitingMagnitude && r.magnitude <= plot.limitingMagnitudeLabels
        && inCircle(r.x, r.y, defaultRadius) && r.hip in zenithBaseStars
    {
      var bright := BrightStars(rows);
      var labelled := Filter(AtMostMagnitude(plot.limitingMagnitudeLabels), bright);
      FilterSound(AtMostMagnitude(plot.limitingMagnitude), rows);
      FilterComplete(AtMostMagnitude(plot.limitingMagnitude), rows);
      FilterSound(AtMostMagnitude(plot.limitingMagnitudeLabels), bright);
      FilterComplete(AtMostMagnitude(plot.limitingMagnitudeLabels), bright);
      FilterSound(NameableStar(), labelled);
      FilterComplete(NameableStar(), labelled);
    }

    /** The discarded `sort_values`: two nameable stars are named in catalog
        order, the fainter one first if it comes first. */
    lemma NamesFollowCatalogOrder(faint: StarRow, bright: StarRow)
      requires faint.magnitude > bright.magnitude
      requires faint.magnitude <= plot.limitingMagnitude && faint.magnitude <= plot.limitingMagnitudeLabels
      requires NameableStar()(faint) && NameableStar()(bright)
      ensures StarTexts(BrightStars([faint, bright])) ==
        [StarLabel(faint, hipNames(faint.hip), plot.style.star.labelStyle),
         StarLabel(bright, hipNames(bright.hip), plot.style.star.labelStyle)]
    {
      var rows := [faint, bright];
      var bounded := AtMostMagnitude(plot.limitingMagnitude);
      var labelBounded := AtMostMagnitude(plot.limitingMagnitudeLabels);
      assert BrightStars(rows) == rows by {
        assert bounded(rows[0]) && bounded(rows[1]);
        FilterAll(bounded, rows);
      }
      assert Filter(labelBounded, rows) == rows by {
        assert labelBounded(rows[0]) && labelBounded(rows[1]);
        FilterAll(labelBounded, rows);
      }
      assert Filter(NameableStar(), rows) == rows by {
        assert NameableStar()(rows[0]) && NameableStar()(rows[1]);
        FilterAll(NameableStar(), rows);
      }
      assert LabelledStars(rows) == rows;
    }

    lemma NamedStep(rows: seq<StarRow>, i: int)
      requires 0 <= i < |rows|
      ensures StarTextsOf(Filter(NameableStar(), rows[..i + 1])) ==
        StarTextsOf(Filter(NameableStar(), rows[..i])) +
        (if inCircle(rows[i].x, rows[i].y, defaultRadius) && rows[i].hip in zenithBaseStars
         then [StarLabel(rows[i], hipNames(rows[i].hip), plot.style.star.labelStyle)] else [])
    {
      FilterSnoc(NameableStar(), rows, i);
    }

    /** The naming loop of `_plot_stars` over the stars within the label
        magnitude limit. */
    method PlotStarLabels(starsLabeled: seq<StarRow>)
      requires Valid()
      modifies plot`labels, plot`labelExtents, plot`removedLabels
      ensures Valid()
      ensures plot.LabelState() == ProposeAll(plot.Cfg(), old(plot.LabelState()), StarTextsOf(Filter(NameableStar(), starsLabeled)))
    {
      ghost var l0 := plot.LabelState();
      var i := 0;
      while i < |starsLabeled|
        invariant 0 <= i <= |starsLabeled| && Valid()
        invariant plot.LabelState() == ProposeAll(plot.Cfg(), l0, StarTextsOf(Filter(NameableStar(), starsLabeled[..i])))
      {
        var s := starsLabeled[i];
        ghost var before := StarTextsOf(Filter(NameableStar(), starsLabeled[..i]));
        NamedStep(starsLabeled, i);
        if inCircle(s.x, s.y, defaultRadius) && s.hip in zenithBaseStars {
          var t := StarLabel(s, hipNames(s.hip), plot.style.star.labelStyle);
          plot.MaybeRemoveLabel(t);
          ProposeAllSnoc(plot.Cfg(), l0, before, t);
        } else {
          assert before + [] == before;
        }
        i := i + 1;
      }
      assert starsLabeled[..i] == starsLabeled;
    }

    /** `_plot_stars`, given the projected catalog: the scatter when the
        marker is visible, the "Star" handle always, and the names of
        `StarTexts` when the label style is visible. */
    method PlotStars(rows: seq<StarRow>)
      requires Valid()
      modifies plot`labels, plot`labelExtents, plot`removedLabels, plot`legendOrder, plot`legendHandles, plot`drawn
      ensures Valid()
      ensures plot.drawn == old(plot.drawn) + (if plot.style.star.marker.visible then [StarScatter(BrightStars(rows))] else [])
      ensures plot.LegendState() == AddHandle(old(plot.LegendState()), "Star", plot.style.star.marker, plot.sizeMultiplier)
      ensures plot.LabelState() == if plot.style.star.labelStyle.visible
        then ProposeAll(plot.Cfg(), old(plot.LabelState()), StarTexts(BrightStars(rows)))
        else old(plot.LabelState())
    {
      var bright := Filter(AtMostMagnitude(plot.limitingMagnitude), rows);
      if plot.style.star.marker.visible {
        var xs, ys, sizes := StarMarkers(bright, inCircle, plot.starSizeMultiplier);
        assert Scatter(xs, ys, sizes, plot.style.star.marker) == StarScatter(bright);
        plot.drawn := plot.drawn + [Scatter(xs, ys, sizes, plot.style.star.marker)];
      }
      plot.AddLegendHandleMarker("Star", plot.style.star.marker);
      if !plot.style.star.labelStyle.visible {
        return;
      }
      var starsLabeled := Filter(AtMostMagnitude(plot.limitingMagnitudeLabels), bright);
      PlotStarLabels(starsLabeled);
    }

    function StarTextsOf(named: seq<StarRow>): (ts: seq<Text>)
      ensures |ts| == |named|
      ensures forall i :: 0 <= i < |named| ==> ts[i] == StarLabel(named[i], hipNames(named[i].hip), plot.style.star.labelStyle)
    {
      seq(|named|, i requires 0 <= i < |named| => StarLabel(named[i], hipNames(named[i].hip), plot.style.star.labelStyle))
    }

    /** `_plot_constellation_lines`: nothing when the line style is hidden;
        otherwise the segment collection, or `false` when a segment names a
        star without a position. */
    method PlotConstellationLines(positions: Positions, consdata: seq<ConstellationLines>) returns (ok: bool)
      requires Valid()
      modifies plot`drawn
      ensures Valid()
      ensures !plot.style.constellation.line.visible ==> ok && plot.drawn == old(plot.drawn)
      ensures plot.style.constellation.line.visible ==>
        var lines := ProjectedLines(positions, inCircle, consdata);
        && (ok <==> lines.Some?)
        && plot.drawn == old(plot.drawn) + (if ok then [Segments(lines.value, plot.style.constellation.line)] else [])
    {
      if !plot.style.constellation.line.visible {
        return true;
      }
      var lines := CreateProjectedConstellationLines(positions, inCircle, consdata);
      if lines.None? {
        return false;
      }
      plot.drawn := plot.drawn + [Segments(lines.value, plot.style.constellation.line)];
      return true;
    }

    function ConstellationVisible(): ConstellationInfo -> bool
    {
      (c: ConstellationInfo) => InBounds(c.ra, c.dec)
    }

    /** The label of a constellation: its full name upper-cased, at its
        projected label position. */
    function ConstellationText(c: ConstellationInfo): Text
    {
      var p := project(c.ra, c.dec);
      Text(p.x, p.y, Upper(c.fullname), plot.style.constellation.labelStyle)
    }

    function ConstellationTextsOf(cons: seq<ConstellationInfo>): (ts: seq<Text>)
      ensures |ts| == |cons|
      ensures forall i :: 0 <= i < |cons| ==> ts[i] == ConstellationText(cons[i])
    {
      seq(|cons|, i requires 0 <= i < |cons| => ConstellationText(cons[i]))
    }

    /** The labels `_plot_constellation_labels` proposes, in data order. */
    function ConstellationTexts(cons: seq<ConstellationInfo>): seq<Text>
    {
      ConstellationTextsOf(Filter(ConstellationVisible(), cons))
    }

    /** A constellation label is proposed exactly for the constellations
        inside the circle, with the upper-cased full name. */
    lemma ConstellationTextsExact(cons: seq<ConstellationInfo>)
      ensures forall t :: t in ConstellationTexts(cons) <==>
        exists c :: c in cons && InBounds(c.ra, c.dec) && t == ConstellationText(c)
      ensures forall t :: t in ConstellationTexts(cons) ==> t.style == plot.style.constellation.labelStyle
    {
      var v := Filter(ConstellationVisible(), cons);
      FilterSound(ConstellationVisible(), cons);
      FilterComplete(ConstellationVisible(), cons);
      var ts := ConstellationTexts(cons);
      forall t | t in ts
        ensures exists c :: c in cons && InBounds(c.ra, c.dec) && t == ConstellationText(c)
      {
        var i :| 0 <= i < |ts| && ts[i] == t;
        assert v[i] in v;
      }
      forall c | c in cons && InBounds(c.ra, c.dec)
        ensures ConstellationText(c) in ts
      {
        assert ConstellationVisible()(c);
        var i :| 0 <= i < |v| && v[i] == c;
        assert ts[i] == ConstellationText(c);
      }
    }

    lemma ConstellationStep(cons: seq<ConstellationInfo>, i: int)
      requires 0 <= i < |cons|
      ensures ConstellationTextsOf(Filter(ConstellationVisible(), cons[..i + 1])) ==
        ConstellationTextsOf(Filter(ConstellationVisible(), cons[..i])) +
        ConstellationTextsOf(Filter(ConstellationVisible(), [cons[i]]))
    {
      assert cons[..i + 1] == cons[..i] + [cons[i]];
      FilterConcat(ConstellationVisible(), cons[..i], [cons[i]]);
      assert [cons[i]][..0] == [];
    }

    /** One constellation as `_plot_constellation_labels` handles it. */
    method PlotConstellationLabel(con: ConstellationInfo)
      requires Valid()
      modifies plot`labels, plot`labelExtents, plot`removedLabels
      ensures Valid()
      ensures plot.LabelState() == ProposeAll(plot.Cfg(), old(plot.LabelState()), ConstellationTextsOf(Filter(ConstellationVisible(), [con])))
    {
      assert [con][..0] == [];
      ghost var l := plot.LabelState();
      var p := project(con.ra, con.dec);
      if inCircle(p.x, p.y, defaultRadius) {
        plot.MaybeRemoveLabel(Text(p.x, p.y, Upper(con.fullname), plot.style.constellation.labelStyle));
        assert ConstellationTextsOf(Filter(ConstellationVisible(), [con])) == [ConstellationText(con)];
        ProposeAllSingle(plot.Cfg(), l, [ConstellationText(con)]);
      } else {
        assert Filter(ConstellationVisible(), [con]) == [];
      }
    }

    /** `_plot_constellation_labels`, given the constellation data. */
    method PlotConstellationLabels(cons: seq<ConstellationInfo>)
      requires Valid()
      modifies plot`labels, plot`labelExtents, plot`removedLabels
      ensures Valid()
      ensures plot.LabelState() == if plot.style.constellation.labelStyle.visible
        then ProposeAll(plot.Cfg(), old(plot.LabelState()), ConstellationTexts(cons))
        else old(plot.LabelState())
    {
      if !plot.style.constellation.labelStyle.visible {
        return;
      }
      ghost var l0 := plot.LabelState();
      var i := 0;
      while i < |cons|
        invariant 0 <= i <= |cons| && Valid()
        invariant plot.LabelState() == ProposeAll(plot.Cfg(), l0, ConstellationTextsOf(Filter(ConstellationVisible(), cons[..i])))
      {
        ghost var before := ConstellationTextsOf(Filter(ConstellationVisible(), cons[..i]));
        ghost var step := ConstellationTextsOf(Filter(ConstellationVisible(), [cons[i]]));
        ConstellationStep(cons, i);
        PlotConstellationLabel(cons[i]);
        ProposeAllConcat(plot.Cfg(), l0, before, step);
        i := i + 1;
      }
      assert cons[..i] == cons;
    }

    function DsoVisible(): string -> bool
    {
      (m: string) => m in messier && InBounds(messier[m].0, messier[m].1)
    }

    /** The base objects inside the circle, in list order. */
    function VisibleDsos(): (v: seq<string>)
      ensures forall i :: 0 <= i < |v| ==> v[i] in messier
    {
      FilterVisibleDsos(dsoBase);
      Filter(DsoVisible(), dsoBase)
    }

    lemma FilterVisibleDsos(ms: seq<string>)
      ensures forall i :: 0 <= i < |Filter(DsoVisible(), ms)| ==> Filter(DsoVisible(), ms)[i] in messier
    {
      var v := Filter(DsoVisible(), ms);
      FilterSound(DsoVisible(), ms);
      forall i | 0 <= i < |v|
        ensures v[i] in messier
      {
        assert v[i] in v;
        assert DsoVisible()(v[i]);
      }
    }

    function DsoPoint(m: string): Point
      requires m in messier
    {
      project(messier[m].0, messier[m].1)
    }

    /** The label of a base object: its id upper-cased, offset from its
        marker by the style's text offsets. */
    function DsoText(m: string): Text
      requires m in messier
    {
      var p := DsoPoint(m);
      Text(p.x + plot.style.textOffsetX, p.y + plot.style.textOffsetY, Upper(m), plot.style.dso.labelStyle)
    }

    function DsoMarkersOf(ms: seq<string>): (ds: seq<Drawing>)
      requires forall i :: 0 <= i < |ms| ==> ms[i] in messier
      ensures |ds| == |ms|
      ensures forall i :: 0 <= i < |ms| ==> ds[i] == Marker(DsoPoint(ms[i]), plot.style.dso.marker)
    {
      seq(|ms|, i requires 0 <= i < |ms| && ms[i] in messier => Marker(DsoPoint(ms[i]), plot.style.dso.marker))
    }

    function DsoTextsOf(ms: seq<string>): (ts: seq<Text>)
      requires forall i :: 0 <= i < |ms| ==> ms[i] in messier
      ensures |ts| == |ms|
      ensures forall i :: 0 <= i < |ms| ==> ts[i] == DsoText(ms[i])
    {
      seq(|ms|, i requires 0 <= i < |ms| && ms[i] in messier => DsoText(ms[i]))
    }

    /** Exactly the base objects whose position is inside the circle are
        marked, and each marked object also gets its label proposed. */
    lemma VisibleDsosExact()
      requires Valid()
      ensures forall m :: m in VisibleDsos() <==> m in dsoBase && InBounds(messier[m].0, messier[m].1)
    {
      FilterSound(DsoVisible(), dsoBase);
      FilterComplete(DsoVisible(), dsoBase);
    }

    /** One base object as `_plot_dso_base` handles it: inside the circle
        it gets a marker, a proposed label and a "DSO" handle; outside
        nothing changes. */
    method PlotDso(m: string)
      requires Valid() && m in messier
      modifies plot`labels, plot`labelExtents, plot`removedLabels, plot`legendOrder, plot`legendHandles, plot`drawn
      ensures Valid()
      ensures InBounds(messier[m].0, messier[m].1) ==>
        && plot.drawn == old(plot.drawn) + [Marker(DsoPoint(m), plot.style.dso.marker)]
        && plot.LabelState() == Propose(plot.Cfg(), old(plot.LabelState()), DsoText(m))
        && plot.LegendState() == AddHandle(old(plot.LegendState()), "DSO", plot.style.dso.marker, plot.sizeMultiplier)
      ensures !InBounds(messier[m].0, messier[m].1) ==>
        plot.drawn == old(plot.drawn) && plot.LabelState() == old(plot.LabelState()) && plot.LegendState() == old(plot.LegendState())
    {
      var (ra, dec) := messier[m];
      var p := project(ra, dec);
      if inCircle(p.x, p.y, defaultRadius) {
        plot.drawn := plot.drawn + [Marker(p, plot.style.dso.marker)];
        plot.MaybeRemoveLabel(Text(p.x + plot.style.textOffsetX, p.y + plot.style.textOffsetY, Upper(m), plot.style.dso.labelStyle));
        plot.AddLegendHandleMarker("DSO", plot.style.dso.marker);
      }
    }

    /** What `_plot_dso_base` has done after the first i base objects,
        starting from labels l0, legend h0 and drawings d0, when it has
        reached drawings d, labels l and legend h. */
    ghost predicate DsoProgressAt(i: int, l0: Layout, h0: Handles, d0: seq<Drawing>, d: seq<Drawing>, l: Layout, h: Handles)
      requires 0 <= i <= |dsoBase|
    {
      var v := Filter(DsoVisible(), dsoBase[..i]);
      && (forall j :: 0 <= j < |v| ==> v[j] in messier)
      && d == d0 + DsoMarkersOf(v)
      && l == ProposeAll(plot.Cfg(), l0, DsoTextsOf(v))
      && h == if v == [] then h0 else AddHandle(h0, "DSO", plot.style.dso.marker, plot.sizeMultiplier)
    }

    ghost predicate DsoProgress(i: int, l0: Layout, h0: Handles, d0: seq<Drawing>)
      requires 0 <= i <= |dsoBase|
      reads plot
    {
      DsoProgressAt(i, l0, h0, d0, plot.drawn, plot.LabelState(), plot.LegendState())
    }

    lemma DsoSnoc(v: seq<string>, m: string)
      requires (forall j :: 0 <= j < |v| ==> v[j] in messier) && m in messier
      ensures forall j :: 0 <= j < |v + [m]| ==> (v + [m])[j] in messier
      ensures DsoMarkersOf(v + [m]) == DsoMarkersOf(v) + [Marker(DsoPoint(m), plot.style.dso.marker)]
      ensures DsoTextsOf(v + [m]) == DsoTextsOf(v) + [DsoText(m)]
    {
      assert forall j :: 0 <= j < |v + [m]| ==> (v + [m])[j] in messier;
    }

    /** Handling base object i moves the progress from i to i + 1: a marker,
        a label and the handle when it is inside the circle, nothing when it
        is outside. */
    lemma DsoAdvanceInside(i: int, l0: Layout, h0: Handles, d0: seq<Drawing>, d: seq<Drawing>, l: Layout, h: Handles)
      requires 0 <= i < |dsoBase| && dsoBase[i] in messier && DsoProgressAt(i, l0, h0, d0, d, l, h)
      requires InBounds(messier[dsoBase[i]].0, messier[dsoBase[i]].1)
      ensures DsoProgressAt(i + 1, l0, h0, d0, d + [Marker(DsoPoint(dsoBase[i]), plot.style.dso.marker)],
                            Propose(plot.Cfg(), l, DsoText(dsoBase[i])),
                            AddHandle(h, "DSO", plot.style.dso.marker, plot.sizeMultiplier))
    {
      var m := dsoBase[i];
      var v0 := Filter(DsoVisible(), dsoBase[..i]);
      var mk := Marker(DsoPoint(m), plot.style.dso.marker);
      assert d == d0 + DsoMarkersOf(v0);
      assert l == ProposeAll(plot.Cfg(), l0, DsoTextsOf(v0));
      FilterSnoc(DsoVisible(), dsoBase, i);
      assert DsoVisible()(m);
      var v1 := v0 + [m];
      assert Filter(DsoVisible(), dsoBase[..i + 1]) == v1;
      DsoSnoc(v0, m);
      assert d + [mk] == d0 + DsoMarkersOf(v1) by {
        assert d0 + DsoMarkersOf(v0) + [mk] == d0 + (DsoMarkersOf(v0) + [mk]);
      }
      ProposeAllSnoc(plot.Cfg(), l0, DsoTextsOf(v0), DsoText(m));
      if v0 == [] {
        assert h == h0;
      } else {
        AddHandleIdempotent(h0, "DSO", plot.style.dso.marker, plot.style.dso.marker, plot.sizeMultiplier, plot.sizeMultiplier);
      }
    }

    lemma DsoAdvanceOutside(i: int, l0: Layout, h0: Handles, d0: seq<Drawing>, d: seq<Drawing>, l: Layout, h: Handles)
      requires 0 <= i < |dsoBase| && dsoBase[i] in messier && DsoProgressAt(i, l0, h0, d0, d, l, h)
      requires !InBounds(messier[dsoBase[i]].0, messier[dsoBase[i]].1)
      ensures DsoProgressAt(i + 1, l0, h0, d0, d, l, h)
    {
      var v0 := Filter(DsoVisible(), dsoBase[..i]);
      FilterSnoc(DsoVisible(), dsoBase, i);
      assert !DsoVisible()(dsoBase[i]);
      assert v0 + [] == v0;
    }

    lemma DsoStart(l0: Layout, h0: Handles, d0: seq<Drawing>)
      ensures DsoProgressAt(0, l0, h0, d0, d0, l0, h0)
    {
      assert dsoBase[..0] == [];
    }

    lemma DsoDone(l0: Layout, h0: Handles, d0: seq<Drawing>, d: seq<Drawing>, l: Layout, h: Handles)
      requires DsoProgressAt(|dsoBase|, l0, h0, d0, d, l, h)
      ensures d == d0 + DsoMarkersOf(VisibleDsos())
      ensures l == ProposeAll(plot.Cfg(), l0, DsoTextsOf(VisibleDsos()))
      ensures h == if VisibleDsos() == [] then h0 else AddHandle(h0, "DSO", plot.style.dso.marker, plot.sizeMultiplier)
    {
      assert dsoBase[..|dsoBase|] == dsoBase;
    }

    /** One turn of the `_plot_dso_base` loop. */
    method PlotDsoStep(i: int, ghost l0: Layout, ghost h0: Handles, ghost d0: seq<Drawing>)
      requires Valid() && 0 <= i < |dsoBase| && DsoProgress(i, l0, h0, d0)
      modifies plot`labels, plot`labelExtents, plot`removedLabels, plot`legendOrder, plot`legendHandles, plot`drawn
      ensures Valid() && DsoProgress(i + 1, l0, h0, d0)
    {
      if InBounds(messier[dsoBase[i]].0, messier[dsoBase[i]].1) {
        DsoAdvanceInside(i, l0, h0, d0, plot.drawn, plot.LabelState(), plot.LegendState());
      } else {
        DsoAdvanceOutside(i, l0, h0, d0, plot.drawn, plot.LabelState(), plot.LegendState());
      }
      PlotDso(dsoBase[i]);
    }

    /** `_plot_dso_base`: nothing when the DSO marker is hidden; otherwise
        each base object inside the circle, in list order, gets a marker and
        an upper-cased label, and "DSO" gets one handle when any does. */
    method PlotDsoBase()
      requires Valid()
      modifies plot`labels, plot`labelExtents, plot`removedLabels, plot`legendOrder, plot`legendHandles, plot`drawn
      ensures Valid()
      ensures !plot.style.dso.marker.visible ==>
        plot.drawn == old(plot.drawn) && plot.LabelState() == old(plot.LabelState()) && plot.LegendState() == old(plot.LegendState())
      ensures plot.style.dso.marker.visible ==>
        && plot.drawn == old(plot.drawn) + DsoMarkersOf(VisibleDsos())
        && plot.LabelState() == ProposeAll(plot.Cfg(), old(plot.LabelState()), DsoTextsOf(VisibleDsos()))
        && plot.LegendState() == if VisibleDsos() == [] then old(plot.LegendState())
           else AddHandle(old(plot.LegendState()), "DSO", plot.style.dso.marker, plot.sizeMultiplier)
    {
      if !plot.style.dso.marker.visible {
        return;
      }
      ghost var l0 := plot.LabelState();
      ghost var h0 := plot.LegendState();
      ghost var d0 := plot.drawn;
      DsoStart(l0, h0, d0);
      var i := 0;
      while i < |dsoBase|
        invariant 0 <= i <= |dsoBase| && Valid()
        invariant DsoProgress(i, l0, h0, d0)
      {
        PlotDsoStep(i, l0, h0, d0);
        i := i + 1;
      }
      DsoDone(l0, h0, d0, plot.drawn, plot.LabelState(), plot.LegendState());
    }

    /** The projected ecliptic line of `_plot_ecliptic`. */
    function ProjectedEcliptic(raDecs: seq<(real, real)>): (r: seq<Point>)
      ensures |r| == |raDecs|
      ensures forall i :: 0 <= i < |raDecs| ==> r[i] == project(raDecs[i].0, raDecs[i].1)
    {
      seq(|raDecs|, i requires 0 <= i < |raDecs| => project(raDecs[i].0, raDecs[i].1))
    }

    /** `_plot_ecliptic`: an unlabelled line through the projected points
        when the line style is visible. */
    method PlotEcliptic(raDecs: seq<(real, real)>)
      requires Valid()
      modifies plot`drawn
      ensures Valid()
      ensures plot.drawn == old(plot.drawn) +
        (if plot.style.ecliptic.line.visible then [Line(ProjectedEcliptic(raDecs), plot.style.ecliptic.line)] else [])
    {
      if !plot.style.ecliptic.line.visible {
        return;
      }
      var points: seq<Point> := [];
      var i := 0;
      while i < |raDecs|
        invariant 0 <= i <= |raDecs|
        invariant points == ProjectedEcliptic(raDecs[..i])
      {
        var (ra, dec) := raDecs[i];
        points := points + [project(ra, dec)];
        i := i + 1;
      }
      assert raDecs[..i] == raDecs;
      plot.drawn := plot.drawn + [Line(points, plot.style.ecliptic.line)];
    }

    /** The moon as `_plot_moon` plots it. */
    function MoonObject(ra: real, dec: real): SkyObject
    {
      SkyObject("MOON", ra, dec, plot.style.moon, Some("Moon"))
    }

    /** The labels the star and constellation steps of `_init_plot`
        propose, in that order. */
    function CatalogTexts(rows: seq<StarRow>, cons: seq<ConstellationInfo>): seq<Text>
    {
      (if plot.style.star.labelStyle.visible then StarTexts(BrightStars(rows)) else []) +
      (if plot.style.constellation.labelStyle.visible then ConstellationTexts(cons) else [])
    }

    /** The labels the base-object step of `_init_plot` proposes. */
    function BaseTexts(): seq<Text>
    {
      if plot.style.dso.marker.visible then DsoTextsOf(VisibleDsos()) else []
    }

    /** The labels the planet and moon steps of `_init_plot` propose. */
    function SolarSystemTexts(planets: seq<PlanetPosition>, moonRa: real, moonDec: real): seq<Text>
    {
      (if plot.style.planets.marker.visible then plot.PlanetTexts(planets) else []) +
      (if plot.style.moon.marker.visible then plot.ObjectTexts(MoonObject(moonRa, moonDec)) else [])
    }

    /** The stars and the constellation lines and labels of `_init_plot`;
        `false` where a constellation line names a star that has no
        position. */
    method PlotCatalog(rows: seq<StarRow>, positions: Positions, lines: seq<ConstellationLines>,
                       cons: seq<ConstellationInfo>) returns (ok: bool)
      requires Valid()
      requires SameCatalog(rows, positions)
      modifies plot`labels, plot`labelExtents, plot`removedLabels, plot`legendOrder, plot`legendHandles, plot`drawn
      ensures Valid()
      ensures !ok <==> plot.style.constellation.line.visible && ProjectedLines(positions, inCircle, lines).None?
      ensures ok ==> plot.LabelState() == ProposeAll(plot.Cfg(), old(plot.LabelState()), CatalogTexts(rows, cons))
      ensures ok ==> "Star" in plot.legendHandles
    {
      ghost var l0 := plot.LabelState();
      PlotStars(rows);
      ghost var t1 := if plot.style.star.labelStyle.visible then StarTexts(BrightStars(rows)) else [];
      assert plot.LabelState() == ProposeAll(plot.Cfg(), l0, t1);
      ok := PlotConstellationLines(positions, lines);
      if !ok {
        return;
      }
      ghost var l1 := plot.LabelState();
      PlotConstellationLabels(cons);
      ghost var t2 := if plot.style.constellation.labelStyle.visible then ConstellationTexts(cons) else [];
      assert plot.LabelState() == ProposeAll(plot.Cfg(), l1, t2);
      ProposeAllConcat(plot.Cfg(), l0, t1, t2);
    }

    /** The planet and moon steps of `_init_plot`. */
    method PlotSolarSystem(planets: seq<PlanetPosition>, moonRa: real, moonDec: real)
      requires Valid()
      modifies plot`labels, plot`labelExtents, plot`removedLabels, plot`legendOrder, plot`legendHandles, plot`drawn
      ensures Valid()
      ensures plot.LabelState() == ProposeAll(plot.Cfg(), old(plot.LabelState()), SolarSystemTexts(planets, moonRa, moonDec))
      ensures old(plot.legendHandles.Keys) <= plot.legendHandles.Keys
    {
      ghost var l3 := plot.LabelState();
      plot.PlotPlanets(planets);
      ghost var t4 := if plot.style.planets.marker.visible then plot.PlanetTexts(planets) else [];
      assert plot.LabelState() == ProposeAll(plot.Cfg(), l3, t4);
      ghost var l4 := plot.LabelState();
      plot.PlotMoon(moonRa, moonDec);
      ghost var t5 := if plot.style.moon.marker.visible then plot.ObjectTexts(MoonObject(moonRa, moonDec)) else [];
      assert plot.LabelState() == ProposeAll(plot.Cfg(), l4, t5);
      ProposeAllConcat(plot.Cfg(), l3, t4, t5);
    }

    /** `_init_plot` after the border. It stops with `false` where the
        constellation line lookup fails. Otherwise the labels are proposed
        in the order the steps run, and the legend is drawn whenever its
        style is visible, since the "Star" handle is always registered. */
    method InitPlot(rows: seq<StarRow>, positions: Positions, lines: seq<ConstellationLines>,
                    cons: seq<ConstellationInfo>, raDecs: seq<(real, real)>,
                    planets: seq<PlanetPosition>, moonRa: real, moonDec: real) returns (ok: bool)
      requires Valid()
      requires SameCatalog(rows, positions)
      modifies plot`labels, plot`labelExtents, plot`removedLabels, plot`legendOrder, plot`legendHandles, plot`drawn, plot`legend
      ensures Valid()
      ensures !ok <==> plot.style.constellation.line.visible && ProjectedLines(positions, inCircle, lines).None?
      ensures ok ==> plot.LabelState() == ProposeAll(plot.Cfg(), old(plot.LabelState()),
                                                      CatalogTexts(rows, cons) + BaseTexts() + SolarSystemTexts(planets, moonRa, moonDec))
      ensures ok && plot.style.legend.visible ==>
        plot.legend == Some(DrawnLegend(LegendTargetFor(plot.style.legend.location), Values(plot.LegendState())))
      ensures !(ok && plot.style.legend.visible) ==> plot.legend == old(plot.legend)
    {
      ghost var l0 := plot.LabelState();
      ok := PlotCatalog(rows, positions, lines, cons);
      if !ok {
        return;
      }
      ghost var l1 := plot.LabelState();
      PlotDsoBase();
      assert plot.LabelState() == ProposeAll(plot.Cfg(), l1, BaseTexts());
      ProposeAllConcat(plot.Cfg(), l0, CatalogTexts(rows, cons), BaseTexts());
      PlotEcliptic(raDecs);
      PlotSolarSystem(planets, moonRa, moonDec);
      ProposeAllConcat(plot.Cfg(), l0, CatalogTexts(rows, cons) + BaseTexts(), SolarSystemTexts(planets, moonRa, moonDec));
      plot.RefreshLegend();
    }
  }
}
