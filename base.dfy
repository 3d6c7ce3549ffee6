/** The plot session shared by every kind of star chart: where labels may go,
    which legend handles exist, and what has been drawn. */
module Base {
  import opened Wrappers
  import opened Styles
  import opened Bbox
  import opened Layout
  import opened Legend
  import opened Strings
  import opened Seqs

  /** A position in plot coordinates. */
  datatype Point = Point(x: real, y: real)

  /** The size of one star marker. The power-law sizes are kept as their
      formula, base ** exponent * factor, since the model has no real powers. */
  datatype StarSize = Scaled(base: real, exponent: real, factor: real) | Fixed(value: real)

  /** What the session hands to the rendering backend. */
  datatype Drawing =
    | Marker(at: Point, markerStyle: MarkerStyle)
    | Line(points: seq<Point>, lineStyle: LineStyle)
    | Polygon(vertices: seq<Point>, polygonStyle: PolygonStyle)
    | Scatter(xs: seq<real>, ys: seq<real>, sizes: seq<StarSize>, scatterStyle: MarkerStyle)
    | Segments(pairs: seq<(Point, Point)>, segmentStyle: LineStyle)

  datatype LegendTarget = OnFigure | OnAxes

  /** A legend as drawn: where it is attached and its handles, in order. */
  datatype DrawnLegend = DrawnLegend(target: LegendTarget, handles: seq<Handle>)

  /** `SkyObject`: a named object at (ra, dec) with its style and an
      optional legend label. */
  datatype SkyObject = SkyObject(name: string, ra: real, dec: real, style: ObjectStyle, legendLabel: Option<string>)

  /** One entry of the planet positions: name, position and apparent size. */
  datatype PlanetPosition = PlanetPosition(name: string, ra: real, dec: real, apparentSize: real)

  /** The spherical geometry helpers (`geod.ellipse`, `geod.rectangle`,
      `geod.to_radec`), whose geometry is not part of this model. */
  datatype Geod = Geod(
    ellipse: ((real, real), real, real, real, int) -> seq<(real, real)>,
    rectangle: ((real, real), real, real, real) -> seq<(real, real)>,
    toRadec: ((real, real)) -> (real, real))

  /** Legends placed outside the map are attached to the figure. */
  function LegendTargetFor(location: LegendLocation): (t: LegendTarget)
    ensures t == OnFigure <==> location == OutsideTop || location == OutsideBottom
  {
    if location in {OutsideBottom, OutsideTop} then OnFigure else OnAxes
  }

  /** `plot_circle` is `plot_ellipse` with both axes the diameter and no
      rotation: the arguments it passes on. */
  datatype EllipseArgs = EllipseArgs(center: (real, real), height: real, width: real, angle: real, numPts: int)

  function CircleAsEllipse(center: (real, real), radius: real, numPts: int): (e: EllipseArgs)
    ensures e.center == center && e.numPts == numPts && e.angle == 0.0
    ensures e.height == e.width && e.height / 2.0 == radius
  {
    EllipseArgs(center, radius * 2.0, radius * 2.0, 0.0, numPts)
  }

  class StarPlot {
    const limitingMagnitude: real
    const limitingMagnitudeLabels: real
    const style: PlotStyle
    const resolution: nat
    const hideCollidingLabels: bool
    const sizeMultiplier: real
    const starSizeMultiplier: real
    /** The window extent of the axes, fixed for the session. */
    const axesExtent: Box
    /** The renderer's measurement of a text's window extent. */
    const measure: Text -> Box
    /** `_prepare_coords`: from (ra, dec) to plot coordinates. */
    const prepareCoords: (real, real) -> Point
    /** `in_bounds`, which each kind of plot defines. */
    const inBounds: (real, real) -> bool
    const geod: Geod

    var labels: seq<Text>
    var labelExtents: seq<Box>
    var removedLabels: seq<Text>
    var legendOrder: seq<string>
    var legendHandles: map<string, Handle>
    var legend: Option<DrawnLegend>
    var drawn: seq<Drawing>

    function Cfg(): Config
    {
      Config(axesExtent, hideCollidingLabels, measure)
    }

    function LabelState(): Layout
      reads this
    {
      Layout(labels, labelExtents, removedLabels)
    }

    function LegendState(): Handles
      reads this
    {
      Handles(legendOrder, legendHandles)
    }

    ghost predicate Valid()
      reads this
    {
      && Consistent(Cfg(), LabelState())
      && Legend.Valid(LegendState())
      && sizeMultiplier == resolution as real / 3000.0
      && starSizeMultiplier == sizeMultiplier * style.starMarkerSize / 5.0
    }

    constructor (limitingMagnitude: real, limitingMagnitudeLabels: real, style: PlotStyle,
                 resolution: nat, hideCollidingLabels: bool, axesExtent: Box,
                 measure: Text -> Box, prepareCoords: (real, real) -> Point,
                 inBounds: (real, real) -> bool, geod: Geod)
      ensures Valid()
      ensures this.limitingMagnitude == limitingMagnitude && this.limitingMagnitudeLabels == limitingMagnitudeLabels
      ensures this.style == style && this.resolution == resolution && this.hideCollidingLabels == hideCollidingLabels
      ensures this.axesExtent == axesExtent && this.measure == measure && this.prepareCoords == prepareCoords
      ensures this.inBounds == inBounds && this.geod == geod
      ensures LabelState() == Empty && LegendState() == NoHandles && legend == None && drawn == []
    {
      this.limitingMagnitude := limitingMagnitude;
      this.limitingMagnitudeLabels := limitingMagnitudeLabels;
      this.style := style;
      this.resolution := resolution;
      this.hideCollidingLabels := hideCollidingLabels;
      this.axesExtent := axesExtent;
      this.measure := measure;
      this.prepareCoords := prepareCoords;
      this.inBounds := inBounds;
      this.geod := geod;
      sizeMultiplier := resolution as real / 3000.0;
      starSizeMultiplier := (resolution as real / 3000.0) * style.starMarkerSize / 5.0;
      labels, labelExtents, removedLabels := [], [], [];
      legendOrder, legendHandles := [], map[];
      legend := None;
      drawn := [];
    }

    /** `_is_label_collision`: does the box meet one of the kept boxes? */
    method IsLabelCollision(extent: Box) returns (collision: bool)
      ensures collision <==> exists i :: 0 <= i < |labelExtents| && Intersection(labelExtents[i], extent).Some?
    {
      var i := 0;
      while i < |labelExtents|
        invariant 0 <= i <= |labelExtents|
        invariant forall j :: 0 <= j < i ==> Intersection(labelExtents[j], extent).None?
      {
        if Intersection(labelExtents[i], extent).Some? {
          return true;
        }
        i := i + 1;
      }
      return false;
    }

    /** `_maybe_remove_label`: keep the text if its box lies in the axes and,
        when collision hiding is on, meets no kept box; otherwise remove it. */
    method MaybeRemoveLabel(t: Text)
      requires Valid()
      modifies this`labels, this`labelExtents, this`removedLabels
      ensures Valid()
      ensures LabelState() == Propose(Cfg(), old(LabelState()), t)
    {
      var extent := measure(t);
      var intersection := Intersection(axesExtent, extent);
      var keep := intersection.Some? && Area(intersection.value) == Area(extent);
      if keep && hideCollidingLabels {
        var collision := IsLabelCollision(extent);
        keep := !collision;
      }
      ProposeConsistent(Cfg(), LabelState(), t);
      if keep {
        labels := labels + [t];
        labelExtents := labelExtents + [extent];
      } else {
        removedLabels := removedLabels + [t];
      }
    }

    /** `_add_legend_handle_marker`. */
    method AddLegendHandleMarker(legendLabel: string, markerStyle: MarkerStyle)
      requires Valid()
      modifies this`legendOrder, this`legendHandles
      ensures Valid()
      ensures LegendState() == AddHandle(old(LegendState()), legendLabel, markerStyle, sizeMultiplier)
    {
      AddHandleValid(LegendState(), legendLabel, markerStyle, sizeMultiplier);
      if legendLabel !in legendHandles {
        legendHandles := legendHandles[legendLabel := Handle(legendLabel, markerStyle, 16.0 * sizeMultiplier)];
        legendOrder := legendOrder + [legendLabel];
      }
    }

    /** `refresh_legend`: nothing happens when the legend is hidden or there
        are no handles; otherwise the legend is redrawn with every handle in
        insertion order, on the figure when it is placed outside the map. */
    method RefreshLegend()
      requires Valid()
      modifies this`legend
      ensures Valid()
      ensures !style.legend.visible || legendHandles == map[] ==> legend == old(legend)
      ensures style.legend.visible && legendHandles != map[] ==>
        legend == Some(DrawnLegend(LegendTargetFor(style.legend.location), Values(LegendState())))
    {
      if !style.legend.visible || legendHandles == map[] {
        return;
      }
      legend := Some(DrawnLegend(LegendTargetFor(style.legend.location), Values(LegendState())));
    }

    /** The text artist for `content` placed at (ra, dec). */
    function TextAt(ra: real, dec: real, content: string, s: LabelStyle): (t: Text)
      ensures Point(t.x, t.y) == prepareCoords(ra, dec) && t.content == content && t.style == s
    {
      var p := prepareCoords(ra, dec);
      Text(p.x, p.y, content, s)
    }

    /** `plot_object`: out of bounds nothing changes; in bounds the marker is
        drawn, the legend label (if any) gets a handle, and the name is
        proposed as a label when the label style is visible. */
    method PlotObject(obj: SkyObject)
      requires Valid()
      modifies this`labels, this`labelExtents, this`removedLabels, this`legendOrder, this`legendHandles, this`drawn
      ensures Valid()
      ensures !inBounds(obj.ra, obj.dec) ==>
        drawn == old(drawn) && LabelState() == old(LabelState()) && LegendState() == old(LegendState())
      ensures inBounds(obj.ra, obj.dec) ==>
        && drawn == old(drawn) + [Marker(prepareCoords(obj.ra, obj.dec), obj.style.marker)]
        && LegendState() == (if obj.legendLabel.Some?
                             then AddHandle(old(LegendState()), obj.legendLabel.value, obj.style.marker, sizeMultiplier)
                             else old(LegendState()))
        && LabelState() == (if obj.style.labelStyle.visible
                            then Propose(Cfg(), old(LabelState()), TextAt(obj.ra, obj.dec, obj.name, obj.style.labelStyle))
                            else old(LabelState()))
    {
      var p := prepareCoords(obj.ra, obj.dec);
      if inBounds(obj.ra, obj.dec) {
        drawn := drawn + [Marker(p, obj.style.marker)];
        if obj.legendLabel.Some? {
          AddLegendHandleMarker(obj.legendLabel.value, obj.style.marker);
        }
        if obj.style.labelStyle.visible {
          MaybeRemoveLabel(Text(p.x, p.y, obj.name, obj.style.labelStyle));
        }
      }
    }

    /** `_plot_text`: the text goes to the label engine wherever it is; no
        bounds check is made. */
    method PlotText(ra: real, dec: real, content: string, s: LabelStyle)
      requires Valid()
      modifies this`labels, this`labelExtents, this`removedLabels
      ensures Valid()
      ensures LabelState() == Propose(Cfg(), old(LabelState()), TextAt(ra, dec, content, s))
    {
      var p := prepareCoords(ra, dec);
      MaybeRemoveLabel(Text(p.x, p.y, content, s));
    }

    /** The object `_plot_planets` plots for one planet. */
    function PlanetObject(p: PlanetPosition): SkyObject
    {
      SkyObject(Upper(p.name), p.ra, p.dec, style.planets, None)
    }

    /** What `plot_object` proposes for an object: its name when the object
        is in bounds and its label style is visible. */
    function ObjectTexts(obj: SkyObject): (ts: seq<Text>)
      ensures |ts| <= 1
      ensures |ts| == 1 <==> inBounds(obj.ra, obj.dec) && obj.style.labelStyle.visible
    {
      if inBounds(obj.ra, obj.dec) && obj.style.labelStyle.visible
      then [TextAt(obj.ra, obj.dec, obj.name, obj.style.labelStyle)] else []
    }

    function PlanetMarkers(ps: seq<PlanetPosition>): (ds: seq<Drawing>)
      ensures |ds| <= |ps|
      decreases |ps|
    {
      if ps == [] then []
      else
        var p := ps[|ps| - 1];
        PlanetMarkers(ps[..|ps| - 1]) +
        (if inBounds(p.ra, p.dec) then [Marker(prepareCoords(p.ra, p.dec), style.planets.marker)] else [])
    }

    function PlanetTexts(ps: seq<PlanetPosition>): (ts: seq<Text>)
      ensures |ts| <= |ps|
      decreases |ps|
    {
      if ps == [] then [] else PlanetTexts(ps[..|ps| - 1]) + ObjectTexts(PlanetObject(ps[|ps| - 1]))
    }

    /** The in-bounds test on planets. */
    function PlanetInBounds(): PlanetPosition -> bool
    {
      (p: PlanetPosition) => inBounds(p.ra, p.dec)
    }

    /** `_plot_planets` draws one marker per in-bounds planet, in the order
        `get_planet_positions` lists them, at its prepared coordinates. */
    lemma {:induction false} PlanetMarkersExact(ps: seq<PlanetPosition>)
      ensures var v := Filter(PlanetInBounds(), ps);
        && |PlanetMarkers(ps)| == |v|
        && forall i :: 0 <= i < |v| ==>
             PlanetMarkers(ps)[i] == Marker(prepareCoords(v[i].ra, v[i].dec), style.planets.marker)
      decreases |ps|
    {
      if ps != [] {
        PlanetMarkersExact(ps[..|ps| - 1]);
      }
    }

    /** With a visible planet label style, one upper-cased name per in-bounds
        planet is proposed, in order; with an invisible one, none. */
    lemma {:induction false} PlanetTextsExact(ps: seq<PlanetPosition>)
      ensures !style.planets.labelStyle.visible ==> PlanetTexts(ps) == []
      ensures style.planets.labelStyle.visible ==>
        var v := Filter(PlanetInBounds(), ps);
        && |PlanetTexts(ps)| == |v|
        && forall i :: 0 <= i < |v| ==>
             PlanetTexts(ps)[i] == TextAt(v[i].ra, v[i].dec, Upper(v[i].name), style.planets.labelStyle)
      decreases |ps|
    {
      if ps != [] {
        PlanetTextsExact(ps[..|ps| - 1]);
      }
    }

    ghost predicate AnyPlanetInBounds(ps: seq<PlanetPosition>)
    {
      exists i :: 0 <= i < |ps| && inBounds(ps[i].ra, ps[i].dec)
    }

    /** One planet as `_plot_planets` plots it: as an object, and with a
        "Planet" handle when it is in bounds. */
    method PlotPlanet(p: PlanetPosition)
      requires Valid()
      modifies this`labels, this`labelExtents, this`removedLabels, this`legendOrder, this`legendHandles, this`drawn
      ensures Valid()
      ensures drawn == old(drawn) + PlanetMarkers([p])
      ensures LabelState() == ProposeAll(Cfg(), old(LabelState()), ObjectTexts(PlanetObject(p)))
      ensures LegendState() == (if inBounds(p.ra, p.dec)
                                then AddHandle(old(LegendState()), "Planet", style.planets.marker, sizeMultiplier)
                                else old(LegendState()))
    {
      if inBounds(p.ra, p.dec) {
        AddLegendHandleMarker("Planet", style.planets.marker);
      }
      ghost var before := LabelState();
      PlotObject(PlanetObject(p));
      ProposeAllSingle(Cfg(), before, ObjectTexts(PlanetObject(p)));
      assert PlanetMarkers([p]) == PlanetMarkers([p][..0]) + PlanetMarkers([p])[0..];
    }

    lemma PlanetsPrefix(ps: seq<PlanetPosition>, i: nat)
      requires i < |ps|
      ensures PlanetMarkers(ps[..i + 1]) == PlanetMarkers(ps[..i]) + PlanetMarkers([ps[i]])
      ensures PlanetTexts(ps[..i + 1]) == PlanetTexts(ps[..i]) + ObjectTexts(PlanetObject(ps[i]))
      ensures AnyPlanetInBounds(ps[..i + 1]) <==> AnyPlanetInBounds(ps[..i]) || inBounds(ps[i].ra, ps[i].dec)
    {
      assert ps[..i + 1][..i] == ps[..i];
      assert [ps[i]][..0] == [];
      if inBounds(ps[i].ra, ps[i].dec) {
        assert ps[..i + 1][i] == ps[i];
      }
    }

    /** The drawings d, labels l and legend h after the first `i` planets of
        `_plot_planets`, starting from d0, l0 and h0. */
    ghost predicate PlanetProgressAt(ps: seq<PlanetPosition>, i: int, l0: Layout, h0: Handles, d0: seq<Drawing>,
                                     d: seq<Drawing>, l: Layout, h: Handles)
      requires 0 <= i <= |ps|
    {
      && d == d0 + PlanetMarkers(ps[..i])
      && l == ProposeAll(Cfg(), l0, PlanetTexts(ps[..i]))
      && h == if AnyPlanetInBounds(ps[..i]) then AddHandle(h0, "Planet", style.planets.marker, sizeMultiplier) else h0
    }

    ghost predicate PlanetProgress(ps: seq<PlanetPosition>, i: int, l0: Layout, h0: Handles, d0: seq<Drawing>)
      requires 0 <= i <= |ps|
      reads this
    {
      PlanetProgressAt(ps, i, l0, h0, d0, drawn, LabelState(), LegendState())
    }

    /** Plotting planet i moves the progress from i to i + 1. */
    lemma PlanetAdvance(ps: seq<PlanetPosition>, i: int, l0: Layout, h0: Handles, d0: seq<Drawing>,
                        d: seq<Drawing>, l: Layout, h: Handles)
      requires 0 <= i < |ps| && PlanetProgressAt(ps, i, l0, h0, d0, d, l, h)
      ensures PlanetProgressAt(ps, i + 1, l0, h0, d0, d + PlanetMarkers([ps[i]]),
                               ProposeAll(Cfg(), l, ObjectTexts(PlanetObject(ps[i]))),
                               if inBounds(ps[i].ra, ps[i].dec)
                               then AddHandle(h, "Planet", style.planets.marker, sizeMultiplier) else h)
    {
      AddHandleIdempotent(h0, "Planet", style.planets.marker, style.planets.marker, sizeMultiplier, sizeMultiplier);
      PlanetsPrefix(ps, i);
      ProposeAllConcat(Cfg(), l0, PlanetTexts(ps[..i]), ObjectTexts(PlanetObject(ps[i])));
    }

    /** One turn of the `_plot_planets` loop. */
    method PlotPlanetStep(ps: seq<PlanetPosition>, i: int, ghost l0: Layout, ghost h0: Handles, ghost d0: seq<Drawing>)
      requires Valid() && 0 <= i < |ps| && PlanetProgress(ps, i, l0, h0, d0)
      modifies this`labels, this`labelExtents, this`removedLabels, this`legendOrder, this`legendHandles, this`drawn
      ensures Valid() && PlanetProgress(ps, i + 1, l0, h0, d0)
    {
      PlanetAdvance(ps, i, l0, h0, d0, drawn, LabelState(), LegendState());
      PlotPlanet(ps[i]);
    }

    /** `_plot_planets`: with the planet marker hidden nothing happens;
        otherwise each planet is plotted as an object, upper-cased and without
        a legend label of its own, and "Planet" gets a handle exactly when
        some planet is in bounds. */
    method PlotPlanets(planets: seq<PlanetPosition>)
      requires Valid()
      modifies this`labels, this`labelExtents, this`removedLabels, this`legendOrder, this`legendHandles, this`drawn
      ensures Valid()
      ensures !style.planets.marker.visible ==>
        drawn == old(drawn) && LabelState() == old(LabelState()) && LegendState() == old(LegendState())
      ensures style.planets.marker.visible ==>
        && drawn == old(drawn) + PlanetMarkers(planets)
        && LabelState() == ProposeAll(Cfg(), old(LabelState()), PlanetTexts(planets))
        && LegendState() == (if AnyPlanetInBounds(planets)
                             then AddHandle(old(LegendState()), "Planet", style.planets.marker, sizeMultiplier)
                             else old(LegendState()))
    {
      if !style.planets.marker.visible {
        return;
      }
      ghost var l0 := LabelState();
      ghost var h0 := LegendState();
      ghost var d0 := drawn;
      assert planets[..0] == [];
      var i := 0;
      while i < |planets|
        invariant 0 <= i <= |planets| && Valid()
        invariant PlanetProgress(planets, i, l0, h0, d0)
      {
        PlotPlanetStep(planets, i, l0, h0, d0);
        i := i + 1;
      }
      assert planets[..i] == planets;
    }

    /** `_plot_moon`, given the moon's position: plotted as "MOON" with the
        legend label "Moon" unless the moon marker is hidden. */
    method PlotMoon(ra: real, dec: real)
      requires Valid()
      modifies this`labels, this`labelExtents, this`removedLabels, this`legendOrder, this`legendHandles, this`drawn
      ensures Valid()
      ensures !style.moon.marker.visible ==>
        drawn == old(drawn) && LabelState() == old(LabelState()) && LegendState() == old(LegendState())
      ensures style.moon.marker.visible ==>
        var obj := SkyObject("MOON", ra, dec, style.moon, Some("Moon"));
        && drawn == old(drawn) + (if inBounds(ra, dec) then [Marker(prepareCoords(ra, dec), style.moon.marker)] else [])
        && LabelState() == ProposeAll(Cfg(), old(LabelState()), ObjectTexts(obj))
        && LegendState() == (if inBounds(ra, dec) then AddHandle(old(LegendState()), "Moon", style.moon.marker, sizeMultiplier)
                             else old(LegendState()))
    {
      if !style.moon.marker.visible {
        return;
      }
      var obj := SkyObject("MOON", ra, dec, style.moon, Some("Moon"));
      ghost var before := LabelState();
      PlotObject(obj);
      ProposeAllSingle(Cfg(), before, ObjectTexts(obj));
    }

    /** The vertices `_plot_polygon` draws: each point turned into (ra, dec)
        and then into plot coordinates, one for one and in order. */
    function PolygonPoints(points: seq<(real, real)>): (r: seq<Point>)
      ensures |r| == |points|
      ensures forall i :: 0 <= i < |points| ==>
        r[i] == prepareCoords(geod.toRadec(points[i]).0, geod.toRadec(points[i]).1)
    {
      seq(|points|, i requires 0 <= i < |points| =>
        prepareCoords(geod.toRadec(points[i]).0, geod.toRadec(points[i]).1))
    }

    /** `_plot_polygon`. */
    method PlotPolygonPoints(points: seq<(real, real)>, s: PolygonStyle)
      requires Valid()
      modifies this`drawn
      ensures Valid()
      ensures drawn == old(drawn) + [Polygon(PolygonPoints(points), s)]
    {
      drawn := drawn + [Polygon(PolygonPoints(points), s)];
    }

    /** `plot_polygon`. */
    method PlotPolygon(points: seq<(real, real)>, s: PolygonStyle)
      requires Valid()
      modifies this`drawn
      ensures Valid()
      ensures drawn == old(drawn) + [Polygon(PolygonPoints(points), s)]
    {
      PlotPolygonPoints(points, s);
    }

    /** `plot_rectangle`. */
    method PlotRectangle(center: (real, real), heightDegrees: real, widthDegrees: real, s: PolygonStyle, angle: real)
      requires Valid()
      modifies this`drawn
      ensures Valid()
      ensures drawn == old(drawn) + [Polygon(PolygonPoints(geod.rectangle(center, heightDegrees, widthDegrees, angle)), s)]
    {
      var points := geod.rectangle(center, heightDegrees, widthDegrees, angle);
      PlotPolygonPoints(points, s);
    }

    /** `plot_ellipse`. */
    method PlotEllipse(center: (real, real), heightDegrees: real, widthDegrees: real, s: PolygonStyle, angle: real, numPts: int)
      requires Valid()
      modifies this`drawn
      ensures Valid()
      ensures drawn == old(drawn) + [Polygon(PolygonPoints(geod.ellipse(center, heightDegrees, widthDegrees, angle, numPts)), s)]
    {
      var points := geod.ellipse(center, heightDegrees, widthDegrees, angle, numPts);
      PlotPolygonPoints(points, s);
    }

    /** `plot_circle`: exactly the ellipse whose height and width are the
        diameter, unrotated, with the same number of points. */
    method PlotCircle(center: (real, real), radiusDegrees: real, s: PolygonStyle, numPts: int)
      requires Valid()
      modifies this`drawn
      ensures Valid()
      ensures var e := CircleAsEllipse(center, radiusDegrees, numPts);
        drawn == old(drawn) + [Polygon(PolygonPoints(geod.ellipse(e.center, e.height, e.width, e.angle, e.numPts)), s)]
    {
      PlotEllipse(center, radiusDegrees * 2.0, radiusDegrees * 2.0, s, 0.0, numPts);
    }
  }
}
