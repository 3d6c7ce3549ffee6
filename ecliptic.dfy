/** The ecliptic line and its labels (`EclipticPlotter.plot_ecliptic2`). */
module Ecliptic {
  import opened Styles
  import opened Seqs
  import opened Layout
  import opened Base

  /** The drawn line: one point per (ra, dec) entry, in order, with the right
      ascension turned from hours into degrees. */
  function EclipticLine(raDecs: seq<(real, real)>): (r: seq<Point>)
    ensures |r| == |raDecs|
    ensures forall i :: 0 <= i < |raDecs| ==> r[i] == Point(raDecs[i].0 * 15.0, raDecs[i].1)
  {
    seq(|raDecs|, i requires 0 <= i < |raDecs| => Point(raDecs[i].0 * 15.0, raDecs[i].1))
  }

  /** The in-bounds test as a predicate on (ra, dec) pairs. */
  function AtPoint(inBounds: (real, real) -> bool): ((real, real)) -> bool
  {
    (p: (real, real)) => inBounds(p.0, p.1)
  }

  /** The entries that are in bounds, in their original order. */
  function InBoundsFilter(inBounds: (real, real) -> bool, raDecs: seq<(real, real)>): seq<(real, real)>
  {
    Filter(AtPoint(inBounds), raDecs)
  }

  /** Exactly the in-bounds entries are kept. */
  lemma InBoundsFilterExact(inBounds: (real, real) -> bool, raDecs: seq<(real, real)>)
    ensures forall p :: p in InBoundsFilter(inBounds, raDecs) <==> p in raDecs && inBounds(p.0, p.1)
  {
    FilterSound(AtPoint(inBounds), raDecs);
    FilterComplete(AtPoint(inBounds), raDecs);
  }

  /** The `inbounds` loop of `plot_ecliptic2`. */
  method CollectInBounds(inBounds: (real, real) -> bool, raDecs: seq<(real, real)>) returns (inbounds: seq<(real, real)>)
    ensures inbounds == InBoundsFilter(inBounds, raDecs)
  {
    inbounds := [];
    var i := 0;
    while i < |raDecs|
      invariant 0 <= i <= |raDecs|
      invariant inbounds == InBoundsFilter(inBounds, raDecs[..i])
    {
      var p := raDecs[i];
      FilterSnoc(AtPoint(inBounds), raDecs, i);
      if inBounds(p.0, p.1) {
        inbounds := inbounds + [p];
      }
      i := i + 1;
    }
    assert raDecs[..i] == raDecs;
  }

  /** `int(n / 3) or 1`: whenever labels are placed (n > 4) this is the
      plain floor of n / 3 and the fallback 1 is never taken. */
  function LabelSpacing(n: nat): (s: nat)
    ensures s >= 1
    ensures n > 4 ==> s == n / 3
    ensures n < 3 ==> s == 1
  {
    if n / 3 == 0 then 1 else n / 3
  }

  /** `range(start, n, s)`. */
  function Range(start: nat, n: nat, s: nat): (r: seq<nat>)
    requires s >= 1
    ensures start < n ==> |r| > 0 && r[0] == start
    ensures start >= n ==> r == []
    decreases n - start
  {
    if start >= n then [] else [start] + Range(start + s, n, s)
  }

  lemma {:induction false} RangeBounds(start: nat, n: nat, s: nat)
    requires s >= 1
    ensures forall k :: 0 <= k < |Range(start, n, s)| ==> start <= Range(start, n, s)[k] < n
    decreases n - start
  {
    if start < n {
      RangeBounds(start + s, n, s);
    }
  }

  /** The range stops at the first step that reaches n. */
  lemma {:induction false} RangeLast(start: nat, n: nat, s: nat)
    requires s >= 1
    ensures var r := Range(start, n, s); |r| > 0 ==> r[|r| - 1] < n <= r[|r| - 1] + s
    decreases n - start
  {
    if start < n {
      RangeLast(start + s, n, s);
      RangeBounds(start, n, s);
    }
  }

  /** The label indices for n in-bounds points: `range(0, n, spacing)` when
      n > 4, none otherwise. */
  function LabelIndices(n: nat): (r: seq<nat>)
    ensures forall k :: 0 <= k < |r| ==> r[k] < n
  {
    if n > 4 then RangeBounds(0, n, LabelSpacing(n)); Range(0, n, LabelSpacing(n)) else []
  }

  /** The range holds exactly start, start + s, start + 2s, ... below n. */
  lemma {:induction false} RangeElements(start: nat, n: nat, s: nat)
    requires s >= 1
    ensures forall k :: 0 <= k < |Range(start, n, s)| ==> Range(start, n, s)[k] == start + k * s
    decreases n - start
  {
    if start < n {
      RangeElements(start + s, n, s);
      var r := Range(start, n, s);
      forall k | 0 <= k < |r|
        ensures r[k] == start + k * s
      {
        if k > 0 {
          assert r[k] == Range(start + s, n, s)[k - 1];
          assert (start + s) + (k - 1) * s == start + k * s;
        }
      }
    }
  }

  lemma RangeUnfold(start: nat, n: nat, s: nat)
    requires s >= 1 && start < n
    ensures |Range(start, n, s)| == 1 + |Range(start + s, n, s)|
  {
  }

  lemma {:induction false} RangeCount(n: nat, s: nat)
    requires s >= 1 && 3 * s <= n < 3 * s + 3
    ensures 3 <= |Range(0, n, s)| <= 5
    ensures |Range(0, n, s)| == 3 <==> n == 3 * s
    ensures |Range(0, n, s)| == 5 <==> n == 5
  {
    RangeUnfold(0, n, s);
    RangeUnfold(s, n, s);
    RangeUnfold(2 * s, n, s);
    if 3 * s < n {
      RangeUnfold(3 * s, n, s);
      if 4 * s < n {
        RangeUnfold(4 * s, n, s);
        assert 5 * s >= n;
      }
    }
  }

  /** There are no labels for at most four points, and otherwise always
      three, four or five: three exactly when 3 divides n, five only for
      n = 5. */
  lemma LabelCount(n: nat)
    ensures n <= 4 ==> LabelIndices(n) == []
    ensures n > 4 ==> 3 <= |LabelIndices(n)| <= 5
    ensures n > 4 ==> (|LabelIndices(n)| == 3 <==> n % 3 == 0)
    ensures n > 4 ==> (|LabelIndices(n)| == 5 <==> n == 5)
  {
    if n > 4 {
      var s := n / 3;
      RangeCount(n, s);
    }
  }

  /** The texts placed at the chosen indices: "ECLIPTIC" 0.4 degrees below
      each chosen point. */
  function LabelTexts(sp: StarPlot, inbounds: seq<(real, real)>, indices: seq<nat>): (ts: seq<Text>)
    requires forall k :: 0 <= k < |indices| ==> indices[k] < |inbounds|
    ensures |ts| == |indices|
    ensures forall k :: 0 <= k < |indices| ==>
      ts[k] == sp.TextAt(inbounds[indices[k]].0, inbounds[indices[k]].1 - 0.4, "ECLIPTIC", sp.style.ecliptic.labelStyle)
  {
    seq(|indices|, k requires 0 <= k < |indices| =>
      sp.TextAt(inbounds[indices[k]].0, inbounds[indices[k]].1 - 0.4, "ECLIPTIC", sp.style.ecliptic.labelStyle))
  }

  /** Every label `plot_ecliptic2` proposes, in order. */
  function EclipticTexts(sp: StarPlot, raDecs: seq<(real, real)>): seq<Text>
  {
    if !sp.style.ecliptic.labelStyle.visible then []
    else
      var inbounds := InBoundsFilter(sp.inBounds, raDecs);
      LabelTexts(sp, inbounds, LabelIndices(|inbounds|))
  }

  /** Labels exist only with a visible label style and more than four
      in-bounds points, and then there are three to five of them. */
  lemma EclipticTextsCount(sp: StarPlot, raDecs: seq<(real, real)>)
    ensures var ts := EclipticTexts(sp, raDecs);
      && (ts != [] <==> sp.style.ecliptic.labelStyle.visible && |InBoundsFilter(sp.inBounds, raDecs)| > 4)
      && (ts != [] ==> 3 <= |ts| <= 5)
  {
    LabelCount(|InBoundsFilter(sp.inBounds, raDecs)|);
  }

  lemma LabelTextFromPoint(sp: StarPlot, inbounds: seq<(real, real)>, indices: seq<nat>, k: int)
    requires forall j :: 0 <= j < |indices| ==> indices[j] < |inbounds|
    requires 0 <= k < |indices|
    ensures exists p :: (p in inbounds &&
      LabelTexts(sp, inbounds, indices)[k] == sp.TextAt(p.0, p.1 - 0.4, "ECLIPTIC", sp.style.ecliptic.labelStyle))
  {
    var p := inbounds[indices[k]];
    assert p in inbounds;
  }

  /** Each label is the text "ECLIPTIC" 0.4 degrees below an in-bounds
      point of the line. */
  lemma EclipticTextsInBounds(sp: StarPlot, raDecs: seq<(real, real)>, k: int)
    requires 0 <= k < |EclipticTexts(sp, raDecs)|
    ensures exists p :: (p in raDecs && sp.inBounds(p.0, p.1) &&
      EclipticTexts(sp, raDecs)[k] == sp.TextAt(p.0, p.1 - 0.4, "ECLIPTIC", sp.style.ecliptic.labelStyle))
  {
    if sp.style.ecliptic.labelStyle.visible {
      var inbounds := InBoundsFilter(sp.inBounds, raDecs);
      var indices := LabelIndices(|inbounds|);
      FilterSound(AtPoint(sp.inBounds), raDecs);
      assert EclipticTexts(sp, raDecs) == LabelTexts(sp, inbounds, indices);
      LabelTextFromPoint(sp, inbounds, indices, k);
    }
  }

  lemma RangeStep(done: seq<nat>, i: nat, n: nat, s: nat)
    requires s >= 1 && i < n
    ensures done + Range(i, n, s) == (done + [i]) + Range(i + s, n, s)
  {
    assert Range(i, n, s) == [i] + Range(i + s, n, s);
  }

  lemma LabelTextsSnoc(sp: StarPlot, inbounds: seq<(real, real)>, done: seq<nat>, i: nat)
    requires forall k :: 0 <= k < |done| ==> done[k] < |inbounds|
    requires i < |inbounds|
    ensures LabelTexts(sp, inbounds, done + [i]) ==
      LabelTexts(sp, inbounds, done) + [sp.TextAt(inbounds[i].0, inbounds[i].1 - 0.4, "ECLIPTIC", sp.style.ecliptic.labelStyle)]
  {
  }

  /** The label loop of `plot_ecliptic2` has visited the indices `done`, is
      at index i, and the labels are l. */
  ghost predicate LabelProgress(sp: StarPlot, inbounds: seq<(real, real)>, l0: Layout, spacing: nat, i: nat, done: seq<nat>, l: Layout)
    requires spacing >= 1
  {
    && Range(0, |inbounds|, spacing) == done + Range(i, |inbounds|, spacing)
    && (forall k :: 0 <= k < |done| ==> done[k] < |inbounds|)
    && l == ProposeAll(sp.Cfg(), l0, LabelTexts(sp, inbounds, done))
  }

  /** Proposing the label of point i moves the loop on by one spacing. */
  lemma LabelAdvance(sp: StarPlot, inbounds: seq<(real, real)>, l0: Layout, spacing: nat, i: nat, done: seq<nat>, l: Layout)
    requires spacing >= 1 && i < |inbounds| && LabelProgress(sp, inbounds, l0, spacing, i, done, l)
    ensures LabelProgress(sp, inbounds, l0, spacing, i + spacing, done + [i],
                          Propose(sp.Cfg(), l, sp.TextAt(inbounds[i].0, inbounds[i].1 - 0.4, "ECLIPTIC", sp.style.ecliptic.labelStyle)))
  {
    var t := sp.TextAt(inbounds[i].0, inbounds[i].1 - 0.4, "ECLIPTIC", sp.style.ecliptic.labelStyle);
    ProposeAllSnoc(sp.Cfg(), l0, LabelTexts(sp, inbounds, done), t);
    LabelTextsSnoc(sp, inbounds, done, i);
    RangeStep(done, i, |inbounds|, spacing);
  }

  /** Once the index passes the end, the visited indices are those of
      `LabelIndices`. */
  lemma LabelDone(sp: StarPlot, inbounds: seq<(real, real)>, l0: Layout, i: nat, done: seq<nat>, l: Layout)
    requires |inbounds| > 4 && i >= |inbounds|
    requires LabelProgress(sp, inbounds, l0, LabelSpacing(|inbounds|), i, done, l)
    ensures l == ProposeAll(sp.Cfg(), l0, LabelTexts(sp, inbounds, LabelIndices(|inbounds|)))
  {
    assert done + [] == done;
  }

  /** The label loop of `plot_ecliptic2` over n > 4 in-bounds points. */
  method PlotLabels(sp: StarPlot, inbounds: seq<(real, real)>)
    requires sp.Valid() && |inbounds| > 4
    modifies sp`labels, sp`labelExtents, sp`removedLabels
    ensures sp.Valid()
    ensures sp.LabelState() == ProposeAll(sp.Cfg(), old(sp.LabelState()), LabelTexts(sp, inbounds, LabelIndices(|inbounds|)))
  {
    var n := |inbounds|;
    var spacing := LabelSpacing(n);
    ghost var l0 := sp.LabelState();
    ghost var done: seq<nat> := [];
    var i: nat := 0;
    while i < n
      invariant sp.Valid()
      invariant LabelProgress(sp, inbounds, l0, spacing, i, done, sp.LabelState())
      decreases n - i
    {
      var ra, dec := inbounds[i].0, inbounds[i].1;
      LabelAdvance(sp, inbounds, l0, spacing, i, done, sp.LabelState());
      sp.PlotText(ra, dec - 0.4, "ECLIPTIC", sp.style.ecliptic.labelStyle);
      done := done + [i];
      i := i + spacing;
    }
    LabelDone(sp, inbounds, l0, i, done, sp.LabelState());
  }

  /** `plot_ecliptic2`: with the line hidden nothing happens, even when the
      label style is visible; otherwise the line is drawn and the labels of
      `EclipticTexts` are proposed in order. */
  method PlotEcliptic2(sp: StarPlot, raDecs: seq<(real, real)>)
    requires sp.Valid()
    modifies sp`labels, sp`labelExtents, sp`removedLabels, sp`drawn
    ensures sp.Valid()
    ensures !sp.style.ecliptic.line.visible ==> sp.drawn == old(sp.drawn) && sp.LabelState() == old(sp.LabelState())
    ensures sp.style.ecliptic.line.visible ==>
      && sp.drawn == old(sp.drawn) + [Line(EclipticLine(raDecs), sp.style.ecliptic.line)]
      && sp.LabelState() == ProposeAll(sp.Cfg(), old(sp.LabelState()), EclipticTexts(sp, raDecs))
  {
    if !sp.style.ecliptic.line.visible {
      return;
    }
    sp.drawn := sp.drawn + [Line(EclipticLine(raDecs), sp.style.ecliptic.line)];
    if sp.style.ecliptic.labelStyle.visible {
      var inbounds := CollectInBounds(sp.inBounds, raDecs);
      if |inbounds| > 4 {
        PlotLabels(sp, inbounds);
      }
    }
  }
}
