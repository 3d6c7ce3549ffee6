/** The label collision engine of a plot session: every proposed text label
    is either kept, and then occupies its box for the rest of the session, or
    removed from the axes. */
module Layout {
  import opened Bbox
  import opened Styles

  /** A text artist: anchor in plot coordinates, content and style. */
  datatype Text = Text(x: real, y: real, content: string, style: LabelStyle)

  /** What a session fixes once: the window extent of its axes, whether
      colliding labels are hidden, and the renderer's measurement of a text
      (`get_window_extent`), which the model leaves uninterpreted. */
  datatype Config = Config(axes: Box, hideCollidingLabels: bool, measure: Text -> Box)

  /** The session's label lists: `labels` and `_labels_extents`, index
      aligned, and the texts that were removed from the axes again. */
  datatype Layout = Layout(labels: seq<Text>, extents: seq<Box>, removed: seq<Text>)

  const Empty: Layout := Layout([], [], [])

  /** `_is_label_collision`: the box meets one of the kept boxes. */
  predicate Collides(kept: seq<Box>, e: Box)
  {
    exists i :: 0 <= i < |kept| && Intersection(kept[i], e).Some?
  }

  /** The decision of `_maybe_remove_label` for a label whose box is e. */
  predicate Accepts(cfg: Config, kept: seq<Box>, e: Box)
  {
    PassesContainment(cfg.axes, e) && !(cfg.hideCollidingLabels && Collides(kept, e))
  }

  /** One call of `_maybe_remove_label`. */
  function Propose(cfg: Config, l: Layout, t: Text): Layout
  {
    var e := cfg.measure(t);
    if Accepts(cfg, l.extents, e) then
      Layout(l.labels + [t], l.extents + [e], l.removed)
    else
      Layout(l.labels, l.extents, l.removed + [t])
  }

  /** The labels ts proposed one after the other, first to last. */
  function ProposeAll(cfg: Config, l: Layout, ts: seq<Text>): Layout
    decreases |ts|
  {
    if ts == [] then l else Propose(cfg, ProposeAll(cfg, l, ts[..|ts| - 1]), ts[|ts| - 1])
  }

  /** The session invariant: the two lists are aligned, every kept box is the
      measured box of its label and passed the containment test, and with
      collision hiding on no two kept boxes intersect. */
  ghost predicate Consistent(cfg: Config, l: Layout)
  {
    && |l.labels| == |l.extents|
    && (forall i :: 0 <= i < |l.extents| ==>
          l.extents[i] == cfg.measure(l.labels[i]) && PassesContainment(cfg.axes, l.extents[i]))
    && (cfg.hideCollidingLabels ==>
          forall i, j :: 0 <= i < j < |l.extents| ==> Intersection(l.extents[i], l.extents[j]).None?)
  }

  lemma EmptyConsistent(cfg: Config)
    ensures Consistent(cfg, Empty)
  {
  }

  /** Proposing a label keeps the invariant. */
  lemma ProposeConsistent(cfg: Config, l: Layout, t: Text)
    requires Consistent(cfg, l)
    ensures Consistent(cfg, Propose(cfg, l, t))
  {
    var e := cfg.measure(t);
    if Accepts(cfg, l.extents, e) && cfg.hideCollidingLabels {
      var n := l.extents + [e];
      forall i, j | 0 <= i < j < |n| ensures Intersection(n[i], n[j]).None? {
        if j == |l.extents| {
          assert !(Intersection(l.extents[i], e).Some?);
        }
      }
    }
  }

  lemma {:induction false} ProposeAllConsistent(cfg: Config, l: Layout, ts: seq<Text>)
    requires Consistent(cfg, l)
    ensures Consistent(cfg, ProposeAll(cfg, l, ts))
    decreases |ts|
  {
    if ts != [] {
      ProposeAllConsistent(cfg, l, ts[..|ts| - 1]);
      ProposeConsistent(cfg, ProposeAll(cfg, l, ts[..|ts| - 1]), ts[|ts| - 1]);
    }
  }

  /** A label is kept exactly when it passes the decision; a rejected label
      leaves both lists as they were and is removed instead. */
  lemma ProposeKeepsOrRemoves(cfg: Config, l: Layout, t: Text)
    ensures var r := Propose(cfg, l, t);
      if Accepts(cfg, l.extents, cfg.measure(t)) then
        r.labels == l.labels + [t] && r.extents == l.extents + [cfg.measure(t)] && r.removed == l.removed
      else
        r.labels == l.labels && r.extents == l.extents && r.removed == l.removed + [t]
  {
  }

  /** With collision hiding off only the containment test decides. */
  lemma WithoutHidingOnlyContainmentDecides(cfg: Config, kept: seq<Box>, e: Box)
    requires !cfg.hideCollidingLabels
    ensures Accepts(cfg, kept, e) <==> PassesContainment(cfg.axes, e)
  {
  }

  lemma {:induction false} ProposeAllConcat(cfg: Config, l: Layout, a: seq<Text>, b: seq<Text>)
    ensures ProposeAll(cfg, l, a + b) == ProposeAll(cfg, ProposeAll(cfg, l, a), b)
    decreases |b|
  {
    if b == [] {
      assert a + b == a;
    } else {
      assert (a + b)[..|a + b| - 1] == a + b[..|b| - 1];
      ProposeAllConcat(cfg, l, a, b[..|b| - 1]);
    }
  }

  /** Kept labels are never taken back: what was kept before a run of
      proposals is a prefix of what is kept after it, and every proposal ends
      up kept or removed, each exactly once. */
  lemma {:induction false} ProposeAllExtends(cfg: Config, l: Layout, ts: seq<Text>)
    ensures var r := ProposeAll(cfg, l, ts);
      && l.labels <= r.labels && l.extents <= r.extents && l.removed <= r.removed
      && multiset(r.labels[|l.labels|..]) + multiset(r.removed[|l.removed|..]) == multiset(ts)
    decreases |ts|
  {
    if ts != [] {
      var init := ts[..|ts| - 1];
      var t := ts[|ts| - 1];
      ProposeAllExtends(cfg, l, init);
      var p := ProposeAll(cfg, l, init);
      var r := Propose(cfg, p, t);
      assert ts == init + [t];
      if Accepts(cfg, p.extents, cfg.measure(t)) {
        assert r.labels[|l.labels|..] == p.labels[|l.labels|..] + [t];
        assert r.removed[|l.removed|..] == p.removed[|l.removed|..];
      } else {
        assert r.labels[|l.labels|..] == p.labels[|l.labels|..];
        assert r.removed[|l.removed|..] == p.removed[|l.removed|..] + [t];
      }
    }
  }

  /** Earlier proposals take precedence: whatever a first run of proposals
      kept is still kept, at the front, after any later run. */
  lemma EarlierKeptStayKept(cfg: Config, l: Layout, a: seq<Text>, b: seq<Text>)
    ensures ProposeAll(cfg, l, a).labels <= ProposeAll(cfg, l, a + b).labels
    ensures ProposeAll(cfg, l, a).extents <= ProposeAll(cfg, l, a + b).extents
  {
    ProposeAllConcat(cfg, l, a, b);
    ProposeAllExtends(cfg, ProposeAll(cfg, l, a), b);
  }

  lemma ProposeAllSnoc(cfg: Config, l: Layout, ts: seq<Text>, t: Text)
    ensures ProposeAll(cfg, l, ts + [t]) == Propose(cfg, ProposeAll(cfg, l, ts), t)
  {
    assert (ts + [t])[..|ts|] == ts;
  }

  lemma ProposeAllSingle(cfg: Config, l: Layout, ts: seq<Text>)
    requires |ts| <= 1
    ensures ProposeAll(cfg, l, ts) == if ts == [] then l else Propose(cfg, l, ts[0])
  {
    if ts != [] {
      assert ts[..0] == [];
    }
  }

  lemma ProposeAllPair(cfg: Config, l: Layout, a: Text, b: Text)
    ensures ProposeAll(cfg, l, [a, b]) == Propose(cfg, Propose(cfg, l, a), b)
  {
    assert [a, b][..1] == [a];
    assert [a][..0] == [];
    assert ProposeAll(cfg, l, []) == l;
    assert ProposeAll(cfg, l, [a]) == Propose(cfg, l, a);
  }

  /** Of two meeting labels that would each be kept, the second is removed. */
  lemma SecondOfMeetingPairRemoved(cfg: Config, l: Layout, a: Text, b: Text)
    requires cfg.hideCollidingLabels
    requires Accepts(cfg, l.extents, cfg.measure(a))
    requires Intersection(cfg.measure(a), cfg.measure(b)).Some?
    ensures ProposeAll(cfg, l, [a, b]).labels == l.labels + [a]
  {
    ProposeAllPair(cfg, l, a, b);
    var pa := Propose(cfg, l, a);
    assert pa.extents[|l.extents|] == cfg.measure(a);
    assert Collides(pa.extents, cfg.measure(b));
  }

  /** First plotted wins: with collision hiding on, of two labels whose boxes
      meet and which would each be kept on their own, the one proposed first
      is kept and the other removed, whichever order they come in. */
  lemma FirstPlottedWins(cfg: Config, l: Layout, a: Text, b: Text)
    requires cfg.hideCollidingLabels
    requires Accepts(cfg, l.extents, cfg.measure(a)) && Accepts(cfg, l.extents, cfg.measure(b))
    requires Intersection(cfg.measure(a), cfg.measure(b)).Some?
    ensures ProposeAll(cfg, l, [a, b]).labels == l.labels + [a]
    ensures ProposeAll(cfg, l, [b, a]).labels == l.labels + [b]
  {
    SecondOfMeetingPairRemoved(cfg, l, a, b);
    IntersectionSymmetric(cfg.measure(a), cfg.measure(b));
    SecondOfMeetingPairRemoved(cfg, l, b, a);
  }

  /** A kept label of positive size lies inside the axes. */
  lemma KeptLabelInsideAxes(cfg: Config, l: Layout, i: int)
    requires Consistent(cfg, l) && 0 <= i < |l.extents|
    requires Width(l.extents[i]) > 0.0 && Height(l.extents[i]) > 0.0
    ensures ContainedIn(l.extents[i], cfg.axes)
  {
    PassesContainmentIffContained(cfg.axes, l.extents[i]);
  }

  /** With collision hiding on, no point of the screen is covered by two
      kept labels. */
  lemma KeptLabelsDoNotOverlap(cfg: Config, l: Layout, i: int, j: int, x: real, y: real)
    requires Consistent(cfg, l) && cfg.hideCollidingLabels
    requires 0 <= i < j < |l.extents|
    ensures !(Covers(l.extents[i], x, y) && Covers(l.extents[j], x, y))
  {
    IntersectionIsCommonPart(l.extents[i], l.extents[j], x, y);
  }
}
