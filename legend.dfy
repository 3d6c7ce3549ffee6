/** The legend handles of a plot session: a dictionary from legend label to
    handle, filled on first use and kept in insertion order. */
module Legend {
  import opened Styles

  /** A marker-only legend line for one label. */
  datatype Handle = Handle(legendLabel: string, style: MarkerStyle, markerSize: real)

  /** `_legend_handles`: the handles by label, and the order in which the
      labels were first added (the order `values()` yields them in). */
  datatype Handles = Handles(order: seq<string>, entries: map<string, Handle>)

  const NoHandles: Handles := Handles([], map[])

  /** Each label appears once in the order, the order lists exactly the
      labels that have handles, and each handle carries its own legendLabel. */
  ghost predicate Valid(h: Handles)
  {
    && (forall i, j :: 0 <= i < j < |h.order| ==> h.order[i] != h.order[j])
    && (forall k :: k in h.entries <==> k in h.order)
    && (forall k :: k in h.entries ==> h.entries[k].legendLabel == k)
  }

  /** `_add_legend_handle_marker`: insert a handle for the label unless one
      is there already; the handle's marker is 16 times the size multiplier. */
  function AddHandle(h: Handles, legendLabel: string, style: MarkerStyle, sizeMultiplier: real): (r: Handles)
    ensures legendLabel in r.entries
    ensures r.entries.Keys == h.entries.Keys + {legendLabel}
    ensures forall k :: k in h.entries ==> r.entries[k] == h.entries[k]
    ensures legendLabel !in h.entries ==> r.entries[legendLabel] == Handle(legendLabel, style, 16.0 * sizeMultiplier)
    ensures legendLabel in h.entries ==> r.order == h.order
    ensures legendLabel !in h.entries ==> r.order == h.order + [legendLabel]
  {
    if legendLabel in h.entries then h
    else Handles(h.order + [legendLabel], h.entries[legendLabel := Handle(legendLabel, style, 16.0 * sizeMultiplier)])
  }

  lemma NoHandlesValid()
    ensures Valid(NoHandles)
  {
  }

  lemma AddHandleValid(h: Handles, legendLabel: string, style: MarkerStyle, m: real)
    requires Valid(h)
    ensures Valid(AddHandle(h, legendLabel, style, m))
  {
  }

  /** Adding the same label again changes nothing, whatever style it comes
      with: repeated calls are one call. */
  lemma AddHandleIdempotent(h: Handles, legendLabel: string, s1: MarkerStyle, s2: MarkerStyle, m1: real, m2: real)
    ensures AddHandle(AddHandle(h, legendLabel, s1, m1), legendLabel, s2, m2) == AddHandle(h, legendLabel, s1, m1)
  {
  }

  /** `_legend_handles.values()`: the handles in insertion order. */
  function Values(h: Handles): (r: seq<Handle>)
    requires Valid(h)
    ensures |r| == |h.order| == |h.entries|
    ensures forall i :: 0 <= i < |h.order| ==> r[i] == h.entries[h.order[i]]
  {
    OrderCoversEntries(h);
    seq(|h.order|, i requires 0 <= i < |h.order| => h.entries[h.order[i]])
  }

  lemma OrderCoversEntries(h: Handles)
    requires Valid(h)
    ensures |h.order| == |h.entries|
  {
    DistinctSeqCardinality(h.order);
    assert h.entries.Keys == set k | k in h.order;
  }

  lemma {:induction false} DistinctSeqCardinality<T>(s: seq<T>)
    requires forall i, j :: 0 <= i < j < |s| ==> s[i] != s[j]
    ensures |set k | k in s| == |s|
    decreases |s|
  {
    if s != [] {
      var init := s[..|s| - 1];
      DistinctSeqCardinality(init);
      assert (set k | k in s) == (set k | k in init) + {s[|s| - 1]};
      assert s[|s| - 1] !in init;
    }
  }
}
