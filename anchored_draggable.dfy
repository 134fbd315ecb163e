/**
  The anchored-draggable state the sheet is built on (Compose's
  `AnchoredDraggableState`, which is not part of this repository).  Only what
  the sheet code relies on is kept: a map of anchors, the settled value, the
  value being moved to, and the offset, which is unknown until anchors exist.

  - `animateTo(v)` ends at `v`'s anchor, settled on `v`; without an anchor for
    `v` it only makes `v` the settled value.  The animation curve is not
    modelled.
  - `dispatchRawDelta(d)` moves the offset by `d`, clamped to the anchors'
    range, and reports how much it moved; without anchors it does nothing.
  - `settle(velocity)` animates to the anchor the fling lands on.  Which
    anchor that is the library decides with the sheet's positional (20% of
    the distance) and velocity (125 px/s) thresholds, which are not
    modelled, so it is given as a parameter.
  - `updateAnchors(a)` does nothing when `a` equals the current anchors;
    otherwise it installs `a` and snaps to the anchor closest to the current
    offset (to the target value when there is no offset yet).
 */
module AnchoredDraggable {
  import opened Wrappers
  import opened SheetValues

  type AnchorMap = map<SheetValue, real>

  /** The smallest anchor among the values `vs`, or None if none of them has one. */
  function MinAnchorOver(a: AnchorMap, vs: seq<SheetValue>): (r: Option<real>)
    ensures r.None? <==> (forall i :: 0 <= i < |vs| ==> vs[i] !in a)
    ensures r.Some? ==> exists i :: 0 <= i < |vs| && vs[i] in a && a[vs[i]] == r.value
    ensures r.Some? ==> forall i :: 0 <= i < |vs| && vs[i] in a ==> r.value <= a[vs[i]]
  {
    if vs == [] then None
    else
      var rest := MinAnchorOver(a, vs[1..]);
      assert forall i :: 1 <= i < |vs| ==> vs[i] == vs[1..][i - 1];
      if vs[0] !in a then rest
      else match rest
        case None => Some(a[vs[0]])
        case Some(m) => Some(Min(a[vs[0]], m))
  }

  /** The largest anchor among the values `vs`, or None if none of them has one. */
  function MaxAnchorOver(a: AnchorMap, vs: seq<SheetValue>): (r: Option<real>)
    ensures r.None? <==> (forall i :: 0 <= i < |vs| ==> vs[i] !in a)
    ensures r.Some? ==> exists i :: 0 <= i < |vs| && vs[i] in a && a[vs[i]] == r.value
    ensures r.Some? ==> forall i :: 0 <= i < |vs| && vs[i] in a ==> a[vs[i]] <= r.value
  {
    if vs == [] then None
    else
      var rest := MaxAnchorOver(a, vs[1..]);
      assert forall i :: 1 <= i < |vs| ==> vs[i] == vs[1..][i - 1];
      if vs[0] !in a then rest
      else match rest
        case None => Some(a[vs[0]])
        case Some(m) => Some(if a[vs[0]] <= m then m else a[vs[0]])
  }

  lemma EveryValueListed()
    ensures forall v: SheetValue :: v in AllValues
  {
    forall v: SheetValue ensures v in AllValues { AllValuesComplete(v); }
  }

  /** `anchors.minAnchor()`: the most open position; None (NaN) without anchors. */
  function MinAnchor(a: AnchorMap): (r: Option<real>)
    ensures r.None? <==> a == map[]
    ensures r.Some? ==> forall v :: v in a ==> r.value <= a[v]
    ensures r.Some? ==> exists v :: v in a && a[v] == r.value
  {
    EveryValueListed();
    var r := MinAnchorOver(a, AllValues);
    assert a != map[] ==> r.Some? by {
      if a != map[] {
        var v :| v in a;
        assert v == AllValues[0] || v == AllValues[1] || v == AllValues[2] || v == AllValues[3];
      }
    }
    assert r.Some? ==> forall v :: v in a ==> r.value <= a[v] by {
      if r.Some? {
        forall v | v in a ensures r.value <= a[v] {
          assert v == AllValues[0] || v == AllValues[1] || v == AllValues[2] || v == AllValues[3];
        }
      }
    }
    r
  }

  /** `anchors.maxAnchor()`: the least open position; None (NaN) without anchors. */
  function MaxAnchor(a: AnchorMap): (r: Option<real>)
    ensures r.None? <==> a == map[]
    ensures r.Some? ==> forall v :: v in a ==> a[v] <= r.value
    ensures r.Some? ==> exists v :: v in a && a[v] == r.value
  {
    EveryValueListed();
    var r := MaxAnchorOver(a, AllValues);
    assert a != map[] ==> r.Some? by {
      if a != map[] {
        var v :| v in a;
        assert v == AllValues[0] || v == AllValues[1] || v == AllValues[2] || v == AllValues[3];
      }
    }
    assert r.Some? ==> forall v :: v in a ==> a[v] <= r.value by {
      if r.Some? {
        forall v | v in a ensures a[v] <= r.value {
          assert v == AllValues[0] || v == AllValues[1] || v == AllValues[2] || v == AllValues[3];
        }
      }
    }
    r
  }

  /** `x` lies within the range spanned by the anchors (false without anchors). */
  predicate InRange(a: AnchorMap, x: real) {
    match (MinAnchor(a), MaxAnchor(a))
    case (Some(lo), Some(hi)) => lo <= x <= hi
    case _ => false
  }

  /** The state of the draggable, as a value. */
  datatype DragModel = DragModel(
    anchors: AnchorMap,
    currentValue: SheetValue,
    targetValue: SheetValue,
    offset: Option<real>)

  /** The offset is known exactly when there are anchors, and then lies within their range. */
  predicate Consistent(m: DragModel) {
    (m.offset.Some? <==> m.anchors != map[])
    && (m.offset.Some? ==> InRange(m.anchors, m.offset.value))
  }

  /** A freshly created draggable: no anchors, no offset, settled on `initialValue`. */
  function Created(initialValue: SheetValue): (m: DragModel)
    ensures Consistent(m)
    ensures m.currentValue == initialValue && m.targetValue == initialValue
  {
    DragModel(map[], initialValue, initialValue, None)
  }

  /**
    `animateTo(target)`, run to completion: settled on and aimed at
    `target`, at its anchor when it has one; without an anchor the offset
    stays where it is.
   */
  function Animate(m: DragModel, target: SheetValue): (r: DragModel)
    ensures r.currentValue == target && r.targetValue == target
    ensures target in m.anchors ==> r.offset == Some(m.anchors[target])
    ensures target !in m.anchors ==> r.offset == m.offset
    ensures r.anchors == m.anchors
    ensures Consistent(m) ==> Consistent(r)
  {
    if target in m.anchors then
      AnchorInRange(m.anchors, target);
      m.(currentValue := target, targetValue := target, offset := Some(m.anchors[target]))
    else m.(currentValue := target, targetValue := target)
  }

  /** Every anchor lies within the anchors' range. */
  lemma AnchorInRange(a: AnchorMap, v: SheetValue)
    requires v in a
    ensures InRange(a, a[v])
  {
  }

  function Clamp(x: real, lo: real, hi: real): real {
    if x < lo then lo else if x > hi then hi else x
  }

  /** The result of `dispatchRawDelta`: the new state and the distance actually moved. */
  datatype DeltaOutcome = DeltaOutcome(model: DragModel, consumed: real)

  /**
    `dispatchRawDelta(delta)`: the offset moves by `delta`, clamped to the
    anchors' range; the settled value and the anchors do not change, and
    without anchors nothing moves.
   */
  function Dispatch(m: DragModel, delta: real): (r: DeltaOutcome)
    ensures r.model.anchors == m.anchors
    ensures r.model.currentValue == m.currentValue && r.model.targetValue == m.targetValue
    ensures m.anchors == map[] ==> r == DeltaOutcome(m, 0.0)
  {
    var lo, hi := MinAnchor(m.anchors), MaxAnchor(m.anchors);
    if m.offset.Some? && lo.Some? && hi.Some? then
      var now := Clamp(m.offset.value + delta, lo.value, hi.value);
      DeltaOutcome(m.(offset := Some(now)), now - m.offset.value)
    else DeltaOutcome(m, 0.0)
  }

  /** The smallest anchor is no larger than the largest. */
  lemma MinBelowMax(a: AnchorMap)
    requires a != map[]
    ensures MinAnchor(a).value <= MaxAnchor(a).value
  {
    var v :| v in a && a[v] == MinAnchor(a).value;
  }

  /** Clamping a move from inside the range: what is moved has the sign of the delta and no more. */
  lemma ClampedMove(was: real, delta: real, lo: real, hi: real)
    requires lo <= was <= hi
    ensures var now := Clamp(was + delta, lo, hi);
      && lo <= now <= hi
      && (delta >= 0.0 ==> 0.0 <= now - was <= delta)
      && (delta <= 0.0 ==> delta <= now - was <= 0.0)
      && (lo <= was + delta <= hi ==> now == was + delta)
  {
  }

  /** Being in range is lying between the smallest and the largest anchor. */
  lemma InRangeBetween(a: AnchorMap, x: real)
    ensures InRange(a, x) <==> a != map[] && MinAnchor(a).value <= x <= MaxAnchor(a).value
  {
  }

  /**
    On a consistent state `dispatchRawDelta` keeps the offset within the
    anchors, and the distance moved has the sign of `delta` and is no longer
    than it.
   */
  lemma DispatchStaysInRange(m: DragModel, delta: real)
    ensures var r := Dispatch(m, delta);
      && (Consistent(m) ==> Consistent(r.model))
      && (Consistent(m) && delta >= 0.0 ==> 0.0 <= r.consumed <= delta)
      && (Consistent(m) && delta <= 0.0 ==> delta <= r.consumed <= 0.0)
  {
    if Consistent(m) && m.anchors != map[] {
      var was, lo, hi := m.offset.value, MinAnchor(m.anchors).value, MaxAnchor(m.anchors).value;
      var now := Clamp(was + delta, lo, hi);
      DispatchUnfold(m, delta);
      InRangeBetween(m.anchors, was);
      ClampedMove(was, delta, lo, hi);
      InRangeBetween(m.anchors, now);
    }
  }

  /** With an offset and anchors, `dispatchRawDelta` clamps the moved offset into the anchors' range. */
  lemma DispatchUnfold(m: DragModel, delta: real)
    requires m.offset.Some? && m.anchors != map[]
    ensures var now := Clamp(m.offset.value + delta, MinAnchor(m.anchors).value, MaxAnchor(m.anchors).value);
      Dispatch(m, delta) == DeltaOutcome(m.(offset := Some(now)), now - m.offset.value)
  {
  }

  /** A delta that keeps the offset within the anchors is moved in full. */
  lemma DispatchMovesInFull(m: DragModel, delta: real)
    requires m.offset.Some? && InRange(m.anchors, m.offset.value + delta)
    ensures Dispatch(m, delta).consumed == delta
    ensures Dispatch(m, delta).model.offset == Some(m.offset.value + delta)
  {
    InRangeBetween(m.anchors, m.offset.value + delta);
    var was, lo, hi := m.offset.value, MinAnchor(m.anchors).value, MaxAnchor(m.anchors).value;
    assert Clamp(was + delta, lo, hi) == was + delta;
    DispatchUnfold(m, delta);
  }

  /** The distance between two positions. */
  function Dist(p: real, x: real): (d: real)
    ensures d >= 0.0 && (d == p - x || d == x - p)
  {
    if p >= x then p - x else x - p
  }

  /**
    The value among `vs` whose anchor is closest to `x`, the first such in
    the order of `vs` when several are equally close; None if none of them
    has an anchor.
   */
  function ClosestOver(a: AnchorMap, vs: seq<SheetValue>, x: real): (r: Option<SheetValue>)
    ensures r.None? <==> (forall i :: 0 <= i < |vs| ==> vs[i] !in a)
    ensures r.Some? ==> r.value in a && r.value in vs
    ensures r.Some? ==> forall i :: 0 <= i < |vs| && vs[i] in a ==> Dist(a[r.value], x) <= Dist(a[vs[i]], x)
  {
    if vs == [] then None
    else
      var rest := ClosestOver(a, vs[1..], x);
      assert forall i :: 1 <= i < |vs| ==> vs[i] == vs[1..][i - 1];
      if vs[0] !in a then rest
      else match rest
        case None => Some(vs[0])
        case Some(w) => if Dist(a[w], x) < Dist(a[vs[0]], x) then Some(w) else Some(vs[0])
  }

  /**
    The value `ClosestOver` picks comes no later in `vs` than any value whose
    anchor is as close: ties go to the first.
   */
  lemma {:induction false} ClosestOverIsFirst(a: AnchorMap, vs: seq<SheetValue>, x: real, k: nat)
    requires ClosestOver(a, vs, x).Some?
    requires k < |vs| && vs[k] in a
    requires Dist(a[vs[k]], x) <= Dist(a[ClosestOver(a, vs, x).value], x)
    ensures ClosestOver(a, vs, x).value in vs[..k + 1]
  {
    var r := ClosestOver(a, vs, x).value;
    if r != vs[0] {
      ClosestOverPassesOver(a, vs, x);
      assert vs[1..][k - 1] == vs[k];
      ClosestOverIsFirst(a, vs[1..], x, k - 1);
      PrefixCons(vs, k);
    }
  }

  /** When the first value is not picked, the rest of the list picks, and beats the first strictly. */
  lemma ClosestOverPassesOver(a: AnchorMap, vs: seq<SheetValue>, x: real)
    requires ClosestOver(a, vs, x).Some? && ClosestOver(a, vs, x).value != vs[0]
    ensures ClosestOver(a, vs[1..], x) == ClosestOver(a, vs, x)
    ensures vs[0] in a ==> Dist(a[ClosestOver(a, vs, x).value], x) < Dist(a[vs[0]], x)
  {
  }

  /** The first `k + 1` elements are the head and the first `k` of the tail. */
  lemma PrefixCons<T>(s: seq<T>, k: nat)
    requires 1 <= k < |s|
    ensures s[..k + 1] == [s[0]] + s[1..][..k]
  {
  }

  /** A value whose ordinal is at most `k` is among the first `k + 1` values. */
  lemma OrdinalsBefore(v: SheetValue, k: nat)
    requires k < |AllValues|
    ensures v in AllValues[..k + 1] ==> Ordinal(v) <= k
  {
  }

  /**
    `closestAnchor(x)`: the value whose anchor is closest to `x`, searched
    in declaration order; None exactly when there are no anchors.
   */
  function ClosestAnchor(a: AnchorMap, x: real): (r: Option<SheetValue>)
    ensures r.None? <==> a == map[]
    ensures r.Some? ==> r.value in a
    ensures r.Some? ==> forall v :: v in a ==> Dist(a[r.value], x) <= Dist(a[v], x)
    ensures r.Some? ==> forall v :: v in a && Ordinal(v) < Ordinal(r.value) ==> Dist(a[r.value], x) < Dist(a[v], x)
  {
    ClosestOverAllValues(a, x);
    ClosestOverAllValuesFirst(a, x);
    ClosestOver(a, AllValues, x)
  }

  /** Over all values the search finds a value whenever there are anchors, and it is nearest. */
  lemma ClosestOverAllValues(a: AnchorMap, x: real)
    ensures a != map[] ==> ClosestOver(a, AllValues, x).Some?
    ensures ClosestOver(a, AllValues, x).Some? ==>
      forall v :: v in a ==> Dist(a[ClosestOver(a, AllValues, x).value], x) <= Dist(a[v], x)
  {
    EveryValueListed();
    var r := ClosestOver(a, AllValues, x);
    if a != map[] {
      var v :| v in a;
      assert v == AllValues[0] || v == AllValues[1] || v == AllValues[2] || v == AllValues[3];
    }
    if r.Some? {
      forall v | v in a ensures Dist(a[r.value], x) <= Dist(a[v], x) {
        assert v == AllValues[Ordinal(v)];
      }
    }
  }

  /** Over all values the search is strictly nearer than every value declared before its pick. */
  lemma ClosestOverAllValuesFirst(a: AnchorMap, x: real)
    ensures ClosestOver(a, AllValues, x).Some? ==>
      forall v :: v in a && Ordinal(v) < Ordinal(ClosestOver(a, AllValues, x).value) ==>
        Dist(a[ClosestOver(a, AllValues, x).value], x) < Dist(a[v], x)
  {
    var r := ClosestOver(a, AllValues, x);
    if r.Some? {
      forall v | v in a && Ordinal(v) < Ordinal(r.value) ensures Dist(a[r.value], x) < Dist(a[v], x) {
        if Dist(a[v], x) <= Dist(a[r.value], x) {
          ClosestOverIsFirst(a, AllValues, x, Ordinal(v));
          OrdinalsBefore(r.value, Ordinal(v));
        }
      }
    }
  }

  /** Every value has an anchor, as after the sheet's own `updateAnchors`. */
  ghost predicate Complete(a: AnchorMap) {
    forall v: SheetValue :: v in a
  }

  /**
    `updateAnchors(newAnchors)`: equal anchors change nothing.  Otherwise the
    new anchors are installed and the state snaps, settled and aimed, to
    the value whose new anchor is closest to the current offset, or to the
    target value when there is no offset yet (keeping no offset when that
    value has no anchor).
   */
  function Reanchor(m: DragModel, newAnchors: AnchorMap): (r: DragModel)
    ensures r.anchors == newAnchors
    ensures newAnchors == m.anchors ==> r == m
    ensures newAnchors != m.anchors ==> r.currentValue == r.targetValue
    ensures newAnchors != m.anchors && m.offset.Some? && newAnchors != map[] ==>
      && r.currentValue in newAnchors
      && r.offset == Some(newAnchors[r.currentValue])
      && (forall v :: v in newAnchors ==>
            Dist(newAnchors[r.currentValue], m.offset.value) <= Dist(newAnchors[v], m.offset.value))
      && (forall v :: v in newAnchors && Ordinal(v) < Ordinal(r.currentValue) ==>
            Dist(newAnchors[r.currentValue], m.offset.value) < Dist(newAnchors[v], m.offset.value))
    ensures newAnchors != m.anchors && m.offset.None? ==>
      r.currentValue == m.targetValue
      && r.offset == (if m.targetValue in newAnchors then Some(newAnchors[m.targetValue]) else None)
    ensures Consistent(m) && Complete(newAnchors) ==> Consistent(r)
  {
    if newAnchors == m.anchors then m
    else
      var newTarget :=
        if m.offset.Some? && newAnchors != map[] then ClosestAnchor(newAnchors, m.offset.value).value
        else m.targetValue;
      if newTarget in newAnchors then
        AnchorInRange(newAnchors, newTarget);
        m.(anchors := newAnchors, currentValue := newTarget, targetValue := newTarget,
           offset := Some(newAnchors[newTarget]))
      else m.(anchors := newAnchors, currentValue := newTarget, targetValue := newTarget)
  }

  /**
    Measuring the same anchors again in the middle of a drag leaves the
    dragged offset where it is.
   */
  lemma RemeasuringKeepsDrag(m: DragModel, delta: real)
    ensures var dragged := Dispatch(m, delta).model;
      Reanchor(dragged, m.anchors) == dragged
  {
  }

  /** Calling `dispatchRawDelta` any number of times keeps the offset within the anchors. */
  lemma {:induction false} DeltasStayInRange(m: DragModel, deltas: seq<real>)
    requires Consistent(m) && m.anchors != map[]
    ensures var r := DispatchAll(m, deltas);
      r.offset.Some? && InRange(m.anchors, r.offset.value)
    decreases |deltas|
  {
    if deltas != [] {
      DispatchStaysInRange(m, deltas[0]);
      DeltasStayInRange(Dispatch(m, deltas[0]).model, deltas[1..]);
    }
  }

  /** The state after a sequence of `dispatchRawDelta` calls. */
  function DispatchAll(m: DragModel, deltas: seq<real>): (r: DragModel)
    ensures r.anchors == m.anchors
    decreases |deltas|
  {
    if deltas == [] then m else DispatchAll(Dispatch(m, deltas[0]).model, deltas[1..])
  }

  /** The draggable object whose fields the sheet and its gestures update. */
  class DraggableState {
    var anchors: AnchorMap
    var currentValue: SheetValue
    var targetValue: SheetValue
    var offset: Option<real>
    /** The velocities handed to `settle`, oldest first. */
    ghost var flings: seq<real>

    function Model(): DragModel
      reads this
    {
      DragModel(anchors, currentValue, targetValue, offset)
    }

    constructor (initialValue: SheetValue)
      ensures Model() == Created(initialValue) && flings == []
    {
      anchors := map[];
      currentValue := initialValue;
      targetValue := initialValue;
      offset := None;
      flings := [];
    }

    method AnimateTo(target: SheetValue)
      modifies this
      ensures Model() == Animate(old(Model()), target) && flings == old(flings)
    {
      currentValue := target;
      targetValue := target;
      if target in anchors {
        offset := Some(anchors[target]);
      }
    }

    method DispatchRawDelta(delta: real) returns (consumed: real)
      modifies this
      ensures DeltaOutcome(Model(), consumed) == Dispatch(old(Model()), delta)
      ensures old(Consistent(Model())) ==> Consistent(Model())
      ensures flings == old(flings)
    {
      DispatchStaysInRange(Model(), delta);
      var r := Dispatch(Model(), delta);
      offset := r.model.offset;
      consumed := r.consumed;
    }

    /** `settle(velocity)`, landing on `landing`, the anchor the library's thresholds choose. */
    method Settle(velocity: real, landing: SheetValue)
      modifies this
      ensures Model() == Animate(old(Model()), landing)
      ensures flings == old(flings) + [velocity]
    {
      flings := flings + [velocity];
      AnimateTo(landing);
    }

    method UpdateAnchors(newAnchors: AnchorMap)
      modifies this
      ensures Model() == Reanchor(old(Model()), newAnchors) && flings == old(flings)
    {
      var m := Reanchor(Model(), newAnchors);
      anchors, currentValue, targetValue, offset := m.anchors, m.currentValue, m.targetValue, m.offset;
    }
  }
}
