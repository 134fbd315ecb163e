/**
  The hideable bottom sheet's state holder: a draggable over the four sheet
  values, the intent operations `show`, `expand`, `halfExpand` and `hide`,
  read-only queries on the settled value, anchor recomputation, and the
  saver that keeps the settled value across re-creation.
 */
module SheetState {
  import opened Wrappers
  import opened SheetValues
  import opened AnchoredDraggable

  /** The value `show` moves to: Initial when it has an anchor, HalfExpanded otherwise. */
  function ShowTarget(anchors: AnchorMap): (v: SheetValue)
    ensures v == Initial <==> Initial in anchors
    ensures v != Initial ==> v == HalfExpanded
  {
    if Initial in anchors then Initial else HalfExpanded
  }

  /**
    `show()`: settles on the value `ShowTarget` picks, at its anchor when it
    has one; otherwise the offset does not move.
   */
  function AfterShow(m: DragModel): (r: DragModel)
    ensures r.currentValue == ShowTarget(m.anchors) && r.targetValue == r.currentValue
    ensures Initial in m.anchors ==> r.offset == Some(m.anchors[Initial])
    ensures Initial !in m.anchors && HalfExpanded in m.anchors ==> r.offset == Some(m.anchors[HalfExpanded])
    ensures Initial !in m.anchors && HalfExpanded !in m.anchors ==> r.offset == m.offset
    ensures r.anchors == m.anchors
  {
    Animate(m, ShowTarget(m.anchors))
  }

  /** `expand()`: settles on Expanded when it has an anchor; otherwise nothing changes. */
  function AfterExpand(m: DragModel): (r: DragModel)
    ensures Expanded in m.anchors ==>
      r.currentValue == Expanded && r.targetValue == Expanded && r.offset == Some(m.anchors[Expanded])
    ensures Expanded !in m.anchors ==> r == m
    ensures r.anchors == m.anchors
  {
    if Expanded in m.anchors then Animate(m, Expanded) else m
  }

  /** `halfExpand()`: settles on HalfExpanded when it has an anchor; otherwise nothing changes. */
  function AfterHalfExpand(m: DragModel): (r: DragModel)
    ensures HalfExpanded in m.anchors ==>
      r.currentValue == HalfExpanded && r.targetValue == HalfExpanded && r.offset == Some(m.anchors[HalfExpanded])
    ensures HalfExpanded !in m.anchors ==> r == m
    ensures r.anchors == m.anchors
  {
    if HalfExpanded in m.anchors then Animate(m, HalfExpanded) else m
  }

  /**
    `hide()`: always settles on and aims at Hidden, at Hidden's anchor when
    it has one; without that anchor the offset does not move.
   */
  function AfterHide(m: DragModel): (r: DragModel)
    ensures r.currentValue == Hidden && r.targetValue == Hidden
    ensures Hidden in m.anchors ==> r.offset == Some(m.anchors[Hidden])
    ensures Hidden !in m.anchors ==> r.offset == m.offset
    ensures r.anchors == m.anchors
  {
    Animate(m, Hidden)
  }

  /** `isVisible`: the settled value is not Hidden. */
  predicate Visible(v: SheetValue) { v != Hidden }

  /**
    Once the anchors have been computed from positive measurements, `show`
    opens the sheet at Initial, `expand` and `halfExpand` always move, and
    `hide` after `show` returns exactly to the Hidden anchor.
   */
  lemma {:induction false} IntentsAfterLayout(m: DragModel, layoutHeight: int, sheetHeight: int, density: real)
    ensures var laid := Reanchor(m, Anchors(layoutHeight, sheetHeight, density));
      && AfterShow(laid).currentValue == Initial
      && AfterExpand(laid).currentValue == Expanded
      && AfterHalfExpand(laid).currentValue == HalfExpanded
      && AfterHide(AfterShow(laid)).currentValue == Hidden
      && AfterHide(AfterShow(laid)).offset == Some(AnchorFor(layoutHeight, sheetHeight, density, Hidden))
  {
    var a := Anchors(layoutHeight, sheetHeight, density);
    assert Initial in a && Expanded in a && HalfExpanded in a && Hidden in a;
  }

  /**
    On a short sheet Expanded and HalfExpanded share an anchor.  Laying the
    sheet out again while it rests there settles it on HalfExpanded, the
    earlier of the two in declaration order, whichever it showed before.
   */
  lemma ShortSheetSettlesHalfExpanded(m: DragModel)
    requires m.offset == Some(600.0) && m.anchors != Anchors(1000, 400, 1.0)
    ensures Reanchor(m, Anchors(1000, 400, 1.0)).currentValue == HalfExpanded
    ensures Reanchor(m, Anchors(1000, 400, 1.0)).offset == Some(600.0)
  {
    var a := Anchors(1000, 400, 1.0);
    ShortSheetExample();
    var v := Reanchor(m, a).currentValue;
    assert Dist(a[v], 600.0) <= Dist(a[HalfExpanded], 600.0);
    assert a[v] == 600.0;
  }

  /**
    `show` then `hide` returns the sheet to Hidden at its anchor, from any
    state whose anchors include Hidden.
   */
  lemma ShowThenHide(m: DragModel)
    requires Hidden in m.anchors
    ensures AfterHide(AfterShow(m)).currentValue == Hidden
    ensures AfterHide(AfterShow(m)).offset == Some(m.anchors[Hidden])
  {
  }

  class HideableBottomSheetState {
    const draggableState: DraggableState

    constructor (initialValue: SheetValue)
      ensures fresh(draggableState)
      ensures draggableState.Model() == Created(initialValue)
    {
      draggableState := new DraggableState(initialValue);
    }

    function CurrentValue(): SheetValue
      reads draggableState
    {
      draggableState.currentValue
    }

    function TargetValue(): SheetValue
      reads draggableState
    {
      draggableState.targetValue
    }

    predicate IsVisible()
      reads draggableState
    {
      Visible(CurrentValue())
    }

    predicate IsExpanded()
      reads draggableState
    {
      CurrentValue() == Expanded
    }

    predicate IsHalfExpanded()
      reads draggableState
    {
      CurrentValue() == HalfExpanded
    }

    predicate IsHidden()
      reads draggableState
    {
      CurrentValue() == Hidden
    }

    method Show()
      modifies draggableState
      ensures draggableState.Model() == AfterShow(old(draggableState.Model()))
      ensures draggableState.flings == old(draggableState.flings)
    {
      var targetValue := if Initial in draggableState.anchors then Initial else HalfExpanded;
      draggableState.AnimateTo(targetValue);
    }

    method Expand()
      modifies draggableState
      ensures draggableState.Model() == AfterExpand(old(draggableState.Model()))
      ensures draggableState.flings == old(draggableState.flings)
    {
      if Expanded in draggableState.anchors {
        draggableState.AnimateTo(Expanded);
      }
    }

    method HalfExpand()
      modifies draggableState
      ensures draggableState.Model() == AfterHalfExpand(old(draggableState.Model()))
      ensures draggableState.flings == old(draggableState.flings)
    {
      if HalfExpanded in draggableState.anchors {
        draggableState.AnimateTo(HalfExpanded);
      }
    }

    method Hide()
      modifies draggableState
      ensures draggableState.Model() == AfterHide(old(draggableState.Model()))
      ensures draggableState.flings == old(draggableState.flings)
    {
      draggableState.AnimateTo(Hidden);
    }

    /**
      Builds one anchor per sheet value from the measurements and installs
      them: afterwards every value has an anchor, and the same measurements
      always install the same map.
     */
    method UpdateAnchors(layoutHeight: int, sheetHeight: int, density: real)
      modifies draggableState
      ensures draggableState.anchors == Anchors(layoutHeight, sheetHeight, density)
      ensures draggableState.Model()
        == Reanchor(old(draggableState.Model()), Anchors(layoutHeight, sheetHeight, density))
      ensures draggableState.flings == old(draggableState.flings)
    {
      var newAnchors := BuildAnchors(layoutHeight, sheetHeight, density);
      draggableState.UpdateAnchors(newAnchors);
    }

    /**
      The queries read the settled value: exactly one of `isHidden`,
      `isHalfExpanded`, `isExpanded` and "settled on Initial" holds, and
      `isVisible` is the negation of `isHidden`.
     */
    lemma QueriesExclusive()
      ensures IsVisible() <==> !IsHidden()
      ensures !(IsHidden() && IsHalfExpanded()) && !(IsHidden() && IsExpanded())
      ensures !(IsHalfExpanded() && IsExpanded())
      ensures !IsHidden() && !IsHalfExpanded() && !IsExpanded() <==> CurrentValue() == Initial
    {
    }

    /** The saver's `save`: the settled value. */
    function Save(): SheetValue
      reads draggableState
    {
      draggableState.currentValue
    }

    /** The saver's `restore`: a new state settled on the saved value. */
    static method Restore(saved: SheetValue) returns (s: HideableBottomSheetState)
      ensures fresh(s) && fresh(s.draggableState)
      ensures s.Save() == saved && s.draggableState.Model() == Created(saved)
    {
      s := new HideableBottomSheetState(saved);
    }
  }
}
