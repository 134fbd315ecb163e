/**
  The scaffold around the sheet: the nested-scroll connection that decides
  whether the sheet or the scrollable content inside it takes a scroll delta
  or a fling velocity, and the size callbacks that recompute the anchors
  once both the container and the sheet content have been measured.
 */
module SheetScaffold {
  import opened Wrappers
  import opened SheetValues
  import opened AnchoredDraggable
  import opened SheetState

  datatype Orientation = Horizontal | Vertical

  datatype Offset = Offset(x: real, y: real)

  datatype Velocity = Velocity(x: real, y: real)

  /** Where a nested scroll delta comes from. */
  datatype ScrollSource = Drag | Fling | Wheel

  const ZeroOffset := Offset(0.0, 0.0)
  const ZeroVelocity := Velocity(0.0, 0.0)

  /** `offsetToFloat`: the component along the orientation. */
  function OffsetToFloat(o: Offset, orientation: Orientation): real {
    if orientation == Horizontal then o.x else o.y
  }

  function VelocityToFloat(v: Velocity, orientation: Orientation): real {
    if orientation == Horizontal then v.x else v.y
  }

  /**
    `toOffset`: puts an amount on the orientation's axis and zero on the
    other, so reading it back along the orientation gives the amount.
   */
  function ToOffset(f: real, orientation: Orientation): (o: Offset)
    ensures OffsetToFloat(o, orientation) == f
    ensures orientation == Vertical ==> o.x == 0.0
    ensures orientation == Horizontal ==> o.y == 0.0
  {
    Offset(if orientation == Horizontal then f else 0.0, if orientation == Vertical then f else 0.0)
  }

  /** The state after a scroll callback and the offset it reports as consumed. */
  datatype ScrollOutcome = ScrollOutcome(model: DragModel, consumed: Offset)

  /**
    `onPreScroll`: only a drag towards the top (negative delta) goes to the
    sheet before the content sees it; the sheet consumes what it could move,
    never more than was available and never in the other direction.  Any
    other delta leaves the sheet alone and consumes nothing.
   */
  function PreScroll(m: DragModel, available: Offset, source: ScrollSource, orientation: Orientation): (r: ScrollOutcome)
    ensures OffsetToFloat(available, orientation) < 0.0 && source == Drag ==>
      r.model == Dispatch(m, OffsetToFloat(available, orientation)).model
      && r.consumed == ToOffset(Dispatch(m, OffsetToFloat(available, orientation)).consumed, orientation)
    ensures !(OffsetToFloat(available, orientation) < 0.0 && source == Drag) ==> r == ScrollOutcome(m, ZeroOffset)
    ensures Consistent(m) ==> Consistent(r.model)
    ensures Consistent(m) && OffsetToFloat(available, orientation) < 0.0 ==>
      OffsetToFloat(available, orientation) <= OffsetToFloat(r.consumed, orientation) <= 0.0
    ensures orientation == Vertical ==> r.consumed.x == 0.0
    ensures orientation == Horizontal ==> r.consumed.y == 0.0
  {
    var delta := OffsetToFloat(available, orientation);
    if delta < 0.0 && source == Drag then
      var d := Dispatch(m, delta);
      DispatchStaysInRange(m, delta);
      ScrollOutcome(d.model, ToOffset(d.consumed, orientation))
    else ScrollOutcome(m, ZeroOffset)
  }

  /**
    `onPostScroll`: whatever the content left over from a drag goes to the
    sheet, whatever its sign; other sources leave the sheet alone and
    consume nothing.
   */
  function PostScroll(m: DragModel, available: Offset, source: ScrollSource, orientation: Orientation): (r: ScrollOutcome)
    ensures source == Drag ==>
      r.model == Dispatch(m, OffsetToFloat(available, orientation)).model
      && r.consumed == ToOffset(Dispatch(m, OffsetToFloat(available, orientation)).consumed, orientation)
    ensures source != Drag ==> r == ScrollOutcome(m, ZeroOffset)
    ensures Consistent(m) ==> Consistent(r.model)
    ensures Consistent(m) && OffsetToFloat(available, orientation) >= 0.0 ==>
      0.0 <= OffsetToFloat(r.consumed, orientation) <= OffsetToFloat(available, orientation)
    ensures Consistent(m) && OffsetToFloat(available, orientation) <= 0.0 ==>
      OffsetToFloat(available, orientation) <= OffsetToFloat(r.consumed, orientation) <= 0.0
    ensures orientation == Vertical ==> r.consumed.x == 0.0
    ensures orientation == Horizontal ==> r.consumed.y == 0.0
  {
    var delta := OffsetToFloat(available, orientation);
    if source == Drag then
      var d := Dispatch(m, delta);
      DispatchStaysInRange(m, delta);
      ScrollOutcome(d.model, ToOffset(d.consumed, orientation))
    else ScrollOutcome(m, ZeroOffset)
  }

  /**
    The state after a fling callback, the velocity handed to `settle` (None
    if it was not called), and the velocity reported as consumed.
   */
  datatype FlingOutcome = FlingOutcome(model: DragModel, settledWith: Option<real>, consumed: Velocity)

  /** Error raised by `requireOffset` before the first layout. */
  datatype OffsetError = OffsetNotInitialized

  /** The fling would open the sheet further and the sheet is not already fully open. */
  predicate SheetTakesFling(m: DragModel, toFling: real)
    requires m.offset.Some?
  {
    toFling < 0.0
    && match MinAnchor(m.anchors)
       case Some(lo) => m.offset.value > lo
       case None => false
  }

  /**
    `onPreFling`: reading the offset fails before the first layout.  Otherwise
    an upward fling while the sheet is below its most open anchor is settled
    by the sheet, which claims the whole velocity; any other fling is left
    to the content, the sheet is not settled and nothing is consumed.
   */
  function PreFling(m: DragModel, available: Velocity, orientation: Orientation, landing: SheetValue): (r: Result<FlingOutcome, OffsetError>)
    ensures r.Failure? <==> m.offset.None?
    ensures r.Success? && r.value.settledWith.Some? ==>
      && VelocityToFloat(available, orientation) < 0.0
      && r.value.settledWith == Some(VelocityToFloat(available, orientation))
      && r.value.consumed == available
      && r.value.model == Animate(m, landing)
    ensures r.Success? && r.value.settledWith.None? ==>
      r.value.model == m && r.value.consumed == ZeroVelocity
    ensures r.Success? ==>
      (r.value.settledWith.Some? <==> SheetTakesFling(m, VelocityToFloat(available, orientation)))
  {
    if m.offset.None? then Failure(OffsetNotInitialized)
    else
      var toFling := VelocityToFloat(available, orientation);
      if SheetTakesFling(m, toFling) then
        Success(FlingOutcome(Animate(m, landing), Some(toFling), available))
      else Success(FlingOutcome(m, None, ZeroVelocity))
  }

  /** `onPostFling`: the leftover velocity always goes to `settle` and is reported as consumed in full. */
  function PostFling(m: DragModel, available: Velocity, orientation: Orientation, landing: SheetValue): (r: FlingOutcome)
    ensures r.settledWith == Some(VelocityToFloat(available, orientation))
    ensures r.consumed == available
    ensures r.model == Animate(m, landing)
  {
    FlingOutcome(Animate(m, landing), Some(VelocityToFloat(available, orientation)), available)
  }

  /**
    An upward drag that the content did not consume, on a sheet below its
    most open anchor, moves the sheet by the whole delta when that stays in
    range: all of it is taken by the sheet, none by the content.
   */
  lemma UpwardDragOpensSheet(m: DragModel, dy: real)
    requires Consistent(m) && m.offset.Some? && dy < 0.0
    requires InRange(m.anchors, m.offset.value + dy)
    ensures var r := PreScroll(m, Offset(0.0, dy), Drag, Vertical);
      r.consumed == Offset(0.0, dy) && r.model.offset == Some(m.offset.value + dy)
  {
    assert OffsetToFloat(Offset(0.0, dy), Vertical) == dy;
    DispatchMovesInFull(m, dy);
  }

  /**
    A downward drag from a sheet whose content is scrolled to the top reaches
    the sheet in the post-scroll pass, and all of it moves the sheet when
    the move stays in range.
   */
  lemma DownwardDragClosesSheet(m: DragModel, dy: real)
    requires Consistent(m) && m.offset.Some? && dy > 0.0
    requires InRange(m.anchors, m.offset.value + dy)
    ensures PreScroll(m, Offset(0.0, dy), Drag, Vertical) == ScrollOutcome(m, ZeroOffset)
    ensures var r := PostScroll(m, Offset(0.0, dy), Drag, Vertical);
      r.consumed == Offset(0.0, dy) && r.model.offset == Some(m.offset.value + dy)
  {
    assert OffsetToFloat(Offset(0.0, dy), Vertical) == dy;
    DispatchMovesInFull(m, dy);
  }

  class NestedScrollConnection {
    const state: DraggableState
    const orientation: Orientation

    constructor (state: DraggableState, orientation: Orientation)
      ensures this.state == state && this.orientation == orientation
    {
      this.state := state;
      this.orientation := orientation;
    }

    method OnPreScroll(available: Offset, source: ScrollSource) returns (consumed: Offset)
      modifies state
      ensures ScrollOutcome(state.Model(), consumed) == PreScroll(old(state.Model()), available, source, orientation)
      ensures state.flings == old(state.flings)
    {
      var delta := OffsetToFloat(available, orientation);
      if delta < 0.0 && source == Drag {
        var moved := state.DispatchRawDelta(delta);
        consumed := ToOffset(moved, orientation);
      } else {
        consumed := ZeroOffset;
      }
    }

    method OnPostScroll(consumedByChild: Offset, available: Offset, source: ScrollSource) returns (consumed: Offset)
      modifies state
      ensures ScrollOutcome(state.Model(), consumed) == PostScroll(old(state.Model()), available, source, orientation)
      ensures state.flings == old(state.flings)
    {
      var delta := OffsetToFloat(available, orientation);
      if source == Drag {
        var moved := state.DispatchRawDelta(delta);
        consumed := ToOffset(moved, orientation);
      } else {
        consumed := ZeroOffset;
      }
    }

    /** `landing` is the anchor the library's positional and velocity thresholds would choose. */
    method OnPreFling(available: Velocity, landing: SheetValue) returns (r: Result<Velocity, OffsetError>)
      modifies state
      ensures var spec := PreFling(old(state.Model()), available, orientation, landing);
        && (spec.Failure? <==> r.Failure?)
        && (spec.Success? ==>
              && r == Success(spec.value.consumed)
              && state.Model() == spec.value.model
              && state.flings == old(state.flings)
                   + (if spec.value.settledWith.Some? then [spec.value.settledWith.value] else []))
        && (spec.Failure? ==> state.Model() == old(state.Model()) && state.flings == old(state.flings))
    {
      var toFling := VelocityToFloat(available, orientation);
      if state.offset.None? {
        return Failure(OffsetNotInitialized);
      }
      var currentOffset := state.offset.value;
      var minAnchor := MinAnchor(state.anchors);
      if toFling < 0.0 && minAnchor.Some? && currentOffset > minAnchor.value {
        state.Settle(toFling, landing);
        r := Success(available);
      } else {
        r := Success(ZeroVelocity);
      }
    }

    method OnPostFling(consumedByChild: Velocity, available: Velocity, landing: SheetValue) returns (consumed: Velocity)
      modifies state
      ensures var spec := PostFling(old(state.Model()), available, orientation, landing);
        && consumed == spec.consumed
        && state.Model() == spec.model
        && state.flings == old(state.flings) + [spec.settledWith.value]
    {
      var toFling := VelocityToFloat(available, orientation);
      state.Settle(toFling, landing);
      consumed := available;
    }
  }

  /**
    The measured heights the scaffold remembers (both start at zero) and the
    sheet whose anchors it keeps up to date.
   */
  class Scaffold {
    var layoutHeight: int
    var sheetHeight: int
    const density: real
    const sheetState: HideableBottomSheetState

    constructor (sheetState: HideableBottomSheetState, density: real)
      ensures this.sheetState == sheetState && this.density == density
      ensures layoutHeight == 0 && sheetHeight == 0
    {
      this.sheetState := sheetState;
      this.density := density;
      layoutHeight := 0;
      sheetHeight := 0;
    }

    /** The container was measured at `height`: anchors follow only once both heights are positive. */
    method OnContainerSizeChanged(height: int)
      modifies this, sheetState.draggableState
      ensures layoutHeight == height && sheetHeight == old(sheetHeight)
      ensures layoutHeight > 0 && sheetHeight > 0 ==>
        sheetState.draggableState.Model()
          == Reanchor(old(sheetState.draggableState.Model()), Anchors(layoutHeight, sheetHeight, density))
      ensures !(layoutHeight > 0 && sheetHeight > 0) ==>
        sheetState.draggableState.Model() == old(sheetState.draggableState.Model())
      ensures sheetState.draggableState.flings == old(sheetState.draggableState.flings)
    {
      layoutHeight := height;
      if layoutHeight > 0 && sheetHeight > 0 {
        sheetState.UpdateAnchors(layoutHeight, sheetHeight, density);
      }
    }

    /** The sheet content was measured at `height`: the same guard applies. */
    method OnSheetSizeChanged(height: int)
      modifies this, sheetState.draggableState
      ensures sheetHeight == height && layoutHeight == old(layoutHeight)
      ensures layoutHeight > 0 && sheetHeight > 0 ==>
        sheetState.draggableState.Model()
          == Reanchor(old(sheetState.draggableState.Model()), Anchors(layoutHeight, sheetHeight, density))
      ensures !(layoutHeight > 0 && sheetHeight > 0) ==>
        sheetState.draggableState.Model() == old(sheetState.draggableState.Model())
      ensures sheetState.draggableState.flings == old(sheetState.draggableState.flings)
    {
      sheetHeight := height;
      if layoutHeight > 0 && sheetHeight > 0 {
        sheetState.UpdateAnchors(layoutHeight, sheetHeight, density);
      }
    }
  }
}
