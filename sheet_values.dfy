/**
  The four positions of the hideable bottom sheet, the share of the usable
  drag range each one opens, and the formula that turns the measured heights
  into one pixel offset (anchor) per position.  Offsets grow downwards: a
  larger anchor is a lower, less open sheet.
 */
module SheetValues {

  /** The states of the sheet, in the order the enum declares them. */
  datatype SheetValue = Hidden | HalfExpanded | Expanded | Initial

  /** `values()`: every state once, in declaration order. */
  const AllValues: seq<SheetValue> := [Hidden, HalfExpanded, Expanded, Initial]

  lemma AllValuesComplete(v: SheetValue)
    ensures v in AllValues
  {
  }

  /** The position of a value in declaration order. */
  function Ordinal(v: SheetValue): (i: nat)
    ensures i < |AllValues| && AllValues[i] == v
  {
    match v
    case Hidden => 0
    case HalfExpanded => 1
    case Expanded => 2
    case Initial => 3
  }

  /** The fixed margin kept above a fully expanded sheet, in density-independent units. */
  const TopMarginDp: real := 32.0

  /**
    `draggableSpaceFraction`: Hidden is the only state with a negative
    fraction, and the open states are ordered Initial < HalfExpanded < Expanded.
   */
  function Fraction(v: SheetValue): (f: real)
    ensures -1.0 <= f <= 1.0
    ensures f < 0.0 <==> v == Hidden
    ensures f == 1.0 <==> v == Expanded
  {
    match v
    case Hidden => -1.0
    case Initial => 0.09
    case HalfExpanded => 0.6
    case Expanded => 1.0
  }

  lemma FractionsOrdered()
    ensures Fraction(Hidden) < Fraction(Initial) < Fraction(HalfExpanded) < Fraction(Expanded)
  {
  }

  function Min(a: real, b: real): (m: real)
    ensures m <= a && m <= b && (m == a || m == b)
  {
    if a <= b then a else b
  }

  /** `layoutHeight - 32.dp.toPx()`: the usable drag range in pixels. */
  function MaxDragEndPoint(layoutHeight: int, density: real): real {
    layoutHeight as real - TopMarginDp * density
  }

  /**
    The anchor of one state: the layout height minus the smaller of that
    state's share of the drag range and the measured sheet height.
   */
  function AnchorFor(layoutHeight: int, sheetHeight: int, density: real, v: SheetValue): real {
    layoutHeight as real - Min(MaxDragEndPoint(layoutHeight, density) * Fraction(v), sheetHeight as real)
  }

  /** The anchor map `updateAnchors` builds: one entry per state. */
  function Anchors(layoutHeight: int, sheetHeight: int, density: real): (a: map<SheetValue, real>)
    ensures forall v: SheetValue :: v in a && a[v] == AnchorFor(layoutHeight, sheetHeight, density, v)
  {
    assert forall v: SheetValue :: v in AllValues by {
      forall v: SheetValue ensures v in AllValues { AllValuesComplete(v); }
    }
    map v | v in AllValues :: AnchorFor(layoutHeight, sheetHeight, density, v)
  }

  /**
    The `forEach` loop of `updateAnchors`: visits the states in declaration
    order and records each anchor.
   */
  method BuildAnchors(layoutHeight: int, sheetHeight: int, density: real) returns (anchors: map<SheetValue, real>)
    ensures anchors == Anchors(layoutHeight, sheetHeight, density)
  {
    var maxDragEndPoint := layoutHeight as real - TopMarginDp * density;
    anchors := map[];
    var i := 0;
    while i < |AllValues|
      invariant 0 <= i <= |AllValues|
      invariant forall v :: v in anchors <==> v in AllValues[..i]
      invariant forall v :: v in anchors ==> anchors[v] == AnchorFor(layoutHeight, sheetHeight, density, v)
    {
      var anchor := AllValues[i];
      var fractionatedMaxDragEndPoint := maxDragEndPoint * Fraction(anchor);
      var dragEndPoint := layoutHeight as real - Min(fractionatedMaxDragEndPoint, sheetHeight as real);
      assert dragEndPoint == AnchorFor(layoutHeight, sheetHeight, density, anchor);
      assert AllValues[..i + 1] == AllValues[..i] + [anchor];
      anchors := anchors[anchor := dragEndPoint];
      i := i + 1;
    }
    assert AllValues[..i] == AllValues;
    AnchorsByValue(anchors, layoutHeight, sheetHeight, density);
  }

  /** A map with an anchor for every value, each as the formula gives it, is the anchor map. */
  lemma AnchorsByValue(anchors: map<SheetValue, real>, layoutHeight: int, sheetHeight: int, density: real)
    requires forall v :: v in anchors <==> v in AllValues
    requires forall v :: v in anchors ==> anchors[v] == AnchorFor(layoutHeight, sheetHeight, density, v)
    ensures anchors == Anchors(layoutHeight, sheetHeight, density)
  {
    var a := Anchors(layoutHeight, sheetHeight, density);
    assert anchors.Keys == a.Keys;
  }

  /**
    With a non-negative drag range and sheet height, every open state's anchor
    lies between the top of the sheet at full height and the bottom of the layout.
   */
  lemma AnchorsWithinSheet(layoutHeight: int, sheetHeight: int, density: real, v: SheetValue)
    requires MaxDragEndPoint(layoutHeight, density) >= 0.0 && sheetHeight >= 0
    requires v != Hidden
    ensures layoutHeight as real - sheetHeight as real <= AnchorFor(layoutHeight, sheetHeight, density, v)
    ensures AnchorFor(layoutHeight, sheetHeight, density, v) <= layoutHeight as real
  {
  }

  /** The more open the state, the smaller (higher on screen) its anchor. */
  lemma AnchorsOrdered(layoutHeight: int, sheetHeight: int, density: real)
    requires MaxDragEndPoint(layoutHeight, density) >= 0.0 && sheetHeight >= 0
    ensures var a := Anchors(layoutHeight, sheetHeight, density);
      a[Expanded] <= a[HalfExpanded] <= a[Initial] <= a[Hidden]
  {
  }

  /**
    The Hidden anchor sits a whole drag range below the layout height,
    not at the layout height itself.
   */
  lemma HiddenAnchor(layoutHeight: int, sheetHeight: int, density: real)
    requires MaxDragEndPoint(layoutHeight, density) >= 0.0 && sheetHeight >= 0
    ensures Anchors(layoutHeight, sheetHeight, density)[Hidden]
      == layoutHeight as real + MaxDragEndPoint(layoutHeight, density)
  {
  }

  /**
    A 1000 px layout at density 1 with a 400 px sheet: Expanded and
    HalfExpanded both stop at the sheet's own height (600 px), Initial opens
    9% of the 968 px range, and Hidden sits at 1968 px.
   */
  lemma ShortSheetExample()
    ensures var a := Anchors(1000, 400, 1.0);
      a[Expanded] == 600.0 && a[HalfExpanded] == 600.0
      && a[Initial] == 912.88 && a[Hidden] == 1968.0
  {
  }
}
