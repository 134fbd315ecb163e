# Alby Android SDK — a Dafny model of its core logic

The Alby Android SDK shows a product widget in a hideable bottom sheet. The
widget is a web page hosted in a WebView. The SDK also sends purchase and
add-to-cart tracking events. This project models in Dafny the logic behind
that, and proves what the code promises. It covers:

- **The sheet state** (`SheetValues`, `SheetState`): the four sheet values and
  their share of the drag range. It also covers the anchor formula
  `layoutHeight - min((layoutHeight - 32·density) · fraction, sheetHeight)`,
  computed by a loop over the values. Then come the intents `show`, `expand`,
  `halfExpand` and `hide`, the read-only queries, and the saver.
- **The draggable underneath** (`AnchoredDraggable`): Compose's anchored
  draggable, reduced to what the sheet code relies on.
  - `animateTo` jumps to the target's anchor and settles on the target.
  - `dispatchRawDelta` moves the offset, clamped to the anchors' range.
  - `settle` animates to the anchor the fling lands on.
  - `updateAnchors` ignores an unchanged map; otherwise it snaps to the value
    whose new anchor is closest to the offset.
- **The scaffold** (`SheetScaffold`): the nested-scroll connection decides
  whether the sheet or the content takes a scroll delta or a fling. The size
  callbacks recompute the anchors only once both measured heights are positive.
- **The widget screen** (`AlbyWidget`):
  - the JavaScript bridge's `postMessage`, an ordered classifier over the page's messages;
  - the event sent to the page when the sheet's target value changes;
  - the height table of `calculateHeight`;
  - the question field, whose text is sent to the page on submit.
- **The web view** (`WebViewScreen`): the widget URL, and the script that
  delivers an event to the page inside a single-quoted JavaScript literal.
- **The SDK singleton** (`AlbySdk`):
  - the first-call-wins `initialize` and the `ensureInitialized` guard;
  - the method check of `performRequest`;
  - the add-to-cart JSON payload;
  - the purchase pixel.
- **Shared pieces:**
  - the cookie-header parser used for the visitor id (`Cookies`);
  - the ordered `key=value&…` query builder (`QueryString`);
  - the standalone purchase pixel (`PurchasePixel`);
  - Kotlin's string operations (`replace`, `split`, `trim`, `joinToString`,
    `uppercase`), written out in `Text`.

Classes model the objects whose fields the source updates:
- `DraggableState`;
- `HideableBottomSheetState`;
- the scroll connection and the scaffold's remembered heights;
- the bridge;
- the question field;
- the web view;
- the SDK singleton.

Each method is proved against a function on values, and the properties are
proved about those functions.

The Hidden anchor is `layoutHeight + maxDragEndPoint`, a whole drag range
below the layout height rather than at it, because the fraction of Hidden is
-1 (`SheetValues.HiddenAnchor`).

The KDoc of `show` says the sheet opens half expanded when it is taller than
half the screen and fully expanded otherwise. The code instead opens at
Initial whenever Initial has an anchor, and after any layout it always has one
(`SheetState.IntentsAfterLayout`). The model follows the code.

## Model

| member | source | states |
|---|---|---|
| SheetValues.Fraction | AlbyWidget/src/main/kotlin/com/alby/albywidget/HideableBottomSheetState.kt:26-32 | the fraction of each sheet value: Hidden is the only negative one and Expanded the only one equal to 1, all within [-1, 1] |
| SheetValues.FractionsOrdered | AlbyWidget/src/main/kotlin/com/alby/albywidget/HideableBottomSheetState.kt:26-32 | the fractions are strictly ordered Hidden < Initial < HalfExpanded < Expanded |
| SheetValues.Anchors | AlbyWidget/src/main/kotlin/com/alby/albywidget/HideableBottomSheetState.kt:163-174 | every one of the four values has an anchor, `AnchorFor`: the layout height minus the smaller of its share of the drag range (`MaxDragEndPoint`, the layout height less the 32 dp margin, times the fraction) and the sheet height |
| SheetValues.BuildAnchors | AlbyWidget/src/main/kotlin/com/alby/albywidget/HideableBottomSheetState.kt:164-174 | the `forEach` loop over the values in declaration order builds exactly the anchor map of the formula, so equal measurements give equal anchors |
| SheetValues.AnchorsWithinSheet | AlbyWidget/src/main/kotlin/com/alby/albywidget/HideableBottomSheetState.kt:164-172 | with a non-negative drag range and sheet height, every non-Hidden anchor lies between layoutHeight - sheetHeight and layoutHeight |
| SheetValues.AnchorsOrdered | AlbyWidget/src/main/kotlin/com/alby/albywidget/HideableBottomSheetState.kt:164-172 | under the same conditions the anchors are ordered Expanded <= HalfExpanded <= Initial <= Hidden |
| SheetValues.HiddenAnchor | AlbyWidget/src/main/kotlin/com/alby/albywidget/HideableBottomSheetState.kt:164-172 | the Hidden anchor equals layoutHeight plus the drag range, not layoutHeight |
| SheetValues.ShortSheetExample | AlbyWidget/src/main/kotlin/com/alby/albywidget/HideableBottomSheetState.kt:164-172 | for a 1000 px layout, a 400 px sheet and density 1, Expanded and HalfExpanded both stop at 600, Initial is at 912.88 and Hidden at 1968 |
| AnchoredDraggable.MinAnchor | AlbyWidget/src/main/kotlin/com/alby/albywidget/HideableBottomSheetScaffold.kt:149 | `minAnchor()` is the smallest anchor, one that exists; it is absent exactly when there are no anchors |
| AnchoredDraggable.MaxAnchor | AlbyWidget/src/main/kotlin/com/alby/albywidget/HideableBottomSheetScaffold.kt:127 | the largest anchor, one that exists, bounding the range `dispatchRawDelta` clamps to; absent exactly when there are no anchors |
| AnchoredDraggable.Created | AlbyWidget/src/main/kotlin/com/alby/albywidget/HideableBottomSheetState.kt:52-58 | a new draggable is consistent, has no anchors and no offset, and is settled on and aimed at the initial value |
| AnchoredDraggable.Animate | AlbyWidget/src/main/kotlin/com/alby/albywidget/HideableBottomSheetState.kt:139-141 | `animateTo(v)` always ends settled on and aimed at v; the offset moves to v's anchor when v has one and stays put otherwise; anchors and consistency are kept |
| AnchoredDraggable.Dispatch | AlbyWidget/src/main/kotlin/com/alby/albywidget/HideableBottomSheetScaffold.kt:127 | `dispatchRawDelta` leaves the anchors and the settled and target values alone; without anchors it moves nothing |
| AnchoredDraggable.DispatchStaysInRange | AlbyWidget/src/main/kotlin/com/alby/albywidget/HideableBottomSheetScaffold.kt:127 | on a consistent state the offset stays within the anchors, and the distance moved has the sign of the delta and is no longer than it |
| AnchoredDraggable.DispatchMovesInFull | AlbyWidget/src/main/kotlin/com/alby/albywidget/HideableBottomSheetScaffold.kt:127 | a delta whose target offset is within the anchors is moved in full |
| AnchoredDraggable.ClosestAnchor | AlbyWidget/src/main/kotlin/com/alby/albywidget/HideableBottomSheetState.kt:175 | the value with an anchor at least as near the position as every other anchor, and strictly nearer than every value before it in declaration order, so ties go to the first; none exactly when there are no anchors |
| AnchoredDraggable.ClosestOverIsFirst | AlbyWidget/src/main/kotlin/com/alby/albywidget/HideableBottomSheetState.kt:175 | the search over a list of values (`ClosestOver`) picks a value no later in the list than any value whose anchor is as near |
| AnchoredDraggable.Reanchor | AlbyWidget/src/main/kotlin/com/alby/albywidget/HideableBottomSheetState.kt:175 | `updateAnchors` installs the new map; an unchanged map changes nothing; a changed one settles on the value whose new anchor is nearest the old offset, the first in declaration order on a tie (on the target value before the first offset), at that anchor; a complete map keeps the state consistent |
| AnchoredDraggable.RemeasuringKeepsDrag | AlbyWidget/src/main/kotlin/com/alby/albywidget/HideableBottomSheetScaffold.kt:127 | measuring the same anchors again after a drag leaves the dragged state as it is |
| AnchoredDraggable.DeltasStayInRange | AlbyWidget/src/main/kotlin/com/alby/albywidget/HideableBottomSheetScaffold.kt:124-144 | any sequence of scroll deltas leaves the offset inside the range of the anchors |
| AnchoredDraggable.DraggableState.constructor | AlbyWidget/src/main/kotlin/com/alby/albywidget/HideableBottomSheetState.kt:52-58 | the object starts in the `Created` state with no recorded fling |
| AnchoredDraggable.DraggableState.AnimateTo | AlbyWidget/src/main/kotlin/com/alby/albywidget/HideableBottomSheetState.kt:139-141 | the fields become the `Animate` state and no fling is recorded |
| AnchoredDraggable.DraggableState.DispatchRawDelta | AlbyWidget/src/main/kotlin/com/alby/albywidget/HideableBottomSheetScaffold.kt:127 | the new fields and the returned distance are those of `Dispatch`, and a consistent state stays consistent |
| AnchoredDraggable.DraggableState.Settle | AlbyWidget/src/main/kotlin/com/alby/albywidget/HideableBottomSheetScaffold.kt:150 | the velocity is recorded as one more fling and the state animates to the anchor the fling lands on |
| AnchoredDraggable.DraggableState.UpdateAnchors | AlbyWidget/src/main/kotlin/com/alby/albywidget/HideableBottomSheetState.kt:175 | the fields become the `Reanchor` state |
| SheetState.ShowTarget | AlbyWidget/src/main/kotlin/com/alby/albywidget/HideableBottomSheetState.kt:105-108 | `show` aims at Initial exactly when Initial has an anchor, and at HalfExpanded otherwise |
| SheetState.AfterShow | AlbyWidget/src/main/kotlin/com/alby/albywidget/HideableBottomSheetState.kt:104-110 | `show` settles on Initial when Initial has an anchor and on HalfExpanded otherwise, moving to that value's anchor when it has one; the anchors are unchanged |
| SheetState.AfterExpand | AlbyWidget/src/main/kotlin/com/alby/albywidget/HideableBottomSheetState.kt:115-119 | `expand` settles on and aims at Expanded at its anchor, and does nothing when Expanded has no anchor; the anchors are unchanged |
| SheetState.AfterHalfExpand | AlbyWidget/src/main/kotlin/com/alby/albywidget/HideableBottomSheetState.kt:124-128 | `halfExpand` settles on and aims at HalfExpanded at its anchor, and does nothing when HalfExpanded has no anchor; the anchors are unchanged |
| SheetState.AfterHide | AlbyWidget/src/main/kotlin/com/alby/albywidget/HideableBottomSheetState.kt:133-135 | `hide` always settles on and aims at Hidden, at Hidden's anchor when it has one; the anchors are unchanged |
| SheetState.IntentsAfterLayout | AlbyWidget/src/main/kotlin/com/alby/albywidget/HideableBottomSheetState.kt:104-135 | once anchors come from the measurements, `show` opens at Initial, `expand` and `halfExpand` always move, and `hide` after `show` is back at the Hidden anchor |
| SheetState.ShowThenHide | AlbyWidget/src/main/kotlin/com/alby/albywidget/HideableBottomSheetState.kt:104-135 | from any state with a Hidden anchor, `show` then `hide` ends settled on Hidden at that anchor |
| SheetState.ShortSheetSettlesHalfExpanded | AlbyWidget/src/main/kotlin/com/alby/albywidget/HideableBottomSheetState.kt:163-176 | for a 1000 px layout and a 400 px sheet, new anchors measured while the sheet rests at 600 px settle it on HalfExpanded, not Expanded, which shares that anchor |
| SheetState.HideableBottomSheetState.constructor | AlbyWidget/src/main/kotlin/com/alby/albywidget/HideableBottomSheetState.kt:46-58 | the state owns a new draggable in the `Created` state for the initial value |
| SheetState.HideableBottomSheetState.Show | AlbyWidget/src/main/kotlin/com/alby/albywidget/HideableBottomSheetState.kt:104-110 | the draggable ends in the `AfterShow` state of its old state; no fling is recorded |
| SheetState.HideableBottomSheetState.Expand | AlbyWidget/src/main/kotlin/com/alby/albywidget/HideableBottomSheetState.kt:115-119 | the draggable ends in the `AfterExpand` state |
| SheetState.HideableBottomSheetState.HalfExpand | AlbyWidget/src/main/kotlin/com/alby/albywidget/HideableBottomSheetState.kt:124-128 | the draggable ends in the `AfterHalfExpand` state |
| SheetState.HideableBottomSheetState.Hide | AlbyWidget/src/main/kotlin/com/alby/albywidget/HideableBottomSheetState.kt:133-135 | the draggable ends in the `AfterHide` state |
| SheetState.HideableBottomSheetState.UpdateAnchors | AlbyWidget/src/main/kotlin/com/alby/albywidget/HideableBottomSheetState.kt:163-176 | the draggable's anchors become exactly the formula's anchors for the measurements, so every value has one afterwards, and the state re-snaps as `Reanchor` says |
| SheetState.HideableBottomSheetState.Restore | AlbyWidget/src/main/kotlin/com/alby/albywidget/HideableBottomSheetState.kt:152-160 | the saver round trip: `Save` (the current value) of the restored state gives back the saved value, and the new state is settled on it, aimed at it, without anchors or offset (`Created`) |
| SheetState.HideableBottomSheetState.QueriesExclusive | AlbyWidget/src/main/kotlin/com/alby/albywidget/HideableBottomSheetState.kt:72-91 | over the class's queries `IsVisible`, `IsHidden`, `IsHalfExpanded` and `IsExpanded`: `IsVisible` holds exactly when `IsHidden` does not; the other three exclude each other, and none of them holds exactly when the current value is Initial |
| SheetScaffold.ToOffset | AlbyWidget/src/main/kotlin/com/alby/albywidget/HideableBottomSheetScaffold.kt:166-169 | reading the offset back along the orientation gives the amount; the other axis is zero |
| SheetScaffold.PreScroll | AlbyWidget/src/main/kotlin/com/alby/albywidget/HideableBottomSheetScaffold.kt:124-131 | only an upward drag goes to the sheet: the state is that of dispatching the delta and the consumed offset is exactly what the dispatch moved, on the orientation's axis, at most the delta and never the other way; any other delta leaves the sheet unchanged and consumes zero; the off-axis component is zero for both orientations |
| SheetScaffold.PostScroll | AlbyWidget/src/main/kotlin/com/alby/albywidget/HideableBottomSheetScaffold.kt:133-144 | a drag's leftover delta of either sign is dispatched to the sheet and the consumed offset is exactly what the dispatch moved, between zero and the delta; the off-axis component is zero for both orientations; other sources consume zero and change nothing |
| SheetScaffold.PreFling | AlbyWidget/src/main/kotlin/com/alby/albywidget/HideableBottomSheetScaffold.kt:146-155 | fails exactly when the offset is unknown; otherwise settles and claims the whole velocity exactly when the fling is upward and the offset is strictly below the minimum anchor, and otherwise consumes zero and does not settle |
| SheetScaffold.PostFling | AlbyWidget/src/main/kotlin/com/alby/albywidget/HideableBottomSheetScaffold.kt:157-161 | always settles with the available velocity and reports all of it consumed |
| SheetScaffold.UpwardDragOpensSheet | AlbyWidget/src/main/kotlin/com/alby/albywidget/HideableBottomSheetScaffold.kt:124-131 | an upward drag that stays in range moves the sheet by the whole delta, all of it consumed by the sheet |
| SheetScaffold.DownwardDragClosesSheet | AlbyWidget/src/main/kotlin/com/alby/albywidget/HideableBottomSheetScaffold.kt:124-144 | a downward drag is ignored before the content scrolls and moves the sheet by the whole delta afterwards when that stays in range |
| SheetScaffold.NestedScrollConnection.constructor | AlbyWidget/src/main/kotlin/com/alby/albywidget/HideableBottomSheetScaffold.kt:51-56 | the connection drives the sheet's draggable along the given orientation |
| SheetScaffold.NestedScrollConnection.OnPreScroll | AlbyWidget/src/main/kotlin/com/alby/albywidget/HideableBottomSheetScaffold.kt:124-131 | the returned offset and the new draggable state are those of `PreScroll` |
| SheetScaffold.NestedScrollConnection.OnPostScroll | AlbyWidget/src/main/kotlin/com/alby/albywidget/HideableBottomSheetScaffold.kt:133-144 | the returned offset and the new draggable state are those of `PostScroll` |
| SheetScaffold.NestedScrollConnection.OnPreFling | AlbyWidget/src/main/kotlin/com/alby/albywidget/HideableBottomSheetScaffold.kt:146-155 | fails, changing nothing, exactly when `PreFling` does; otherwise returns its consumed velocity, takes its state and records a fling exactly when it settles |
| SheetScaffold.NestedScrollConnection.OnPostFling | AlbyWidget/src/main/kotlin/com/alby/albywidget/HideableBottomSheetScaffold.kt:157-161 | returns `PostFling`'s consumed velocity, takes its state and records the fling |
| SheetScaffold.Scaffold.constructor | AlbyWidget/src/main/kotlin/com/alby/albywidget/HideableBottomSheetScaffold.kt:58-59 | both remembered heights start at zero |
| SheetScaffold.Scaffold.OnContainerSizeChanged | AlbyWidget/src/main/kotlin/com/alby/albywidget/HideableBottomSheetScaffold.kt:65-70 | records the layout height; the anchors are recomputed from both heights exactly when both are positive, and otherwise the sheet is untouched |
| SheetScaffold.Scaffold.OnSheetSizeChanged | AlbyWidget/src/main/kotlin/com/alby/albywidget/HideableBottomSheetScaffold.kt:96-101 | records the sheet height under the same guard |
| WebViewScreen.WebView.constructor | AlbyWidget/src/main/kotlin/com/alby/albywidget/WebViewScreen.kt:47 | a new web view has loaded nothing and evaluated nothing |
| WebViewScreen.WebView.LoadUrl | AlbyWidget/src/main/kotlin/com/alby/albywidget/WebViewScreen.kt:57 | the URL is recorded as loaded; the evaluated scripts are kept |
| WebViewScreen.WebView.EvaluateJavascript | AlbyWidget/src/main/kotlin/com/alby/albywidget/WebViewScreen.kt:72 | the script is appended to the evaluated scripts; the loaded URL is kept |
| WebViewScreen.WidgetUrl | AlbyWidget/src/main/kotlin/com/alby/albywidget/WebViewScreen.kt:52-55 | the URL is the widget page, `?`, then `brandId` and `productId` in that order, then `variantId` if and only if a variant is given |
| WebViewScreen.WidgetParamsRecovered | AlbyWidget/src/main/kotlin/com/alby/albywidget/WebViewScreen.kt:52-55 | the parameter list `WidgetParams` holds `brandId`, `productId` and, when given, `variantId`; with `&`-free identifiers, splitting the query on `&` gives back exactly that list, in order |
| WebViewScreen.Update | AlbyWidget/src/main/kotlin/com/alby/albywidget/WebViewScreen.kt:51-59 | the web view loads the widget URL and evaluates nothing |
| WebViewScreen.EscapeIsPerChar | AlbyWidget/src/main/kotlin/com/alby/albywidget/WebViewScreen.kt:64-67 | `Escape`, the three `replace` passes as written, amounts to escaping each character on its own (backslash first, so the added backslashes are not escaped twice) |
| WebViewScreen.EscapeRoundTrip | AlbyWidget/src/main/kotlin/com/alby/albywidget/WebViewScreen.kt:64-67 | unescaping the escaped event gives back the event, whatever it contains |
| WebViewScreen.EscapeHasNoLineFeed | AlbyWidget/src/main/kotlin/com/alby/albywidget/WebViewScreen.kt:64-67 | the escaped event never holds a raw line feed |
| WebViewScreen.EscapeKeepsPlainText | AlbyWidget/src/main/kotlin/com/alby/albywidget/WebViewScreen.kt:64-67 | an event without backslash, double quote or line feed, single quotes included, passes through unchanged |
| WebViewScreen.QuoteFreeEventsArrive | AlbyWidget/src/main/kotlin/com/alby/albywidget/WebViewScreen.kt:64-67 | an event without a single quote or carriage return, escaped as written, is read back exactly and the text after the literal is left as it was |
| WebViewScreen.SingleQuoteCutsEvent | AlbyWidget/src/main/kotlin/com/alby/albywidget/WebViewScreen.kt:64-70 | in the script as written for `it's`, the literal closes after `it` and `s` is left over as code, so the script is not valid JavaScript and no event arrives |
| WebViewScreen.EscapeForLiteralRoundTrip | AlbyWidget/src/main/kotlin/com/alby/albywidget/WebViewScreen.kt:64-67 | with the corrected escaping (also `'` and carriage return) every event is read back exactly and the text after the literal is left as it was |
| WebViewScreen.Script | AlbyWidget/src/main/kotlin/com/alby/albywidget/WebViewScreen.kt:64-70 | the script as written: the fixed prefix, the event escaped as written, and the fixed suffix |
| WebViewScreen.ScriptDeliversEvent | AlbyWidget/src/main/kotlin/com/alby/albywidget/WebViewScreen.kt:64-70 | for an event without a single quote or carriage return, the literal after the prefix is read as exactly the event, followed by the rest of the suffix |
| WebViewScreen.QuotedTextRunsAsCode | AlbyWidget/src/main/kotlin/com/alby/albywidget/WebViewScreen.kt:64-70 | in the script as written for `x'+alert(1)+'`, the literal closes after `x` and `+alert(1)+'` follows as code |
| WebViewScreen.CarriageReturnBreaksScript | AlbyWidget/src/main/kotlin/com/alby/albywidget/WebViewScreen.kt:64-70 | in the script as written for an event holding a carriage return, the literal is unterminated |
| WebViewScreen.CorrectedScript | AlbyWidget/src/main/kotlin/com/alby/albywidget/WebViewScreen.kt:64-70 | the corrected script: the same prefix and suffix around the event escaped for a single-quoted literal |
| WebViewScreen.CorrectedScriptDeliversEvent | AlbyWidget/src/main/kotlin/com/alby/albywidget/WebViewScreen.kt:64-70 | for every event the corrected script's literal is read as exactly the event, followed by the rest of the suffix |
| WebViewScreen.PublishEvent | AlbyWidget/src/main/kotlin/com/alby/albywidget/WebViewScreen.kt:63-75 | with a web view the script as written is appended to its evaluated scripts; with none nothing is evaluated |
| AlbyWidget.MutableState.constructor | AlbyWidget/src/main/kotlin/com/alby/albywidget/AlbyWidget.kt:118-120 | the state holds the initial value |
| AlbyWidget.Classify | AlbyWidget/src/main/kotlin/com/alby/albywidget/AlbyWidget.kt:82-101 | each branch of the `when` is taken exactly when its own test holds and no earlier one does: the two exact messages, then `streaming-message` anywhere, then `streaming-finished` anywhere, else nothing |
| AlbyWidget.AfterMessage | AlbyWidget/src/main/kotlin/com/alby/albywidget/AlbyWidget.kt:82-101 | the exact messages expand or show the sheet and keep the loading state; a streamed chunk sets loading and the text with every `streaming-message:` removed; the end of a stream clears both; any other message changes nothing |
| AlbyWidget.OnlyExactMessagesMoveTheSheet | AlbyWidget/src/main/kotlin/com/alby/albywidget/AlbyWidget.kt:83-89 | only the two exact messages touch the sheet, and they leave the loading flag and text alone |
| AlbyWidget.StreamedChunkShown | AlbyWidget/src/main/kotlin/com/alby/albywidget/AlbyWidget.kt:91-95 | `streaming-message:` followed by a chunk shows exactly the chunk and sets loading |
| AlbyWidget.FinishedClearsLoading | AlbyWidget/src/main/kotlin/com/alby/albywidget/AlbyWidget.kt:97-100 | a chunk followed by `streaming-finished` leaves the screen not loading with an empty text |
| AlbyWidget.WebViewInterface.constructor | AlbyWidget/src/main/kotlin/com/alby/albywidget/AlbyWidget.kt:123-124 | the bridge holds the sheet state and the two loading states it is given |
| AlbyWidget.WebViewInterface.PostMessage | AlbyWidget/src/main/kotlin/com/alby/albywidget/AlbyWidget.kt:77-104 | the sheet, loading flag and loading text end as `AfterMessage` of their old values |
| AlbyWidget.SheetEventFor | AlbyWidget/src/main/kotlin/com/alby/albywidget/AlbyWidget.kt:128-132 | the event is `sheet-expanded` exactly when the target is HalfExpanded or Expanded, and `sheet-shrink` otherwise |
| AlbyWidget.ExpandedMeansMostlyOpen | AlbyWidget/src/main/kotlin/com/alby/albywidget/AlbyWidget.kt:128-132 | the page is told the sheet expands exactly when the target opens at least the half-expanded fraction |
| AlbyWidget.SheetEventsArriveIntact | AlbyWidget/src/main/kotlin/com/alby/albywidget/AlbyWidget.kt:129-131 | both event names are read back by the page exactly |
| AlbyWidget.OnTargetValueChanged | AlbyWidget/src/main/kotlin/com/alby/albywidget/AlbyWidget.kt:126-133 | the web view, when there is one, evaluates the script as written for the target value's event |
| AlbyWidget.CalculateHeight | AlbyWidget/src/main/kotlin/com/alby/albywidget/AlbyWidget.kt:240-253 | the height is `HeightFor` the settled value, so it depends on the state only through that value: 0 when hidden, the value's fraction of the screen minus 100 when half or fully expanded, and 100 for Initial |
| AlbyWidget.HeightsOrdered | AlbyWidget/src/main/kotlin/com/alby/albywidget/AlbyWidget.kt:240-253 | on a screen of at least 334 the heights grow with the openness of the value; below 167 the half-expanded height is negative |
| AlbyWidget.InputText.constructor | AlbyWidget/src/main/kotlin/com/alby/albywidget/AlbyWidget.kt:272 | the field starts empty |
| AlbyWidget.InputText.OnValueChange | AlbyWidget/src/main/kotlin/com/alby/albywidget/AlbyWidget.kt:284 | the field holds the typed text |
| AlbyWidget.InputText.Submit | AlbyWidget/src/main/kotlin/com/alby/albywidget/AlbyWidget.kt:294-298 | the web view, when there is one, evaluates the script as written for the text as it was, and the field is then empty |
| Text.TrimCutsOnlyWhitespace | AlbyWidget/src/main/kotlin/com/alby/albywidget/AlbySDK.kt:144 | Kotlin's `trim` (`Trim`) keeps one contiguous slice of the text, and everything it cuts off before and after that slice is whitespace |
| Cookies.CookiePair | AlbyWidget/src/main/kotlin/com/alby/albywidget/AlbySDK.kt:144-145 | the name is the trimmed text before the first `=` and the value the trimmed text after it; without `=` the value is empty |
| Cookies.Pairs | AlbyWidget/src/main/kotlin/com/alby/albywidget/AlbySDK.kt:143-146 | one name and value per `;`-separated piece, each read by `CookiePair`, in the order of the pieces |
| Cookies.CookieRoundTrip | AlbyWidget/src/main/kotlin/com/alby/albywidget/AlbySDK.kt:144-145 | a cookie `name=value` with a trimmed, `=`-free name reads back as that name and the trimmed value, whatever the value holds |
| Cookies.Associate | AlbyWidget/src/main/kotlin/com/alby/albywidget/AlbySDK.kt:143 | one entry per distinct name, holding the value of the last pair with that name |
| Cookies.ParseCookies | AlbyWidget/src/main/kotlin/com/alby/albywidget/AlbySDK.kt:142-147 | no header gives the empty map; a header gives exactly the names of its `;`-separated pieces, never an empty map |
| Cookies.ParseJoinedHeader | AlbyWidget/src/main/kotlin/com/alby/albywidget/AlbySDK.kt:142-147 | a header of `name=value` cookies joined by `;` gives exactly those names, each with the value of its last cookie |
| Cookies.EmptyHeader | AlbyWidget/src/main/kotlin/com/alby/albywidget/AlbySDK.kt:142-147 | the empty header still yields one cookie, the empty name with the empty value |
| Cookies.UserId | AlbyWidget/src/main/kotlin/com/alby/albywidget/AlbySDK.kt:111-115 | the value of the `_alby_user` cookie exactly when there is one; none without a header |
| Cookies.LastCookieWins | AlbyWidget/src/main/kotlin/com/alby/albywidget/AlbySDK.kt:142-147 | a cookie at the end of any header maps its name to its trimmed value, overriding earlier cookies of that name |
| Cookies.LastUserCookieWins | AlbyWidget/src/main/kotlin/com/alby/albywidget/AlbySDK.kt:111-115 | an `_alby_user` cookie at the end of any header sets the visitor id to its trimmed value |
| QueryString.Entries | AlbyWidget/src/main/kotlin/com/alby/albywidget/AlbySDK.kt:67-69 | one `key=value` entry per pair, both halves encoded, in order |
| QueryString.ParseEntry | AlbyWidget/src/main/kotlin/com/alby/albywidget/AlbySDK.kt:67-69 | an entry without `=` reads as its decoded text with an empty decoded value |
| QueryString.EntryReadsBack | AlbyWidget/src/main/kotlin/com/alby/albywidget/AlbySDK.kt:67-69 | with an encoder that hides `&` and `=` and a decoder that undoes it, one entry holds no `&` and reads back as its key and value |
| QueryString.QueryRoundTrip | AlbyWidget/src/main/kotlin/com/alby/albywidget/AlbySDK.kt:67-69 | under the same conditions the query (`Query`, the entries joined by `&`) reads back as every pair, in order |
| QueryString.CommaListRoundTrip | AlbyWidget/src/main/kotlin/com/alby/albywidget/AlbySDK.kt:63 | comma-free ids come back from the comma list (`CommaList`, the ids joined by `,`) in list order |
| QueryString.EmptyListAmbiguous | AlbyWidget/src/main/kotlin/com/alby/albywidget/AlbySDK.kt:63 | an empty id list and a list holding one empty id give the same comma list |
| PurchasePixel.OrderInfo | AlbyWidget/src/main/kotlin/com/alby/albywidget/AlbyPurchasePixel.kt:22-28 | the five entries `brand_id`, `order_id`, `order_total`, the id list (`CommaList`), `currency`, in that order |
| PurchasePixel.PixelUrl | AlbyWidget/src/main/kotlin/com/alby/albywidget/AlbyPurchasePixel.kt:37-41 | the base URL and the encoded query, followed by the raw `&user_id=` entry exactly when there is a visitor id |
| PurchasePixel.SendPurchasePixel | AlbyWidget/src/main/kotlin/com/alby/albywidget/AlbyPurchasePixel.kt:15-46 | the request is a GET of the pixel URL with the product ids and the visitor id from the cookies; no initialization is checked |
| PurchasePixel.PixelQueryReadsBack | AlbyWidget/src/main/kotlin/com/alby/albywidget/AlbyPurchasePixel.kt:30-41 | the query reads back as the order entries in order, followed by the raw `user_id` entry when a visitor id is present |
| AlbySdk.AfterInitialize | AlbyWidget/src/main/kotlin/com/alby/albywidget/AlbySDK.kt:30-49 | a call after the first changes nothing; the first records the brand, the context and the warm-up page for the brand, and sets the flag |
| AlbySdk.Guard | AlbyWidget/src/main/kotlin/com/alby/albywidget/AlbySDK.kt:149-157 | passes exactly when initialized with a brand; reports not initialized first, then a missing brand |
| AlbySdk.InitializeKeepsValid | AlbyWidget/src/main/kotlin/com/alby/albywidget/AlbySDK.kt:30-49 | the singleton is initialized exactly when it has a brand, in every reachable state, so the missing-brand failure never occurs |
| AlbySdk.FirstInitializeWins | AlbyWidget/src/main/kotlin/com/alby/albywidget/AlbySDK.kt:30-36 | a second `initialize` is a no-op and the first brand stays |
| AlbySdk.GuardAroundInitialize | AlbyWidget/src/main/kotlin/com/alby/albywidget/AlbySDK.kt:149-157 | before `initialize` the guard fails as not initialized; after it, it passes |
| AlbySdk.PrepareRequest | AlbyWidget/src/main/kotlin/com/alby/albywidget/AlbySDK.kt:117-129 | the method is compared in upper case; a POST needs a body, a GET drops it, and any other method fails, naming the method as given |
| AlbySdk.MethodCaseInsensitive | AlbyWidget/src/main/kotlin/com/alby/albywidget/AlbySDK.kt:120 | an accepted request is the same whatever the case of the method |
| AlbySdk.SdkRequestsAccepted | AlbyWidget/src/main/kotlin/com/alby/albywidget/AlbySDK.kt:117-129 | the SDK's own GET and its POST with a body are always accepted |
| AlbySdk.Put | AlbyWidget/src/main/kotlin/com/alby/albywidget/AlbySDK.kt:85-103 | `put` with a value sets the key; with null it removes the key |
| AlbySdk.CartProperties | AlbyWidget/src/main/kotlin/com/alby/albywidget/AlbySDK.kt:92-97 | the properties hold exactly price, variant id, currency and quantity as strings |
| AlbySdk.CartContext | AlbyWidget/src/main/kotlin/com/alby/albywidget/AlbySDK.kt:98-102 | locale is `en-US` and source `android-sdk`; the user agent is present exactly when known |
| AlbySdk.AddToCartPayload | AlbyWidget/src/main/kotlin/com/alby/albywidget/AlbySDK.kt:85-104 | the brand, the event type `Click:AddToCart`, the visitor id exactly when known, the properties, the context and the time in seconds, and no other keys |
| AlbySdk.PayloadAlwaysTagged | AlbyWidget/src/main/kotlin/com/alby/albywidget/AlbySDK.kt:85-103 | whatever the inputs, the event type is `Click:AddToCart` and the context's source `android-sdk` |
| AlbySdk.Sdk.constructor | AlbyWidget/src/main/kotlin/com/alby/albywidget/AlbySDK.kt:20-27 | the singleton starts uninitialized with no brand and no context |
| AlbySdk.Sdk.Initialize | AlbyWidget/src/main/kotlin/com/alby/albywidget/AlbySDK.kt:30-49 | the fields end as `AfterInitialize` of their old values |
| AlbySdk.Sdk.SendPurchasePixel | AlbyWidget/src/main/kotlin/com/alby/albywidget/AlbySDK.kt:51-80 | fails with the guard's error before `initialize`; otherwise a GET of the pixel URL with the variant ids and the visitor id |
| AlbySdk.Sdk.SendAddToCartEvent | AlbyWidget/src/main/kotlin/com/alby/albywidget/AlbySDK.kt:82-109 | fails with the guard's error before `initialize`; otherwise a POST of the serialized payload to the analytics endpoint |

## Left out

- Compose's `AnchoredDraggableState` is not part of the repository. It is modelled after the library's published behaviour:
  - the spring animation, its cancellation, and the positional and velocity thresholds are not modelled (the sheet never passes its decay spec to the draggable);
  - animations run to completion;
  - the anchor a fling settles on is chosen by the sheet's positional threshold (20% of the distance) and velocity threshold (125 px/s), which are not modelled, so it is a parameter (`landing`) of `Settle`, `PreFling` and `PostFling`.
- AnchoredDraggable.Dispatch: keeps the target value fixed while the offset moves. The library derives the target value from the offset through the positional threshold during a drag. There the target value, and with it the `sheet-expanded` / `sheet-shrink` event of `AlbyWidget.OnTargetValueChanged`, can change in mid-drag. In the model the target value changes, and the event is published, only after `animateTo`, `settle` or `updateAnchors`.
- AnchoredDraggable.Reanchor: follows the library's `updateAnchors`, including the unchanged-map shortcut and the search for the closest anchor. Its snap is assumed to succeed at once: a drag holding the library's lock, and the deferred target it then records, are not modelled.
- AnchoredDraggable.Animate: without an anchor for the target, the current value is set directly, as the library does. The animation itself and its cancellation by another drag are not modelled. With an anchor, the model settles on the target itself. The library instead ends an animation by settling on the value closest to the final offset. The two differ only when two values share an anchor, as Expanded and HalfExpanded do on a short sheet (`SheetState.ShortSheetSettlesHalfExpanded`). There the library's `expand` would settle on HalfExpanded, while `Animate` and `SheetState.IntentsAfterLayout` report Expanded.
- `confirmValueChange` is left out. The sheet only ever uses its default, which accepts every change.
- Floating point is modelled as `real`:
  - there is no `Float` rounding;
  - `32.dp.toPx()` is `32 · density`;
  - the `roundToInt` of the sheet's drawn offset is not modelled.
- `requireOffset` before the first layout is modelled as a failure (`OffsetNotInitialized`), not as an exception.
- UI composition is not modelled:
  - layout, colours and padding;
  - the placeholder text and the disabled state of the field;
  - the sticky item;
  - the `AndroidView` factory and the web view settings;
  - the background colour set in `update`.
- Coroutines (`coroutineScope.launch`, `Dispatchers.IO`) are not modelled. Each launched block runs to completion when it is called.
- Foreign calls and I/O are left out or turned into parameters:
  - OkHttp's execution of a request is left out; the model stops at the request that would be sent (`Http.HttpRequest`);
  - the cookie header from `CookieManager` is a parameter;
  - `URLEncoder.encode` and `JSONObject.toString` are function parameters;
  - `System.getProperty("http.agent")` and `currentTimeMillis` are parameters;
  - the application context is an opaque number;
  - the background web view started by `initialize` is recorded only as the URL it loads;
  - the result callback of `evaluateJavascript` is not modelled.
- Logging is left out: the `Log.d` calls of the web view and the widget screen, and the `println` calls of the SDK and the purchase pixel, compute nothing the model states.
- `clearAlbyData` is left out. It only deletes cookies and storage through `CookieManager` and a WebView, and computes nothing the model could state.
- Exceptions (`IllegalStateException`, `IllegalArgumentException`) are modelled as `Failure` results with one error per message.
- AlbySdk.PrepareRequest: `uppercase` is modelled for ASCII letters only. The locale-independent Unicode case mapping of other characters is not modelled.
- AlbySdk.AddToCartPayload: the JSON document is modelled as a map. The key order of `JSONObject` and the text form of numbers are left to the serializer parameter.
- QueryString.QueryRoundTrip: stated for encoders that never emit `&` or `=` and have a decoder. `URLEncoder` with UTF-8 has that property, but it is assumed of the parameter and not proved.
- PurchasePixel.PixelQueryReadsBack: the visitor id is appended unencoded, as in the code. The read-back is stated only for ids without `&`.
- The `Text` module follows Kotlin's definitions of whitespace for `trim` and of `replace`, which scans left to right without overlaps. Supplementary characters are not distinguished from their UTF-16 halves.

## Findings

| source | as written | input that shows it | evidently intended | confidence | as-written member | corrected member |
|---|---|---|---|---|---|---|
| AlbyWidget/src/main/kotlin/com/alby/albywidget/WebViewScreen.kt:64-70 | the event is escaped for backslash, double quote and line feed, but it is placed in a single-quoted JavaScript literal, so a `'` is not escaped and ends the literal early | `it's`, for example typed into the question field: the literal closes after `it` and the leftover `s` makes the script a syntax error, so no event arrives; `x'+alert(1)+'` closes the literal after `x` and runs `alert(1)` as code | escape `'` as `\'` as well, so the page receives every event exactly | high; not executed | WebViewScreen.SingleQuoteCutsEvent | WebViewScreen.CorrectedScriptDeliversEvent |
| AlbyWidget/src/main/kotlin/com/alby/albywidget/WebViewScreen.kt:64-67 | a line feed is escaped but a carriage return is not, and a raw carriage return ends a JavaScript string literal | any event holding a carriage return, for example pasted text with Windows line endings: the literal is unterminated, the script is a syntax error and no event arrives | escape a carriage return as `\r` as well | high; not executed | WebViewScreen.CarriageReturnBreaksScript | WebViewScreen.CorrectedScriptDeliversEvent |

`WebViewScreen.Escape` and `WebViewScreen.Script` are the escaping and the script as written, and `PublishEvent` evaluates that script, as the widget does. `WebViewScreen.EscapeForLiteral` and `WebViewScreen.CorrectedScript` are the correction, with its delivery of every event proved beside it. `WebViewScreen.QuotedTextRunsAsCode` shows the second input of the first row. `ReadJsLiteral` reads only the string literal, not the JavaScript around it, so the syntax errors and the code that runs are consequences stated in words.
