/**
  The widget screen's logic: the bridge that reacts to messages posted by
  the widget page, the event sent to the page whenever the sheet's target
  value changes, the height given to the web content for each sheet value,
  and the question field whose text is sent to the page on submit.
 */
module AlbyWidget {
  import opened Wrappers
  import opened Text
  import opened SheetValues
  import opened AnchoredDraggable
  import opened SheetState
  import opened WebViewScreen

  /** A Compose `MutableState`: one observable value that callers reassign. */
  class MutableState<T> {
    var value: T

    constructor (initial: T)
      ensures value == initial
    {
      value := initial;
    }
  }

  // ---------------------------------------------------------------------
  // postMessage

  const PreviewButtonClicked: string := "preview-button-clicked"
  const WidgetRendered: string := "widget-rendered"
  const StreamingMessage: string := "streaming-message"
  const StreamingPrefix: string := "streaming-message:"
  const StreamingFinished: string := "streaming-finished"

  /** What `postMessage` does with one message. */
  datatype BridgeAction =
    | ExpandSheet
    | ShowSheet
    | StartStreaming(text: string)
    | FinishStreaming
    | Ignore

  /**
    The `when` of `postMessage`: the two exact messages first, then a
    message mentioning a streamed chunk, then one mentioning the end of the
    stream; the first branch that matches wins.
   */
  function Classify(message: string): (a: BridgeAction)
    ensures a == ExpandSheet <==> message == PreviewButtonClicked
    ensures a == ShowSheet <==> message == WidgetRendered
    ensures a.StartStreaming? <==>
      message != PreviewButtonClicked && message != WidgetRendered && Contains(message, StreamingMessage)
    ensures a.StartStreaming? ==> a.text == ReplaceAll(message, StreamingPrefix, "")
    ensures a == FinishStreaming <==>
      message != PreviewButtonClicked && message != WidgetRendered
      && !Contains(message, StreamingMessage) && Contains(message, StreamingFinished)
    ensures a == Ignore <==>
      message != PreviewButtonClicked && message != WidgetRendered
      && !Contains(message, StreamingMessage) && !Contains(message, StreamingFinished)
  {
    if message == PreviewButtonClicked then ExpandSheet
    else if message == WidgetRendered then ShowSheet
    else if Contains(message, StreamingMessage) then StartStreaming(ReplaceAll(message, StreamingPrefix, ""))
    else if Contains(message, StreamingFinished) then FinishStreaming
    else Ignore
  }

  /** The state `postMessage` acts on: the sheet, the loading flag and the loading text. */
  datatype ScreenModel = ScreenModel(sheet: DragModel, isLoading: bool, loadingText: string)

  /** The screen after `postMessage(message)` has run. */
  function AfterMessage(s: ScreenModel, message: string): (r: ScreenModel)
    ensures message == PreviewButtonClicked ==>
      r == s.(sheet := AfterExpand(s.sheet))
    ensures message == WidgetRendered ==>
      r == s.(sheet := AfterShow(s.sheet))
    ensures Classify(message).StartStreaming? ==>
      r.sheet == s.sheet && r.isLoading && r.loadingText == ReplaceAll(message, StreamingPrefix, "")
    ensures Classify(message) == FinishStreaming ==>
      r.sheet == s.sheet && !r.isLoading && r.loadingText == ""
    ensures Classify(message) == Ignore ==> r == s
  {
    match Classify(message)
    case ExpandSheet => s.(sheet := AfterExpand(s.sheet))
    case ShowSheet => s.(sheet := AfterShow(s.sheet))
    case StartStreaming(text) => s.(isLoading := true, loadingText := text)
    case FinishStreaming => s.(isLoading := false, loadingText := "")
    case Ignore => s
  }

  /**
    Only the two exact messages touch the sheet, and they leave the loading
    state alone; every other message leaves the sheet alone.
   */
  lemma OnlyExactMessagesMoveTheSheet(s: ScreenModel, message: string)
    ensures message != PreviewButtonClicked && message != WidgetRendered ==> AfterMessage(s, message).sheet == s.sheet
    ensures message == PreviewButtonClicked || message == WidgetRendered ==>
      AfterMessage(s, message).isLoading == s.isLoading && AfterMessage(s, message).loadingText == s.loadingText
  {
  }

  /**
    A chunk sent as `streaming-message:` followed by text that does not
    itself contain the prefix is shown exactly as sent, and the screen is
    then loading.
   */
  lemma StreamedChunkShown(s: ScreenModel, chunk: string)
    requires !Contains(chunk, StreamingPrefix)
    ensures AfterMessage(s, StreamingPrefix + chunk) == s.(isLoading := true, loadingText := chunk)
  {
    var message := StreamingPrefix + chunk;
    assert message[..|StreamingPrefix|] == StreamingPrefix && message[|StreamingPrefix|..] == chunk;
    assert OccursAt(message, StreamingMessage, 0) by {
      assert message[..|StreamingMessage|] == StreamingMessage;
    }
    assert message != PreviewButtonClicked by {
      assert message[0] != PreviewButtonClicked[0];
    }
    assert message != WidgetRendered by {
      assert message[0] != WidgetRendered[0];
    }
    assert ReplaceAll(message, StreamingPrefix, "") == chunk;
  }

  /** After the end of the stream the screen is no longer loading, whatever came before. */
  lemma FinishedClearsLoading(s: ScreenModel, chunk: string)
    requires !Contains(chunk, StreamingPrefix)
    ensures AfterMessage(AfterMessage(s, StreamingPrefix + chunk), StreamingFinished)
      == s.(isLoading := false, loadingText := "")
  {
    StreamedChunkShown(s, chunk);
    assert OccursAt(StreamingFinished, StreamingFinished, 0);
    FinishedIsNotAChunk();
  }

  /** The end-of-stream message does not mention a streamed chunk. */
  lemma FinishedIsNotAChunk()
    ensures !Contains(StreamingFinished, StreamingMessage)
  {
    assert |StreamingFinished| == 18 && |StreamingMessage| == 17;
    assert StreamingMessage[10] == 'm';
    assert StreamingFinished[10] == 'f' && StreamingFinished[11] == 'i';
    forall i: nat | i <= |StreamingFinished| ensures !OccursAt(StreamingFinished, StreamingMessage, i) {
      if i == 0 {
        assert StreamingFinished[0..17][10] != StreamingMessage[10];
      } else if i == 1 {
        assert StreamingFinished[1..18][10] != StreamingMessage[10];
      }
    }
  }

  /** The JavaScript bridge object: `postMessage` is called by the widget page. */
  class WebViewInterface {
    const bottomSheetState: HideableBottomSheetState
    const isLoading: MutableState<bool>
    const isLoadingText: MutableState<string>

    constructor (bottomSheetState: HideableBottomSheetState, isLoading: MutableState<bool>, isLoadingText: MutableState<string>)
      ensures this.bottomSheetState == bottomSheetState
      ensures this.isLoading == isLoading && this.isLoadingText == isLoadingText
    {
      this.bottomSheetState := bottomSheetState;
      this.isLoading := isLoading;
      this.isLoadingText := isLoadingText;
    }

    function Screen(): ScreenModel
      reads bottomSheetState.draggableState, isLoading, isLoadingText
    {
      ScreenModel(bottomSheetState.draggableState.Model(), isLoading.value, isLoadingText.value)
    }

    /** `postMessage`, with the launched coroutine run to completion. */
    method PostMessage(message: string)
      modifies bottomSheetState.draggableState, isLoading, isLoadingText
      ensures Screen() == AfterMessage(old(Screen()), message)
    {
      if message == PreviewButtonClicked {
        bottomSheetState.Expand();
      } else if message == WidgetRendered {
        bottomSheetState.Show();
      } else if Contains(message, StreamingMessage) {
        isLoading.value := true;
        var replacedResult := ReplaceAll(message, StreamingPrefix, "");
        isLoadingText.value := replacedResult;
      } else if Contains(message, StreamingFinished) {
        isLoading.value := false;
        isLoadingText.value := "";
      }
    }
  }

  // ---------------------------------------------------------------------
  // The event sent when the target value changes

  const SheetExpandedEvent: string := "sheet-expanded"
  const SheetShrinkEvent: string := "sheet-shrink"

  /** The event name for a new target value. */
  function SheetEventFor(target: SheetValue): (event: string)
    ensures event == SheetExpandedEvent || event == SheetShrinkEvent
    ensures event == SheetExpandedEvent <==> target == HalfExpanded || target == Expanded
  {
    if target == HalfExpanded || target == Expanded then SheetExpandedEvent else SheetShrinkEvent
  }

  /**
    The page is told the sheet expands exactly when the new target opens at
    least the half-expanded share of the drag range.
   */
  lemma ExpandedMeansMostlyOpen(target: SheetValue)
    ensures SheetEventFor(target) == SheetExpandedEvent <==> Fraction(target) >= Fraction(HalfExpanded)
  {
  }

  /** Both event names need no escaping, so the page reads each one back exactly. */
  lemma SheetEventsArriveIntact(target: SheetValue, rest: string)
    ensures ReadJsLiteral(Escape(SheetEventFor(target)) + "'" + rest) == Some((SheetEventFor(target), rest))
  {
    var event := SheetEventFor(target);
    assert forall i :: 0 <= i < |event| ==> event[i] != '\\' && event[i] != '"' && event[i] != '\n';
    assert '\'' !in event && '\r' !in event;
    EscapeIsPerChar(event);
    QuoteFreeEventsArrive(event, rest);
  }

  /** The `LaunchedEffect` keyed on the target value: publishes the matching event. */
  method OnTargetValueChanged(bottomSheetState: HideableBottomSheetState, webViewReference: MutableState<WebView?>)
    modifies webViewReference.value
    ensures webViewReference.value != null ==>
      webViewReference.value.evaluated
        == old(webViewReference.value.evaluated) + [Script(SheetEventFor(bottomSheetState.TargetValue()))]
  {
    if bottomSheetState.draggableState.targetValue == HalfExpanded
      || bottomSheetState.draggableState.targetValue == Expanded
    {
      PublishEvent(webViewReference.value, SheetExpandedEvent);
    } else {
      PublishEvent(webViewReference.value, SheetShrinkEvent);
    }
  }

  // ---------------------------------------------------------------------
  // Height of the web content

  /**
    The content height for each settled value: nothing when hidden, the
    screen height scaled by the value's fraction less 100 when half or fully
    expanded, and a 100 unit peek at Initial.
   */
  function HeightFor(v: SheetValue, screenHeight: int): real {
    match v
    case Hidden => 0.0
    case HalfExpanded => Fraction(HalfExpanded) * screenHeight as real - 100.0
    case Expanded => Fraction(Expanded) * screenHeight as real - 100.0
    case Initial => 100.0
  }

  /**
    `calculateHeight`: the chain of `isHidden`, `isHalfExpanded` and
    `isExpanded` tests gives the height of the settled value, so the height
    depends on the state only through that value.
   */
  function CalculateHeight(state: HideableBottomSheetState, screenHeight: int): (h: real)
    reads state.draggableState
    ensures h == HeightFor(state.CurrentValue(), screenHeight)
    ensures state.IsHidden() ==> h == 0.0
    ensures state.IsHalfExpanded() || state.IsExpanded() ==>
      h == Fraction(state.CurrentValue()) * screenHeight as real - 100.0
    ensures state.CurrentValue() == Initial ==> h == 100.0
  {
    if state.IsHidden() then 0.0
    else if state.IsHalfExpanded() then Fraction(HalfExpanded) * screenHeight as real - 100.0
    else if state.IsExpanded() then Fraction(Expanded) * screenHeight as real - 100.0
    else 100.0
  }

  /**
    On a screen at least 334 units tall, the more open the sheet, the more
    room the content gets; on one shorter than 167 units the half-expanded
    height is negative.
   */
  lemma HeightsOrdered(screenHeight: int)
    ensures screenHeight >= 334 ==>
      HeightFor(Hidden, screenHeight) <= HeightFor(Initial, screenHeight)
      <= HeightFor(HalfExpanded, screenHeight) <= HeightFor(Expanded, screenHeight)
    ensures screenHeight < 167 ==> HeightFor(HalfExpanded, screenHeight) < 0.0
  {
  }

  // ---------------------------------------------------------------------
  // The question field

  /** The text field of the question input and its two submit actions. */
  class InputText {
    var text: string

    constructor ()
      ensures text == ""
    {
      text := "";
    }

    /** `onValueChange`: the field shows what was typed. */
    method OnValueChange(newText: string)
      modifies this
      ensures text == newText
    {
      text := newText;
    }

    /** The keyboard's Done action and the send button: publish the text, then clear the field. */
    method Submit(webViewReference: MutableState<WebView?>)
      modifies this, webViewReference.value
      ensures text == ""
      ensures webViewReference.value != null ==>
        webViewReference.value.evaluated == old(webViewReference.value.evaluated) + [Script(old(text))]
    {
      PublishEvent(webViewReference.value, text);
      text := "";
    }
  }
}
