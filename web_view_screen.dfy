/**
  The web surface that hosts the widget page: the URL it loads, and the
  script that delivers a native event to the page as a `CustomEvent`, with
  the event text escaped and placed inside a single-quoted JavaScript
  string literal.
 */
module WebViewScreen {
  import opened Wrappers
  import opened Text

  /** The web view: the last URL it was told to load and the scripts it evaluated, in order. */
  class WebView {
    var loadedUrl: Option<string>
    var evaluated: seq<string>

    constructor ()
      ensures loadedUrl == None && evaluated == []
    {
      loadedUrl := None;
      evaluated := [];
    }

    method LoadUrl(url: string)
      modifies this
      ensures loadedUrl == Some(url) && evaluated == old(evaluated)
    {
      loadedUrl := Some(url);
    }

    method EvaluateJavascript(script: string)
      modifies this
      ensures evaluated == old(evaluated) + [script] && loadedUrl == old(loadedUrl)
    {
      evaluated := evaluated + [script];
    }
  }

  // ---------------------------------------------------------------------
  // Widget page URL

  const WidgetPage: string := "https://cdn.alby.com/assets/alby_widget.html"

  /** The query parameters of the widget URL, in order. */
  function WidgetParams(brandId: string, productId: string, variantId: Option<string>): seq<string> {
    ["brandId=" + brandId, "productId=" + productId]
      + (if variantId.Some? then ["variantId=" + variantId.value] else [])
  }

  /**
    Builds the widget URL as the `update` block does: brand and product
    always, in that order, then `&variantId=` exactly when a variant is given.
   */
  method WidgetUrl(brandId: string, productId: string, variantId: Option<string>) returns (widgetUrl: string)
    ensures widgetUrl == WidgetPage + "?" + Join(WidgetParams(brandId, productId, variantId), "&")
    ensures variantId.None? ==> widgetUrl == WidgetPage + "?brandId=" + brandId + "&productId=" + productId
  {
    widgetUrl := WidgetPage + "?brandId=" + brandId + "&productId=" + productId;
    if variantId.Some? {
      widgetUrl := widgetUrl + "&variantId=" + variantId.value;
    }
    LiteralsSplit();
    var brandParam := "brandId=" + brandId;
    var productParam := "productId=" + productId;
    var head := WidgetPage + "?" + (brandParam + "&" + productParam);
    assert WidgetPage + "?brandId=" + brandId + "&productId=" + productId == head;
    if variantId.Some? {
      var variantParam := "variantId=" + variantId.value;
      JoinThree(brandParam, productParam, variantParam, "&");
      assert widgetUrl == head + "&" + variantParam;
    } else {
      JoinTwo(brandParam, productParam, "&");
    }
  }

  lemma LiteralsSplit()
    ensures "?brandId=" == "?" + "brandId="
    ensures "&productId=" == "&" + "productId="
    ensures "&variantId=" == "&" + "variantId="
  {
  }

  lemma JoinTwo(a: string, b: string, sep: string)
    ensures Join([a, b], sep) == a + sep + b
  {
    assert [a, b][1..] == [b];
  }

  lemma JoinThree(a: string, b: string, c: string, sep: string)
    ensures Join([a, b, c], sep) == a + sep + b + sep + c
  {
    assert [a, b, c][1..] == [b, c];
    JoinTwo(b, c, sep);
  }

  /**
    When no identifier contains `&`, splitting the query on `&` recovers
    exactly the brand, product and (when given) variant parameters, in order.
   */
  lemma WidgetParamsRecovered(brandId: string, productId: string, variantId: Option<string>)
    requires '&' !in brandId && '&' !in productId
    requires variantId.Some? ==> '&' !in variantId.value
    ensures Split(Join(WidgetParams(brandId, productId, variantId), "&"), '&')
      == WidgetParams(brandId, productId, variantId)
  {
    var ps := WidgetParams(brandId, productId, variantId);
    assert forall i :: 0 <= i < |ps| ==> '&' !in ps[i] by {
      assert '&' !in "brandId=" && '&' !in "productId=" && '&' !in "variantId=";
    }
    SplitJoin(ps, '&');
  }

  /** The `update` block: loads the widget URL into the web view. */
  method Update(webView: WebView, brandId: string, productId: string, variantId: Option<string>)
    modifies webView
    ensures webView.loadedUrl == Some(WidgetPage + "?" + Join(WidgetParams(brandId, productId, variantId), "&"))
    ensures webView.evaluated == old(webView.evaluated)
  {
    var widgetUrl := WidgetUrl(brandId, productId, variantId);
    webView.LoadUrl(widgetUrl);
  }

  // ---------------------------------------------------------------------
  // Event escaping, as written

  /** `publishEvent`'s escaping: backslashes first, then double quotes, then line feeds. */
  function Escape(event: string): string {
    ReplaceAll(ReplaceAll(ReplaceAll(event, "\\", "\\\\"), "\"", "\\\""), "\n", "\\n")
  }

  /** The escape of one character: the three special ones gain a backslash, all others pass through. */
  function EscapeChar(c: char): string {
    if c == '\\' then "\\\\"
    else if c == '"' then "\\\""
    else if c == '\n' then "\\n"
    else [c]
  }

  /** Escaping character by character. */
  function EscapeChars(s: string): string {
    if s == [] then [] else EscapeChar(s[0]) + EscapeChars(s[1..])
  }

  /**
    The three passes of `Escape` amount to escaping each character on its
    own: because backslashes go first, the backslashes added by the later
    passes are not escaped again.
   */
  lemma {:induction false} EscapeIsPerChar(s: string)
    ensures Escape(s) == EscapeChars(s)
  {
    var s1 := ReplaceAll(s, "\\", "\\\\");
    var s2 := ReplaceAll(s1, "\"", "\\\"");
    ReplaceSingle(s, '\\', "\\\\");
    ReplaceSingle(s1, '"', "\\\"");
    ReplaceSingle(s2, '\n', "\\n");
    ThreeSubstsArePerChar(s);
  }

  lemma ThreeSubstsChar(c: char)
    ensures Subst(Subst(Subst([c], '\\', "\\\\"), '"', "\\\""), '\n', "\\n") == EscapeChar(c)
  {
    var h1 := Subst([c], '\\', "\\\\");
    var h2 := Subst(h1, '"', "\\\"");
    assert [c][1..] == [];
    if c == '\\' {
      assert h1 == "\\\\";
      assert '"' !in h1 && '\n' !in h1;
    } else if c == '"' {
      assert h1 == [c];
      assert h2 == "\\\"";
      assert '\n' !in h2;
    } else {
      assert h1 == [c] && h2 == [c];
    }
  }

  lemma {:induction false} ThreeSubstsArePerChar(s: string)
    ensures Subst(Subst(Subst(s, '\\', "\\\\"), '"', "\\\""), '\n', "\\n") == EscapeChars(s)
  {
    if s != [] {
      var c := s[0];
      var rest := s[1..];
      assert s == [c] + rest;
      SubstConcat([c], rest, '\\', "\\\\");
      var h1 := Subst([c], '\\', "\\\\");
      var t1 := Subst(rest, '\\', "\\\\");
      SubstConcat(h1, t1, '"', "\\\"");
      var h2 := Subst(h1, '"', "\\\"");
      var t2 := Subst(t1, '"', "\\\"");
      SubstConcat(h2, t2, '\n', "\\n");
      ThreeSubstsChar(c);
      ThreeSubstsArePerChar(rest);
    }
  }

  /** Reading an escaped text back: `\x` stands for `x`, except that `\n` stands for a line feed. */
  function Unescape(s: string): string
    decreases |s|
  {
    if s == [] then []
    else if s[0] == '\\' && |s| >= 2 then [if s[1] == 'n' then '\n' else s[1]] + Unescape(s[2..])
    else [s[0]] + Unescape(s[1..])
  }

  /** Unescaping reads one escaped character back and goes on with what follows. */
  lemma UnescapeChar(c: char, e: string)
    ensures Unescape(EscapeChar(c) + e) == [c] + Unescape(e)
  {
    var whole := EscapeChar(c) + e;
    if c == '\\' || c == '"' || c == '\n' {
      assert whole[0] == '\\' && |whole| >= 2 && whole[2..] == e;
    } else {
      assert whole[0] == c && whole[1..] == e;
    }
  }

  lemma {:induction false} UnescapeEscapeChars(s: string)
    ensures Unescape(EscapeChars(s)) == s
  {
    if s != [] {
      UnescapeEscapeChars(s[1..]);
      UnescapeChar(s[0], EscapeChars(s[1..]));
      assert [s[0]] + s[1..] == s;
    }
  }

  /** Escaping loses nothing: unescaping gives the event back, whatever it contains. */
  lemma EscapeRoundTrip(event: string)
    ensures Unescape(Escape(event)) == event
  {
    EscapeIsPerChar(event);
    UnescapeEscapeChars(event);
  }

  lemma {:induction false} EscapeCharsNoLineFeed(s: string)
    ensures '\n' !in EscapeChars(s)
  {
    if s != [] {
      EscapeCharsNoLineFeed(s[1..]);
    }
  }

  /** An escaped event never contains a raw line feed. */
  lemma EscapeHasNoLineFeed(event: string)
    ensures '\n' !in Escape(event)
  {
    EscapeIsPerChar(event);
    EscapeCharsNoLineFeed(event);
  }

  lemma {:induction false} EscapeCharsIdentity(s: string)
    requires forall i :: 0 <= i < |s| ==> s[i] != '\\' && s[i] != '"' && s[i] != '\n'
    ensures EscapeChars(s) == s
  {
    if s != [] {
      EscapeCharsIdentity(s[1..]);
    }
  }

  /** An event without backslash, double quote or line feed, including one with single quotes, passes unchanged. */
  lemma EscapeKeepsPlainText(event: string)
    requires forall i :: 0 <= i < |event| ==> event[i] != '\\' && event[i] != '"' && event[i] != '\n'
    ensures Escape(event) == event
  {
    EscapeIsPerChar(event);
    EscapeCharsIdentity(event);
  }

  // ---------------------------------------------------------------------
  // The literal the escaped event is placed in

  /**
    How JavaScript reads the body of a single-quoted string literal: up to
    the first unescaped `'`, giving the decoded text and what follows the
    closing quote; None when the literal is cut by a line terminator (line
    feed or carriage return) or never closed.  Of the escape sequences,
    `\n`, `\t` and `\r` are decoded, and any other escaped character stands
    for itself.
   */
  function ReadJsLiteral(s: string): Option<(string, string)>
    decreases |s|
  {
    if s == [] then None
    else if s[0] == '\'' then Some(("", s[1..]))
    else if s[0] == '\n' || s[0] == '\r' then None
    else if s[0] == '\\' then
      if |s| < 2 then None
      else match ReadJsLiteral(s[2..])
        case None => None
        case Some(r) => Some(([JsEscaped(s[1])] + r.0, r.1))
    else match ReadJsLiteral(s[1..])
      case None => None
      case Some(r) => Some(([s[0]] + r.0, r.1))
  }

  function JsEscaped(c: char): char {
    if c == 'n' then '\n' else if c == 't' then '\t' else if c == 'r' then '\r' else c
  }

  /** A character other than a quote, a line terminator or a backslash is read as itself. */
  lemma ReadPlainChar(c: char, s: string)
    requires c != '\'' && c != '\n' && c != '\r' && c != '\\'
    ensures ReadJsLiteral([c] + s) == match ReadJsLiteral(s)
      case None => None
      case Some(r) => Some(([c] + r.0, r.1))
  {
    assert ([c] + s)[1..] == s;
  }

  /** One character escaped as written, other than a quote or a carriage return, is read back as itself. */
  lemma ReadWrittenChar(c: char, tail: string, r: (string, string))
    requires c != '\'' && c != '\r'
    requires ReadJsLiteral(tail) == Some(r)
    ensures ReadJsLiteral(EscapeChar(c) + tail) == Some(([c] + r.0, r.1))
  {
    var whole := EscapeChar(c) + tail;
    if c == '\\' || c == '"' || c == '\n' {
      assert whole[0] == '\\' && whole[2..] == tail;
    } else {
      assert whole[0] == c && whole[1..] == tail;
    }
  }

  /**
    Escaped as written, an event without a single quote or a carriage return
    reaches the page intact, and the script continues after the literal.
   */
  lemma {:induction false} QuoteFreeEventsArrive(event: string, rest: string)
    requires '\'' !in event && '\r' !in event
    ensures ReadJsLiteral(EscapeChars(event) + "'" + rest) == Some((event, rest))
  {
    if event == [] {
      assert EscapeChars(event) + "'" + rest == "'" + rest;
    } else {
      var head, tail := EscapeChar(event[0]), EscapeChars(event[1..]);
      assert EscapeChars(event) == head + tail;
      QuoteFreeEventsArrive(event[1..], rest);
      ReadWrittenChar(event[0], tail + "'" + rest, (event[1..], rest));
      ConcatAssoc(head, tail, "'");
      ConcatAssoc(head, tail + "'", rest);
      assert [event[0]] + event[1..] == event;
    }
  }

  // ---------------------------------------------------------------------
  // Corrected escaping

  /**
    The escaping the single-quoted literal needs: as before, then `'` as
    `\'` and a carriage return as `\r`.
   */
  function EscapeForLiteral(event: string): string {
    ReplaceAll(ReplaceAll(Escape(event), "'", "\\'"), "\r", "\\r")
  }

  function EscapeCharForLiteral(c: char): string {
    if c == '\'' then "\\'" else if c == '\r' then "\\r" else EscapeChar(c)
  }

  function EscapeCharsForLiteral(s: string): string {
    if s == [] then [] else EscapeCharForLiteral(s[0]) + EscapeCharsForLiteral(s[1..])
  }

  lemma QuoteSubstChar(c: char)
    ensures Subst(Subst(EscapeChar(c), '\'', "\\'"), '\r', "\\r") == EscapeCharForLiteral(c)
  {
    if c == '\'' || c == '\r' {
      assert EscapeChar(c) == [c] && [c][1..] == [];
    } else {
      assert '\'' !in EscapeChar(c) && '\r' !in EscapeChar(c);
    }
  }

  lemma {:induction false} QuoteSubstIsPerChar(s: string)
    ensures Subst(Subst(EscapeChars(s), '\'', "\\'"), '\r', "\\r") == EscapeCharsForLiteral(s)
  {
    if s != [] {
      SubstConcat(EscapeChar(s[0]), EscapeChars(s[1..]), '\'', "\\'");
      SubstConcat(Subst(EscapeChar(s[0]), '\'', "\\'"), Subst(EscapeChars(s[1..]), '\'', "\\'"), '\r', "\\r");
      QuoteSubstIsPerChar(s[1..]);
      QuoteSubstChar(s[0]);
    }
  }

  /** The page reads one character escaped for the literal back and goes on with what follows. */
  lemma ReadEscapedChar(c: char, tail: string, r: (string, string))
    requires ReadJsLiteral(tail) == Some(r)
    ensures ReadJsLiteral(EscapeCharForLiteral(c) + tail) == Some(([c] + r.0, r.1))
  {
    var whole := EscapeCharForLiteral(c) + tail;
    if c == '\\' || c == '"' || c == '\n' || c == '\'' || c == '\r' {
      assert whole[0] == '\\' && whole[2..] == tail;
    } else {
      assert whole[0] == c && whole[1..] == tail;
    }
  }

  lemma {:induction false} EveryEventArrives(s: string, rest: string)
    ensures ReadJsLiteral(EscapeCharsForLiteral(s) + "'" + rest) == Some((s, rest))
  {
    if s == [] {
      assert EscapeCharsForLiteral(s) + "'" + rest == "'" + rest;
    } else {
      var head, tail := EscapeCharForLiteral(s[0]), EscapeCharsForLiteral(s[1..]);
      assert EscapeCharsForLiteral(s) == head + tail;
      EveryEventArrives(s[1..], rest);
      ReadEscapedChar(s[0], tail + "'" + rest, (s[1..], rest));
      ConcatAssoc(head, tail, "'");
      ConcatAssoc(head, tail + "'", rest);
      assert [s[0]] + s[1..] == s;
    }
  }

  /** With the corrected escaping every event, quotes and line terminators included, reaches the page intact. */
  lemma EscapeForLiteralRoundTrip(event: string, rest: string)
    ensures ReadJsLiteral(EscapeForLiteral(event) + "'" + rest) == Some((event, rest))
  {
    EscapeIsPerChar(event);
    ReplaceSingle(Escape(event), '\'', "\\'");
    ReplaceSingle(Subst(Escape(event), '\'', "\\'"), '\r', "\\r");
    QuoteSubstIsPerChar(event);
    EveryEventArrives(event, rest);
  }

  // ---------------------------------------------------------------------
  // The script

  const ScriptPrefix: string := "var event = new CustomEvent('albyNativeEvent', { detail: { data: '"
  const ScriptSuffix: string := "'}}); window.dispatchEvent(event);"

  /**
    The script `publishEvent` evaluates: the event, escaped as written,
    between the fixed prefix and suffix.
   */
  function Script(event: string): (js: string)
    ensures |js| == |ScriptPrefix| + |Escape(event)| + |ScriptSuffix|
    ensures js[..|ScriptPrefix|] == ScriptPrefix
    ensures js[|js| - |ScriptSuffix|..] == ScriptSuffix
    ensures js[|ScriptPrefix|..|js| - |ScriptSuffix|] == Escape(event)
  {
    var js := ScriptPrefix + Escape(event) + ScriptSuffix;
    assert js[..|ScriptPrefix|] == ScriptPrefix;
    assert js[|ScriptPrefix|..|js| - |ScriptSuffix|] == Escape(event);
    js
  }

  lemma SuffixOpensWithQuote()
    ensures ScriptSuffix == "'" + ScriptSuffix[1..]
  {
  }

  lemma DropPrefix(p: string, e: string, q: string)
    ensures (p + e + q)[|p|..] == e + q
  {
  }

  /**
    An event without a single quote or a carriage return is delivered: the
    page reads the literal after the prefix as exactly the event, and the
    script goes on with the rest of the suffix as code.
   */
  lemma ScriptDeliversEvent(event: string)
    requires '\'' !in event && '\r' !in event
    ensures ReadJsLiteral(Script(event)[|ScriptPrefix|..]) == Some((event, ScriptSuffix[1..]))
  {
    var e, rest := Escape(event), ScriptSuffix[1..];
    SuffixOpensWithQuote();
    DropPrefix(ScriptPrefix, e, ScriptSuffix);
    ConcatAssoc(e, "'", rest);
    EscapeIsPerChar(event);
    QuoteFreeEventsArrive(event, rest);
  }

  /**
    A single quote ends the literal early.  For the event "it's" the literal
    closes after "it" and the script goes on with `s'}});`, which is not
    valid JavaScript, so the script does not run and no event is delivered.
   */
  lemma SingleQuoteCutsEvent()
    ensures ReadJsLiteral(Script("it's")[|ScriptPrefix|..]) == Some(("it", "s" + ScriptSuffix))
  {
    PlainEventPassesThrough();
    DropPrefix(ScriptPrefix, "it's", ScriptSuffix);
    ItsReadsAsIt(ScriptSuffix);
  }

  lemma ItsReadsAsIt(rest: string)
    ensures ReadJsLiteral("it's" + rest) == Some(("it", "s" + rest))
  {
    var after := "s" + rest;
    var quoted := ['\''] + after;
    assert ReadJsLiteral(quoted) == Some(("", after));
    ReadPlainChar('t', quoted);
    ReadPlainChar('i', ['t'] + quoted);
    assert "it's" + rest == ['i'] + (['t'] + quoted);
    assert ['i'] + (['t'] + "") == "it";
  }

  lemma PlainEventPassesThrough()
    ensures Escape("it's") == "it's"
  {
    var e := "it's";
    assert e[0] == 'i' && e[1] == 't' && e[2] == '\'' && e[3] == 's' && |e| == 4;
    EscapeKeepsPlainText(e);
  }

  /**
    Balanced single quotes run the event as code: for the event
    `x'+alert(1)+'` the literal closes after "x" and the script goes on with
    `+alert(1)+''}});`, so the page calls `alert(1)`.
   */
  lemma QuotedTextRunsAsCode()
    ensures ReadJsLiteral(Script("x'+alert(1)+'")[|ScriptPrefix|..]) == Some(("x", "+alert(1)+'" + ScriptSuffix))
  {
    var head, code := "x'", "+alert(1)+'";
    InjectionPassesThrough();
    InjectionSplits();
    DropPrefix(ScriptPrefix, head + code, ScriptSuffix);
    ConcatAssoc(head, code, ScriptSuffix);
    XReadsAsX(code + ScriptSuffix);
  }

  lemma InjectionSplits()
    ensures "x'+alert(1)+'" == "x'" + "+alert(1)+'"
  {
  }

  lemma XReadsAsX(after: string)
    ensures ReadJsLiteral("x'" + after) == Some(("x", after))
  {
    var quoted := ['\''] + after;
    assert ReadJsLiteral(quoted) == Some(("", after));
    ReadPlainChar('x', quoted);
    assert "x'" + after == ['x'] + quoted;
    assert ['x'] + "" == "x";
  }

  lemma InjectionPassesThrough()
    ensures Escape("x'+alert(1)+'") == "x'+alert(1)+'"
  {
    var e := "x'+alert(1)+'";
    assert forall i :: 0 <= i < |e| ==> e[i] in "x'+alert(1)";
    EscapeKeepsPlainText(e);
  }

  /**
    A carriage return passes the escaping as written and stays raw inside
    the literal, where JavaScript forbids a line terminator: the script does
    not parse.
   */
  lemma CarriageReturnBreaksScript()
    ensures ReadJsLiteral(Script("\r")[|ScriptPrefix|..]) == None
  {
    CarriageReturnPassesThrough();
    DropPrefix(ScriptPrefix, "\r", ScriptSuffix);
    assert ("\r" + ScriptSuffix)[0] == '\r';
  }

  lemma CarriageReturnPassesThrough()
    ensures Escape("\r") == "\r"
  {
    EscapeKeepsPlainText("\r");
  }

  /** The script with the corrected escaping: the same prefix and suffix around `EscapeForLiteral(event)`. */
  function CorrectedScript(event: string): (js: string)
    ensures |js| == |ScriptPrefix| + |EscapeForLiteral(event)| + |ScriptSuffix|
    ensures js[..|ScriptPrefix|] == ScriptPrefix
    ensures js[|js| - |ScriptSuffix|..] == ScriptSuffix
    ensures js[|ScriptPrefix|..|js| - |ScriptSuffix|] == EscapeForLiteral(event)
  {
    var js := ScriptPrefix + EscapeForLiteral(event) + ScriptSuffix;
    assert js[..|ScriptPrefix|] == ScriptPrefix;
    assert js[|ScriptPrefix|..|js| - |ScriptSuffix|] == EscapeForLiteral(event);
    js
  }

  /**
    The corrected script delivers every event: the page reads the literal
    after the prefix as exactly the event, and the script goes on with the
    rest of the suffix as code.
   */
  lemma CorrectedScriptDeliversEvent(event: string)
    ensures ReadJsLiteral(CorrectedScript(event)[|ScriptPrefix|..]) == Some((event, ScriptSuffix[1..]))
  {
    var e, rest := EscapeForLiteral(event), ScriptSuffix[1..];
    SuffixOpensWithQuote();
    DropPrefix(ScriptPrefix, e, ScriptSuffix);
    ConcatAssoc(e, "'", rest);
    EscapeForLiteralRoundTrip(event, rest);
  }

  /** `publishEvent`: with a web view the script is evaluated; with none nothing happens. */
  method PublishEvent(webView: WebView?, event: string)
    modifies webView
    ensures webView != null ==>
      webView.evaluated == old(webView.evaluated) + [Script(event)] && webView.loadedUrl == old(webView.loadedUrl)
  {
    var escapedEvent := Escape(event);
    var js := ScriptPrefix + escapedEvent + ScriptSuffix;
    if webView != null {
      webView.EvaluateJavascript(js);
    }
  }
}
