/** The two escapers of MarkdownToHtmlConverter: escapeHtml for text placed in the transcript
    page, and escapeJavaScript for text placed inside a single-quoted JavaScript string. */
module HtmlText {
  import opened Wrappers
  import opened Text

  /** escapeHtml: `&` first, then `<`, `>`, `"` and `'`, each replaced over the whole text. */
  function EscapeHtml(text: string): string
  {
    Replace(Replace(Replace(Replace(Replace(text, "&", "&amp;"), "<", "&lt;"), ">", "&gt;"),
      "\"", "&quot;"), "'", "&#x27;")
  }

  /** The entity written for one character, the reference for the replace chain of EscapeHtml. */
  function HtmlEscapeChar(c: char): string
  {
    if c == '&' then "&amp;"
    else if c == '<' then "&lt;"
    else if c == '>' then "&gt;"
    else if c == '"' then "&quot;"
    else if c == '\'' then "&#x27;"
    else [c]
  }

  // The text after each step of the escapeHtml chain, one character at a time.
  function AfterAmp(c: char): string
  {
    if c == '&' then "&amp;" else [c]
  }

  function AfterLt(c: char): string
  {
    if c == '<' then "&lt;" else AfterAmp(c)
  }

  function AfterGt(c: char): string
  {
    if c == '>' then "&gt;" else AfterLt(c)
  }

  function AfterQuot(c: char): string
  {
    if c == '"' then "&quot;" else AfterGt(c)
  }

  /** Because `&` is replaced first, no later replace rewrites an entity written by an earlier
      one: the chain escapes each character on its own. */
  lemma EscapeHtmlPerChar(s: string)
    ensures EscapeHtml(s) == FlatMap(HtmlEscapeChar, s)
  {
    AmpStep(s);
    LtStep(s);
    GtStep(s);
    QuotStep(s);
    AposStep(s);
  }

  lemma AmpStep(s: string)
    ensures Replace(s, "&", "&amp;") == FlatMap(AfterAmp, s)
  {
    forall x ensures TokenReplaced(Single(x), AfterAmp(x), "&", "&amp;") { }
    FlatMapIdentity(Single, s);
    ReplaceTokens(Single, AfterAmp, s, "&", "&amp;");
  }

  lemma LtStep(s: string)
    ensures Replace(FlatMap(AfterAmp, s), "<", "&lt;") == FlatMap(AfterLt, s)
  {
    forall x ensures TokenReplaced(AfterAmp(x), AfterLt(x), "<", "&lt;") { }
    ReplaceTokens(AfterAmp, AfterLt, s, "<", "&lt;");
  }

  lemma GtStep(s: string)
    ensures Replace(FlatMap(AfterLt, s), ">", "&gt;") == FlatMap(AfterGt, s)
  {
    forall x ensures TokenReplaced(AfterLt(x), AfterGt(x), ">", "&gt;") { }
    ReplaceTokens(AfterLt, AfterGt, s, ">", "&gt;");
  }

  lemma QuotStep(s: string)
    ensures Replace(FlatMap(AfterGt, s), "\"", "&quot;") == FlatMap(AfterQuot, s)
  {
    forall x ensures TokenReplaced(AfterGt(x), AfterQuot(x), "\"", "&quot;") { }
    ReplaceTokens(AfterGt, AfterQuot, s, "\"", "&quot;");
  }

  lemma AposStep(s: string)
    ensures Replace(FlatMap(AfterQuot, s), "'", "&#x27;") == FlatMap(HtmlEscapeChar, s)
  {
    forall x ensures TokenReplaced(AfterQuot(x), HtmlEscapeChar(x), "'", "&#x27;") { }
    ReplaceTokens(AfterQuot, HtmlEscapeChar, s, "'", "&#x27;");
  }

  /** The escaped text holds no raw `<`, `>`, `"` or `'`. */
  lemma EscapeHtmlSafe(s: string)
    ensures '<' !in EscapeHtml(s) && '>' !in EscapeHtml(s)
    ensures '"' !in EscapeHtml(s) && '\'' !in EscapeHtml(s)
  {
    EscapeHtmlPerChar(s);
    FlatMapAvoids(HtmlEscapeChar, s, '<');
    FlatMapAvoids(HtmlEscapeChar, s, '>');
    FlatMapAvoids(HtmlEscapeChar, s, '"');
    FlatMapAvoids(HtmlEscapeChar, s, '\'');
  }

  /** One of the five entities escapeHtml writes starts at index `i` of `s`. */
  predicate EntityAt(s: string, i: int)
  {
    MatchAt(s, "&amp;", i) || MatchAt(s, "&lt;", i) || MatchAt(s, "&gt;", i) ||
    MatchAt(s, "&quot;", i) || MatchAt(s, "&#x27;", i)
  }

  /** Every `&` of `s` starts one of the five entities. */
  predicate AmpersandsStartEntities(s: string)
  {
    forall i :: 0 <= i < |s| && s[i] == '&' ==> EntityAt(s, i)
  }

  /** Every `&` of the escaped text starts an entity: an `&` of the input became `&amp;`, and
      no other `&` was written except at the head of an entity. */
  lemma EscapeHtmlEntities(s: string)
    ensures AmpersandsStartEntities(EscapeHtml(s))
  {
    EscapeHtmlPerChar(s);
    FlatMapEntities(s);
  }

  lemma {:induction false} FlatMapEntities(s: string)
    ensures AmpersandsStartEntities(FlatMap(HtmlEscapeChar, s))
  {
    if s != [] {
      var t, rest := HtmlEscapeChar(s[0]), FlatMap(HtmlEscapeChar, s[1..]);
      FlatMapEntities(s[1..]);
      ImageEntities(s[0]);
      EntitiesConcat(t, rest);
    }
  }

  /** The image of one character has its `&`, if any, at the head of an entity. */
  lemma ImageEntities(x: char)
    ensures AmpersandsStartEntities(HtmlEscapeChar(x))
  {
    var t := HtmlEscapeChar(x);
    forall i | 0 <= i < |t| && t[i] == '&'
      ensures EntityAt(t, i)
    {
      assert i == 0 && t[..|t|] == t;
    }
  }

  /** An entity at index `i` of `a` is still there once text is appended, or prepended with
      the index shifted. */
  lemma EntitiesConcat(a: string, b: string)
    requires AmpersandsStartEntities(a) && AmpersandsStartEntities(b)
    ensures AmpersandsStartEntities(a + b)
  {
    var ab := a + b;
    forall i | 0 <= i < |ab| && ab[i] == '&'
      ensures EntityAt(ab, i)
    {
      if i < |a| {
        assert a[i] == '&';
        forall p: string | MatchAt(a, p, i) ensures MatchAt(ab, p, i) {
          MatchAppend(a, b, p, i);
        }
      } else {
        assert b[i - |a|] == '&';
        forall p: string | MatchAt(b, p, i - |a|) ensures MatchAt(ab, p, i) {
          MatchPrepend(a, b, p, i - |a|);
        }
      }
    }
  }

  /** The text a browser displays for markup made only of `<br>` line breaks and the five
      entities: each is read as the character it stands for, any other character as itself. */
  function Displayed(s: string): (r: string)
    ensures |r| <= |s|
    decreases |s|
  {
    if s == [] then []
    else if s[0] != '<' && s[0] != '&' then [s[0]] + Displayed(s[1..])
    else if MatchAt(s, "<br>", 0) then "\n" + Displayed(s[4..])
    else if MatchAt(s, "&amp;", 0) then "&" + Displayed(s[5..])
    else if MatchAt(s, "&lt;", 0) then "<" + Displayed(s[4..])
    else if MatchAt(s, "&gt;", 0) then ">" + Displayed(s[4..])
    else if MatchAt(s, "&quot;", 0) then "\"" + Displayed(s[6..])
    else if MatchAt(s, "&#x27;", 0) then "'" + Displayed(s[6..])
    else [s[0]] + Displayed(s[1..])
  }

  /** The escaped text is displayed as the input: escapeHtml loses nothing. */
  lemma DisplayedEscapeHtml(s: string)
    ensures Displayed(EscapeHtml(s)) == s
  {
    EscapeHtmlPerChar(s);
    DisplayedFlatMap(s);
  }

  lemma {:induction false} DisplayedFlatMap(s: string)
    ensures Displayed(FlatMap(HtmlEscapeChar, s)) == s
  {
    if s != [] {
      DisplayedFlatMap(s[1..]);
      DisplayedImage(s[0], FlatMap(HtmlEscapeChar, s[1..]));
      assert s == [s[0]] + s[1..];
    }
  }

  /** The image of one character, whatever follows it, is displayed as that character. */
  lemma DisplayedImage(x: char, r: string)
    ensures Displayed(HtmlEscapeChar(x) + r) == [x] + Displayed(r)
  {
    if x == '&' {
      DisplayedMarkup("&amp;", r);
    } else if x == '<' {
      DisplayedMarkup("&lt;", r);
    } else if x == '>' {
      DisplayedMarkup("&gt;", r);
    } else if x == '"' {
      DisplayedMarkup("&quot;", r);
    } else if x == '\'' {
      DisplayedMarkup("&#x27;", r);
    } else {
      DisplayedPlain(x, r);
    }
  }

  /** A character other than `<` and `&` at the head of the text is displayed as itself. */
  lemma DisplayedPlain(x: char, r: string)
    requires x != '<' && x != '&'
    ensures Displayed([x] + r) == [x] + Displayed(r)
  {
    var s := [x] + r;
    assert s[0] == x && s[1..] == r;
  }

  /** A line break or an entity at the head of the text is displayed as its character. */
  lemma DisplayedMarkup(e: string, r: string)
    requires e in ["<br>", "&amp;", "&lt;", "&gt;", "&quot;", "&#x27;"]
    ensures Displayed(e + r) == [MarkupChar(e)] + Displayed(r)
  {
    var s := e + r;
    assert s[..|e|] == e && s[|e|..] == r;
    assert s[0] == e[0] && s[1] == e[1];
    if e == "<br>" {
      assert MatchAt(s, "<br>", 0);
    } else {
      assert !MatchAt(s, "<br>", 0);
      if e[1] == '#' {
        assert MatchAt(s, "&#x27;", 0);
      } else if e[1] != 'a' {
        assert !MatchAt(s, "&amp;", 0);
      }
    }
  }

  /** The character a line break or an entity stands for. */
  function MarkupChar(e: string): char
  {
    if e == "<br>" then '\n' else if e == "&amp;" then '&' else if e == "&lt;" then '<'
    else if e == "&gt;" then '>' else if e == "&quot;" then '"' else '\''
  }

  /** escapeJavaScript: backslash first, then `'`, `"`, line feed, carriage return and tab get
      a backslash escape, each replaced over the whole text. */
  function EscapeJavaScript(text: string): string
  {
    Replace(Replace(Replace(Replace(Replace(Replace(text, "\\", "\\\\"), "'", "\\'"),
      "\"", "\\\""), "\n", "\\n"), "\r", "\\r"), "\t", "\\t")
  }

  /** The escape of one character, the reference for the replace chain of EscapeJavaScript. */
  function JsEscapeChar(c: char): string
  {
    if c == '\\' then "\\\\"
    else if c == '\'' then "\\'"
    else if c == '"' then "\\\""
    else if c == '\n' then "\\n"
    else if c == '\r' then "\\r"
    else if c == '\t' then "\\t"
    else [c]
  }

  // The text after each step of the escapeJavaScript chain, one character at a time.
  function JsAfterBackslash(c: char): string
  {
    if c == '\\' then "\\\\" else [c]
  }

  function JsAfterApostrophe(c: char): string
  {
    if c == '\'' then "\\'" else JsAfterBackslash(c)
  }

  function JsAfterQuote(c: char): string
  {
    if c == '"' then "\\\"" else JsAfterApostrophe(c)
  }

  function JsAfterNewline(c: char): string
  {
    if c == '\n' then "\\n" else JsAfterQuote(c)
  }

  function JsAfterReturn(c: char): string
  {
    if c == '\r' then "\\r" else JsAfterNewline(c)
  }

  /** Because the backslash is doubled first, each later replace only meets input characters:
      the chain escapes each character on its own. */
  lemma EscapeJavaScriptPerChar(s: string)
    ensures EscapeJavaScript(s) == FlatMap(JsEscapeChar, s)
  {
    JsBackslashStep(s);
    JsApostropheStep(s);
    JsQuoteStep(s);
    JsNewlineStep(s);
    JsReturnStep(s);
    JsTabStep(s);
  }

  lemma JsBackslashStep(s: string)
    ensures Replace(s, "\\", "\\\\") == FlatMap(JsAfterBackslash, s)
  {
    forall x ensures TokenReplaced(Single(x), JsAfterBackslash(x), "\\", "\\\\") { }
    FlatMapIdentity(Single, s);
    ReplaceTokens(Single, JsAfterBackslash, s, "\\", "\\\\");
  }

  lemma JsApostropheStep(s: string)
    ensures Replace(FlatMap(JsAfterBackslash, s), "'", "\\'") == FlatMap(JsAfterApostrophe, s)
  {
    forall x ensures TokenReplaced(JsAfterBackslash(x), JsAfterApostrophe(x), "'", "\\'") { }
    ReplaceTokens(JsAfterBackslash, JsAfterApostrophe, s, "'", "\\'");
  }

  lemma JsQuoteStep(s: string)
    ensures Replace(FlatMap(JsAfterApostrophe, s), "\"", "\\\"") == FlatMap(JsAfterQuote, s)
  {
    forall x ensures TokenReplaced(JsAfterApostrophe(x), JsAfterQuote(x), "\"", "\\\"") { }
    ReplaceTokens(JsAfterApostrophe, JsAfterQuote, s, "\"", "\\\"");
  }

  lemma JsNewlineStep(s: string)
    ensures Replace(FlatMap(JsAfterQuote, s), "\n", "\\n") == FlatMap(JsAfterNewline, s)
  {
    forall x ensures TokenReplaced(JsAfterQuote(x), JsAfterNewline(x), "\n", "\\n") { }
    ReplaceTokens(JsAfterQuote, JsAfterNewline, s, "\n", "\\n");
  }

  lemma JsReturnStep(s: string)
    ensures Replace(FlatMap(JsAfterNewline, s), "\r", "\\r") == FlatMap(JsAfterReturn, s)
  {
    forall x ensures TokenReplaced(JsAfterNewline(x), JsAfterReturn(x), "\r", "\\r") { }
    ReplaceTokens(JsAfterNewline, JsAfterReturn, s, "\r", "\\r");
  }

  lemma JsTabStep(s: string)
    ensures Replace(FlatMap(JsAfterReturn, s), "\t", "\\t") == FlatMap(JsEscapeChar, s)
  {
    forall x ensures TokenReplaced(JsAfterReturn(x), JsEscapeChar(x), "\t", "\\t") { }
    ReplaceTokens(JsAfterReturn, JsEscapeChar, s, "\t", "\\t");
  }

  /** The escaped text holds no raw line feed, carriage return or tab, and every `'` and every
      `"` in it comes right after a backslash. */
  lemma EscapeJavaScriptSafe(s: string)
    ensures '\n' !in EscapeJavaScript(s) && '\r' !in EscapeJavaScript(s)
    ensures '\t' !in EscapeJavaScript(s)
    ensures EveryPreceded(EscapeJavaScript(s), '\'', '\\')
    ensures EveryPreceded(EscapeJavaScript(s), '"', '\\')
  {
    EscapeJavaScriptPerChar(s);
    FlatMapAvoids(JsEscapeChar, s, '\n');
    FlatMapAvoids(JsEscapeChar, s, '\r');
    FlatMapAvoids(JsEscapeChar, s, '\t');
    forall x ensures EveryPreceded(JsEscapeChar(x), '\'', '\\') { }
    FlatMapPreceded(JsEscapeChar, s, '\'', '\\');
    forall x ensures EveryPreceded(JsEscapeChar(x), '"', '\\') { }
    FlatMapPreceded(JsEscapeChar, s, '"', '\\');
  }

  /** A JavaScript reader decodes the escaped text, closed by a single quote, back to the
      input, for every input: the text cannot end the string literal it is placed in. */
  lemma EscapeJavaScriptReadBack(s: string, rest: string)
    ensures ReadQuoted(EscapeJavaScript(s) + "'" + rest, '\'') == Some((s, rest))
  {
    EscapeJavaScriptPerChar(s);
    ReadBackFlatMap(JsEscapeChar, s, '\'', rest);
  }
}
