/** The string escaping of LLMClient (escapeJson / unescapeJson): the escapes of section 7 of
    RFC 8259 for backslash, double quote, line feed, carriage return and tab, and nothing else. */
module JsonText {
  import opened Wrappers
  import opened Text

  /** escapeJson: backslash first, then double quote, line feed, carriage return, tab. */
  function EscapeJson(text: string): string
  {
    Replace(Replace(Replace(Replace(Replace(text, "\\", "\\\\"), "\"", "\\\""),
      "\n", "\\n"), "\r", "\\r"), "\t", "\\t")
  }

  /** unescapeJson: `\"` first, then `\\`, `\n`, `\r`, `\t`, each over the whole text. */
  function UnescapeJson(text: string): string
  {
    Replace(Replace(Replace(Replace(Replace(text, "\\\"", "\""), "\\\\", "\\"),
      "\\n", "\n"), "\\r", "\r"), "\\t", "\t")
  }

  /** The escape of one character, the reference for the replace chain of EscapeJson. */
  function JsonEscapeChar(c: char): string
  {
    if c == '\\' then "\\\\"
    else if c == '"' then "\\\""
    else if c == '\n' then "\\n"
    else if c == '\r' then "\\r"
    else if c == '\t' then "\\t"
    else [c]
  }

  // The text after each step of the escape chain, one character at a time.
  function AfterBackslash(c: char): string
  {
    if c == '\\' then "\\\\" else [c]
  }

  function AfterQuote(c: char): string
  {
    if c == '"' then "\\\"" else AfterBackslash(c)
  }

  function AfterNewline(c: char): string
  {
    if c == '\n' then "\\n" else AfterQuote(c)
  }

  function AfterReturn(c: char): string
  {
    if c == '\r' then "\\r" else AfterNewline(c)
  }

  /** The five chained replaces escape each character on its own: no replace rewrites the
      output of an earlier one. */
  lemma EscapeJsonPerChar(s: string)
    ensures EscapeJson(s) == FlatMap(JsonEscapeChar, s)
  {
    BackslashStep(s);
    QuoteStep(s);
    NewlineStep(s);
    ReturnStep(s);
    TabStep(s);
  }

  lemma BackslashStep(s: string)
    ensures Replace(s, "\\", "\\\\") == FlatMap(AfterBackslash, s)
  {
    forall x ensures TokenReplaced(Single(x), AfterBackslash(x), "\\", "\\\\") { }
    FlatMapIdentity(Single, s);
    ReplaceTokens(Single, AfterBackslash, s, "\\", "\\\\");
  }

  lemma QuoteStep(s: string)
    ensures Replace(FlatMap(AfterBackslash, s), "\"", "\\\"") == FlatMap(AfterQuote, s)
  {
    forall x ensures TokenReplaced(AfterBackslash(x), AfterQuote(x), "\"", "\\\"") { }
    ReplaceTokens(AfterBackslash, AfterQuote, s, "\"", "\\\"");
  }

  lemma NewlineStep(s: string)
    ensures Replace(FlatMap(AfterQuote, s), "\n", "\\n") == FlatMap(AfterNewline, s)
  {
    forall x ensures TokenReplaced(AfterQuote(x), AfterNewline(x), "\n", "\\n") { }
    ReplaceTokens(AfterQuote, AfterNewline, s, "\n", "\\n");
  }

  lemma ReturnStep(s: string)
    ensures Replace(FlatMap(AfterNewline, s), "\r", "\\r") == FlatMap(AfterReturn, s)
  {
    forall x ensures TokenReplaced(AfterNewline(x), AfterReturn(x), "\r", "\\r") { }
    ReplaceTokens(AfterNewline, AfterReturn, s, "\r", "\\r");
  }

  lemma TabStep(s: string)
    ensures Replace(FlatMap(AfterReturn, s), "\t", "\\t") == FlatMap(JsonEscapeChar, s)
  {
    forall x ensures TokenReplaced(AfterReturn(x), JsonEscapeChar(x), "\t", "\\t") { }
    ReplaceTokens(AfterReturn, JsonEscapeChar, s, "\t", "\\t");
  }

  /** The escaped text holds no raw line feed, carriage return or tab, and every double quote
      in it comes right after a backslash. */
  lemma EscapeJsonSafe(s: string)
    ensures '\n' !in EscapeJson(s) && '\r' !in EscapeJson(s) && '\t' !in EscapeJson(s)
    ensures EveryPreceded(EscapeJson(s), '"', '\\')
  {
    EscapeJsonPerChar(s);
    FlatMapAvoids(JsonEscapeChar, s, '\n');
    FlatMapAvoids(JsonEscapeChar, s, '\r');
    FlatMapAvoids(JsonEscapeChar, s, '\t');
    forall x ensures EveryPreceded(JsonEscapeChar(x), '"', '\\') {
    }
    FlatMapPreceded(JsonEscapeChar, s, '"', '\\');
  }

  /** A JSON reader decodes the escaped text, closed by a double quote, back to the input,
      for every input: the escaping is correct for the characters it handles. */
  lemma EscapeJsonReadBack(s: string, rest: string)
    ensures ReadQuoted(EscapeJson(s) + "\"" + rest, '"') == Some((s, rest))
  {
    EscapeJsonPerChar(s);
    ReadBackFlatMap(JsonEscapeChar, s, '"', rest);
  }

  /** The escape of a backslash-free text does not end in a backslash, so a double quote
      written after it is not taken for an escaped one. */
  lemma EscapeJsonEndsClean(s: string)
    requires '\\' !in s
    ensures var e := EscapeJson(s); e == [] || e[|e| - 1] != '\\'
  {
    EscapeJsonPerChar(s);
    if s != [] {
      FlatMapSnoc(JsonEscapeChar, s);
      var t := JsonEscapeChar(s[|s| - 1]);
      assert s[|s| - 1] in s;
      assert t != [] && t[|t| - 1] != '\\';
    }
  }

  /** A text ending in a backslash escapes to one ending in a backslash: the text before it,
      when it needs no escaping, is kept, and the backslash is doubled. */
  lemma EscapeJsonTrailingBackslash(a: string)
    requires forall x :: x in a ==> JsonEscapeChar(x) == [x]
    ensures EscapeJson(a + "\\") == a + "\\\\"
  {
    EscapeJsonPerChar(a + "\\");
    FlatMapAppend(JsonEscapeChar, a, "\\");
    FlatMapIdentity(JsonEscapeChar, a);
    assert FlatMap(JsonEscapeChar, "\\") == "\\\\" + FlatMap(JsonEscapeChar, "");
  }

  // The text after each step of the unescape chain, applied to an escaped backslash-free text.
  function QuoteRestored(c: char): string
  {
    if c == '"' then "\"" else JsonEscapeChar(c)
  }

  function NewlineRestored(c: char): string
  {
    if c == '\n' then "\n" else QuoteRestored(c)
  }

  function ReturnRestored(c: char): string
  {
    if c == '\r' then "\r" else NewlineRestored(c)
  }

  /** unescapeJson undoes escapeJson on every text without a backslash. */
  lemma UnescapeEscapeJson(s: string)
    requires '\\' !in s
    ensures UnescapeJson(EscapeJson(s)) == s
  {
    EscapeJsonPerChar(s);
    QuoteUnescapeStep(s);
    BackslashUnescapeStep(s);
    NewlineUnescapeStep(s);
    ReturnUnescapeStep(s);
    TabUnescapeStep(s);
    FlatMapIdentity(Single, s);
  }

  lemma QuoteUnescapeStep(s: string)
    requires '\\' !in s
    ensures Replace(FlatMap(JsonEscapeChar, s), "\\\"", "\"") == FlatMap(QuoteRestored, s)
  {
    forall x | x in s ensures TokenReplaced(JsonEscapeChar(x), QuoteRestored(x), "\\\"", "\"") { }
    ReplaceTokens(JsonEscapeChar, QuoteRestored, s, "\\\"", "\"");
  }

  lemma BackslashUnescapeStep(s: string)
    requires '\\' !in s
    ensures Replace(FlatMap(QuoteRestored, s), "\\\\", "\\") == FlatMap(QuoteRestored, s)
  {
    forall x | x in s ensures TokenReplaced(QuoteRestored(x), QuoteRestored(x), "\\\\", "\\") { }
    ReplaceTokens(QuoteRestored, QuoteRestored, s, "\\\\", "\\");
  }

  lemma NewlineUnescapeStep(s: string)
    requires '\\' !in s
    ensures Replace(FlatMap(QuoteRestored, s), "\\n", "\n") == FlatMap(NewlineRestored, s)
  {
    forall x | x in s ensures TokenReplaced(QuoteRestored(x), NewlineRestored(x), "\\n", "\n") { }
    ReplaceTokens(QuoteRestored, NewlineRestored, s, "\\n", "\n");
  }

  lemma ReturnUnescapeStep(s: string)
    requires '\\' !in s
    ensures Replace(FlatMap(NewlineRestored, s), "\\r", "\r") == FlatMap(ReturnRestored, s)
  {
    forall x | x in s ensures TokenReplaced(NewlineRestored(x), ReturnRestored(x), "\\r", "\r") { }
    ReplaceTokens(NewlineRestored, ReturnRestored, s, "\\r", "\r");
  }

  lemma TabUnescapeStep(s: string)
    requires '\\' !in s
    ensures Replace(FlatMap(ReturnRestored, s), "\\t", "\t") == FlatMap(Single, s)
  {
    forall x | x in s ensures TokenReplaced(ReturnRestored(x), Single(x), "\\t", "\t") { }
    ReplaceTokens(ReturnRestored, Single, s, "\\t", "\t");
  }

  /** With a backslash the round trip fails: a backslash followed by `n` comes back as a line
      feed, because `\\` is turned into `\` before `\n` is decoded. */
  lemma UnescapeEscapeBackslashN()
    ensures EscapeJson("\\n") == "\\\\n"
    ensures UnescapeJson(EscapeJson("\\n")) == "\n"
  {
    EscapeJsonPerChar("\\n");
    assert FlatMap(JsonEscapeChar, "\\n") == "\\\\" + FlatMap(JsonEscapeChar, "n");
    assert FlatMap(JsonEscapeChar, "n") == "n" + FlatMap(JsonEscapeChar, "");
    var e := "\\\\n";
    // no `\"` occurs: the text is unchanged
    assert e[..2] == "\\\\" && e[1..] == "\\n" && "\\n"[1..] == "n";
    assert Replace("n", "\\\"", "\"") == "n";
    assert Replace("\\n", "\\\"", "\"") == "\\n";
    assert Replace(e, "\\\"", "\"") == e;
    // the doubled backslash becomes one, which then starts `\n`
    assert e[2..] == "n";
    assert Replace("n", "\\\\", "\\") == "n";
    assert Replace(e, "\\\\", "\\") == "\\n";
    assert Replace("", "\\n", "\n") == "";
    assert Replace("\\n", "\\n", "\n") == "\n";
    assert Replace("\n", "\\r", "\r") == "\n";
    assert Replace("\n", "\\t", "\t") == "\n";
  }
}
