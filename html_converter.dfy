/** MarkdownToHtmlConverter: the transcript page's message markup, and the script that reloads
    the transcript into the page through its addMessage function. The formatted time of a
    message (getFormattedTime) is a parameter `fmt` from timestamps to text, and the element
    id the ASSISTANT branch draws from the clock and a random number is a parameter `ids` that
    gives the id drawn for each message. */
module Converter {
  import opened Wrappers
  import opened Text
  import opened HtmlText
  import opened Messages
  import opened History

  /** getTypeString: the type's name as the page script knows it. */
  function TypeString(kind: MessageType): (r: string)
    ensures r != [] && '\'' !in r && '\\' !in r
  {
    match kind
    case User => "user"
    case Assistant => "assistant"
    case System => "system"
    case Typing => "typing"
  }

  /** Different types have different names. */
  lemma TypeStringInjective(a: MessageType, b: MessageType)
    ensures TypeString(a) == TypeString(b) <==> a == b
  {
    if a != b {
      assert TypeString(a)[0] != TypeString(b)[0];
    }
  }

  /** getCssClassForType: the style class of a message box is its type's name after
      `message-`. */
  function CssClassForType(kind: MessageType): (r: string)
    ensures r == "message-" + TypeString(kind)
  {
    match kind
    case User => "message-user"
    case Assistant => "message-assistant"
    case System => "message-system"
    case Typing => "message-typing"
  }

  // ----- getAddMessageScript and getAllMessagesScript -----

  /** A single-quoted argument of the script: its text, the closing quote, what follows. */
  function Argument(text: string, rest: string): string
  {
    text + ("'" + rest)
  }

  /** The model argument: the escaped model label, or nothing when there is none. */
  function ModelArgument(model: Option<string>): string
  {
    match model
    case Some(name) => EscapeJavaScript(name)
    case None => ""
  }

  /** Java's text for a boolean. */
  function BooleanText(b: bool): string
  {
    if b then "true" else "false"
  }

  /** getAddMessageScript of a message with the given fields and formatted time, followed by
      `tail`: `addMessage('content', 'type', 'model', 'time', markdown);` where content and
      model are escaped for a single-quoted JavaScript string and markdown is true exactly for
      an ASSISTANT message. The pieces are grouped from the right. */
  function ScriptThen(kind: MessageType, content: string, model: Option<string>, time: string,
                      tail: string): string
  {
    "addMessage('" + Argument(EscapeJavaScript(content),
      ", '" + Argument(TypeString(kind),
      ", '" + Argument(ModelArgument(model),
      ", '" + Argument(time,
      ", " + (BooleanText(kind == Assistant) + (");" + tail))))))
  }

  /** getAddMessageScript of the message `m`, with its formatted time. */
  function AddMessageScript(m: ChatMessage, time: string): string
    reads m
  {
    ScriptThen(m.kind, m.content, m.model, time, "")
  }

  /** The statement getAllMessagesScript starts with: it empties the chat container. */
  const CLEAR_SCRIPT: string := "document.getElementById('chatContainer').innerHTML = '';"

  /** The addMessage calls for the messages, in order. */
  function Scripts(ms: seq<ChatMessage>, fmt: int -> string): string
    reads ms
  {
    if ms == [] then ""
    else ScriptThen(ms[0].kind, ms[0].content, ms[0].model, fmt(ms[0].timestamp),
      Scripts(ms[1..], fmt))
  }

  /** getAllMessagesScript: the clearing statement, then one addMessage call per message of the
      history, in history order. */
  method AllMessagesScript(history: ChatHistory, fmt: int -> string) returns (script: string)
    ensures script == CLEAR_SCRIPT + Scripts(history.messages, fmt)
  {
    script := CLEAR_SCRIPT;
    var messages := history.GetMessages();
    for i := 0 to |messages|
      invariant script + Scripts(messages[i..], fmt) == CLEAR_SCRIPT + Scripts(messages, fmt)
    {
      var line := AddMessageScript(messages[i], fmt(messages[i].timestamp));
      ScriptsStep(script, messages, fmt, i);
      script := script + line;
    }
    assert messages[|messages|..] == [];
  }

  /** The calls still to be written are the next message's call, then the calls after it. */
  lemma ScriptsStep(done: string, ms: seq<ChatMessage>, fmt: int -> string, i: nat)
    requires i < |ms|
    ensures done + Scripts(ms[i..], fmt)
         == done + AddMessageScript(ms[i], fmt(ms[i].timestamp)) + Scripts(ms[i + 1..], fmt)
  {
    var m, rest := ms[i], Scripts(ms[i + 1..], fmt);
    assert ms[i..][0] == m && ms[i..][1..] == ms[i + 1..];
    assert Scripts(ms[i..], fmt) == ScriptThen(m.kind, m.content, m.model, fmt(m.timestamp), rest);
    assert "" + rest == rest;
    ScriptTail(m.kind, m.content, m.model, fmt(m.timestamp), "", rest);
    Assoc(done, AddMessageScript(m, fmt(m.timestamp)), rest);
  }

  lemma ArgumentTail(x: string, r: string, b: string)
    ensures Argument(x, r + b) == Argument(x, r) + b
  {
    Assoc("'", r, b);
    Assoc(x, "'" + r, b);
  }

  /** Text written after a call is the tail of the call. */
  lemma ScriptTail(kind: MessageType, content: string, model: Option<string>, time: string,
                   a: string, b: string)
    ensures ScriptThen(kind, content, model, time, a + b)
         == ScriptThen(kind, content, model, time, a) + b
  {
    var flag := BooleanText(kind == Assistant);
    Assoc(");", a, b);
    Assoc(flag, ");" + a, b);
    var r4 := ", " + (flag + (");" + a));
    Assoc(", ", flag + (");" + a), b);
    ArgumentTail(time, r4, b);
    var r3 := ", '" + Argument(time, r4);
    Assoc(", '", Argument(time, r4), b);
    ArgumentTail(ModelArgument(model), r3, b);
    var r2 := ", '" + Argument(ModelArgument(model), r3);
    Assoc(", '", Argument(ModelArgument(model), r3), b);
    ArgumentTail(TypeString(kind), r2, b);
    var r1 := ", '" + Argument(TypeString(kind), r2);
    Assoc(", '", Argument(TypeString(kind), r2), b);
    ArgumentTail(EscapeJavaScript(content), r1, b);
    Assoc("addMessage('", Argument(EscapeJavaScript(content), r1), b);
  }

  // ----- a reader for the script, the partner of the builder -----

  /** One addMessage call as a JavaScript reader sees it: its five arguments. */
  datatype Call = Call(content: string, kind: string, model: string, time: string, markdown: bool)

  /** Reads the lead text, then a single-quoted string; gives its value and what follows. */
  function ReadArgument(s: string, lead: string): (r: Option<(string, string)>)
    ensures r.Some? ==> |r.value.1| < |s|
  {
    if MatchAt(s, lead, 0) then ReadQuoted(s[|lead|..], '\'') else None
  }

  /** Reads the boolean last argument and the end of the statement. */
  function ReadFlag(s: string): (r: Option<(bool, string)>)
    ensures r.Some? ==> |r.value.1| < |s|
  {
    if MatchAt(s, ", true);", 0) then Some((true, s[8..]))
    else if MatchAt(s, ", false);", 0) then Some((false, s[9..]))
    else None
  }

  /** Reads one addMessage statement; gives its arguments and what follows it. */
  function ParseCall(s: string): (r: Option<(Call, string)>)
    ensures r.Some? ==> |r.value.1| < |s|
  {
    match ReadArgument(s, "addMessage('")
    case None => None
    case Some((content, s1)) =>
      match ReadArgument(s1, ", '")
      case None => None
      case Some((kind, s2)) =>
        match ReadArgument(s2, ", '")
        case None => None
        case Some((model, s3)) =>
          match ReadArgument(s3, ", '")
          case None => None
          case Some((time, s4)) =>
            match ReadFlag(s4)
            case None => None
            case Some((markdown, rest)) => Some((Call(content, kind, model, time, markdown), rest))
  }

  /** Reads addMessage statements up to the end of the text. */
  function ParseCalls(s: string): Option<seq<Call>>
    decreases |s|
  {
    if s == [] then Some([])
    else match ParseCall(s)
      case None => None
      case Some((call, rest)) =>
        match ParseCalls(rest)
        case None => None
        case Some(calls) => Some([call] + calls)
  }

  /** Reads the clearing statement, then the addMessage statements. */
  function ParseScript(s: string): Option<seq<Call>>
  {
    if MatchAt(s, CLEAR_SCRIPT, 0) then ParseCalls(s[|CLEAR_SCRIPT|..]) else None
  }

  /** The call the page receives for a message: its content and model label unescaped (no
      label reads as the empty text), its type's name, its time, and whether it is markdown. */
  function CallOf(m: ChatMessage, fmt: int -> string): Call
    reads m
  {
    Call(m.content, TypeString(m.kind), m.model.GetOr(""), fmt(m.timestamp), m.kind == Assistant)
  }

  function CallsOf(ms: seq<ChatMessage>, fmt: int -> string): (r: seq<Call>)
    reads ms
    ensures |r| == |ms|
  {
    if ms == [] then [] else [CallOf(ms[0], fmt)] + CallsOf(ms[1..], fmt)
  }

  /** A formatted time (`HH:mm:ss`) holds neither a quote nor a backslash. */
  predicate PlainTime(time: string)
  {
    '\'' !in time && '\\' !in time
  }

  /** The page reads every argument of getAddMessageScript back as given, whatever the
      content and the model label hold: the escaping keeps each one inside its quotes. */
  lemma AddMessageScriptReadBack(kind: MessageType, content: string, model: Option<string>,
                                 time: string, tail: string)
    requires PlainTime(time)
    ensures ParseCall(ScriptThen(kind, content, model, time, tail))
         == Some((Call(content, TypeString(kind), model.GetOr(""), time, kind == Assistant), tail))
  {
    var flag := ", " + (BooleanText(kind == Assistant) + (");" + tail));
    FlagReadBack(kind == Assistant, tail);
    var r3 := ", '" + Argument(time, flag);
    ArgumentReadBack(", '", time, time, flag);
    var r2 := ", '" + Argument(ModelArgument(model), r3);
    ModelReadBack(model, r3);
    var r1 := ", '" + Argument(TypeString(kind), r2);
    ArgumentReadBack(", '", TypeString(kind), TypeString(kind), r2);
    EscapedReadBack(content, r1);
  }

  /** A plain argument after its lead text is read back as itself. */
  lemma ArgumentReadBack(lead: string, text: string, value: string, rest: string)
    requires lead != [] && text == value && PlainTime(text)
    ensures ReadArgument(lead + Argument(text, rest), lead) == Some((value, rest))
  {
    LeadMatch(lead, Argument(text, rest));
    Assoc(text, "'", rest);
    ReadPlain(text, '\'', rest);
  }

  /** The model argument is read back as the label, or as the empty text when there is none. */
  lemma ModelReadBack(model: Option<string>, rest: string)
    ensures ReadArgument(", '" + Argument(ModelArgument(model), rest), ", '")
         == Some((model.GetOr(""), rest))
  {
    LeadMatch(", '", Argument(ModelArgument(model), rest));
    Assoc(ModelArgument(model), "'", rest);
    match model
    case Some(name) => EscapeJavaScriptReadBack(name, rest);
    case None => ReadPlain("", '\'', rest);
  }

  /** The escaped content, first argument of the call, is read back as the content. */
  lemma EscapedReadBack(content: string, rest: string)
    ensures ParseCall("addMessage('" + Argument(EscapeJavaScript(content), rest))
         == match ReadArgument(rest, ", '")
            case None => None
            case Some((kind, s2)) =>
              match ReadArgument(s2, ", '")
              case None => None
              case Some((model, s3)) =>
                match ReadArgument(s3, ", '")
                case None => None
                case Some((time, s4)) =>
                  match ReadFlag(s4)
                  case None => None
                  case Some((markdown, tail)) => Some((Call(content, kind, model, time, markdown), tail))
  {
    LeadMatch("addMessage('", Argument(EscapeJavaScript(content), rest));
    Assoc(EscapeJavaScript(content), "'", rest);
    EscapeJavaScriptReadBack(content, rest);
  }

  /** The last argument and the end of the statement are read back. */
  lemma FlagReadBack(b: bool, tail: string)
    ensures ReadFlag(", " + (BooleanText(b) + (");" + tail))) == Some((b, tail))
  {
    var s := ", " + (BooleanText(b) + (");" + tail));
    if b {
      assert s[..8] == ", true);" && s[8..] == tail;
    } else {
      assert s[..9] == ", false);" && s[9..] == tail;
      assert s[2] != 't';
    }
  }

  /** getAllMessagesScript is read by the page as the clearing statement followed by one call
      per history message, in history order, each with the message's own arguments. */
  lemma AllMessagesScriptReadBack(ms: seq<ChatMessage>, fmt: int -> string)
    requires forall t :: PlainTime(fmt(t))
    ensures ParseScript(CLEAR_SCRIPT + Scripts(ms, fmt)) == Some(CallsOf(ms, fmt))
  {
    LeadMatch(CLEAR_SCRIPT, Scripts(ms, fmt));
    ScriptsReadBack(ms, fmt);
  }

  lemma {:induction false} ScriptsReadBack(ms: seq<ChatMessage>, fmt: int -> string)
    requires forall t :: PlainTime(fmt(t))
    ensures ParseCalls(Scripts(ms, fmt)) == Some(CallsOf(ms, fmt))
  {
    if ms != [] {
      var m := ms[0];
      assert PlainTime(fmt(m.timestamp));
      AddMessageScriptReadBack(m.kind, m.content, m.model, fmt(m.timestamp), Scripts(ms[1..], fmt));
      ScriptsReadBack(ms[1..], fmt);
    }
  }

  // ----- convertMessageToHTML -----

  /** The placeholder shown for a TYPING message. */
  const TYPING_TEXT: string := "응답을 생성 중입니다..."

  /** The opening of the model tag, shown above an ASSISTANT message with a model label. */
  const MODEL_TAG_OPEN: string := "<div class='model-tag'>"

  /** The opening of the time line that ends every message box. */
  const TIME_OPEN: string := "<div class='timestamp'>"

  /** The opening of a message box, with the style class of its type. */
  function OpenTag(kind: MessageType): string
  {
    "<div class='message " + (CssClassForType(kind) + "'>")
  }

  /** The model tag: present only for an ASSISTANT message that has a model label. */
  function ModelTag(kind: MessageType, model: Option<string>): string
  {
    if kind == Assistant && model.Some? then MODEL_TAG_OPEN + (EscapeHtml(model.value) + "</div>")
    else ""
  }

  /** The USER and SYSTEM body: each character escaped for HTML, a line feed becoming a `<br>`
      line break. LineBodyPerChar shows this is the content escaped by escapeHtml and then
      passed through the replacement of each line feed by `<br>`. */
  function LineBody(content: string): string
  {
    FlatMap(HtmlLineChar, content)
  }

  /** The ASSISTANT body: the escaped content in the markdown element `id`, then the script
      that renders it. */
  function MarkdownBody(content: string, id: string): string
  {
    "<div id='" + (id + ("' data-markdown='true'>" + (EscapeHtml(content) + ("</div>" +
      MarkdownScript(id)))))
  }

  /** The script that renders the markdown of the element `id`, and shows its text with line
      breaks when the markdown parser fails: its lines written one after another. */
  function MarkdownScript(id: string): string
  {
    Joined(RenderLines(id))
  }

  /** The lines of the rendering script, the id placed in its lookup of the element. */
  function RenderLines(id: string): seq<string>
  {
    ["<script>",
     "(function() {",
     "  var elem = document.getElementById('" + id + "');",
     "  if (elem && typeof marked !== 'undefined') {",
     "    try {",
     "      elem.innerHTML = marked.parse(elem.textContent || elem.innerText);",
     "    } catch (e) {",
     "      console.log('Markdown parsing error:', e);",
     "      elem.innerHTML = elem.innerHTML.replace(/\\n/g, '<br>');",
     "    }",
     "  }",
     "})();",
     "</script>"]
  }

  /** The body of a message box: the TYPING placeholder, the ASSISTANT markdown body, or the
      USER and SYSTEM line body. */
  function MessageBody(kind: MessageType, content: string, id: string): string
  {
    match kind
    case Typing => TYPING_TEXT
    case Assistant => MarkdownBody(content, id)
    case _ => LineBody(content)
  }

  /** convertMessageToHTML of a message with the given fields, formatted time and element id:
      the box opening, the model tag, the body, the time line and the box closing, grouped
      from the right. */
  function MessageHtml(kind: MessageType, content: string, model: Option<string>, time: string,
                       id: string): string
  {
    OpenTag(kind) + (ModelTag(kind, model) + (MessageBody(kind, content, id) +
      (TIME_OPEN + (time + "</div></div>"))))
  }

  /** convertMessageToHTML of the message `m`. */
  function Box(m: ChatMessage, fmt: int -> string, ids: ChatMessage -> string): string
    reads m
  {
    MessageHtml(m.kind, m.content, m.model, fmt(m.timestamp), ids(m))
  }

  /** The box opening names the type after `message message-`. */
  lemma OpenTagType(kind: MessageType)
    ensures OpenTag(kind) == "<div class='message " + ("message-" + (TypeString(kind) + "'>"))
  {
    Assoc("message-", TypeString(kind), "'>");
  }

  /** The box holds a model tag: the model tag opens right after the box opening. */
  predicate HasModelTag(html: string, kind: MessageType)
  {
    MatchAt(html, MODEL_TAG_OPEN, |OpenTag(kind)|)
  }

  /** A model tag is shown exactly for an ASSISTANT message with a model label. */
  lemma ModelTagShown(kind: MessageType, content: string, model: Option<string>, time: string,
                      id: string)
    ensures HasModelTag(MessageHtml(kind, content, model, time, id), kind)
        <==> kind == Assistant && model.Some?
  {
    var tail := TIME_OPEN + (time + "</div></div>");
    var body := MessageBody(kind, content, id);
    var rest := ModelTag(kind, model) + (body + tail);
    MatchShift(OpenTag(kind), rest, MODEL_TAG_OPEN);
    if kind == Assistant && model.Some? {
      var tagged := EscapeHtml(model.value) + "</div>";
      Assoc(MODEL_TAG_OPEN, tagged, body + tail);
      LeadMatch(MODEL_TAG_OPEN, tagged + (body + tail));
    } else {
      assert rest == body + tail;
      LeadMatch(TIME_OPEN, time + "</div></div>");
      NoModelTagBody(kind, content, id, tail);
    }
  }

  /** No body begins like the model tag. */
  lemma NoModelTagBody(kind: MessageType, content: string, id: string, tail: string)
    requires MatchAt(tail, TIME_OPEN, 0)
    ensures !MatchAt(MessageBody(kind, content, id) + tail, MODEL_TAG_OPEN, 0)
  {
    match kind
    case Typing =>
      MismatchLead(TYPING_TEXT, tail, MODEL_TAG_OPEN, 0);
    case Assistant =>
      MarkdownNoModelTag(content, id, tail);
    case _ =>
      LineBodyNoModelTag(content, tail);
  }

  lemma MarkdownNoModelTag(content: string, id: string, tail: string)
    ensures !MatchAt(MarkdownBody(content, id) + tail, MODEL_TAG_OPEN, 0)
  {
    var lead := "<div id='";
    var x := id + ("' data-markdown='true'>" + (EscapeHtml(content) + ("</div>" +
      MarkdownScript(id))));
    Assoc(lead, x, tail);
    MismatchLead(lead, x + tail, MODEL_TAG_OPEN, 5);
  }

  lemma LineBodyNoModelTag(content: string, tail: string)
    requires MatchAt(tail, TIME_OPEN, 0)
    ensures !MatchAt(LineBody(content) + tail, MODEL_TAG_OPEN, 0)
  {
    var body := LineBody(content);
    var s := body + tail;
    LineBodyTags(content);
    if body == [] {
      assert s == tail && tail[12] == TIME_OPEN[12];
      Mismatch(s, MODEL_TAG_OPEN, 12);
    } else if body[0] == '<' {
      assert s[1] == body[1];
      Mismatch(s, MODEL_TAG_OPEN, 1);
    } else {
      Mismatch(s, MODEL_TAG_OPEN, 0);
    }
  }

  /** The image of one character in the line body. */
  function HtmlLineChar(c: char): string
  {
    if c == '\n' then "<br>" else HtmlEscapeChar(c)
  }

  /** Escaping the content for HTML and then replacing each line feed by `<br>` gives the line
      body. */
  lemma LineBodyPerChar(content: string)
    ensures Replace(EscapeHtml(content), "\n", "<br>") == LineBody(content)
  {
    EscapeHtmlPerChar(content);
    forall x ensures TokenReplaced(HtmlEscapeChar(x), HtmlLineChar(x), "\n", "<br>") { }
    ReplaceTokens(HtmlEscapeChar, HtmlLineChar, content, "\n", "<br>");
  }

  /** The line body holds no raw line feed or quote. */
  lemma LineBodyPlain(content: string)
    ensures '\n' !in LineBody(content)
    ensures '"' !in LineBody(content) && '\'' !in LineBody(content)
  {
    FlatMapAvoids(HtmlLineChar, content, '\n');
    FlatMapAvoids(HtmlLineChar, content, '"');
    FlatMapAvoids(HtmlLineChar, content, '\'');
  }

  /** The only tags of the line body are `<br>` line breaks. */
  lemma LineBodyTags(content: string)
    ensures EveryFollowed(LineBody(content), '<', 'b')
  {
    forall x ensures EveryFollowed(HtmlLineChar(x), '<', 'b') {
      if x != '\n' {
        assert '<' !in HtmlEscapeChar(x);
      }
    }
    FlatMapFollowed(HtmlLineChar, content, '<', 'b');
  }

  /** The line body is displayed as the content itself, line breaks included. */
  lemma LineBodyDisplayed(content: string)
    ensures Displayed(LineBody(content)) == content
  {
    DisplayedLines(content);
  }

  lemma {:induction false} DisplayedLines(s: string)
    ensures Displayed(FlatMap(HtmlLineChar, s)) == s
  {
    if s != [] {
      DisplayedLines(s[1..]);
      if s[0] == '\n' {
        DisplayedMarkup("<br>", FlatMap(HtmlLineChar, s[1..]));
      } else {
        DisplayedImage(s[0], FlatMap(HtmlLineChar, s[1..]));
      }
      assert s == [s[0]] + s[1..];
    }
  }

  /** A TYPING box shows the placeholder whatever the content, the model label or the id. */
  lemma TypingIgnoresContent(c1: string, c2: string, m1: Option<string>, m2: Option<string>,
                             time: string, id1: string, id2: string)
    ensures MessageHtml(Typing, c1, m1, time, id1) == MessageHtml(Typing, c2, m2, time, id2)
    ensures MessageHtml(Typing, c1, m1, time, id1)
         == OpenTag(Typing) + (TYPING_TEXT + (TIME_OPEN + (time + "</div></div>")))
  {
    var rest := TYPING_TEXT + (TIME_OPEN + (time + "</div></div>"));
    assert ModelTag(Typing, m1) == "" && ModelTag(Typing, m2) == "";
    assert "" + rest == rest;
  }

  // ----- convertChatToHTML: the chat container -----

  /** The opening of the chat container. */
  const CONTAINER_OPEN: string := "<div class='chat-container' id='chatContainer'>"

  /** The text of the box that opens an empty transcript. */
  const BANNER_TEXT: string := "KI Assist 채팅이 시작되었습니다. 무엇이든 물어보세요!"

  /** The box that opens an empty transcript: a SYSTEM-styled box with the start text. */
  function Banner(): string
  {
    OpenTag(System) + (BANNER_TEXT + "</div>")
  }

  /** The box of each message, in order. */
  function Boxes(ms: seq<ChatMessage>, fmt: int -> string, ids: ChatMessage -> string)
    : seq<string>
    reads ms
  {
    seq(|ms|, k requires 0 <= k < |ms| reads ms => Box(ms[k], fmt, ids))
  }

  /** The content of the chat container: the banner when there is no message, then the boxes
      of the messages. */
  function ChatSection(ms: seq<ChatMessage>, fmt: int -> string, ids: ChatMessage -> string)
    : string
    reads ms
  {
    (if ms == [] then Banner() else "") + Joined(Boxes(ms, fmt, ids))
  }

  /** The chat container of convertChatToHTML: the banner exactly when the history is empty,
      then one box per message, in history order. */
  method ChatContainerHtml(history: ChatHistory, fmt: int -> string, ids: ChatMessage -> string)
    returns (html: string)
    ensures html == CONTAINER_OPEN + ChatSection(history.messages, fmt, ids) + "</div>"
  {
    html := CONTAINER_OPEN;
    var messages := history.GetMessages();
    var boxes := Boxes(messages, fmt, ids);
    if history.IsEmpty() {
      html := html + Banner();
    } else {
      assert CONTAINER_OPEN + "" == CONTAINER_OPEN;
    }
    ghost var head := html;
    assert boxes[..0] == [];
    for i := 0 to |messages|
      invariant html == head + Joined(boxes[..i])
    {
      JoinedSnoc(head, boxes, i);
      html := html + boxes[i];
    }
    assert boxes[..|messages|] == boxes;
    Assoc(CONTAINER_OPEN, if messages == [] then Banner() else "", Joined(boxes));
    html := html + "</div>";
  }

  /** The container content begins with the banner exactly when the history is empty: no
      message box begins like it. */
  lemma BannerIffEmpty(ms: seq<ChatMessage>, fmt: int -> string, ids: ChatMessage -> string)
    ensures MatchAt(ChatSection(ms, fmt, ids), Banner(), 0) <==> ms == []
  {
    if ms == [] {
      LeadMatch(Banner(), "");
    } else {
      SectionFirst(ms, fmt, ids);
      BoxNotBanner(ms[0], fmt, ids, Joined(Boxes(ms, fmt, ids)[1..]));
    }
  }

  /** A container content with messages starts with the first message's box. */
  lemma SectionFirst(ms: seq<ChatMessage>, fmt: int -> string, ids: ChatMessage -> string)
    requires ms != []
    ensures ChatSection(ms, fmt, ids) == Box(ms[0], fmt, ids) + Joined(Boxes(ms, fmt, ids)[1..])
  {
    var boxes := Boxes(ms, fmt, ids);
    assert boxes[0] == Box(ms[0], fmt, ids);
    assert "" + Joined(boxes) == Joined(boxes);
  }

  lemma BoxNotBanner(m: ChatMessage, fmt: int -> string, ids: ChatMessage -> string, after: string)
    ensures !MatchAt(Box(m, fmt, ids) + after, Banner(), 0)
  {
    NotBanner(m.kind, m.content, m.model, fmt(m.timestamp), ids(m), after);
  }

  /** No message box, whatever follows it, begins with the banner. */
  lemma NotBanner(kind: MessageType, content: string, model: Option<string>, time: string,
                  id: string, after: string)
    ensures !MatchAt(MessageHtml(kind, content, model, time, id) + after, Banner(), 0)
  {
    var tail := TIME_OPEN + (time + "</div></div>");
    var inner := ModelTag(kind, model) + (MessageBody(kind, content, id) + tail);
    Assoc(OpenTag(kind), inner, after);
    if kind == System {
      SystemNotBanner(content, tail, after);
      MatchShiftHead(OpenTag(System), inner + after, BANNER_TEXT + "</div>");
    } else {
      OtherNotBanner(kind, inner + after);
    }
  }

  /** A SYSTEM box's body and time line do not begin with the banner's text and closing. */
  lemma SystemNotBanner(content: string, tail: string, after: string)
    requires MatchAt(tail, TIME_OPEN, 0)
    ensures !MatchAt(ModelTag(System, None) + (MessageBody(System, content, "") + tail) + after,
                     BANNER_TEXT + "</div>", 0)
  {
    assert ModelTag(System, None) + (MessageBody(System, content, "") + tail) + after
        == LineBody(content) + (tail + after);
    LineBodyTags(content);
    var t := tail + after;
    assert t[0] == TIME_OPEN[0] && t[1] == TIME_OPEN[1];
    NoEarlyClose(LineBody(content), t, BANNER_TEXT);
  }

  /** A box of another type differs from the banner in its style class. */
  lemma OtherNotBanner(kind: MessageType, inner: string)
    requires kind != System
    ensures !MatchAt(OpenTag(kind) + inner, Banner(), 0)
  {
    OpenTagType(kind);
    OpenTagType(System);
    var s, p := OpenTag(kind) + inner, |"<div class='message message-"|;
    assert s[p] == TypeString(kind)[0];
    assert Banner()[p] == TypeString(System)[0];
    TypeStringInjective(kind, System);
    Mismatch(s, Banner(), p);
  }

  /** A text whose only tags are `<br>`, followed by another tag, does not begin with a
      tag-free text closed by `</div>`. */
  lemma NoEarlyClose(b: string, t: string, q: string)
    requires EveryFollowed(b, '<', 'b')
    requires |t| >= 2 && t[0] == '<' && t[1] == 'd'
    requires '<' !in q
    ensures !MatchAt(b + t, q + "</div>", 0)
  {
    var s, p, pat := b + t, |q|, q + "</div>";
    assert pat[p] == '<' && pat[p + 1] == '/';
    if p < |b| {
      if b[p] == '<' {
        assert s[p + 1] == b[p + 1] == 'b';
        Mismatch(s, pat, p + 1);
      } else {
        Mismatch(s, pat, p);
      }
    } else if p == |b| {
      assert s[p + 1] == t[1];
      Mismatch(s, pat, p + 1);
    } else {
      assert s[|b|] == '<' && pat[|b|] == q[|b|];
      Mismatch(s, pat, |b|);
    }
  }
}
