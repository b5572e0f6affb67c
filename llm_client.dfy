/** LLMClient: endpoint and key resolution, the request body for each of the two endpoint
    dialects, and the extraction of the reply from the response text. */
module Client {
  import opened Wrappers
  import opened Text
  import opened JsonText
  import opened Messages
  import opened History
  import Registry

  /** The model key that selects the company's own endpoint and its prompt dialect; every
      other key uses the chat-completion dialect. */
  const CUSTOM_MODEL_KEY: string := "ki-assist-custom"

  /** The preference values the client reads, as the preference store returns them (the
      store's own defaults already applied). */
  datatype Preferences = Preferences(
    apiKey: string, apiUrl: string, customApiUrl: string, customApiKey: string,
    customModelName: string, maxTokens: string, temperature: string)

  /** Where a request goes and the key it carries. */
  datatype Endpoint = Endpoint(url: string, key: string)

  const MISSING_KEY_MESSAGE: string :=
    "API 키가 설정되지 않았습니다.\n\nKI Assist → Settings에서 API 키를 입력해주세요.\n또는 Window → Preferences → KI Assist에서 설정하세요."

  /** The key and URL resolution of sendChatMessage, before any connection is opened: the
      custom key uses the custom URL and prefers the custom API key when that is non-empty;
      an empty resolved key is an error. */
  function ResolveEndpoint(modelKey: string, prefs: Preferences): (r: Result<Endpoint, string>)
    ensures r.Success? ==> r.value.key != ""
    ensures r.Failure? ==> r.error == MISSING_KEY_MESSAGE
    ensures r.Failure? <==> prefs.apiKey == "" && (modelKey != CUSTOM_MODEL_KEY || prefs.customApiKey == "")
    ensures modelKey != CUSTOM_MODEL_KEY && r.Success? ==> r.value == Endpoint(prefs.apiUrl, prefs.apiKey)
    ensures modelKey == CUSTOM_MODEL_KEY && r.Success? ==>
              r.value.url == prefs.customApiUrl &&
              r.value.key == (if prefs.customApiKey != "" then prefs.customApiKey else prefs.apiKey)
  {
    var custom := modelKey == CUSTOM_MODEL_KEY;
    var url := if custom then prefs.customApiUrl else prefs.apiUrl;
    var key := if custom && prefs.customApiKey != "" then prefs.customApiKey else prefs.apiKey;
    if key == "" then Failure(MISSING_KEY_MESSAGE) else Success(Endpoint(url, key))
  }

  /** The short model keys convertModelKey maps to fixed model names. */
  const ALIASES: map<string, string> := map[
    "gpt35turbo" := "gpt-3.5-turbo", "gpt4" := "gpt-4", "claude3haiku" := "claude-3-haiku",
    "claude3sonnet" := "claude-3-sonnet", "geminipro" := "gemini-pro"]

  /** convertModelKey: the custom key becomes the configured custom model name, a short key
      its fixed name, and any other key is sent unchanged. */
  function ConvertModelKey(modelKey: string, customModelName: string): (r: string)
    ensures modelKey == CUSTOM_MODEL_KEY ==> r == customModelName
    ensures modelKey != CUSTOM_MODEL_KEY && modelKey in ALIASES ==> r == ALIASES[modelKey]
    ensures modelKey != CUSTOM_MODEL_KEY && modelKey !in ALIASES ==> r == modelKey
  {
    if modelKey == CUSTOM_MODEL_KEY then customModelName
    else if modelKey == "gpt35turbo" then "gpt-3.5-turbo"
    else if modelKey == "gpt4" then "gpt-4"
    else if modelKey == "claude3haiku" then "claude-3-haiku"
    else if modelKey == "claude3sonnet" then "claude-3-sonnet"
    else if modelKey == "geminipro" then "gemini-pro"
    else modelKey
  }

  /** The ids of the default catalog, which the chat view sends as model keys, pass through
      convertModelKey unchanged, except the custom one; every short key is mapped to the id of
      a default model. */
  lemma DefaultIdsPassThrough(customModelName: string)
    ensures var d := Registry.DefaultCatalog();
      forall i :: 1 <= i < |d| ==> ConvertModelKey(d[i].id, customModelName) == d[i].id
    ensures var d := Registry.DefaultCatalog();
      forall k :: k in ALIASES ==> exists i :: 0 <= i < |d| && d[i].id == ALIASES[k]
  {
    var d := Registry.DefaultCatalog();
    assert d[1].id == "gpt-3.5-turbo" && d[2].id == "gpt-4" && d[3].id == "claude-3-haiku";
    assert d[4].id == "claude-3-sonnet" && d[5].id == "gemini-pro";
  }

  /** getRoleForType: USER, ASSISTANT and SYSTEM map to their role; anything else is sent as
      a user message. */
  function RoleForType(kind: MessageType): (r: string)
    ensures r == "user" <==> kind == User || kind == Typing
    ensures r == "assistant" <==> kind == Assistant
    ensures r == "system" <==> kind == System
    ensures '"' !in r && '\\' !in r
  {
    match kind
    case User => "user"
    case Assistant => "assistant"
    case System => "system"
    case _ => "user"
  }

  /** The field that holds the reply: "response" for the custom dialect, "content" otherwise. */
  function FieldName(modelKey: string): string
  {
    if modelKey == CUSTOM_MODEL_KEY then "response" else "content"
  }

  /** The text `"field":` that introduces the field. */
  function FieldToken(field: string): (r: string)
    ensures |r| == |field| + 3 && r != []
  {
    "\"" + field + "\":"
  }

  // The diagnostics parseJsonResponse returns instead of a reply.
  function MissingField(field: string): string
  {
    "응답 파싱 오류: " + field + "를 찾을 수 없습니다."
  }

  function MissingValue(field: string): string
  {
    "응답 파싱 오류: " + field + " 값을 찾을 수 없습니다."
  }

  function MissingEnd(field: string): string
  {
    "응답 파싱 오류: " + field + " 끝을 찾을 수 없습니다."
  }

  /** A double quote at `i` that findJsonStringEnd accepts as the end of a string: it is the
      first character, or the character before it is not a backslash. */
  predicate ClosesString(json: string, i: int)
  {
    0 <= i < |json| && json[i] == '"' && (i == 0 || json[i - 1] != '\\')
  }

  /** The least index at or after `start` where a string closes, or -1 when there is none. */
  function JsonStringEnd(json: string, start: nat): (r: int)
    ensures r == -1 || (start <= r && ClosesString(json, r))
    ensures forall i :: start <= i && (r == -1 || i < r) ==> !ClosesString(json, i)
    decreases |json| - start
  {
    if start >= |json| then -1
    else if ClosesString(json, start) then start
    else JsonStringEnd(json, start + 1)
  }

  /** A closing quote with no closing quote before it, from `start` on, is what JsonStringEnd
      finds. */
  lemma JsonStringEndAt(json: string, start: nat, i: int)
    requires start <= i && ClosesString(json, i)
    requires forall j :: start <= j < i ==> !ClosesString(json, j)
    ensures JsonStringEnd(json, start) == i
  {
  }

  /** findJsonStringEnd: a forward scan from `start`. */
  method FindJsonStringEnd(json: string, start: nat) returns (end: int)
    ensures end == JsonStringEnd(json, start)
  {
    var i := start;
    while i < |json|
      invariant start <= i || |json| <= start
      invariant forall j :: start <= j < i ==> !ClosesString(json, j)
      decreases |json| - i
    {
      if json[i] == '"' && (i == 0 || json[i - 1] != '\\') {
        JsonStringEndAt(json, start, i);
        return i;
      }
      i := i + 1;
    }
    return -1;
  }

  /** What parseJsonResponse returns for a response text: the diagnostic for a missing field,
      a missing opening quote or a missing end, or the unescaped text between the first
      double quote after the field and the end findJsonStringEnd reports. */
  function ParseResponse(json: string, modelKey: string): string
  {
    match RawValue(json, FieldName(modelKey))
    case Success(raw) => UnescapeJson(raw)
    case Failure(diagnostic) => diagnostic
  }

  /** The text between the quotes of the field's value, still escaped, or the diagnostic. */
  function RawValue(json: string, field: string): Result<string, string>
  {
    var key := IndexOf(json, FieldToken(field), 0);
    if key == -1 then Failure(MissingField(field))
    else
      var open := IndexOf(json, "\"", key + |field| + 3);
      if open == -1 then Failure(MissingValue(field))
      else
        var close := JsonStringEnd(json, open + 1);
        if close == -1 then Failure(MissingEnd(field))
        else Success(json[open + 1..close])
  }

  /** parseJsonResponse, moving `fieldStart` from the field token to the opening quote. */
  method ParseJsonResponse(jsonResponse: string, modelKey: string) returns (reply: string)
    ensures reply == ParseResponse(jsonResponse, modelKey)
  {
    var fieldName := FieldName(modelKey);
    var fieldStart := IndexOf(jsonResponse, FieldToken(fieldName), 0);
    if fieldStart == -1 {
      return MissingField(fieldName);
    }
    fieldStart := IndexOf(jsonResponse, "\"", fieldStart + |fieldName| + 3);
    if fieldStart == -1 {
      return MissingValue(fieldName);
    }
    var fieldEnd := FindJsonStringEnd(jsonResponse, fieldStart + 1);
    if fieldEnd == -1 {
      return MissingEnd(fieldName);
    }
    var raw := jsonResponse[fieldStart + 1..fieldEnd];
    assert RawValue(jsonResponse, fieldName) == Success(raw);
    reply := UnescapeJson(raw);
  }

  /** A response whose first `"field":` token is followed by the escaped `s` in quotes. */
  function ResponseText(before: string, field: string, s: string, after: string): string
  {
    before + FieldToken(field) + "\"" + EscapeJson(s) + "\"" + after
  }

  /** Where the parts of a response text lie. */
  lemma ResponseLayout(before: string, field: string, s: string, after: string)
    ensures var json, token, e := ResponseText(before, field, s, after), FieldToken(field), EscapeJson(s);
      var open := |before| + |token|;
      |json| == open + |e| + 2 + |after| &&
      json[|before|..open] == token && json[open] == '"' &&
      json[open + 1..open + 1 + |e|] == e && json[open + 1 + |e|] == '"' &&
      json[open + 2 + |e|..] == after
  {
    var token, e := FieldToken(field), EscapeJson(s);
    var tail := "\"" + e + "\"" + after;
    Assoc(before, token, "\"");
    Assoc(before + token + "\"", e, "\"");
    Assoc(before, token + "\"", e + "\"");
    Assoc(before + token + "\"" + e + "\"", after, "");
    var json := ResponseText(before, field, s, after);
    assert json == before + token + "\"" + e + "\"" + after;
    var open := |before| + |token|;
    assert json[|before|..open] == token;
    assert json[open + 1..open + 1 + |e|] == e;
    assert json[open + 2 + |e|..] == after;
  }

  /** A quoted value in which every double quote is escaped and which does not end in a
      backslash closes at the quote after it. */
  lemma ValueCloses(json: string, open: nat, e: string)
    requires open + 1 + |e| < |json|
    requires json[open] == '"' && json[open + 1..open + 1 + |e|] == e && json[open + 1 + |e|] == '"'
    requires EveryPreceded(e, '"', '\\') && (e == [] || e[|e| - 1] != '\\')
    ensures JsonStringEnd(json, open + 1) == open + 1 + |e|
  {
    var close := open + 1 + |e|;
    forall j | open + 1 <= j < close
      ensures !ClosesString(json, j)
    {
      assert json[j] == e[j - open - 1];
      if json[j] == '"' {
        assert json[j - 1] == e[j - open - 2];
      }
    }
    assert json[close - 1] != '\\' by {
      if e == [] {
        assert json[close - 1] == json[open];
      } else {
        assert json[close - 1] == e[|e| - 1];
      }
    }
    JsonStringEndAt(json, open + 1, close);
  }

  /** The first field token at `key`, then such a quoted value: the raw value is found. */
  lemma RawValueAt(json: string, field: string, key: nat, e: string)
    requires forall i :: 0 <= i < key ==> !MatchAt(json, FieldToken(field), i)
    requires key + |field| + 4 + |e| < |json|
    requires json[key..key + |field| + 3] == FieldToken(field)
    requires json[key + |field| + 3] == '"'
    requires json[key + |field| + 4..key + |field| + 4 + |e|] == e && json[key + |field| + 4 + |e|] == '"'
    requires EveryPreceded(e, '"', '\\') && (e == [] || e[|e| - 1] != '\\')
    ensures RawValue(json, field) == Success(e)
  {
    var open := key + |field| + 3;
    IndexOfAt(json, FieldToken(field), 0, key);
    assert json[open..open + 1] == "\"";
    IndexOfAt(json, "\"", open, open);
    ValueCloses(json, open, e);
  }

  /** Extraction undoes escaping: a backslash-free reply written as the value of the first
      field token is what parseJsonResponse returns. */
  lemma ParseResponseRoundTrip(before: string, modelKey: string, s: string, after: string)
    requires '\\' !in s
    requires forall i :: 0 <= i < |before| ==>
               !MatchAt(ResponseText(before, FieldName(modelKey), s, after), FieldToken(FieldName(modelKey)), i)
    ensures ParseResponse(ResponseText(before, FieldName(modelKey), s, after), modelKey) == s
  {
    RawResponseValue(before, FieldName(modelKey), s, after);
    UnescapeEscapeJson(s);
  }

  /** The raw value found in such a response is the escaped reply. */
  lemma RawResponseValue(before: string, field: string, s: string, after: string)
    requires '\\' !in s
    requires forall i :: 0 <= i < |before| ==> !MatchAt(ResponseText(before, field, s, after), FieldToken(field), i)
    ensures RawValue(ResponseText(before, field, s, after), field) == Success(EscapeJson(s))
  {
    ResponseLayout(before, field, s, after);
    EscapeJsonSafe(s);
    EscapeJsonEndsClean(s);
    RawValueAt(ResponseText(before, field, s, after), field, |before|, EscapeJson(s));
  }


  /** A line feed between two texts that need no escaping is the only character escaped. */
  lemma EscapeLineBetween(a: string, b: string)
    requires forall x :: x in a + b ==> JsonEscapeChar(x) == [x]
    ensures EscapeJson(a + "\n" + b) == a + "\\n" + b
  {
    EscapeJsonPerChar(a + "\n" + b);
    assert a + "\n" + b == a + ("\n" + b);
    FlatMapAppend(JsonEscapeChar, a, "\n" + b);
    FlatMapAppend(JsonEscapeChar, "\n", b);
    FlatMapIdentity(JsonEscapeChar, a);
    FlatMapIdentity(JsonEscapeChar, b);
    assert FlatMap(JsonEscapeChar, "\n") == "\\n" + FlatMap(JsonEscapeChar, "");
  }

  /** An escaped line feed in the reply is decoded: `{"response":"Hello\nWorld"}` under the
      custom key yields `Hello`, a line feed, and `World`, and so for any two texts in place of
      `Hello` and `World` that need no escaping. */
  lemma ParseResponseLineFeed(a: string, b: string)
    requires forall x :: x in a + b ==> JsonEscapeChar(x) == [x]
    ensures ParseResponse("{\"response\":\"" + a + "\\n" + b + "\"}", CUSTOM_MODEL_KEY) == a + "\n" + b
  {
    var s := a + "\n" + b;
    EscapeLineBetween(a, b);
    var json := "{\"response\":\"" + a + "\\n" + b + "\"}";
    assert json == ResponseText("{", "response", s, "}");
    assert json[0] == '{';
    assert '\\' !in s by {
      assert JsonEscapeChar('\\') != ['\\'];
    }
    ParseResponseRoundTrip("{", CUSTOM_MODEL_KEY, s, "}");
  }

  /** A response without the field token gives the missing-field diagnostic, naming the field
      of the dialect the key selects. */
  lemma ParseResponseMissingField(json: string, modelKey: string)
    requires forall i :: !MatchAt(json, FieldToken(FieldName(modelKey)), i)
    ensures ParseResponse(json, modelKey) == MissingField(FieldName(modelKey))
    ensures FieldName(modelKey) == (if modelKey == CUSTOM_MODEL_KEY then "response" else "content")
  {
  }

  /** The field token with no double quote after it gives the missing-value diagnostic. */
  lemma ParseResponseMissingValue(before: string, modelKey: string, after: string)
    requires forall i :: 0 <= i < |before| ==>
               !MatchAt(before + FieldToken(FieldName(modelKey)) + after, FieldToken(FieldName(modelKey)), i)
    requires '"' !in after
    ensures ParseResponse(before + FieldToken(FieldName(modelKey)) + after, modelKey)
         == MissingValue(FieldName(modelKey))
  {
    var field := FieldName(modelKey);
    var token := FieldToken(field);
    var json := before + token + after;
    assert json[|before|..|before| + |token|] == token;
    IndexOfAt(json, token, 0, |before|);
    var from := |before| + |field| + 3;
    forall j | from <= j < |json|
      ensures json[j] != '"'
    {
      assert json[j] == after[j - from];
    }
    IndexOfAbsent(json, '"', from);
  }

  /** A reply ending in a backslash is lost: its escaped form ends in a backslash, so the
      closing quote is taken for an escaped one, and with no later quote the response
      `{"response":"…\\"}` yields the missing-end diagnostic. */
  lemma ParseResponseTrailingBackslash(a: string)
    requires forall x :: x in a ==> JsonEscapeChar(x) == [x]
    ensures ParseResponse(ResponseText("{", "response", a + "\\", "}"), CUSTOM_MODEL_KEY)
         == MissingEnd("response")
  {
    RawTrailingBackslash(a);
  }

  lemma RawTrailingBackslash(a: string)
    requires forall x :: x in a ==> JsonEscapeChar(x) == [x]
    ensures RawValue(ResponseText("{", "response", a + "\\", "}"), "response") == Failure(MissingEnd("response"))
  {
    var s := a + "\\";
    EscapeJsonTrailingBackslash(a);
    var e := EscapeJson(s);
    var json := ResponseText("{", "response", s, "}");
    var token := FieldToken("response");
    var open := 1 + |token|;
    var close := open + 1 + |e|;
    ResponseLayout("{", "response", s, "}");
    assert json[0] != token[0];
    IndexOfAt(json, token, 0, 1);
    assert json[open..open + 1] == "\"";
    IndexOfAt(json, "\"", open, open);
    forall j | open + 1 <= j < |json|
      ensures !ClosesString(json, j)
    {
      if j < close - 2 {
        assert json[j] == a[j - open - 1];
        assert JsonEscapeChar('"') != ['"'];
      } else if j < close {
        assert json[j] == e[j - open - 1];
      } else if j == close {
        assert json[j - 1] == e[|e| - 1];
      } else {
        assert json[j] == '}';
      }
    }
  }


  /** The question the custom dialect falls back to when the log holds no USER entry. */
  const GREETING: string := "안녕하세요"

  /** The instruction appended to the question: answer in Korean. */
  const ANSWER_IN_KOREAN: string := ". 한글로 답변해줘."

  /** The chat-completion dialect sends at most this many recent entries. */
  const RECENT_LIMIT: nat := 20

  /** getLastUserQuestion: the content of the USER entry nearest the end, or the greeting. */
  function LastQuestion(msgs: seq<ChatMessage>): (q: string)
    reads msgs
    ensures (forall i :: 0 <= i < |msgs| ==> msgs[i].kind != User) ==> q == GREETING
    ensures forall i ::
              (0 <= i < |msgs| && msgs[i].kind == User && forall j :: i < j < |msgs| ==> msgs[j].kind != User)
              ==> q == msgs[i].content
  {
    var i := LastIndexOfKind(msgs, User);
    if i < 0 then GREETING else msgs[i].content
  }

  /** getLastUserQuestion: a backward scan over a copy of the log. */
  method LastUserQuestion(history: ChatHistory) returns (question: string)
    ensures question == LastQuestion(history.messages)
  {
    var messages := history.GetMessages();
    var i := |messages| - 1;
    while i >= 0
      invariant -1 <= i < |messages|
      invariant forall j :: i < j < |messages| ==> messages[j].kind != User
    {
      if messages[i].kind == User {
        return messages[i].content;
      }
      i := i - 1;
    }
    return GREETING;
  }

  /** The generation parameters, spliced in verbatim, and the closing brace. */
  function Params(maxTokens: string, temperature: string): string
  {
    ",\"max_tokens\":" + (maxTokens + (",\"temperature\":" + (temperature + "}")))
  }

  /** The optional model field of the custom dialect. */
  function ModelField(actualModel: string): string
  {
    if actualModel == "" then "" else "\"model\":\"" + (EscapeJson(actualModel) + "\",")
  }

  /** The prompt field of the custom dialect and what follows it. */
  function PromptField(question: string, maxTokens: string, temperature: string): string
  {
    "\"prompt\":\"" + (EscapeJson(question + ANSWER_IN_KOREAN) + ("\"" + Params(maxTokens, temperature)))
  }

  /** createCustomJsonRequest: the optional model, the prompt, and the parameters. */
  function CustomBody(actualModel: string, question: string, maxTokens: string, temperature: string): string
  {
    "{" + (ModelField(actualModel) + PromptField(question, maxTokens, temperature))
  }

  /** What a JSON reader finds in the custom body: a model field exactly when the model name is
      non-empty, holding that name; then the prompt, which reads back as the question with
      the instruction appended; then the parameters as given. */
  lemma CustomBodyFields(actualModel: string, question: string, maxTokens: string, temperature: string)
    ensures var body := CustomBody(actualModel, question, maxTokens, temperature);
      |body| >= 10 && (body[..10] == "{\"model\":\"" <==> actualModel != "")
    ensures var body := CustomBody(actualModel, question, maxTokens, temperature);
      actualModel != "" ==>
        ReadQuoted(body[10..], '"') == Some((actualModel, "," + PromptField(question, maxTokens, temperature)))
    ensures actualModel == "" ==>
      CustomBody(actualModel, question, maxTokens, temperature) == "{" + PromptField(question, maxTokens, temperature)
    ensures ReadQuoted(PromptField(question, maxTokens, temperature)[10..], '"')
         == Some((question + ANSWER_IN_KOREAN, Params(maxTokens, temperature)))
  {
    var prompt := PromptField(question, maxTokens, temperature);
    PromptReadBack(question, maxTokens, temperature);
    if actualModel != "" {
      ModelReadBack(actualModel, prompt);
    } else {
      var body := CustomBody(actualModel, question, maxTokens, temperature);
      assert "" + prompt == prompt;
      assert body == "{" + prompt;
      assert |prompt| >= 10 && prompt[1] == 'p';
      assert body[2] == 'p' && |body| >= 10;
    }
  }

  lemma PromptReadBack(question: string, maxTokens: string, temperature: string)
    ensures ReadQuoted(PromptField(question, maxTokens, temperature)[10..], '"')
         == Some((question + ANSWER_IN_KOREAN, Params(maxTokens, temperature)))
  {
    var params := Params(maxTokens, temperature);
    var p := EscapeJson(question + ANSWER_IN_KOREAN);
    assert PromptField(question, maxTokens, temperature)[10..] == p + ("\"" + params);
    Assoc(p, "\"", params);
    EscapeJsonReadBack(question + ANSWER_IN_KOREAN, params);
  }

  lemma ModelReadBack(actualModel: string, prompt: string)
    requires actualModel != ""
    ensures var body := "{" + (ModelField(actualModel) + prompt);
      |body| >= 10 && body[..10] == "{\"model\":\"" && ReadQuoted(body[10..], '"') == Some((actualModel, "," + prompt))
  {
    var m := EscapeJson(actualModel);
    var body := "{" + (ModelField(actualModel) + prompt);
    Assoc("\"model\":\"", m + "\",", prompt);
    Assoc(m, "\",", prompt);
    ModelLiterals(m + ("\"" + ("," + prompt)), prompt);
    assert body == "{\"model\":\"" + (m + ("\"" + ("," + prompt)));
    assert body[10..] == m + ("\"" + ("," + prompt));
    Assoc(m, "\"", "," + prompt);
    EscapeJsonReadBack(actualModel, "," + prompt);
  }

  /** The model field that createCustomJsonRequest appends, regrouped as a reader meets it:
      the opening brace with the field name, and the closing quote before the comma. */
  lemma ModelLiterals(x: string, prompt: string)
    ensures "{" + ("\"model\":\"" + x) == "{\"model\":\"" + x
    ensures "\"," + prompt == "\"" + ("," + prompt)
  {
  }

  /** createCustomJsonRequest, appending to a builder. */
  method CustomJsonRequest(history: ChatHistory, actualModel: string, maxTokens: string, temperature: string)
    returns (json: string)
    ensures json == CustomBody(actualModel, LastQuestion(history.messages), maxTokens, temperature)
  {
    json := "{";
    if actualModel != "" {
      json := json + "\"model\":\"" + EscapeJson(actualModel) + "\",";
      var m := EscapeJson(actualModel);
      Assoc("{", "\"model\":\"", m);
      Assoc("{", "\"model\":\"" + m, "\",");
      Assoc("\"model\":\"", m, "\",");
    } else {
      assert "{" + "" == "{";
    }
    var question := LastUserQuestion(history);
    var lastUserQuestion := question + ANSWER_IN_KOREAN;
    ghost var head := json;
    json := json + "\"prompt\":\"" + EscapeJson(lastUserQuestion) + "\"";
    json := json + ",\"max_tokens\":" + maxTokens;
    json := json + ",\"temperature\":" + temperature;
    json := json + "}";
    Nest9(head, "\"prompt\":\"", EscapeJson(lastUserQuestion), "\"", ",\"max_tokens\":", maxTokens,
          ",\"temperature\":", temperature, "}");
    Assoc("{", ModelField(actualModel), PromptField(question, maxTokens, temperature));
  }

  /** One entry of the messages array: the role and the escaped content. */
  function Entry(m: ChatMessage): string
    reads m
  {
    "{\"role\":\"" + RoleForType(m.kind) + "\",\"content\":\"" + EscapeJson(m.content) + "\"}"
  }

  /** The entries of `ms`, separated by commas. */
  function Entries(ms: seq<ChatMessage>): string
    reads ms
  {
    if ms == [] then ""
    else if |ms| == 1 then Entry(ms[0])
    else Entry(ms[0]) + "," + Entries(ms[1..])
  }

  lemma {:induction false} EntriesSnoc(ms: seq<ChatMessage>, m: ChatMessage)
    ensures Entries(ms + [m]) == Entries(ms) + (if ms == [] then "" else ",") + Entry(m)
  {
    if |ms| >= 2 {
      assert (ms + [m])[0] == ms[0] && (ms + [m])[1..] == ms[1..] + [m];
      EntriesSnoc(ms[1..], m);
    } else if |ms| == 1 {
      assert (ms + [m])[1..] == [m];
    }
  }

  /** The (role, content) pairs the entries carry, in order. */
  function Pairs(ms: seq<ChatMessage>): (r: seq<(string, string)>)
    reads ms
    ensures |r| == |ms|
    ensures forall i :: 0 <= i < |ms| ==> r[i] == (RoleForType(ms[i].kind), ms[i].content)
  {
    if ms == [] then [] else [(RoleForType(ms[0].kind), ms[0].content)] + Pairs(ms[1..])
  }

  /** The messages field of the chat-completion dialect and what follows it. */
  function MessagesField(ms: seq<ChatMessage>, maxTokens: string, temperature: string): string
    reads ms
  {
    ",\"messages\":[" + (Entries(ms) + ("]" + Params(maxTokens, temperature)))
  }

  /** createStandardJsonRequest: the model, the messages, and the parameters. */
  function StandardBody(actualModel: string, ms: seq<ChatMessage>, maxTokens: string, temperature: string): string
    reads ms
  {
    "{" + "\"model\":\"" + EscapeJson(actualModel) + "\"," + "\"messages\":[" + Entries(ms) + "],"
        + "\"max_tokens\":" + maxTokens + "," + "\"temperature\":" + temperature + "}"
  }

  /** A reference reader for one entry `{"role":"…","content":"…"}`: the decoded role and
      content and the text after the closing brace. */
  function ReadEntry(s: string): (r: Option<(string, string, string)>)
    ensures r.Some? ==> |r.value.2| < |s|
  {
    if |s| < 9 || s[..9] != "{\"role\":\"" then None
    else match ReadQuoted(s[9..], '"')
      case None => None
      case Some((role, r1)) =>
        if |r1| < 12 || r1[..12] != ",\"content\":\"" then None
        else match ReadQuoted(r1[12..], '"')
          case None => None
          case Some((content, r2)) =>
            if |r2| < 1 || r2[0] != '}' then None else Some((role, content, r2[1..]))
  }

  /** A reference reader for one or more entries separated by commas. */
  function ReadEntryList(s: string): Option<(seq<(string, string)>, string)>
    decreases |s|
  {
    match ReadEntry(s)
    case None => None
    case Some((role, content, r)) =>
      if |r| > 0 && r[0] == ',' then
        match ReadEntryList(r[1..])
        case None => None
        case Some((more, rest)) => Some(([(role, content)] + more, rest))
      else Some(([(role, content)], r))
  }

  /** A reference reader for the body of a messages array: nothing when it closes at once,
      otherwise a list of entries. */
  function ReadEntries(s: string): Option<(seq<(string, string)>, string)>
  {
    if |s| > 0 && s[0] == ']' then Some(([], s)) else ReadEntryList(s)
  }

  /** One entry reads back as its role and content. */
  lemma EntryReadBack(m: ChatMessage, rest: string)
    ensures ReadEntry(Entry(m) + rest) == Some((RoleForType(m.kind), m.content, rest))
  {
    var role := RoleForType(m.kind);
    var e := EscapeJson(m.content);
    var r1 := ",\"content\":\"" + (e + "\"" + ("}" + rest));
    var s := Entry(m) + rest;
    assert s == "{\"role\":\"" + (role + ['"'] + r1);
    assert s[..9] == "{\"role\":\"";
    assert s[9..] == role + ['"'] + r1;
    ReadPlain(role, '"', r1);
    assert r1[..12] == ",\"content\":\"";
    assert r1[12..] == e + "\"" + ("}" + rest);
    EscapeJsonReadBack(m.content, "}" + rest);
    assert ("}" + rest)[1..] == rest;
  }

  lemma {:induction false} EntryListReadBack(ms: seq<ChatMessage>, rest: string)
    requires ms != []
    ensures ReadEntryList(Entries(ms) + "]" + rest) == Some((Pairs(ms), "]" + rest))
  {
    if |ms| == 1 {
      LastEntryReadBack(ms, rest);
    } else {
      EntryListReadBack(ms[1..], rest);
      FirstEntryReadBack(ms, rest);
    }
  }

  lemma FirstEntryReadBack(ms: seq<ChatMessage>, rest: string)
    requires |ms| >= 2
    requires ReadEntryList(Entries(ms[1..]) + "]" + rest) == Some((Pairs(ms[1..]), "]" + rest))
    ensures ReadEntryList(Entries(ms) + "]" + rest) == Some((Pairs(ms), "]" + rest))
  {
    var m := ms[0];
    var tail := "," + Entries(ms[1..]) + "]" + rest;
    EntriesFirst(ms, rest);
    EntryReadBack(m, tail);
    AfterComma(Entries(ms[1..]) + "]" + rest);
    Assoc(",", Entries(ms[1..]), "]");
    Assoc(",", Entries(ms[1..]) + "]", rest);
    ReadEntryListStep(Entries(ms) + "]" + rest, RoleForType(m.kind), m.content, tail, Pairs(ms[1..]), "]" + rest);
    PairsCons(ms);
  }

  lemma AfterComma(s: string)
    ensures ("," + s)[0] == ',' && ("," + s)[1..] == s
  {
  }

  lemma PairsCons(ms: seq<ChatMessage>)
    requires ms != []
    ensures Pairs(ms) == [(RoleForType(ms[0].kind), ms[0].content)] + Pairs(ms[1..])
  {
  }

  lemma ReadEntryListStep(s: string, role: string, content: string, r: string,
                          more: seq<(string, string)>, rest: string)
    requires ReadEntry(s) == Some((role, content, r))
    requires |r| > 0 && r[0] == ',' && ReadEntryList(r[1..]) == Some((more, rest))
    ensures ReadEntryList(s) == Some(([(role, content)] + more, rest))
  {
  }

  lemma LastEntryReadBack(ms: seq<ChatMessage>, rest: string)
    requires |ms| == 1
    ensures ReadEntryList(Entries(ms) + "]" + rest) == Some((Pairs(ms), "]" + rest))
  {
    var m := ms[0];
    EntriesFirst(ms, rest);
    EntryReadBack(m, "]" + rest);
    assert ("]" + rest)[0] == ']';
    assert Pairs(ms) == [(RoleForType(m.kind), m.content)];
  }

  /** The first entry of a closed array, and what follows it. */
  lemma EntriesFirst(ms: seq<ChatMessage>, rest: string)
    requires ms != []
    ensures Entries(ms) + "]" + rest
         == Entry(ms[0]) + (if |ms| == 1 then "]" + rest else "," + Entries(ms[1..]) + "]" + rest)
  {
    var first := Entry(ms[0]);
    if |ms| == 1 {
      assert Entries(ms) == first;
      Assoc(first, "]", rest);
    } else {
      var more := Entries(ms[1..]);
      assert Entries(ms) == first + "," + more;
      Assoc(first, ",", more);
      Assoc(first, "," + more, "]");
      Assoc(first, "," + more + "]", rest);
    }
  }

  /** The messages array reads back as one (role, content) pair per entry, in order, followed
      by its closing bracket. */
  lemma EntriesReadBack(ms: seq<ChatMessage>, rest: string)
    ensures ReadEntries(Entries(ms) + "]" + rest) == Some((Pairs(ms), "]" + rest))
  {
    if ms == [] {
      assert Entries(ms) + "]" + rest == "]" + rest;
    } else {
      assert (Entry(ms[0]) + "]")[0] == '{';
      assert (Entries(ms) + "]" + rest)[0] == '{';
      EntryListReadBack(ms, rest);
    }
  }

  /** The literal pieces createStandardJsonRequest appends (the model field, the opening of
      the messages array, the max_tokens and temperature fields), regrouped as a reader meets
      them. */
  lemma StandardLiterals(x: string, y: string, z: string, w: string)
    ensures "{" + ("\"model\":\"" + x) == "{\"model\":\"" + x
    ensures "\"," + ("\"messages\":[" + y) == "\"" + (",\"messages\":[" + y)
    ensures "]," + ("\"max_tokens\":" + z) == "]" + (",\"max_tokens\":" + z)
    ensures "," + ("\"temperature\":" + w) == ",\"temperature\":" + w
  {
  }

  /** The chat-completion body as appended, piece by piece, is the body as its reader meets
      it: the model, then the messages field. */
  lemma StandardBodySplit(e: string, entries: string, maxTokens: string, temperature: string)
    ensures "{" + "\"model\":\"" + e + "\"," + "\"messages\":[" + entries + "],"
          + "\"max_tokens\":" + maxTokens + "," + "\"temperature\":" + temperature + "}"
         == "{\"model\":\"" + (e + ("\"" + (",\"messages\":[" + (entries + ("]" + Params(maxTokens, temperature))))))
  {
    var w := temperature + "}";
    var z := maxTokens + ("," + ("\"temperature\":" + w));
    var r := entries + ("]," + ("\"max_tokens\":" + z));
    var y := r;
    var x := e + ("\"," + ("\"messages\":[" + y));
    Nest9("{" + "\"model\":\"" + e + "\"," + "\"messages\":[", entries, "],", "\"max_tokens\":", maxTokens, ",",
          "\"temperature\":", temperature, "}");
    Nest6("{", "\"model\":\"", e, "\",", "\"messages\":[", r);
    StandardLiterals(x, y, z, w);
  }

  /** What a JSON reader finds in the chat-completion body: the model name, then the messages
      field. */
  lemma StandardBodyModel(actualModel: string, ms: seq<ChatMessage>, maxTokens: string, temperature: string)
    ensures var body := StandardBody(actualModel, ms, maxTokens, temperature);
      |body| >= 10 && body[..10] == "{\"model\":\"" &&
      ReadQuoted(body[10..], '"') == Some((actualModel, MessagesField(ms, maxTokens, temperature)))
  {
    var field := MessagesField(ms, maxTokens, temperature);
    var e := EscapeJson(actualModel);
    var body := StandardBody(actualModel, ms, maxTokens, temperature);
    StandardBodySplit(e, Entries(ms), maxTokens, temperature);
    assert body[10..] == e + ("\"" + field);
    Assoc(e, "\"", field);
    EscapeJsonReadBack(actualModel, field);
  }

  /** The messages field holds an array whose entries read back as the (role, content) pairs
      of `ms`, in order, followed by the parameters as given. */
  lemma MessagesFieldEntries(ms: seq<ChatMessage>, maxTokens: string, temperature: string)
    ensures var field := MessagesField(ms, maxTokens, temperature);
      |field| >= 13 && field[..13] == ",\"messages\":[" &&
      ReadEntries(field[13..]) == Some((Pairs(ms), "]" + Params(maxTokens, temperature)))
  {
    var params := Params(maxTokens, temperature);
    var field := MessagesField(ms, maxTokens, temperature);
    assert field[13..] == Entries(ms) + ("]" + params);
    Assoc(Entries(ms), "]", params);
    EntriesReadBack(ms, params);
  }

  /** createStandardJsonRequest: the recent API entries of the log, then the body. */
  method StandardJsonRequest(history: ChatHistory, actualModel: string, maxTokens: string, temperature: string)
    returns (json: string)
    ensures json == StandardBody(actualModel, RecentWindow(ApiEligible(history.messages), RECENT_LIMIT),
                                 maxTokens, temperature)
  {
    var apiMessages := history.GetRecentApiMessages(RECENT_LIMIT);
    json := BuildStandardBody(actualModel, apiMessages, maxTokens, temperature);
  }

  /** The builder of createStandardJsonRequest: one entry per message, commas between. */
  method BuildStandardBody(actualModel: string, apiMessages: seq<ChatMessage>, maxTokens: string, temperature: string)
    returns (json: string)
    ensures json == StandardBody(actualModel, apiMessages, maxTokens, temperature)
  {
    json := "{";
    json := json + "\"model\":\"" + EscapeJson(actualModel) + "\",";
    json := json + "\"messages\":[";
    json := AppendEntries(json, apiMessages);
    json := json + "],";
    json := json + "\"max_tokens\":" + maxTokens + ",";
    json := json + "\"temperature\":" + temperature;
    json := json + "}";
  }

  /** The loop of createStandardJsonRequest: one entry per message, commas between. */
  method AppendEntries(prefix: string, ms: seq<ChatMessage>) returns (json: string)
    ensures json == prefix + Entries(ms)
  {
    json := prefix;
    for i := 0 to |ms|
      invariant json == prefix + Entries(ms[..i])
    {
      var msg := ms[i];
      var sep := if i > 0 then "," else "";
      EntriesStep(prefix, ms, i);
      json := json + sep;
      json := AppendEntry(json, msg);
    }
    assert ms[..|ms|] == ms;
  }

  /** One more entry extends the entries of a prefix of `ms`. */
  lemma EntriesStep(prefix: string, ms: seq<ChatMessage>, i: nat)
    requires i < |ms|
    ensures prefix + Entries(ms[..i]) + (if i > 0 then "," else "") + Entry(ms[i])
         == prefix + Entries(ms[..i + 1])
  {
    var done, sep := ms[..i], if i > 0 then "," else "";
    assert ms[..i + 1] == done + [ms[i]];
    assert |done| == i;
    EntriesSnoc(done, ms[i]);
    Assoc(prefix, Entries(done), sep);
    Assoc(prefix, Entries(done) + sep, Entry(ms[i]));
  }

  /** One message object of the messages array, appended field by field. */
  method AppendEntry(prefix: string, msg: ChatMessage) returns (json: string)
    ensures json == prefix + Entry(msg)
  {
    var role := RoleForType(msg.kind);
    var content := EscapeJson(msg.content);
    json := prefix + "{";
    json := json + "\"role\":\"" + role + "\",";
    json := json + "\"content\":\"" + content + "\"";
    json := json + "}";
    EntrySplit(prefix, role, content);
  }

  /** The four appends of one message object in createStandardJsonRequest (the brace, the
      role field, the content field, the closing brace) make up the entry. */
  lemma EntrySplit(prefix: string, role: string, content: string)
    ensures prefix + "{" + "\"role\":\"" + role + "\"," + "\"content\":\"" + content + "\"" + "}"
         == prefix + ("{\"role\":\"" + role + "\",\"content\":\"" + content + "\"}")
  {
    assert "{" + "\"role\":\"" == "{\"role\":\"";
    assert "\"," + "\"content\":\"" == "\",\"content\":\"";
    assert "\"" + "}" == "\"}";
  }

  /** createChatJsonRequest: the dialect is chosen by the model key alone. */
  method ChatJsonRequest(history: ChatHistory, modelKey: string, prefs: Preferences) returns (json: string)
    ensures var actualModel := ConvertModelKey(modelKey, prefs.customModelName);
      json == if modelKey == CUSTOM_MODEL_KEY
              then CustomBody(actualModel, LastQuestion(history.messages), prefs.maxTokens, prefs.temperature)
              else StandardBody(actualModel, RecentWindow(ApiEligible(history.messages), RECENT_LIMIT),
                                prefs.maxTokens, prefs.temperature)
  {
    var actualModel := ConvertModelKey(modelKey, prefs.customModelName);
    if modelKey == CUSTOM_MODEL_KEY {
      json := CustomJsonRequest(history, actualModel, prefs.maxTokens, prefs.temperature);
    } else {
      json := StandardJsonRequest(history, actualModel, prefs.maxTokens, prefs.temperature);
    }
  }
}
