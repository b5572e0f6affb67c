# KI Assist chat core in Dafny

KI Assist is an IDE side-panel chat assistant. This project models its core, class by class:

- **The conversation log** (`ChatHistory` over `ChatMessage`). The log holds at most 100 entries. Adding a message first removes the latest TYPING placeholder. The log also gives an "API" view of its USER and ASSISTANT entries and a window of the last N of them.
- **The HTTP client's text handling** (`LLMClient`):
  - the resolution of the endpoint URL and API key;
  - the mapping of model keys and roles;
  - the JSON escaping and unescaping;
  - the two request bodies, the single-prompt body of the company's own endpoint (model key `ki-assist-custom`) and the chat-completion `messages` body;
  - the extraction of the reply from a response by scanning its text.
- **The model registry** (`ModelConfigManager` over `ModelConfig`). An ordered list of model configurations with lookups, an enabled filter, and append, replace and remove. It installs six default models, loads a persisted catalog with per-field defaults, and saves the catalog after each change.
- **The transcript renderer** (`MarkdownToHtmlConverter`):
  - HTML and JavaScript string escaping;
  - the type names and style classes;
  - the `addMessage(...)` calls that reload the transcript;
  - the HTML box of one message;
  - the chat container with its empty-history banner.

Modules follow the classes:

| module | file | contents |
|---|---|---|
| `Wrappers` | `wrappers.dfy` | `Option`, which stands for a reference that may be null, and `Result`, which stands for a value or a thrown exception |
| `Text` | `text.dfy` | Java's `String.replace` and `indexOf`, a per-character map `FlatMap`, and a reference reader `ReadQuoted` for a quoted string literal with backslash escapes |
| `Messages` | `chat_message.dfy` | the `ChatMessage` class |
| `History` | `chat_history.dfy` | the `ChatHistory` class and the functions that specify it |
| `Configs` | `model_config.dfy` | the `ModelConfig` class and the persisted record of one model |
| `Registry` | `model_registry.dfy` | the `ModelRegistry` class, which is `ModelConfigManager` |
| `JsonText` | `json_text.dfy` | `escapeJson` and `unescapeJson` |
| `Client` | `llm_client.dfy` | the rest of `LLMClient` |
| `HtmlText` | `html_text.dfy` | `escapeHtml` and `escapeJavaScript` |
| `Converter` | `html_converter.dfy` | the rest of `MarkdownToHtmlConverter` |

Each chained-replace escaper is proved equal to a per-character escape. Each escaper then has a partner:

- A reader that decodes the escaped text back to the input (`EscapeJsonReadBack`, `EscapeJavaScriptReadBack`).
- An HTML display function that undoes the entities (`DisplayedEscapeHtml`).
- For JSON, the source's own `unescapeJson` (`UnescapeEscapeJson`).

Each text builder is proved against a reader that parses the text back:

- the custom and chat-completion request bodies;
- the `addMessage` script.

Each imperative method is proved against a specification function, and that function's properties are proved as lemmas.

Where the design description and the code disagree, this model follows the code:

- **The JSON round trip.** The design promises `unescape(escape(s)) == s` for every text. In the code, `unescapeJson` decodes `\"` before `\\` and `\\` before `\n`, so the round trip holds only for text without a backslash (`UnescapeEscapeJson`). The text `\n` (a backslash, then `n`) comes back as a line feed (`UnescapeEscapeBackslashN`).
- **The closing quote.** The design says the closing quote is the first `"` not preceded by an *unescaped* backslash. The code only checks that the character before it is not a backslash. A reply that ends in a backslash therefore loses its closing quote (`ParseResponseTrailingBackslash`).

## Model

| member | source | states |
|---|---|---|
| `Messages.ChatMessage.constructor` | src/com/kiassist/core/ChatMessage.java:24-28 | type, content and timestamp as given; no model label |
| `Messages.ChatMessage.WithModel` | src/com/kiassist/core/ChatMessage.java:30-33 | type, content and timestamp as given, and the model label as given |
| `Messages.ChatMessage.SetContent` | src/com/kiassist/core/ChatMessage.java:42 | the content becomes the argument and nothing else changes |
| `Messages.ChatMessage.SetModel` | src/com/kiassist/core/ChatMessage.java:43 | the model label becomes the argument and nothing else changes |
| `History.LastIndexOfKind` | src/com/kiassist/core/ChatHistory.java:39-40 | the index of the last entry of a kind, or -1 exactly when there is none |
| `History.WithoutLastTypingEffect` | src/com/kiassist/core/ChatHistory.java:38-45 | with no TYPING entry nothing changes; otherwise exactly one TYPING entry goes, the length drops by one, and the rest keep their order |
| `History.AddMessageEffect` | src/com/kiassist/core/ChatHistory.java:23-33 | after addMessage the log holds at most 100 entries, the new message is last, and there is one TYPING entry exactly when the new message is one |
| `History.AddMessageKeepsOrder` | src/com/kiassist/core/ChatHistory.java:23-45 | the new log is a subsequence of the old log plus the message, and it loses at most one entry |
| `History.TypingReplacedByReply` | src/com/kiassist/core/ChatHistory.java:23-45 | USER, then TYPING, then ASSISTANT leaves exactly [USER, ASSISTANT] |
| `History.ApiEligible` | src/com/kiassist/core/ChatHistory.java:64-75 | holds only USER and ASSISTANT entries of the log, and every such entry |
| `History.ApiEligibleOrdered` | src/com/kiassist/core/ChatHistory.java:64-75 | the API view keeps the log's order |
| `History.RecentWindow` | src/com/kiassist/core/ChatHistory.java:80-88 | the suffix of length min(n, size) |
| `History.ChatHistory.constructor` | src/com/kiassist/core/ChatHistory.java:16-18 | an empty log, which meets the bound and placeholder invariant |
| `History.ChatHistory.RemoveTypingIndicator` | src/com/kiassist/core/ChatHistory.java:38-45 | the backward scan removes the last TYPING entry, if any |
| `History.ChatHistory.AddMessage` | src/com/kiassist/core/ChatHistory.java:23-33 | the log becomes AfterAdd of the old log and keeps at most 100 entries and at most one TYPING entry |
| `History.ChatHistory.GetMessages` | src/com/kiassist/core/ChatHistory.java:50-52 | the same entries in the same order |
| `History.ChatHistory.Clear` | src/com/kiassist/core/ChatHistory.java:57-59 | the log is empty and the invariant holds |
| `History.ChatHistory.GetApiMessages` | src/com/kiassist/core/ChatHistory.java:64-75 | the loop's result is the API view of the log |
| `History.ChatHistory.GetRecentApiMessages` | src/com/kiassist/core/ChatHistory.java:80-88 | the last maxMessages entries of the API view, or all of them |
| `History.ChatHistory.Size` | src/com/kiassist/core/ChatHistory.java:93-95 | the number of entries |
| `History.ChatHistory.IsEmpty` | src/com/kiassist/core/ChatHistory.java:100-102 | holds exactly when the size is 0 |
| `History.ChatHistory.LastMessage` | src/com/kiassist/core/ChatHistory.java:107-112 | none exactly when the size is 0, otherwise the last entry |
| `Configs.ModelConfig.constructor` | src/com/kiassist/core/ModelConfig.java:17-21 | enabled, 1000 tokens, temperature 0.7 |
| `Configs.ModelConfig.Create` | src/com/kiassist/core/ModelConfig.java:23-31 | the same defaults, the five values as given, and model name = name |
| `Configs.ModelConfig.SetId` | src/com/kiassist/core/ModelConfig.java:38-40 | only the id changes, to the argument |
| `Configs.ModelConfig.SetName` | src/com/kiassist/core/ModelConfig.java:46-48 | only the name changes, to the argument |
| `Configs.ModelConfig.SetDisplayName` | src/com/kiassist/core/ModelConfig.java:54-56 | only the display name changes, to the argument |
| `Configs.ModelConfig.SetApiUrl` | src/com/kiassist/core/ModelConfig.java:62-64 | only the URL changes, to the argument |
| `Configs.ModelConfig.SetApiKey` | src/com/kiassist/core/ModelConfig.java:70-72 | only the key changes, to the argument |
| `Configs.ModelConfig.SetModelName` | src/com/kiassist/core/ModelConfig.java:78-80 | only the model name changes, to the argument |
| `Configs.ModelConfig.SetMaxTokens` | src/com/kiassist/core/ModelConfig.java:86-88 | only maxTokens changes, to any int, with no validation |
| `Configs.ModelConfig.SetTemperature` | src/com/kiassist/core/ModelConfig.java:94-96 | only the temperature changes, to any value, with no validation |
| `Configs.ModelConfig.SetEnabled` | src/com/kiassist/core/ModelConfig.java:102-104 | only the enabled flag changes, to the argument |
| `Configs.FromRecord` | src/com/kiassist/core/ModelConfigManager.java:107-115 | for each of the nine fields: a missing one defaults to "" (the six strings), 1000, 0.7 or true, and a present one is taken as it is |
| `Configs.RecordRoundTrip` | src/com/kiassist/core/ModelConfigManager.java:151-160 | a saved record loads back as the same nine values |
| `Configs.EmptyRecordDefaults` | src/com/kiassist/core/ModelConfigManager.java:106-115 | a record with no fields loads as the no-argument constructor's defaults |
| `Registry.DefaultCatalogShape` | src/com/kiassist/core/ModelConfigManager.java:59-91 | six defaults with distinct ids, `ki-assist-custom` first, each built by the five-argument constructor |
| `Registry.SaveLoadRoundTrip` | src/com/kiassist/core/ModelConfigManager.java:136-163 | what saveModels writes loads back as the same settings, in order |
| `Registry.FirstIndex` | src/com/kiassist/core/ModelConfigManager.java:196-203 | the first index whose field matches, or -1 exactly when none does |
| `Registry.EnabledOf` | src/com/kiassist/core/ModelConfigManager.java:186-194 | holds only enabled models of the list, and every one of them |
| `Registry.EnabledOfOrdered` | src/com/kiassist/core/ModelConfigManager.java:186-194 | the filter keeps the list order: its result is the list with the disabled models deleted |
| `Registry.EnabledOfCount` | src/com/kiassist/core/ModelConfigManager.java:186-194 | the filter keeps one model per enabled position of the list |
| `Registry.RemovedIdAbsent` | src/com/kiassist/core/ModelConfigManager.java:220-228 | with unique ids, a lookup after the removal finds nothing |
| `Registry.ModelRegistry.constructor` | src/com/kiassist/core/ModelConfigManager.java:38-54 | a parsed catalog is loaded with defaults and not rewritten; a missing or unreadable one installs and saves the six defaults |
| `Registry.ModelRegistry.InitializeDefaultModels` | src/com/kiassist/core/ModelConfigManager.java:59-91 | the list becomes exactly the six defaults, then it is saved |
| `Registry.ModelRegistry.NewDefaults` | src/com/kiassist/core/ModelConfigManager.java:62-88 | six new models whose settings are the default catalog |
| `Registry.ModelRegistry.ParseModels` | src/com/kiassist/core/ModelConfigManager.java:96-122 | one new model per record, in order, with defaulted fields; the saved catalog is untouched |
| `Registry.ModelRegistry.ParseModel` | src/com/kiassist/core/ModelConfigManager.java:106-115 | a new model whose settings are the defaulted record |
| `Registry.ModelRegistry.SaveModels` | src/com/kiassist/core/ModelConfigManager.java:136-178 | the saved catalog is the record of each model, in list order |
| `Registry.ModelRegistry.RecordsOf` | src/com/kiassist/core/ModelConfigManager.java:138-163 | the loop builds the record of each model, in order |
| `Registry.ModelRegistry.GetAllModels` | src/com/kiassist/core/ModelConfigManager.java:182-184 | the same models in the same order |
| `Registry.ModelRegistry.GetEnabledModels` | src/com/kiassist/core/ModelConfigManager.java:186-194 | the enabled models, as the filter `EnabledOf` gives them: in list order (`EnabledOfOrdered`) and one per enabled position (`EnabledOfCount`) |
| `Registry.ModelRegistry.GetModelById` | src/com/kiassist/core/ModelConfigManager.java:196-203 | the first model with the id, or none exactly when no model has it |
| `Registry.ModelRegistry.GetModelByDisplayName` | src/com/kiassist/core/ModelConfigManager.java:238-245 | the first model with the display name, or none exactly when no model has it |
| `Registry.ModelRegistry.AddModel` | src/com/kiassist/core/ModelConfigManager.java:205-208 | the model is appended, earlier entries unchanged, and the list is saved |
| `Registry.ModelRegistry.UpdateModel` | src/com/kiassist/core/ModelConfigManager.java:210-218 | only the first entry with the id is replaced, in place, and the list saved; an unknown id changes nothing and saves nothing |
| `Registry.ModelRegistry.RemoveModel` | src/com/kiassist/core/ModelConfigManager.java:220-228 | only the first entry with the id is deleted, the rest keep their order, and the list is saved; an unknown id changes nothing |
| `Registry.ModelRegistry.GetModelDisplayNames` | src/com/kiassist/core/ModelConfigManager.java:230-236 | the display names of the enabled models, in the order `EnabledOfOrdered` proves |
| `JsonText.EscapeJsonPerChar` | src/com/kiassist/core/LLMClient.java:243-250 | the five chained replaces escape each character on its own |
| `JsonText.EscapeJsonSafe` | src/com/kiassist/core/LLMClient.java:243-250 | no raw line feed, carriage return or tab, and every `"` right after a backslash |
| `JsonText.EscapeJsonReadBack` | src/com/kiassist/core/LLMClient.java:243-250 | a JSON string reader decodes the escaped text, then a closing quote, back to the input, for every input |
| `JsonText.EscapeJsonEndsClean` | src/com/kiassist/core/LLMClient.java:243-250 | the escape of backslash-free text does not end in a backslash |
| `JsonText.EscapeJsonTrailingBackslash` | src/com/kiassist/core/LLMClient.java:243-250 | a trailing backslash is doubled, so the escape ends in a backslash |
| `JsonText.UnescapeEscapeJson` | src/com/kiassist/core/LLMClient.java:312-318 | unescapeJson undoes escapeJson on every backslash-free text |
| `JsonText.UnescapeEscapeBackslashN` | src/com/kiassist/core/LLMClient.java:312-318 | the text `\n` does not survive the round trip: it comes back as a line feed |
| `Client.ResolveEndpoint` | src/com/kiassist/core/LLMClient.java:41-53 | the custom key uses the custom URL and prefers a non-empty custom API key; the error comes exactly when the resolved key is empty |
| `Client.ConvertModelKey` | src/com/kiassist/core/LLMClient.java:215-229 | custom key to the configured name, the five short keys to their names, any other key unchanged |
| `Client.DefaultIdsPassThrough` | src/com/kiassist/core/LLMClient.java:215-229 | the ids of the default models other than the custom one pass through unchanged, and every short key maps to a default model's id |
| `Client.RoleForType` | src/com/kiassist/core/LLMClient.java:234-241 | user exactly for USER or TYPING, assistant exactly for ASSISTANT, system exactly for SYSTEM |
| `Client.FieldToken` | src/com/kiassist/core/LLMClient.java:279-284 | the token is three characters longer than the field name, which is what the offset at the next search skips |
| `Client.JsonStringEnd` | src/com/kiassist/core/LLMClient.java:302-310 | the least index from start holding a `"` not preceded by a backslash, or -1 exactly when there is none |
| `Client.JsonStringEndAt` | src/com/kiassist/core/LLMClient.java:302-310 | the first accepted quote is the one JsonStringEnd reports |
| `Client.FindJsonStringEnd` | src/com/kiassist/core/LLMClient.java:302-310 | the forward scan returns JsonStringEnd |
| `Client.ParseJsonResponse` | src/com/kiassist/core/LLMClient.java:268-300 | the step-by-step search returns ParseResponse: a diagnostic for each failure, or the unescaped raw value |
| `Client.ParseResponseRoundTrip` | src/com/kiassist/core/LLMClient.java:277-295 | the reply is extracted unchanged when a backslash-free reply is written escaped as the value of the first field token |
| `Client.ParseResponseLineFeed` | src/com/kiassist/core/LLMClient.java:284-295 | `{"response":"a\nb"}` under the custom key yields a, a line feed, b |
| `Client.ParseResponseMissingField` | src/com/kiassist/core/LLMClient.java:277-282 | no field token gives the missing-field diagnostic, with response chosen exactly for the custom key |
| `Client.ParseResponseMissingValue` | src/com/kiassist/core/LLMClient.java:284-287 | no quote after the token gives the missing-value diagnostic |
| `Client.ParseResponseTrailingBackslash` | src/com/kiassist/core/LLMClient.java:302-310 | a reply ending in a backslash yields the missing-end diagnostic |
| `Client.LastQuestion` | src/com/kiassist/core/LLMClient.java:166-179 | the content of the last USER entry, or the greeting when there is none |
| `Client.LastUserQuestion` | src/com/kiassist/core/LLMClient.java:166-179 | the backward scan returns LastQuestion |
| `Client.CustomBodyFields` | src/com/kiassist/core/LLMClient.java:141-161 | a model field exactly when the model name is non-empty, reading back as that name; the prompt reads back as the question plus the Korean instruction; the parameters follow verbatim |
| `Client.CustomJsonRequest` | src/com/kiassist/core/LLMClient.java:141-161 | the builder produces the custom body of the last USER question |
| `Client.EntriesReadBack` | src/com/kiassist/core/LLMClient.java:193-202 | the messages array reads back as one (role, content) pair per message, in order |
| `Client.StandardBodyModel` | src/com/kiassist/core/LLMClient.java:186-189 | the body starts with the model field, which reads back as the model name, then the messages field |
| `Client.MessagesFieldEntries` | src/com/kiassist/core/LLMClient.java:189-207 | the messages field holds an array of the pairs, then the parameters verbatim |
| `Client.StandardJsonRequest` | src/com/kiassist/core/LLMClient.java:184-210 | the body of the last 20 USER and ASSISTANT entries |
| `Client.BuildStandardBody` | src/com/kiassist/core/LLMClient.java:186-209 | the builder produces StandardBody |
| `Client.AppendEntries` | src/com/kiassist/core/LLMClient.java:193-202 | the loop appends the entries, with commas between them |
| `Client.AppendEntry` | src/com/kiassist/core/LLMClient.java:198-201 | one entry with its role and escaped content |
| `Client.ChatJsonRequest` | src/com/kiassist/core/LLMClient.java:121-136 | the custom body exactly for the custom key, the chat-completion body otherwise |
| `HtmlText.EscapeHtmlPerChar` | src/com/kiassist/core/MarkdownToHtmlConverter.java:344-351 | the five chained replaces escape each character on its own |
| `HtmlText.EscapeHtmlSafe` | src/com/kiassist/core/MarkdownToHtmlConverter.java:344-351 | no raw `<`, `>`, `"` or `'` |
| `HtmlText.EscapeHtmlEntities` | src/com/kiassist/core/MarkdownToHtmlConverter.java:344-351 | every `&` starts one of the five entities |
| `HtmlText.DisplayedEscapeHtml` | src/com/kiassist/core/MarkdownToHtmlConverter.java:344-351 | the browser displays the escaped text as the input |
| `HtmlText.EscapeJavaScriptPerChar` | src/com/kiassist/core/MarkdownToHtmlConverter.java:331-339 | the six chained replaces escape each character on its own |
| `HtmlText.EscapeJavaScriptSafe` | src/com/kiassist/core/MarkdownToHtmlConverter.java:331-339 | no raw line feed, carriage return or tab; every `'` and `"` right after a backslash |
| `HtmlText.EscapeJavaScriptReadBack` | src/com/kiassist/core/MarkdownToHtmlConverter.java:331-339 | a single-quoted string reader decodes the escaped text back to the input |
| `Converter.TypeString` | src/com/kiassist/core/MarkdownToHtmlConverter.java:318-326 | a non-empty name that needs no escaping inside quotes |
| `Converter.TypeStringInjective` | src/com/kiassist/core/MarkdownToHtmlConverter.java:318-326 | different types get different names |
| `Converter.CssClassForType` | src/com/kiassist/core/MarkdownToHtmlConverter.java:271-279 | `message-` followed by the type's name |
| `Converter.AddMessageScriptReadBack` | src/com/kiassist/core/MarkdownToHtmlConverter.java:284-295 | the page reads the call back as the content, type name, model label (empty when none), time, and markdown flag true exactly for ASSISTANT |
| `Converter.AllMessagesScript` | src/com/kiassist/core/MarkdownToHtmlConverter.java:300-313 | the clearing statement, then one call per message, in order |
| `Converter.AllMessagesScriptReadBack` | src/com/kiassist/core/MarkdownToHtmlConverter.java:300-313 | the whole script reads back as the clearing statement and one call per message, in history order |
| `Converter.OpenTagType` | src/com/kiassist/core/MarkdownToHtmlConverter.java:224-225 | the box opening names the type after `message message-` |
| `Converter.ModelTagShown` | src/com/kiassist/core/MarkdownToHtmlConverter.java:227-230 | the box has a model tag exactly for ASSISTANT with a model label |
| `Converter.TypingIgnoresContent` | src/com/kiassist/core/MarkdownToHtmlConverter.java:233-234 | a TYPING box is the placeholder and the time, whatever the content or label |
| `Converter.LineBodyPerChar` | src/com/kiassist/core/MarkdownToHtmlConverter.java:254-258 | the USER and SYSTEM body is escapeHtml of the content with each line feed replaced by `<br>` |
| `Converter.LineBodyPlain` | src/com/kiassist/core/MarkdownToHtmlConverter.java:254-258 | that body has no raw line feed and no quote |
| `Converter.LineBodyDisplayed` | src/com/kiassist/core/MarkdownToHtmlConverter.java:254-258 | the browser displays that body as the content, line breaks included |
| `Converter.ChatContainerHtml` | src/com/kiassist/core/MarkdownToHtmlConverter.java:165-180 | the container holds the banner when the history is empty, then the box of each message in order |
| `Converter.BannerIffEmpty` | src/com/kiassist/core/MarkdownToHtmlConverter.java:168-172 | the container opens with the start banner exactly when the history is empty |

## Left out

- HTTP transport is not modelled: `sendChatMessage` after line 53, and `readResponse`. Only the resolution of the key and URL is, as a function of the preference values.
- Preference store reads and writes are not modelled, including the forced defaults of `ensureSettingsInitialized`. The values the client reads are passed in as a `Preferences` record, and the registry's persisted catalog is a field `stored`.
- The text of the org.json library is not modelled. A catalog is absent, unreadable, or a list of records with optional fields. A failure of the preference store's flush, which `saveModels` catches, is not modelled either.
- Registry.ModelRegistry.SaveModels: always writes the catalog. In the source, a model whose temperature is NaN or infinite leaves the catalog unwritten: `JSONObject.put` rejects a non-finite double (ModelConfigManager.java line 159), the `catch` skips `prefs.put`, and the stored catalog keeps its old text while the list in memory has changed. The preference page can set such a temperature, because `Double.parseDouble` accepts "NaN" and "Infinity". The temperature here is a `real`, which has no non-finite values, so the model does not capture this case. The same holds for AddModel, UpdateModel, RemoveModel and InitializeDefaultModels, which save through it.
- `ModelConfigManager.getInstance` is not modelled: there is no singleton or lock. The registry is constructed explicitly from the catalog it loads.
- The IDE views, actions, preference page, threading and console logging are not modelled.
- Parts of `convertChatToHTML` are not modelled: the page head (CSS, `marked.js` loading by `loadMarkedJS`), the debug script after the container, and the page of `createChatPageHTML`. These are static text or resource I/O. The container with its banner and message boxes is modelled.
- The clock is not modelled. `getFormattedTime` is a parameter `fmt` from timestamps to text. The ASSISTANT box's element id, drawn from the clock and `Math.random`, is a parameter `ids` that gives each message the id drawn for it.
- Converter.ChatContainerHtml: the boxes are computed by `Boxes` before the loop appends them, where the source converts each message inside the loop. The text and its order are the same.
- Converter.AllMessagesScriptReadBack: assumes formatted times hold neither a quote nor a backslash, which is true of the `HH:mm:ss` format.
- Null arguments are not modelled. `escapeJson`, `escapeHtml` and `escapeJavaScript` map null to ""; message content is never null at the call sites. A null model label is `None`.
- Configs.ModelConfig.constructor: the no-argument constructor leaves the six strings null; the model sets them to "". Every caller sets them all right after.
- History.ChatHistory.GetRecentApiMessages: takes a `nat`. For a negative `maxMessages`, `subList` would throw; the only caller passes 20.
- Java's 32-bit `int` and `long` are unbounded integers here. No value in the core comes near the bounds. The temperature, a Java `double`, is a `real` that is only stored and copied, never computed with; its non-finite values are left out (see SaveModels above).
- The unreachable `default` branches of the switches over the four message types are left out. So is the `catch` of `parseJsonResponse`: the substring it guards is always in range.
