# Notion MCP server core, in Dafny

This project models the decision logic of a small "MCP" server. The server takes a
natural-language command and asks a language model (Azure OpenAI) whether it is a Notion
command or general chat. It then either performs a Notion operation or answers as a chat:

- create a page (in a database, or at the top of the workspace);
- create a database;
- update a page;
- query a database and format the result as a report;
- list the databases;
- generate content.

The model covers three parts:

- **The controller** (`mcp_controller.py`):
  - it routes the seven actions and keeps the bounded chat history;
  - it builds Notion blocks from generated text;
  - it maps property names, injects the title and validates properties against the
    schema;
  - it handles identifiers: the UUID check, stripping the database-name suffix, and the
    fallbacks when a name does not resolve;
  - it formats query results and the database list.
- **The Notion client** (`notion_client.py`): payload construction, title extraction, and
  the database name lookup.
- **The model client** (`openai_client.py`): the JSON candidate extraction and its
  fallback descriptors, the content instruction, and the message lists.

The remote services are oracles, that is, function-valued parameters:

- **Notion**: `NotionClient.Notion` bundles `post`, `get` and `patch`. Each maps an
  endpoint and a payload to a `Response`: status, optional JSON body, and text.
- **The language model**: `OpenAIClient.Llm` maps a `ChatRequest` (messages, temperature,
  token limit) to `Completed(content)` or `Failed(reason)`.
- **JSON decoding**: `json.loads` is `Decoder = string -> Option<Json>`.

JSON values are the datatype `Json.Json`. Dictionaries are `seq<(string, Json)>` in
insertion order, because the source depends on dict order in several places: the first
title property, the first database, and the numbering of pages.

The Python operations applied to these values are functions that return a `Result`:
`in`, `.get`, `[]`, iteration, `.items()`, `len` and `str()`. Each fails with the
exception Python raises on a wrongly-shaped value (`TypeError`, `KeyError`,
`AttributeError`, …).

Each handler's `try/except` is `Controller.Reply`:

- `Says(text)` is a normal answer;
- `Caught(prefix, error)` is the handler's fixed message prefix plus the exception.

The loops of the source are methods. Each is proved equal to a recursive
specification function, which the lemmas then reason about. The controller is a class
whose `history` field is the conversation history.

Two details of the page and query handlers shape the model:

- The title is injected **before** validation (`mcp_controller.py:249-262`, then
  `:266-323`), and only when the mapped property bag is non-empty.
- The `filter` of a query is passed to Notion unchanged (`mcp_controller.py:423-424`).
  There is no filter translation.

## Model

| member | source | states |
|---|---|---|
| Controller.MCPController.ProcessCommand | mcp_controller.py:22-79 | The reply is the one for the command given the history before it. The history becomes the next history. The history keeps its shape: even length, at most 10, with user and assistant alternating. |
| Controller.MCPController.RunAction | mcp_controller.py:43-61 | The chosen action runs the handler of that name with `parameters`. `get_databases` runs without parameters. A missing action is `None`. |
| Controller.MCPController.constructor | mcp_controller.py:12-20 | A new controller starts with an empty conversation history. |
| Controller.NextHistoryShape | mcp_controller.py:66-75 | A chat turn appends the user message and then the assistant message. The history empties once it would pass 10 messages, so its length goes to (n + 2) mod 12. A Notion command or a failed classification leaves the history alone. The shape invariant is preserved. |
| Controller.ChatTurnShape | mcp_controller.py:69-75 | Appending one user/assistant pair and clearing past ten keeps the history at even length, at most 10, alternating roles. |
| Controller.ChatIgnoresNotion | mcp_controller.py:64-77 | A general-chat command does not touch Notion. Its reply is the model's answer to the system prompt, the whole history and the command, or the chat error text. |
| Controller.UnsupportedAction | mcp_controller.py:60-61 | An action outside the seven names is answered with "지원하지 않는 작업: " followed by the action, and does not raise. |
| Controller.IntentWithoutKey | mcp_controller.py:29-32 | A decoded intent without an "intent" key raises KeyError, reported with the controller's prefix. |
| Controller.ResolveNameOf | mcp_controller.py:188-199 | Matches the name resolution shared by `_create_page` and `_query_database`: a falsy id is used as given, a UUID is used as given, and a non-UUID is looked up by its extracted database name. |
| Controller.UuidUsedAsGiven | mcp_controller.py:188 | An id of UUID shape is used as it is, without any lookup. |
| Controller.ResolvedIds | mcp_controller.py:188-199 | A given id is the input itself. A found id is truthy and comes from a non-UUID string. An unresolved name is the name extracted from the input. |
| Controller.HandleCreateDatabase | mcp_controller.py:81-111 | Reads the title (default "새 데이터베이스"), parent and properties. Without a parent, it first creates a workspace page titled "<title> 페이지" and reports "부모 페이지 생성 실패" when that page has no id. It then returns the creation message with id and link, or "데이터베이스 생성 실패". Errors carry the handler's prefix. |
| Controller.ParentPageFirst | mcp_controller.py:91-100 | Without a parent page, a failed parent page is reported together with the response for it. |
| Controller.WorkspacePageIsParent | mcp_controller.py:91-103 | Without a parent page, the new workspace page's id is the parent the database is created under. |
| Controller.GivenParentSkipsWorkspacePage | mcp_controller.py:87-103 | A truthy parent page is used as given. The reply depends only on the database request, so no workspace page is created. |
| Controller.DatabaseCreatedReport | mcp_controller.py:105-109 | A response with an id is reported as "데이터베이스 '<title>' 생성 완료" with the id and the url (default ""). A response without one is reported as "데이터베이스 생성 실패" with the response. |
| Controller.GenerateBlocks | mcp_controller.py:122-166 | The children are the blocks built from the content the model generates for the prompt and type. |
| Controller.HandleCreatePageInWorkspace | mcp_controller.py:113-177 | Reads the title, icon, content prompt and type (defaults "새 페이지", None, None, "text"). Builds children only for a truthy prompt. Creates the page, and reports success with id and link, or failure with the response. |
| Controller.WorkspacePageWithoutPrompt | mcp_controller.py:122-123 | Without a truthy prompt, the model is never asked and the page is sent with no children. |
| Controller.WorkspacePageWithPrompt | mcp_controller.py:122-169 | With a truthy prompt, the page is sent with the blocks built from the model's content for that prompt and type. |
| Controller.WorkspaceCreatedReport | mcp_controller.py:171-175 | A response with an id is reported as "워크스페이스에 페이지 '<title>' 생성 완료" with the id and the url (default ""). A response without one is reported as "페이지 생성 실패" with the response. |
| Controller.FindPageParent | mcp_controller.py:184-222 | The parent is the resolved id. An unresolved name or a falsy id falls back to the first listed database's id. With no database there is no parent. |
| Controller.HandleCreatePage | mcp_controller.py:179-390 | Without a parent, it delegates to the workspace path with only title, content prompt, content type and icon. Otherwise it sends the mapped, title-injected and validated properties. The children are generated from `content_prompt` (even a falsy one), or else taken from `children`. It reports "페이지 생성 완료" with id and link, or "페이지 생성 실패". |
| Controller.UuidParentUsed | mcp_controller.py:184-199 | A UUID `parent_id` is the parent, with no listing consulted. |
| Controller.PageParentFallsBack | mcp_controller.py:184-208 | A falsy `parent_id`, or a name that finds no database (or one with a falsy id), falls back to the first database of the listing. |
| Controller.FirstDatabaseIdNone | mcp_controller.py:206 | A listing without "results", or with an empty list there, has no first database. |
| Controller.FirstDatabaseIdFirst | mcp_controller.py:206-208 | A listing whose first result is a dict with an id gives that id as the parent. |
| Controller.NoDatabaseMeansWorkspacePage | mcp_controller.py:201-222 | With no parent of its own and no first database, the reply is the workspace handler's reply for the four forwarded parameters. |
| Controller.PageParamsMustBeDict | mcp_controller.py:184-185 | A parameter bag that is not a dict raises AttributeError, reported with the page prefix. |
| Controller.UpdateReply | mcp_controller.py:397-405 | Reports "페이지 업데이트 완료: " with the answer's id, or "알 수 없음" when there is none. A bag or answer that is not a dict raises AttributeError, and a failed request raises; both get the update prefix. |
| Controller.HandleQueryDatabase | mcp_controller.py:407-521 | Resolves the database. Queries with the filter unchanged. Reports no pages, or builds the report from the database name and the pages. |
| Controller.UnknownDatabaseReported | mcp_controller.py:411-421 | A name matching no database is answered "데이터베이스 '<name>'을 찾을 수 없습니다.", before any query is sent. |
| Controller.EmptyQueryReported | mcp_controller.py:427-430 | For any database that resolves (given, UUID or found by name), a query without results answers "데이터베이스에서 페이지를 찾을 수 없습니다.", without reading the schema. |
| Controller.QueryPostsFilter | mcp_controller.py:410-424 | For a database that resolves, the request posted is the `filter` parameter (or `{}` when it is missing or falsy), sent to the resolved id's query endpoint. The reply is determined by that request's answer. |
| Controller.HandleGetDatabases | mcp_controller.py:523-539 | The database-list text for the listing, or the listing prefix on error. |
| Controller.ContentReply | mcp_controller.py:541-549 | The reply is the generated content for `prompt` (default "") and `content_type` (default "text"). A bag that is not a dict raises AttributeError. |
| Blocks.BuildContentBlocks | mcp_controller.py:122-166 | The blocks are those of the content type: text splits on blank lines, "todo" and "bullet" split on lines, and any other type builds none. |
| Blocks.BuildTextBlocks | mcp_controller.py:127-136 | The text builder equals its recursive specification over the "\n\n" segments. |
| Blocks.ParagraphBlocksShape | mcp_controller.py:128-136 | Every text block is a paragraph carrying an unstripped segment whose strip is non-empty. There are at most as many blocks as segments. |
| Blocks.ParagraphBlocksAllKept | mcp_controller.py:128-136 | With no blank segment, the paragraphs are exactly the segments, in order. |
| Blocks.TextBlocksRoundTrip | mcp_controller.py:128-136 | With no blank paragraph, joining the block texts with "\n\n" gives back the generated text. |
| Blocks.BuildListBlocks | mcp_controller.py:137-166 | The todo/bullet builder equals its recursive specification over the lines. |
| Blocks.LinesBlocksCount | mcp_controller.py:138-141 | There is exactly one block per non-blank line, and no to-do is checked. |
| Blocks.LineBlockToDo | mcp_controller.py:142-150 | A "- [ ] " line is an unchecked to-do holding `line[5:].strip()`. |
| Blocks.LineBlockBulleted | mcp_controller.py:151-158 | A "-" line that is not a checkbox is a bulleted item holding `line[1:].strip()`. |
| Blocks.LineBlockParagraph | mcp_controller.py:159-166 | Any other stripped line is a paragraph holding the line. |
| Blocks.LineBlockRender | mcp_controller.py:137-166 | Every well-formed block is read back from the line it renders to. |
| Blocks.ListBlocksRoundTrip | mcp_controller.py:137-166 | Rendering well-formed blocks one per line and reading the lines back gives the same blocks, in order. |
| Blocks.ListBlocksOfRendered | mcp_controller.py:138 | The same round trip holds through joining the lines with "\n" and splitting them again. |
| Blocks.TodoExample | mcp_controller.py:137-166 | "- [ ] buy milk", "- eggs" and "plain line" give an unchecked to-do, a bullet and a paragraph. |
| Blocks.ParseBlockJson | mcp_controller.py:129-135 | Every block object the builder appends can be read back as the block it came from. |
| Blocks.BlocksJson | mcp_controller.py:129-166 | One block object per block, in order. |
| Blocks.TableChildrenUnbound | mcp_controller.py:326-378 | As written, a "table" content prompt leaves `children` unbound on the database-page path. |
| Blocks.ContentBlocksCorrectsAsWritten | mcp_controller.py:326-378 | The corrected children agree with the code wherever the code assigns them. In the other cases they are empty. |
| PropertyMapping.AliasTableEntries | mcp_controller.py:229-246 | The nine English names map to their Korean names, and every other name is kept. |
| PropertyMapping.MapPropertyNames | mcp_controller.py:242-247 | The renaming loop equals its recursive specification. |
| PropertyMapping.MapNamesUnique | mcp_controller.py:242-247 | The renamed bag has distinct keys. |
| PropertyMapping.MapNamesKeys | mcp_controller.py:242-247 | A name is present after renaming exactly when some property is renamed to it. |
| PropertyMapping.MapNamesLast | mcp_controller.py:246 | A renamed key holds the value of the last property renamed to it. |
| PropertyMapping.FindTitleProperty | mcp_controller.py:253-256 | The schema loop equals its specification: the first property of type title. |
| PropertyMapping.FirstTitlePropertyIsFirst | mcp_controller.py:253-256 | The title property found is the first schema entry whose type is title. |
| PropertyMapping.InjectTitleSpec | mcp_controller.py:249-262 | The title is injected exactly when the bag is non-empty, no value contains 'title', and the schema's first title property is present, non-empty and not already a key. It is then appended last with the page title. Otherwise the bag is unchanged. |
| PropertyMapping.CoerceTitle | mcp_controller.py:274-286 | A non-empty list becomes {"title": list}. A value containing 'title' is kept. Text becomes the rich-text title of `str(value)`. Null, booleans and numbers raise. Every result has a 'title'. |
| PropertyMapping.ValidateOneSends | mcp_controller.py:267-320 | A property is sent only when it is in the schema. It is either a coerced title, or a value of a wrapped type that carries that type's key, and is then sent unchanged. |
| PropertyMapping.ValidateProperties | mcp_controller.py:266-323 | The validation loop equals its recursive specification. |
| PropertyMapping.ValidateStopsAtError | mcp_controller.py:266-323 | The first exception in the loop is the exception of the whole validation. |
| PropertyMapping.ValidateAllSpec | mcp_controller.py:266-323 | Each mapped property reads in the output as its own validation step decides. The output keys are a subset of the mapped keys. |
| PropertyMapping.SentPropertiesInSchema | mcp_controller.py:269-317 | Every sent property is in the schema, and none has a formula, relation or rollup type. |
| PropertyMapping.DroppedTypesNeverSent | mcp_controller.py:297-305 | Formula, relation and rollup properties are dropped whatever their value. |
| PropertyMapping.BuildPageProperties | mcp_controller.py:225-323 | The properties sent are the schema read, then the renaming, then the title injection, then the validation. |
| PropertyMapping.InjectedUnique | mcp_controller.py:242-262 | The bag that reaches validation has distinct keys. |
| PropertyMapping.AliasedTitleNotInjected | mcp_controller.py:242-286 | For any property whose renamed name is the schema's first title property (such as "Name" for "이름"), no title is injected. That property is sent as the title coercion of its own value. |
| Identifiers.IsValidUuid | mcp_controller.py:392-395 | True exactly for the 8-4-4-4-12 hex shape in either case, with at most one trailing newline. A non-string raises TypeError. |
| Identifiers.UuidMatchesIffShape | mcp_controller.py:394-395 | The anchored pattern matches exactly the positional UUID shape. |
| Identifiers.MatchHexGroupsShape | mcp_controller.py:394 | The group-by-group matcher succeeds exactly on hyphen-separated hex runs, and leaves what follows. |
| Identifiers.UuidExamples | mcp_controller.py:392-395 | UUIDs in mixed case, with and without a final newline, pass. "KT" and an undashed id fail. |
| Identifiers.PatternAlwaysMatches | mcp_controller.py:190-191 | The name pattern always matches, so the `if db_name_match` test never fails. |
| Identifiers.SuffixRemoved | mcp_controller.py:190-192 | A one-line name followed by " 데이터베이스" or " 데이터베이스 ID" gives the stripped name back. Exactly one suffix is removed. |
| Identifiers.NoSpaceName | mcp_controller.py:190-192 | A whitespace-free name is its own database name. |
| Identifiers.NoSuffixKept | mcp_controller.py:190-192 | A one-line name with no tail matching whitespace, "데이터베이스" and optionally whitespace and "ID" gives the whole name back, stripped. |
| Identifiers.NameExamples | mcp_controller.py:414-416 | "KT 데이터베이스", "KT 데이터베이스 ID" and "KT" all name "KT". |
| Identifiers.LazyGroupFirst | mcp_controller.py:190 | The lazy group ends at the first length after which the optional suffix and `$` match. |
| Identifiers.DbTailNeedsBlankHead | mcp_controller.py:190 | The suffix matches only as a whole: what precedes it inside the match is blank. |
| NotionClient.GetDatabases | notion_client.py:24-59 | The method equals the listing function: the database search, most recently edited first. Its logging loop reads every entry's id, and the first unreadable one raises. |
| NotionClient.ListingIsBody | notion_client.py:24-59 | Whatever the listing returns is the response body. A 200 listing whose entries are dicts with ids is always returned. |
| NotionClient.ExtractTitleFromDatabase | notion_client.py:61-75 | The loop over the title list equals the title function. |
| NotionClient.TitleIsFirstPlainText | notion_client.py:68-72 | The title is the `plain_text` of the first title item that has one. |
| NotionClient.UntitledDatabase | notion_client.py:63-72 | A database without a title, or whose items lack `plain_text`, is "제목 없음". |
| NotionClient.UnreadableDatabase | notion_client.py:65-75 | A database that is not a dict gives "제목 추출 오류" instead of raising, unless `'title' in database` is False. |
| NotionClient.UnreadableTitleValue | notion_client.py:66-75 | A truthy title that is a number or a boolean cannot be iterated and gives "제목 추출 오류". |
| NotionClient.UnreadableTitle | notion_client.py:68-75 | A title item that is not a container, reached before any item with `plain_text`, gives "제목 추출 오류". |
| NotionClient.TitleFromAt | notion_client.py:68-71 | Over dict items, the loop stops at the first item carrying `plain_text`. |
| NotionClient.TitleFromNone | notion_client.py:68-72 | Over dict items with no `plain_text`, the loop gives the fallback title. |
| NotionClient.FindDatabaseByName | notion_client.py:77-96 | The loop equals the lookup function: the first database whose title contains the name, ignoring case. |
| NotionClient.FindsFirstMatch | notion_client.py:84-93 | Among readable entries, the id of the first database whose lowered title contains the lowered name. |
| NotionClient.FindsNothing | notion_client.py:84-96 | Among readable entries, no match means None. |
| NotionClient.QuerySendsFilter | notion_client.py:191-204 | The answer to a query is determined by Notion's answer to the filter sent unchanged (or `{}` when it is falsy). A falsy filter is the same query as `{}`. |
| NotionClient.CreatePage | notion_client.py:206-225 | The page request posts the page payload and returns the body. |
| NotionClient.PagePayloadKeys | notion_client.py:209-214 | The payload has parent and properties, sent as given, and has children exactly when they are truthy. Its keys are distinct. |
| NotionClient.CreatePageInWorkspace | notion_client.py:227-299 | The method equals the workspace-page function: search for the most recently edited page, build the payload under it, and post it. |
| NotionClient.WorkspacePayloadKeys | notion_client.py:264-288 | The icon key is present exactly when the icon is truthy, and children likewise. Only a truthy non-string icon fails. Keys are distinct. |
| NotionClient.IconKind | notion_client.py:281-285 | An icon starting with "http" has type "external", and any other has type "emoji". Either way the icon string reads back from the object sent. |
| NotionClient.WorkspaceSearchErrors | notion_client.py:229-261 | A failed search gives the "페이지 검색 실패: " error dict with the response text. An empty one gives "사용 가능한 페이지를 찾을 수 없습니다.". Neither sends a page request. |
| NotionClient.WorkspaceUnderFirstResult | notion_client.py:229-299 | With a 200 search whose first result has an id, the page is created under that page. |
| NotionClient.CreateDatabaseRequest | notion_client.py:110-189 | A falsy schema is replaced by the default one. A given parent is used, else the first searched page. A failed search gives "페이지 검색 중 오류가 발생했습니다.", and no pages gives "부모 페이지를 찾을 수 없습니다. …". |
| NotionClient.FirstResultIdSpec | notion_client.py:153-159 | The first result's id when the search listed something, None when it listed nothing. |
| NotionClient.Search | notion_client.py:359-380 | The search posts the payload built from its arguments and returns the body. |
| NotionClient.SearchPayloadEntries | notion_client.py:363-369 | Query, filter and sort are each sent exactly when truthy, under their own key. |
| NotionClient.SearchPayloadUnique | notion_client.py:362-369 | No key of the search payload occurs twice. |
| OpenAIClient.CandidateSpec | openai_client.py:66-70 | A candidate exists exactly when some `}` follows some `{`. It runs from the first `{` to the last `}`, inclusive. |
| OpenAIClient.CandidateGreedy | openai_client.py:66-67 | For any `{` before any `}`, there is a candidate, and it runs from a `{` at or before the first to a `}` at or after the second. |
| OpenAIClient.CandidateNeedsCloseAfterOpen | openai_client.py:67-76 | When every `}` comes before every `{`, there is no candidate. |
| OpenAIClient.CandidateIgnoresStrip | openai_client.py:61-67 | Stripping the reply never changes the candidate. |
| OpenAIClient.ValidatedFromReply | openai_client.py:66-79 | Text taken from the model's reply occurs in the reply, opens with `{`, closes with `}`, and decodes to the value returned with it. |
| OpenAIClient.AnalyzeIntentOutcomes | openai_client.py:25-83 | A valid candidate of the stripped reply is returned verbatim. Otherwise the result is general chat, "의도 분석 실패, 일반 대화로 처리", or "오류 발생" when the model call fails. |
| OpenAIClient.ParseNotionCommandOutcomes | openai_client.py:144-280 | A valid candidate of the generated text is returned verbatim. Otherwise the result is the default descriptor for the command. |
| OpenAIClient.DefaultCommandFields | openai_client.py:248-280 | Every default descriptor asks for a workspace page titled "새 페이지" whose content prompt is the command, verbatim. |
| OpenAIClient.Instruction | openai_client.py:131-140 | The instruction is empty exactly for a content type other than text, todo, table and bullet. |
| OpenAIClient.ContentPromptShape | openai_client.py:131-142 | The four instructions are distinct. The full prompt is the instruction, a blank line, then the prompt. |
| OpenAIClient.BuildChatMessages | openai_client.py:88-97 | The messages are the system prompt, the history in order, then the user input. |
| OpenAIClient.Chat | openai_client.py:85-106 | The reply is the model's answer for those messages. A failed call gives text starting "대화 처리 오류: ". |
| OpenAIClient.BuildTextMessages | openai_client.py:111-117 | The messages are the given non-empty system prompt, or "You are a helpful assistant.", then exactly one user message. |
| OpenAIClient.GenerateText | openai_client.py:108-127 | The text is the model's answer. A failed call gives text starting "텍스트 생성 오류: ". |
| Reports.FindPageTitle | mcp_controller.py:453-460 | The page-title loop equals its specification. |
| Reports.PageTitleIsFirstNonEmpty | mcp_controller.py:453-460 | The title is the concatenated plain texts of the first title property with a non-empty list. |
| Reports.PageUntitled | mcp_controller.py:453-460 | A page with no such property is "제목 없음". |
| Reports.GatherDicts | mcp_controller.py:458 | On dict items, the comprehension yields exactly the values stored under the key. |
| Reports.GatherAll | mcp_controller.py:458 | When every item has the key, the comprehension is the list of their values, in order. |
| Reports.JoinStrs | mcp_controller.py:459 | `''.join` succeeds exactly when every item is a string, and otherwise raises TypeError. |
| Reports.CollectPropertyLines | mcp_controller.py:467-515 | The property loop equals its specification: one line per listed property, in order. |
| Reports.TitleNotListed | mcp_controller.py:468-469 | Title properties are never listed. |
| Reports.BlankValueOmitted | mcp_controller.py:514-515 | Any other property is listed as "   name: value" exactly when its value is truthy and does not print as blank. |
| Reports.UnreadTypeShowsPlaceholder | mcp_controller.py:471-515 | A property of an unread type is listed with "값 없음". |
| Reports.CheckboxAlwaysListed | mcp_controller.py:494-495 | A checkbox is always listed, as ✅ or ❌. |
| Reports.DateRangeListed | mcp_controller.py:486-493 | A date with both ends is listed as "start ~ end". |
| Reports.FormatPage | mcp_controller.py:448-517 | The page loop body equals the page block: header, link and property lines joined with ''. |
| Reports.PageText | mcp_controller.py:463 | A page's block opens a new line numbered from 1. |
| Reports.PageBlocksNumbered | mcp_controller.py:448-517 | There is one block per page, in order, and block i is numbered i + 1. |
| Reports.FindDatabaseName | mcp_controller.py:433-439 | The name loop equals its specification: the first plain_text of the title, or "알 수 없음". |
| Reports.FormatQueryReport | mcp_controller.py:445-519 | The report loop equals the report: the header, then the page blocks, joined with newlines. |
| Reports.ReportStartsWithCount | mcp_controller.py:445 | The report opens with the database name and page count. |
| Reports.FormatDatabaseList | mcp_controller.py:523-539 | The listing loop equals its specification. |
| Reports.DatabaseLine | mcp_controller.py:534 | A database line exists exactly when the entry has an id. |
| Reports.DatabaseLinesSpec | mcp_controller.py:531-535 | The list succeeds exactly when every database has an id. It then has one line per database, in order. |
| Reports.EmptyListing | mcp_controller.py:536-537 | A listing with no databases says "사용 가능한 데이터베이스가 없습니다.". |
| Text.StripSpec | mcp_controller.py:129 | `strip()` cuts exactly the whitespace at both ends. |
| Text.StripEmptyIffBlank | mcp_controller.py:129 | A segment strips to empty exactly when it is all whitespace. |
| Text.StripIdempotent | mcp_controller.py:139 | Stripping twice is stripping once. |
| Text.StrippedIffNoEdges | mcp_controller.py:139 | A string is stripped exactly when no whitespace is at either end. |
| Text.JoinSplit | mcp_controller.py:128 | Joining the pieces of a split with the separator gives the string back. |
| Text.SplitJoin | mcp_controller.py:138 | For a one-character separator, splitting a join of separator-free pieces gives the pieces back. |
| Text.SplitPiecesFree | mcp_controller.py:128 | No piece of a split contains the separator. |
| Text.IsSubstringAt | notion_client.py:91 | `in` on strings means an occurrence at some index. |
| Text.NatToStringRoundTrip | mcp_controller.py:463 | The decimal digits of a page number read back as the number. |
| Common.MapAllSpec | mcp_controller.py:448-517 | A loop whose steps may raise succeeds exactly when every step does, and then lists the results in order. |
| Common.MapAllStep | mcp_controller.py:448-517 | One step of such a loop either raises the loop's exception or extends the results. |
| Json.LookupPut | mcp_controller.py:246 | After `d[k] = v`, `d[k]` is v and every other key reads as before. |
| Json.PutNew | mcp_controller.py:260 | Assigning a new key appends it. |
| Json.PutKeepsUnique | mcp_controller.py:246 | Assignment keeps a dict's keys distinct. |
| Json.Get | mcp_controller.py:86 | `.get` gives the stored value or the default, and raises AttributeError on a non-dict. |
| Json.Index | mcp_controller.py:32 | `j[key]` succeeds exactly on a dict holding the key. |

## Left out

- The HTTP transport (`requests`, headers, timeouts), status-code logging, and the Azure
  OpenAI SDK. These are the `Notion` and `Llm` oracles. The oracles are stateless: a
  repeated identical request gets the same answer.
- `app.py` (the Flask endpoints), `prompt_mcp_example.py` (the interactive loop),
  `example.py`, `config.py` and dotenv loading are not part of this model. Neither is
  reading API keys in the constructors.
- `get_page`, `get_block_children` and `append_block_children` (`notion_client.py:317-357`)
  are never called by the controller.
- Debug `print` logging, and the `json.dumps` calls made only for it.
- The text of `str(e)`: a caught exception is its kind (`PyError`). `Controller.ReplyText`
  renders a reply given any message function.
- Controller.HandleCreatePage: the database path uses the corrected children
  (`Blocks.ContentBlocks`). As written, a content type other than "text", "todo" and
  "bullet" leaves `children` unbound, so the source reports UnboundLocalError with the
  page prefix and creates no page (see Findings, `Blocks.TableChildrenUnbound`).
  `Controller.PageReply` follows the same choice.
- JSON decoding: `json.loads` is the `Decoder` oracle and is not implemented. Floats are absent from
  `Json`, so number and formula values are integers.
- The `Decoder` is otherwise unconstrained. Every candidate starts with `{`, so the real
  `json.loads` returns a dict or raises. The model's paths for a decoded value that is not
  a dict (such as TypeError at `intent_data["intent"]`) therefore cannot arise with it.
- `Text.Lower` folds ASCII letters only, not Unicode `str.lower()`. The name lookup
  (`notion_client.py:91-92`) is therefore exact for ASCII titles only.
- `Json.Repr` is a simplified `repr`: strings always in single quotes, no escaping. It
  shapes only the text of failure messages.
- The model name, token limit and temperature passed to the SDK are fixed fields of
  `ChatRequest`. Model replies whose content is `None` are not modelled: a completion is
  always a string.
- The `except json.JSONDecodeError` branch of `process_command` (`mcp_controller.py:62-64`)
  is unreachable: `parse_notion_command` only returns decodable text. So is the generic
  `except` inside `parse_notion_command`. The model takes the decoded value directly.
- Slicing a dict (`page_id[:8]` on a dict id) raises TypeError here. Recent Python
  versions raise KeyError for it. Only the exception kind differs.
- The page report joins its header, link and property lines with `''`
  (`mcp_controller.py:517`), so they are not on separate lines. This is modelled as
  written.

## Findings

| source | as written | input that shows it | evidently intended | confidence | as-written member | corrected member |
|---|---|---|---|---|---|---|
| mcp_controller.py:326-378 | `_create_page` assigns `children` only for content types "text", "todo" and "bullet" when `content_prompt` is present, then uses it | `{"parent_id": <a database id>, "content_prompt": "x", "content_type": "table"}`: `children` is unbound, so UnboundLocalError is reported as "페이지 생성 중 오류 발생" | as in `_create_page_in_workspace` (`:122-166`), any other content type gives no children | not executed | Blocks.TableChildrenUnbound | Blocks.ContentBlocksCorrectsAsWritten |
