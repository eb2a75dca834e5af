/** The MCP controller: classifies a command with the language model, then either runs
    the Notion operation the model chose or answers as a chat, keeping a short history
    of chat turns. Every handler catches its own exceptions and reports them with a
    fixed prefix; the controller catches the rest the same way. */
module Controller {
  import opened Common
  import opened Text
  import opened Json
  import opened Identifiers
  import opened Blocks
  import opened NotionClient
  import opened OpenAIClient
  import opened PropertyMapping
  import opened Reports

  /** What the controller answers: a text, or a caught exception shown as the handler's
      prefix, ": " and the exception's message. */
  datatype Reply = Says(text: string) | Caught(prefix: string, error: PyError)

  /** The text the user sees, given how exception messages read. */
  function ReplyText(reply: Reply, message: PyError -> string): string {
    match reply
    case Says(text) => text
    case Caught(prefix, error) => prefix + ": " + message(error)
  }

  function CatchAs(prefix: string, r: Result<string>): (reply: Reply)
    ensures r.Ok? ==> reply == Says(r.value)
    ensures r.Err? ==> reply == Caught(prefix, r.error)
  {
    match r
    case Ok(text) => Says(text)
    case Err(e) => Caught(prefix, e)
  }

  const ProcessFailed := "명령 처리 중 오류 발생"
  const DatabaseFailed := "데이터베이스 생성 중 오류 발생"
  const PageFailed := "페이지 생성 중 오류 발생"
  const UpdateFailed := "페이지 업데이트 중 오류 발생"
  const QueryFailed := "데이터베이스 쿼리 중 오류 발생"
  const ListingFailed := "데이터베이스 목록 가져오기 중 오류 발생"
  const ContentFailed := "콘텐츠 생성 중 오류 발생"

  // ---------------------------------------------------------------- names for ids

  /** How an id parameter resolves: used as given, found by database name, or a name
      that matched no database. */
  datatype Target = Given(id: Json) | Found(id: Json) | NotFound(name: string)

  /** A truthy id that is not a UUID is read as a database name (with any trailing
      "데이터베이스" or "데이터베이스 ID" removed) and looked up; a falsy found id counts
      as not found. */
  function ResolveName(api: Notion, given: Json): Result<Target> {
    if !Truthy(given) then Ok(Given(given))
    else
      var valid :- IsValidUuid(given);
      if valid then Ok(Given(given))
      else
        var name := ExtractDbName(given.s);
        var found :- FindDatabase(api, name);
        Ok(if found.Some? && Truthy(found.value) then Found(found.value) else NotFound(name))
  }

  /** The name resolution step by step; `ResolveName` is its specification. */
  method ResolveNameOf(api: Notion, given: Json) returns (r: Result<Target>)
    ensures r == ResolveName(api, given)
  {
    if !Truthy(given) {
      return Ok(Given(given));
    }
    var valid := IsValidUuid(given);
    if valid.Err? {
      return Err(valid.error);
    }
    if valid.value {
      return Ok(Given(given));
    }
    var name := ExtractDbName(given.s);
    var found := FindDatabaseByName(api, name);
    if found.Err? {
      return Err(found.error);
    }
    if found.value.Some? && Truthy(found.value.value) {
      return Ok(Found(found.value.value));
    }
    return Ok(NotFound(name));
  }

  /** A UUID is used as it is, without asking Notion. */
  lemma UuidUsedAsGiven(api: Notion, s: string)
    requires UuidShape(s)
    ensures ResolveName(api, JStr(s)) == Ok(Given(JStr(s)))
  {
    assert |s| >= 36;
  }

  /** Whatever resolves, resolves to a truthy value or to what was given. */
  lemma ResolvedIds(api: Notion, given: Json)
    ensures var r := ResolveName(api, given);
            r.Ok? ==> (r.value.Given? ==> r.value.id == given) &&
                      (r.value.Found? ==> Truthy(r.value.id) && given.JStr? && !UuidShape(given.s)) &&
                      (r.value.NotFound? ==> given.JStr? && r.value.name == ExtractDbName(given.s))
  {
    if Truthy(given) && IsValidUuid(given).Ok? {
      UuidMatchesIffShape(given.s);
    }
  }

  // ---------------------------------------------------------------- create_database

  const NewDatabaseTitle := "새 데이터베이스"

  /** The reply once the database request is answered. */
  function DatabaseCreatedText(response: Json, title: Json): Result<string> {
    var hasId :- In("id", response);
    if hasId then
      var url :- Get(response, "url", JStr(""));
      var id := Get(response, "id", JNull).value;
      Ok("데이터베이스 '" + PyStr(title) + "' 생성 완료 (ID: " + PyStr(id) + ")\n링크: " + PyStr(url))
    else Ok("데이터베이스 생성 실패: " + PyStr(response))
  }

  /** `_create_database`: without a parent page, a workspace page titled after the
      database is created first and becomes the parent. */
  function DatabaseText(api: Notion, params: Json): Result<string> {
    var title :- Get(params, "title", JStr(NewDatabaseTitle));
    var parentGiven := Get(params, "parent_page_id", JNull).value;
    var properties := Get(params, "properties", JNull).value;
    if Truthy(parentGiven) then
      var response :- CreateDatabase(api, parentGiven, title, properties);
      DatabaseCreatedText(response, title)
    else
      var page :- WorkspacePage(api, JStr(PyStr(title) + " 페이지"), JNull, JNull);
      var hasId :- In("id", page);
      if !hasId then Ok("부모 페이지 생성 실패: " + PyStr(page))
      else
        var parent :- Index(page, "id");
        var response :- CreateDatabase(api, parent, title, properties);
        DatabaseCreatedText(response, title)
  }

  function DatabaseReply(api: Notion, params: Json): Reply {
    CatchAs(DatabaseFailed, DatabaseText(api, params))
  }

  /** `_create_database` step by step; `DatabaseReply` is its specification. */
  method HandleCreateDatabase(api: Notion, params: Json) returns (reply: Reply)
    ensures reply == DatabaseReply(api, params)
  {
    var title := Get(params, "title", JStr(NewDatabaseTitle));
    if title.Err? {
      return Caught(DatabaseFailed, title.error);
    }
    var parentGiven := Get(params, "parent_page_id", JNull).value;
    var properties := Get(params, "properties", JNull).value;
    var parent := parentGiven;
    if !Truthy(parentGiven) {
      var page := CreatePageInWorkspace(api, JStr(PyStr(title.value) + " 페이지"), JNull, JNull);
      if page.Err? {
        return Caught(DatabaseFailed, page.error);
      }
      var hasId := In("id", page.value);
      if hasId.Err? {
        return Caught(DatabaseFailed, hasId.error);
      }
      if !hasId.value {
        return Says("부모 페이지 생성 실패: " + PyStr(page.value));
      }
      var id := Index(page.value, "id");
      if id.Err? {
        return Caught(DatabaseFailed, id.error);
      }
      parent := id.value;
    }
    var response := CreateDatabase(api, parent, title.value, properties);
    if response.Err? {
      return Caught(DatabaseFailed, response.error);
    }
    reply := CatchAs(DatabaseFailed, DatabaseCreatedText(response.value, title.value));
  }

  /** Without a parent page, the workspace page is created under the title with
      " 페이지" appended, and a failure to create it is reported with its response. */
  lemma ParentPageFirst(api: Notion, params: Json, page: Json)
    requires params.JObj? && !Truthy(Get(params, "parent_page_id", JNull).value)
    requires var title := Get(params, "title", JStr(NewDatabaseTitle)).value;
             WorkspacePage(api, JStr(PyStr(title) + " 페이지"), JNull, JNull) == Ok(page)
    requires page.JObj? && "id" !in Keys(page.fields)
    ensures DatabaseReply(api, params) == Says("부모 페이지 생성 실패: " + PyStr(page))
  {
  }

  /** Without a parent page, the id of the workspace page just created is the parent of
      the database. */
  lemma WorkspacePageIsParent(api: Notion, params: Json, page: Json, pageId: Json)
    requires params.JObj? && !Truthy(Get(params, "parent_page_id", JNull).value)
    requires var title := Get(params, "title", JStr(NewDatabaseTitle)).value;
             WorkspacePage(api, JStr(PyStr(title) + " 페이지"), JNull, JNull) == Ok(page)
    requires page.JObj? && Lookup(page.fields, "id") == Some(pageId)
    ensures var title := Get(params, "title", JStr(NewDatabaseTitle)).value;
            var properties := Get(params, "properties", JNull).value;
            DatabaseReply(api, params) ==
              CatchAs(DatabaseFailed, (var response :- CreateDatabase(api, pageId, title, properties);
                                       DatabaseCreatedText(response, title)))
  {
    assert Index(page, "id") == Ok(pageId);
  }

  /** A truthy parent page is used as given: no workspace page is created, and the
      reply depends only on the database request. */
  lemma GivenParentSkipsWorkspacePage(api1: Notion, api2: Notion, params: Json)
    requires params.JObj? && Truthy(Get(params, "parent_page_id", JNull).value)
    requires var parent := Get(params, "parent_page_id", JNull).value;
             var title := Get(params, "title", JStr(NewDatabaseTitle)).value;
             var properties := Get(params, "properties", JNull).value;
             CreateDatabase(api1, parent, title, properties) == CreateDatabase(api2, parent, title, properties)
    ensures DatabaseReply(api1, params) == DatabaseReply(api2, params)
    ensures var parent := Get(params, "parent_page_id", JNull).value;
            var title := Get(params, "title", JStr(NewDatabaseTitle)).value;
            var properties := Get(params, "properties", JNull).value;
            DatabaseReply(api1, params) ==
              CatchAs(DatabaseFailed, (var response :- CreateDatabase(api1, parent, title, properties);
                                       DatabaseCreatedText(response, title)))
  {
  }

  /** A response with an id is reported with that id and its url ("" when it has none);
      a dict response without an id is reported as a failure, with the response. */
  lemma DatabaseCreatedReport(response: Json, title: Json)
    requires response.JObj?
    ensures "id" in Keys(response.fields) ==>
              DatabaseCreatedText(response, title) ==
                Ok("데이터베이스 '" + PyStr(title) + "' 생성 완료 (ID: " +
                   PyStr(Lookup(response.fields, "id").value) + ")\n링크: " +
                   PyStr(if "url" in Keys(response.fields) then Lookup(response.fields, "url").value else JStr("")))
    ensures "id" !in Keys(response.fields) ==>
              DatabaseCreatedText(response, title) == Ok("데이터베이스 생성 실패: " + PyStr(response))
  {
  }

  // ---------------------------------------------------------------- create_page_in_workspace

  const NewPageTitle := "새 페이지"

  /** The children generated for a content prompt, as blocks. */
  function GeneratedBlocks(llm: Llm, prompt: Json, contentType: Json): seq<Block> {
    ContentBlocks(GenerateNotionContent(llm, prompt, contentType), contentType)
  }

  /** Content generation and block building; `GeneratedBlocks` is its specification. */
  method GenerateBlocks(llm: Llm, prompt: Json, contentType: Json) returns (blocks: seq<Block>)
    ensures blocks == GeneratedBlocks(llm, prompt, contentType)
  {
    var content := GenerateNotionContent(llm, prompt, contentType);
    blocks := BuildContentBlocks(content, contentType);
  }

  function WorkspacePageText(api: Notion, llm: Llm, params: Json): Result<string> {
    var title :- Get(params, "title", JStr(NewPageTitle));
    var icon := Get(params, "icon", JNull).value;
    var prompt := Get(params, "content_prompt", JNull).value;
    var contentType := Get(params, "content_type", JStr("text")).value;
    var children := if Truthy(prompt) then GeneratedBlocks(llm, prompt, contentType) else [];
    var response :- WorkspacePage(api, title, icon, BlocksJson(children));
    WorkspaceCreatedText(response, title)
  }

  /** The reply once the workspace page request is answered. */
  function WorkspaceCreatedText(response: Json, title: Json): Result<string> {
    var hasId :- In("id", response);
    if hasId then
      var url :- Get(response, "url", JStr(""));
      var id := Get(response, "id", JNull).value;
      Ok("워크스페이스에 페이지 '" + PyStr(title) + "' 생성 완료 (ID: " + PyStr(id) + ")\n링크: " + PyStr(url))
    else Ok("페이지 생성 실패: " + PyStr(response))
  }

  /** `_create_page_in_workspace`. */
  function WorkspacePageReply(api: Notion, llm: Llm, params: Json): Reply {
    CatchAs(PageFailed, WorkspacePageText(api, llm, params))
  }

  /** `_create_page_in_workspace` step by step; `WorkspacePageReply` is its specification. */
  method HandleCreatePageInWorkspace(api: Notion, llm: Llm, params: Json) returns (reply: Reply)
    ensures reply == WorkspacePageReply(api, llm, params)
  {
    var title := Get(params, "title", JStr(NewPageTitle));
    if title.Err? {
      return Caught(PageFailed, title.error);
    }
    var icon := Get(params, "icon", JNull).value;
    var prompt := Get(params, "content_prompt", JNull).value;
    var contentType := Get(params, "content_type", JStr("text")).value;
    var children: seq<Block> := [];
    if Truthy(prompt) {
      children := GenerateBlocks(llm, prompt, contentType);
    }
    var response := CreatePageInWorkspace(api, title.value, icon, BlocksJson(children));
    if response.Err? {
      return Caught(PageFailed, response.error);
    }
    var hasId := In("id", response.value);
    if hasId.Err? {
      return Caught(PageFailed, hasId.error);
    }
    if !hasId.value {
      return Says("페이지 생성 실패: " + PyStr(response.value));
    }
    var url := Get(response.value, "url", JStr(""));
    if url.Err? {
      return Caught(PageFailed, url.error);
    }
    var id := Get(response.value, "id", JNull).value;
    return Says("워크스페이스에 페이지 '" + PyStr(title.value) + "' 생성 완료 (ID: " + PyStr(id) + ")\n링크: " +
                PyStr(url.value));
  }

  /** Without a truthy content prompt, the language model is not asked and the page has
      no children. */
  lemma WorkspacePageWithoutPrompt(api: Notion, llm1: Llm, llm2: Llm, params: Json)
    requires params.JObj? && !Truthy(Get(params, "content_prompt", JNull).value)
    ensures WorkspacePageReply(api, llm1, params) == WorkspacePageReply(api, llm2, params)
    ensures var title := Get(params, "title", JStr(NewPageTitle)).value;
            var icon := Get(params, "icon", JNull).value;
            WorkspacePageReply(api, llm1, params) ==
              CatchAs(PageFailed, (var response :- WorkspacePage(api, title, icon, JArr([]));
                                   WorkspaceCreatedText(response, title)))
  {
    assert BlocksJson([]) == JArr([]);
  }

  /** With a truthy content prompt, the page is sent with the blocks built from the
      content the model generates for that prompt and content type. */
  lemma WorkspacePageWithPrompt(api: Notion, llm: Llm, params: Json)
    requires params.JObj? && Truthy(Get(params, "content_prompt", JNull).value)
    ensures var title := Get(params, "title", JStr(NewPageTitle)).value;
            var icon := Get(params, "icon", JNull).value;
            var prompt := Get(params, "content_prompt", JNull).value;
            var contentType := Get(params, "content_type", JStr("text")).value;
            var children := ContentBlocks(GenerateNotionContent(llm, prompt, contentType), contentType);
            WorkspacePageReply(api, llm, params) ==
              CatchAs(PageFailed, (var response :- WorkspacePage(api, title, icon, BlocksJson(children));
                                   WorkspaceCreatedText(response, title)))
  {
  }

  /** A response with an id is reported with that id and its url ("" when it has none);
      a dict response without an id is reported as a failure, with the response. */
  lemma WorkspaceCreatedReport(response: Json, title: Json)
    requires response.JObj?
    ensures "id" in Keys(response.fields) ==>
              WorkspaceCreatedText(response, title) ==
                Ok("워크스페이스에 페이지 '" + PyStr(title) + "' 생성 완료 (ID: " +
                   PyStr(Lookup(response.fields, "id").value) + ")\n링크: " +
                   PyStr(if "url" in Keys(response.fields) then Lookup(response.fields, "url").value else JStr("")))
    ensures "id" !in Keys(response.fields) ==>
              WorkspaceCreatedText(response, title) == Ok("페이지 생성 실패: " + PyStr(response))
  {
  }

  // ---------------------------------------------------------------- create_page

  /** Where `_create_page` goes: a parent database id, or None to hand over to
      `_create_page_in_workspace`. Without a usable parent, the first database of the
      listing is used, if there is one. */
  function PageParent(api: Notion, params: Json): Result<Option<Json>> {
    var given :- Get(params, "parent_id", JNull);
    var target :- ResolveName(api, given);
    var parent := if target.NotFound? then JNull else target.id;
    if Truthy(parent) then Ok(Some(parent))
    else
      var databases :- DatabaseListing(api);
      FirstDatabaseId(databases)
  }

  /** `databases['results'][0]['id']` when the listing has results, else None. */
  function FirstDatabaseId(databases: Json): Result<Option<Json>> {
    var has :- In("results", databases);
    if !has then Ok(None)
    else
      var results :- Index(databases, "results");
      var n :- Len(results);
      if n == 0 then Ok(None)
      else
        var first :- First(results);
        var id :- Index(first, "id");
        Ok(Some(id))
  }

  /** The parameters handed to `_create_page_in_workspace`. */
  function WorkspaceParams(params: Json): Json
    requires params.JObj?
  {
    JObj([("title", Get(params, "title", JStr(NewPageTitle)).value),
          ("content_prompt", Get(params, "content_prompt", JNull).value),
          ("content_type", Get(params, "content_type", JStr("text")).value),
          ("icon", Get(params, "icon", JNull).value)])
  }

  /** The children sent: generated from a `content_prompt` key (even a falsy one), else
      the `children` parameter. */
  function PageChildren(llm: Llm, params: Json): Json
    requires params.JObj?
  {
    if "content_prompt" in Keys(params.fields) then
      var contentType := Get(params, "content_type", JStr("text")).value;
      BlocksJson(GeneratedBlocks(llm, Get(params, "content_prompt", JNull).value, contentType))
    else Get(params, "children", JArr([])).value
  }

  /** `_create_page` once its parent database is known. */
  function PageCreatedText(api: Notion, llm: Llm, params: Json, parent: Json): Result<string>
    requires params.JObj?
  {
    var properties := Get(params, "properties", JObj([])).value;
    var dbInfo :- GetDatabase(api, parent);
    var validated :- PageProperties(properties, dbInfo, Get(params, "title", JStr(NewPageTitle)).value);
    var result :- BodyJson(api.post(PagesUrl, PagePayload(parent, JObj(validated), PageChildren(llm, params))));
    var hasId :- In("id", result);
    if hasId then
      var url :- Get(result, "url", JStr(""));
      Ok("페이지 생성 완료: " + PyStr(Get(result, "id", JNull).value) + "\n링크: " + PyStr(url))
    else Ok("페이지 생성 실패: " + PyStr(result))
  }

  /** `_create_page`. */
  function PageReply(api: Notion, llm: Llm, params: Json): Reply {
    match PageParent(api, params)
    case Err(e) => Caught(PageFailed, e)
    case Ok(None) => WorkspacePageReply(api, llm, WorkspaceParams(params))
    case Ok(Some(parent)) => CatchAs(PageFailed, PageCreatedText(api, llm, params, parent))
  }

  /** The parent lookup of `_create_page` step by step; `PageParent` is its specification. */
  method FindPageParent(api: Notion, params: Json) returns (r: Result<Option<Json>>)
    ensures r == PageParent(api, params)
  {
    var given := Get(params, "parent_id", JNull);
    if given.Err? {
      return Err(given.error);
    }
    var target := ResolveNameOf(api, given.value);
    if target.Err? {
      return Err(target.error);
    }
    var parent := if target.value.NotFound? then JNull else target.value.id;
    if Truthy(parent) {
      return Ok(Some(parent));
    }
    var databases := GetDatabases(api);
    if databases.Err? {
      return Err(databases.error);
    }
    return FirstDatabaseId(databases.value);
  }

  /** `_create_page` step by step; `PageReply` is its specification. */
  method HandleCreatePage(api: Notion, llm: Llm, params: Json) returns (reply: Reply)
    ensures reply == PageReply(api, llm, params)
  {
    var parent := FindPageParent(api, params);
    if parent.Err? {
      return Caught(PageFailed, parent.error);
    }
    if parent.value.None? {
      reply := HandleCreatePageInWorkspace(api, llm, WorkspaceParams(params));
      return;
    }
    var properties := Get(params, "properties", JObj([])).value;
    var dbInfo := GetDatabase(api, parent.value.value);
    if dbInfo.Err? {
      return Caught(PageFailed, dbInfo.error);
    }
    var validated := BuildPageProperties(properties, dbInfo.value, Get(params, "title", JStr(NewPageTitle)).value);
    if validated.Err? {
      return Caught(PageFailed, validated.error);
    }
    var children: Json;
    if "content_prompt" in Keys(params.fields) {
      var contentType := Get(params, "content_type", JStr("text")).value;
      var blocks := GenerateBlocks(llm, Get(params, "content_prompt", JNull).value, contentType);
      children := BlocksJson(blocks);
    } else {
      children := Get(params, "children", JArr([])).value;
    }
    var result := CreatePage(api, parent.value.value, JObj(validated.value), children);
    if result.Err? {
      return Caught(PageFailed, result.error);
    }
    reply := CatchAs(PageFailed, (var hasId :- In("id", result.value);
                                  if hasId then
                                    var url :- Get(result.value, "url", JStr(""));
                                    Ok("페이지 생성 완료: " + PyStr(Get(result.value, "id", JNull).value) + "\n링크: " + PyStr(url))
                                  else Ok("페이지 생성 실패: " + PyStr(result.value))));
  }

  /** A UUID parent is used directly: no database listing is consulted. */
  lemma UuidParentUsed(api: Notion, params: Json, s: string)
    requires params.JObj? && Lookup(params.fields, "parent_id") == Some(JStr(s)) && UuidShape(s)
    ensures PageParent(api, params) == Ok(Some(JStr(s)))
  {
    UuidUsedAsGiven(api, s);
    assert |s| >= 36;
  }

  /** A `parent_id` that leaves `_create_page` without a parent of its own: a falsy one,
      or a name whose lookup finds no database, or one with a falsy id. */
  predicate Unresolved(api: Notion, given: Json) {
    !Truthy(given) ||
    (given.JStr? && !UuidShape(given.s) &&
     match FindDatabase(api, ExtractDbName(given.s))
     case Ok(found) => found.None? || !Truthy(found.value)
     case Err(_) => false)
  }

  /** Without a parent of its own, the page goes to the first database of the listing,
      if there is one. */
  lemma PageParentFallsBack(api: Notion, params: Json)
    requires params.JObj? && Unresolved(api, Get(params, "parent_id", JNull).value)
    ensures PageParent(api, params) == (var databases :- DatabaseListing(api); FirstDatabaseId(databases))
  {
    var given := Get(params, "parent_id", JNull).value;
    if Truthy(given) {
      assert IsValidUuid(given) == Ok(false);
    }
  }

  /** A listing without a "results" key, or with an empty list under it, has no first
      database. */
  lemma FirstDatabaseIdNone(databases: Json)
    requires databases.JObj?
    requires "results" !in Keys(databases.fields) || Lookup(databases.fields, "results") == Some(JArr([]))
    ensures FirstDatabaseId(databases) == Ok(None)
  {
  }

  /** A listing whose first result is a dict with an id gives that id. */
  lemma FirstDatabaseIdFirst(databases: Json, results: seq<Json>)
    requires databases.JObj? && Lookup(databases.fields, "results") == Some(JArr(results))
    requires results != [] && results[0].JObj? && "id" in Keys(results[0].fields)
    ensures FirstDatabaseId(databases) == Ok(Some(Lookup(results[0].fields, "id").value))
  {
    assert Index(databases, "results") == Ok(JArr(results));
  }

  /** Without a parent of its own and without any database to fall back on, the page is
      created in the workspace from the title, prompt, content type and icon parameters. */
  lemma NoDatabaseMeansWorkspacePage(api: Notion, llm: Llm, params: Json, listing: Json)
    requires params.JObj? && Unresolved(api, Get(params, "parent_id", JNull).value)
    requires DatabaseListing(api) == Ok(listing) && FirstDatabaseId(listing) == Ok(None)
    ensures PageReply(api, llm, params) == WorkspacePageReply(api, llm, WorkspaceParams(params))
  {
    PageParentFallsBack(api, params);
  }

  /** A parameter bag that is not a dict is reported as the handler's exception. */
  lemma PageParamsMustBeDict(api: Notion, llm: Llm, params: Json)
    requires !params.JObj?
    ensures PageReply(api, llm, params) == Caught(PageFailed, AttributeError)
  {
  }

  // ---------------------------------------------------------------- update_page

  function UpdateText(api: Notion, params: Json): Result<string> {
    var pageId :- Get(params, "page_id", JNull);
    var properties := Get(params, "properties", JObj([])).value;
    var result :- UpdatePage(api, pageId, properties);
    var id :- Get(result, "id", JStr(UnknownName));
    Ok("페이지 업데이트 완료: " + PyStr(id))
  }

  /** `_update_page`: the reply names the updated page's id, or "알 수 없음" when the
      answer has none; a parameter bag or an answer that is not a dict raises. */
  function UpdateReply(api: Notion, params: Json): (reply: Reply)
    ensures !params.JObj? ==> reply == Caught(UpdateFailed, AttributeError)
    ensures params.JObj? ==>
            var r := UpdatePage(api, Get(params, "page_id", JNull).value,
                                Get(params, "properties", JObj([])).value);
            (r.Err? ==> reply == Caught(UpdateFailed, r.error)) &&
            (r.Ok? && !r.value.JObj? ==> reply == Caught(UpdateFailed, AttributeError)) &&
            (r.Ok? && r.value.JObj? ==>
              reply == Says("페이지 업데이트 완료: " +
                            PyStr(if "id" in Keys(r.value.fields) then Lookup(r.value.fields, "id").value
                                  else JStr(UnknownName))))
  {
    CatchAs(UpdateFailed, UpdateText(api, params))
  }

  // ---------------------------------------------------------------- query_database

  const NoPages := "데이터베이스에서 페이지를 찾을 수 없습니다."

  function NotFoundText(name: string): string {
    "데이터베이스 '" + name + "'을 찾을 수 없습니다."
  }

  /** The query, once the database id is known. */
  function QueryText(api: Notion, params: Json, id: Json): Result<string>
    requires params.JObj?
  {
    var filter := Get(params, "filter", JObj([])).value;
    var result :- QueryDatabase(api, id, filter);
    QueryResultText(api, id, result)
  }

  /** The reply once the query is answered with `result`. */
  function QueryResultText(api: Notion, id: Json, result: Json): Result<string> {
    var pages :- Get(result, "results", JArr([]));
    if !Truthy(pages) then Ok(NoPages)
    else
      var dbInfo :- GetDatabase(api, id);
      var name :- DatabaseName(dbInfo);
      var _ :- Get(dbInfo, "properties", JObj([]));
      QueryReport(name, pages)
  }

  function QueryReplyText(api: Notion, params: Json): Result<string> {
    var given :- Get(params, "database_id", JNull);
    var target :- ResolveName(api, given);
    match target
    case NotFound(name) => Ok(NotFoundText(name))
    case _ => QueryText(api, params, target.id)
  }

  /** `_query_database`. */
  function QueryReply(api: Notion, params: Json): Reply {
    CatchAs(QueryFailed, QueryReplyText(api, params))
  }

  /** `_query_database` step by step; `QueryReply` is its specification. */
  method HandleQueryDatabase(api: Notion, params: Json) returns (reply: Reply)
    ensures reply == QueryReply(api, params)
  {
    var given := Get(params, "database_id", JNull);
    if given.Err? {
      return Caught(QueryFailed, given.error);
    }
    var target := ResolveNameOf(api, given.value);
    if target.Err? {
      return Caught(QueryFailed, target.error);
    }
    if target.value.NotFound? {
      return Says(NotFoundText(target.value.name));
    }
    var id := target.value.id;
    var filter := Get(params, "filter", JObj([])).value;
    var result := QueryDatabase(api, id, filter);
    if result.Err? {
      return Caught(QueryFailed, result.error);
    }
    var pages := Get(result.value, "results", JArr([]));
    if pages.Err? {
      return Caught(QueryFailed, pages.error);
    }
    if !Truthy(pages.value) {
      return Says(NoPages);
    }
    var dbInfo := GetDatabase(api, id);
    if dbInfo.Err? {
      return Caught(QueryFailed, dbInfo.error);
    }
    var name := FindDatabaseName(dbInfo.value);
    if name.Err? {
      return Caught(QueryFailed, name.error);
    }
    var schema := Get(dbInfo.value, "properties", JObj([]));
    if schema.Err? {
      return Caught(QueryFailed, schema.error);
    }
    var report := FormatQueryReport(name.value, pages.value);
    reply := CatchAs(QueryFailed, report);
  }

  /** A name that matches no database is reported by name, before any query is sent. */
  lemma UnknownDatabaseReported(api: Notion, params: Json, s: string)
    requires params.JObj? && Lookup(params.fields, "database_id") == Some(JStr(s)) && s != "" && !UuidShape(s)
    requires FindDatabase(api, ExtractDbName(s)) == Ok(None)
    ensures QueryReply(api, params) == Says(NotFoundText(ExtractDbName(s)))
  {
    UuidMatchesIffShape(s);
  }

  /** A query without results says so, without reading the schema, whether the
      database was given by UUID, by a name that resolves, or not at all. */
  lemma EmptyQueryReported(api: Notion, params: Json, target: Target, result: Json)
    requires params.JObj? && ResolveName(api, Get(params, "database_id", JNull).value) == Ok(target)
    requires !target.NotFound?
    requires QueryDatabase(api, target.id, Get(params, "filter", JObj([])).value) == Ok(result)
    requires result.JObj? && (Lookup(result.fields, "results").None? || !Truthy(Lookup(result.fields, "results").value))
    ensures QueryReply(api, params) == Says(NoPages)
  {
  }

  /** For a database that resolves, the query posted is the `filter` parameter as given,
      or `{}` when it is missing or falsy, to the query endpoint of the resolved id; the
      reply is then determined by that request's answer. */
  lemma QueryPostsFilter(api: Notion, params: Json, target: Target)
    requires params.JObj? && ResolveName(api, Get(params, "database_id", JNull).value) == Ok(target)
    requires !target.NotFound?
    ensures var f := Get(params, "filter", JObj([])).value;
            QueryReply(api, params) ==
              CatchAs(QueryFailed, (var result :- BodyJson(api.post(QueryUrl(target.id), if Truthy(f) then f else JObj([])));
                                    QueryResultText(api, target.id, result)))
  {
  }

  // ---------------------------------------------------------------- get_databases and generate_content

  function DatabasesText(api: Notion): Result<string> {
    var result :- DatabaseListing(api);
    DatabasesReport(result)
  }

  /** `_get_databases`. */
  function DatabasesReply(api: Notion): Reply {
    CatchAs(ListingFailed, DatabasesText(api))
  }

  /** `_get_databases` step by step; `DatabasesReply` is its specification. */
  method HandleGetDatabases(api: Notion) returns (reply: Reply)
    ensures reply == DatabasesReply(api)
  {
    var result := GetDatabases(api);
    if result.Err? {
      return Caught(ListingFailed, result.error);
    }
    var text := FormatDatabaseList(result.value);
    reply := CatchAs(ListingFailed, text);
  }

  /** `_generate_content`: the generated text itself. */
  function ContentReply(llm: Llm, params: Json): (reply: Reply)
    ensures params.JObj? ==>
              reply == Says(GenerateNotionContent(llm, Get(params, "prompt", JStr("")).value,
                                                  Get(params, "content_type", JStr("text")).value))
    ensures !params.JObj? ==> reply == Caught(ContentFailed, AttributeError)
  {
    CatchAs(ContentFailed, (var prompt :- Get(params, "prompt", JStr(""));
                            Ok(GenerateNotionContent(llm, prompt, Get(params, "content_type", JStr("text")).value))))
  }

  // ---------------------------------------------------------------- process_command

  /** Whether the model classed the command as a Notion command: `intent_data["intent"]`
      raises when the decoded value has no such key. */
  function IsNotionCommand(llm: Llm, decode: Decoder, command: string): Result<bool> {
    var intent :- Index(AnalyzeIntent(llm, decode, command).value, "intent");
    Ok(intent == JStr("notion_command"))
  }

  const Actions: seq<string> := [
    "create_page", "create_database", "create_page_in_workspace", "update_page",
    "query_database", "get_databases", "generate_content"]

  /** The action the model chose, run with its parameters. */
  function ActionReply(api: Notion, llm: Llm, actionData: Json): Reply {
    match Get(actionData, "action", JNull)
    case Err(e) => Caught(ProcessFailed, e)
    case Ok(action) =>
      var params := Get(actionData, "parameters", JNull).value;
      if action == JStr("create_page") then PageReply(api, llm, params)
      else if action == JStr("create_database") then DatabaseReply(api, params)
      else if action == JStr("create_page_in_workspace") then WorkspacePageReply(api, llm, params)
      else if action == JStr("update_page") then UpdateReply(api, params)
      else if action == JStr("query_database") then QueryReply(api, params)
      else if action == JStr("get_databases") then DatabasesReply(api)
      else if action == JStr("generate_content") then ContentReply(llm, params)
      else Says("지원하지 않는 작업: " + PyStr(action))
  }

  /** The answer to a command, given the chat history before it. */
  function CommandReply(api: Notion, llm: Llm, decode: Decoder, command: string, history: seq<Message>): Reply {
    match IsNotionCommand(llm, decode, command)
    case Err(e) => Caught(ProcessFailed, e)
    case Ok(true) => ActionReply(api, llm, ParseNotionCommand(llm, decode, command).value)
    case Ok(false) => Says(ChatReply(llm, command, history))
  }

  /** The history after a command: a chat turn appends the command and the answer, and a
      history grown past ten messages is cleared. */
  function NextHistory(llm: Llm, decode: Decoder, command: string, history: seq<Message>): seq<Message> {
    if IsNotionCommand(llm, decode, command) == Ok(false) then
      var grown := history + [Message("user", command), Message("assistant", ChatReply(llm, command, history))];
      if |grown| > 10 then [] else grown
    else history
  }

  /** The shape the history keeps: at most five user/assistant pairs, in that order. */
  predicate HistoryShape(history: seq<Message>) {
    |history| % 2 == 0 && |history| <= 10 &&
    forall i :: 0 <= i < |history| ==> history[i].role == (if i % 2 == 0 then "user" else "assistant")
  }

  /** Appending a user message and an answer, then clearing past ten, keeps the shape. */
  lemma ChatTurnShape(history: seq<Message>, command: string, answer: string)
    requires HistoryShape(history)
    ensures var grown := history + [Message("user", command), Message("assistant", answer)];
            var next := if |grown| > 10 then [] else grown;
            HistoryShape(next) && |next| == (|history| + 2) % 12
  {
    var grown := history + [Message("user", command), Message("assistant", answer)];
    forall i | 0 <= i < |grown| ensures grown[i].role == (if i % 2 == 0 then "user" else "assistant") {
      if i < |history| {
        assert grown[i] == history[i];
      }
    }
  }

  /** Each chat turn adds one pair, and the sixth pair empties the history. */
  lemma NextHistoryShape(llm: Llm, decode: Decoder, command: string, history: seq<Message>)
    requires HistoryShape(history)
    ensures HistoryShape(NextHistory(llm, decode, command, history))
    ensures IsNotionCommand(llm, decode, command) == Ok(false) ==>
              |NextHistory(llm, decode, command, history)| == (|history| + 2) % 12
    ensures IsNotionCommand(llm, decode, command) != Ok(false) ==>
              NextHistory(llm, decode, command, history) == history
  {
    ChatTurnShape(history, command, ChatReply(llm, command, history));
  }

  /** A chat turn sends the whole history to the model and needs nothing from Notion. */
  lemma ChatIgnoresNotion(api1: Notion, api2: Notion, llm: Llm, decode: Decoder, command: string, history: seq<Message>)
    requires IsNotionCommand(llm, decode, command) == Ok(false)
    ensures CommandReply(api1, llm, decode, command, history) == CommandReply(api2, llm, decode, command, history)
    ensures CommandReply(api1, llm, decode, command, history) ==
              Says(match llm(ChatRequest([Message("system", ChatSystemPrompt)] + history + [Message("user", command)], 0.7, None))
                   case Completed(content) => content
                   case Failed(reason) => ChatErrorPrefix + reason)
  {
  }

  /** An action outside the seven is answered as unsupported, naming it. */
  lemma UnsupportedAction(api: Notion, llm: Llm, actionData: Json, action: Json)
    requires actionData.JObj? && Lookup(actionData.fields, "action") == Some(action)
    requires !(action.JStr? && action.s in Actions)
    ensures ActionReply(api, llm, actionData) == Says("지원하지 않는 작업: " + PyStr(action))
  {
    assert Get(actionData, "action", JNull) == Ok(action);
    NotAnAction(action);
  }

  /** A value outside the list of actions is none of them. */
  lemma NotAnAction(action: Json)
    requires !(action.JStr? && action.s in Actions)
    ensures action != JStr("create_page") && action != JStr("create_database")
    ensures action != JStr("create_page_in_workspace") && action != JStr("update_page")
    ensures action != JStr("query_database") && action != JStr("get_databases")
    ensures action != JStr("generate_content")
  {
  }

  /** A decoded intent without an "intent" key is the controller's own exception. */
  lemma IntentWithoutKey(api: Notion, llm: Llm, decode: Decoder, command: string, history: seq<Message>)
    requires var v := AnalyzeIntent(llm, decode, command).value; v.JObj? && "intent" !in Keys(v.fields)
    ensures CommandReply(api, llm, decode, command, history) == Caught(ProcessFailed, KeyError)
  {
  }

  class MCPController {
    const notion: Notion
    const llm: Llm
    const decode: Decoder
    var history: seq<Message>

    predicate Valid()
      reads this
    {
      HistoryShape(history)
    }

    constructor(notion: Notion, llm: Llm, decode: Decoder)
      ensures this.notion == notion && this.llm == llm && this.decode == decode
      ensures history == [] && Valid()
    {
      this.notion := notion;
      this.llm := llm;
      this.decode := decode;
      history := [];
    }

    /** `process_command`. */
    method ProcessCommand(command: string) returns (reply: Reply)
      requires Valid()
      modifies this
      ensures reply == CommandReply(notion, llm, decode, command, old(history))
      ensures history == NextHistory(llm, decode, command, old(history))
      ensures Valid()
    {
      NextHistoryShape(llm, decode, command, history);
      var intent := AnalyzeIntent(llm, decode, command).value;
      var kind := Index(intent, "intent");
      if kind.Err? {
        return Caught(ProcessFailed, kind.error);
      }
      if kind.value == JStr("notion_command") {
        var actionData := ParseNotionCommand(llm, decode, command).value;
        reply := RunAction(actionData);
        return;
      }
      var response := Chat(llm, command, history);
      history := history + [Message("user", command), Message("assistant", response)];
      if |history| > 10 {
        history := [];
      }
      reply := Says(response);
    }

    method RunAction(actionData: Json) returns (reply: Reply)
      ensures reply == ActionReply(notion, llm, actionData)
    {
      var action := Get(actionData, "action", JNull);
      if action.Err? {
        return Caught(ProcessFailed, action.error);
      }
      var params := Get(actionData, "parameters", JNull).value;
      var a := action.value;
      if a == JStr("create_page") {
        reply := HandleCreatePage(notion, llm, params);
      } else if a == JStr("create_database") {
        reply := HandleCreateDatabase(notion, params);
      } else if a == JStr("create_page_in_workspace") {
        reply := HandleCreatePageInWorkspace(notion, llm, params);
      } else if a == JStr("update_page") {
        reply := UpdateReply(notion, params);
      } else if a == JStr("query_database") {
        reply := HandleQueryDatabase(notion, params);
      } else if a == JStr("get_databases") {
        reply := HandleGetDatabases(notion);
      } else if a == JStr("generate_content") {
        reply := ContentReply(llm, params);
      } else {
        reply := Says("지원하지 않는 작업: " + PyStr(a));
      }
    }
  }
}
