/** The Notion REST client: the request each wrapper sends, the payload it builds, and
    what it makes of the response. The HTTP service itself is a parameter (`Notion`):
    a pure function from request to response, so the model says what is sent and how
    the answer is read, not what Notion does with it. */
module NotionClient {
  import opened Common
  import opened Text
  import opened Json

  /** What the HTTP layer hands back: the status code, the body when it parses as
      JSON, and the raw body text. */
  datatype Response = Response(status: int, body: Option<Json>, text: string)

  /** The Notion service: the response to a POST, GET or PATCH of a JSON payload. */
  datatype Notion = Notion(
    post: (string, Json) -> Response,
    get: string -> Response,
    patch: (string, Json) -> Response)

  const BaseUrl := "https://api.notion.com/v1"
  const SearchUrl := BaseUrl + "/search"
  const DatabasesUrl := BaseUrl + "/databases"
  const PagesUrl := BaseUrl + "/pages"

  function DatabaseUrl(databaseId: Json): string { BaseUrl + "/databases/" + PyStr(databaseId) }
  function QueryUrl(databaseId: Json): string { DatabaseUrl(databaseId) + "/query" }
  function PageUrl(pageId: Json): string { BaseUrl + "/pages/" + PyStr(pageId) }

  /** `response.json()`: a body that is not JSON raises (JSONDecodeError is a
      ValueError). */
  function BodyJson(response: Response): (r: Result<Json>)
    ensures r.Ok? <==> response.body.Some?
    ensures r.Ok? ==> r.value == response.body.value
  {
    match response.body
    case Some(j) => Ok(j)
    case None => Err(ValueError)
  }

  /** The `{"error": ...}` dict the client returns instead of raising. */
  function ErrorDict(message: string): Json { JObj([("error", JStr(message))]) }

  const NoParentPage := "부모 페이지를 찾을 수 없습니다. 먼저 페이지를 생성하세요."
  const PageSearchFailed := "페이지 검색 중 오류가 발생했습니다."
  const NoUsablePage := "사용 가능한 페이지를 찾을 수 없습니다."
  const SearchFailedPrefix := "페이지 검색 실패: "

  // ---------------------------------------------------------------- search payloads

  const ByLastEdited: Json :=
    JObj([("direction", JStr("descending")), ("timestamp", JStr("last_edited_time"))])

  function ObjectFilter(kind: string): Json {
    JObj([("value", JStr(kind)), ("property", JStr("object"))])
  }

  const DatabaseSearch: Json := JObj([("filter", ObjectFilter("database")), ("sort", ByLastEdited)])
  const PageSearch: Json := JObj([("filter", ObjectFilter("page")), ("sort", ByLastEdited)])
  const TopPageSearch: Json :=
    JObj([("filter", ObjectFilter("page")), ("sort", ByLastEdited), ("page_size", JInt(10))])

  /** `if v: payload[k] = v` on a payload that lacks `k`: one pair or none. */
  function IfTruthy(k: string, v: Json): Fields {
    if Truthy(v) then [(k, v)] else []
  }

  /** The payload of `search`: query, filter and sort, each only when truthy. */
  function SearchPayload(query: Json, filter: Json, sort: Json): Json {
    JObj(IfTruthy("query", query) + IfTruthy("filter", filter) + IfTruthy("sort", sort))
  }

  lemma KeysIfTruthy(k: string, v: Json)
    ensures Keys(IfTruthy(k, v)) == if Truthy(v) then [k] else []
    ensures UniqueKeys(IfTruthy(k, v))
  {
  }

  /** `search`: the payload starts empty and gains each truthy argument in turn. */
  method Search(api: Notion, query: Json, filter: Json, sort: Json) returns (r: Result<Json>)
    ensures r == BodyJson(api.post(SearchUrl, SearchPayload(query, filter, sort)))
  {
    ghost var q, f := IfTruthy("query", query), IfTruthy("filter", filter);
    KeysIfTruthy("query", query);
    KeysIfTruthy("filter", filter);
    KeysAppend(q, f);
    var payload: Fields := [];
    if Truthy(query) {
      payload := Put(payload, "query", query);
    }
    assert payload == q;
    if Truthy(filter) {
      PutNew(payload, "filter", filter);
      payload := Put(payload, "filter", filter);
    }
    assert payload == q + f;
    if Truthy(sort) {
      PutNew(payload, "sort", sort);
      payload := Put(payload, "sort", sort);
    }
    assert payload == q + f + IfTruthy("sort", sort);
    r := BodyJson(api.post(SearchUrl, JObj(payload)));
  }

  /** No key of a search payload is sent twice. */
  lemma SearchPayloadUnique(query: Json, filter: Json, sort: Json)
    ensures UniqueKeys(SearchPayload(query, filter, sort).fields)
  {
    var q, f, o := IfTruthy("query", query), IfTruthy("filter", filter), IfTruthy("sort", sort);
    KeysIfTruthy("query", query);
    KeysIfTruthy("filter", filter);
    KeysIfTruthy("sort", sort);
    KeysAppend(q, f);
    UniqueAppend(q, f);
    UniqueAppend(q + f, o);
  }

  /** Each search argument is sent exactly when it is truthy, under its own key. */
  lemma SearchPayloadEntries(query: Json, filter: Json, sort: Json)
    ensures Lookup(SearchPayload(query, filter, sort).fields, "query") ==
              if Truthy(query) then Some(query) else None
    ensures Lookup(SearchPayload(query, filter, sort).fields, "filter") ==
              if Truthy(filter) then Some(filter) else None
    ensures Lookup(SearchPayload(query, filter, sort).fields, "sort") ==
              if Truthy(sort) then Some(sort) else None
  {
    var q, f, o := IfTruthy("query", query), IfTruthy("filter", filter), IfTruthy("sort", sort);
    KeysIfTruthy("query", query);
    KeysIfTruthy("filter", filter);
    KeysAppend(q, f);
    LookupAppend(q + f, o, "query");
    LookupAppend(q + f, o, "filter");
    LookupAppend(q + f, o, "sort");
    LookupAppend(q, f, "query");
    LookupAppend(q, f, "filter");
    LookupAppend(q, f, "sort");
  }

  // ---------------------------------------------------------------- database listing

  /** The `db['id']` reads of the logging loop in `get_databases`: the first one that
      fails raises. */
  function IdsReadable(dbs: seq<Json>): Result<()> {
    if dbs == [] then Ok(())
    else
      var _ :- Index(dbs[0], "id");
      IdsReadable(dbs[1..])
  }

  /** What `get_databases` evaluates on a 200 answer before returning it unchanged. */
  function ListingLogged(result: Json): Result<()> {
    var has :- In("results", result);
    if !has then Ok(())
    else
      var results :- Index(result, "results");
      if !Truthy(results) then Ok(())
      else
        // `len()` before the loop rejects exactly the values iteration rejects
        var dbs :- Iter(results);
        IdsReadable(dbs)
  }

  /** `get_databases`: the answer to a search for databases, most recently edited
      first. */
  function DatabaseListing(api: Notion): Result<Json> {
    var response := api.post(SearchUrl, DatabaseSearch);
    var result :- BodyJson(response);
    if response.status != 200 then Ok(result)
    else
      var _ :- ListingLogged(result);
      Ok(result)
  }

  method GetDatabases(api: Notion) returns (r: Result<Json>)
    ensures r == DatabaseListing(api)
  {
    var response := api.post(SearchUrl, DatabaseSearch);
    r := BodyJson(response);
    if r.Err? || response.status != 200 {
      return;
    }
    var result := r.value;
    var has := In("results", result);
    if has.Err? {
      return Err(has.error);
    }
    if !has.value {
      return;
    }
    var results := Index(result, "results");
    if results.Err? {
      return Err(results.error);
    }
    if !Truthy(results.value) {
      return;
    }
    var dbs := Iter(results.value);
    if dbs.Err? {
      return Err(dbs.error);
    }
    var i := 0;
    while i < |dbs.value|
      invariant 0 <= i <= |dbs.value|
      invariant IdsReadable(dbs.value) == IdsReadable(dbs.value[i..])
    {
      assert dbs.value[i..][1..] == dbs.value[i + 1..];
      var id := Index(dbs.value[i], "id");
      if id.Err? {
        return Err(id.error);
      }
      i := i + 1;
    }
  }

  /** Whatever `get_databases` returns is the response body itself; a 200 listing whose
      every entry is a dict with an id is always returned. */
  lemma {:induction false} ListingIsBody(api: Notion)
    ensures DatabaseListing(api).Ok? ==> api.post(SearchUrl, DatabaseSearch).body == Some(DatabaseListing(api).value)
    ensures (var response := api.post(SearchUrl, DatabaseSearch);
             response.body.Some? && response.body.value.JObj? &&
             Lookup(response.body.value.fields, "results").Some? &&
             Lookup(response.body.value.fields, "results").value.JArr? &&
             (forall db | db in Lookup(response.body.value.fields, "results").value.items ::
                db.JObj? && "id" in Keys(db.fields)))
            ==> DatabaseListing(api).Ok?
  {
    var response := api.post(SearchUrl, DatabaseSearch);
    if response.body.Some? && response.body.value.JObj? {
      var v := Lookup(response.body.value.fields, "results");
      if v.Some? && v.value.JArr? && forall db | db in v.value.items :: db.JObj? && "id" in Keys(db.fields) {
        IdsReadableAll(v.value.items);
      }
    }
  }

  lemma {:induction false} IdsReadableAll(dbs: seq<Json>)
    requires forall db | db in dbs :: db.JObj? && "id" in Keys(db.fields)
    ensures IdsReadable(dbs).Ok?
  {
    if dbs != [] {
      assert dbs[0] in dbs;
      IdsReadableAll(dbs[1..]);
    }
  }

  // ---------------------------------------------------------------- database titles

  const Untitled := "제목 없음"
  const TitleUnreadable := "제목 추출 오류"

  predicate HasKey(j: Json, k: string) {
    j.JObj? && k in Keys(j.fields)
  }

  /** The loop over a title list: the `plain_text` of the first item that has one, or
      `fallback` when none has. */
  function TitleFrom(items: seq<Json>, fallback: Json): Result<Json> {
    if items == [] then Ok(fallback)
    else
      var has :- In("plain_text", items[0]);
      if has then Index(items[0], "plain_text") else TitleFrom(items[1..], fallback)
  }

  /** The body of the `try` in `_extract_title_from_database`. */
  function TitleAttempt(database: Json): Result<Json> {
    var has :- In("title", database);
    if !has then Ok(JStr(Untitled))
    else
      var items :- Index(database, "title");
      if !Truthy(items) then Ok(JStr(Untitled))
      else
        var xs :- Iter(items);
        TitleFrom(xs, JStr(Untitled))
  }

  /** `_extract_title_from_database`: any exception in the attempt gives the
      extraction-error title. */
  function DatabaseTitle(database: Json): Json {
    match TitleAttempt(database)
    case Ok(title) => title
    case Err(_) => JStr(TitleUnreadable)
  }

  method ExtractTitleFromDatabase(database: Json) returns (title: Json)
    ensures title == DatabaseTitle(database)
  {
    title := JStr(Untitled);
    var has := In("title", database);
    if has.Err? {
      return JStr(TitleUnreadable);
    }
    if !has.value {
      return;
    }
    var items := Index(database, "title");
    if items.Err? {
      return JStr(TitleUnreadable);
    }
    if !Truthy(items.value) {
      return;
    }
    var xs := Iter(items.value);
    if xs.Err? {
      return JStr(TitleUnreadable);
    }
    var i := 0;
    while i < |xs.value|
      invariant 0 <= i <= |xs.value|
      invariant TitleFrom(xs.value, JStr(Untitled)) == TitleFrom(xs.value[i..], JStr(Untitled))
    {
      assert xs.value[i..][1..] == xs.value[i + 1..];
      var item := xs.value[i];
      var plain := In("plain_text", item);
      if plain.Err? {
        return JStr(TitleUnreadable);
      }
      if plain.value {
        var text := Index(item, "plain_text");
        if text.Err? {
          return JStr(TitleUnreadable);
        }
        return text.value;
      }
      i := i + 1;
    }
  }

  /** The title list of a well-formed database: a list of dicts. */
  predicate TitleList(database: Json, items: seq<Json>) {
    database.JObj? && Lookup(database.fields, "title") == Some(JArr(items)) &&
    forall item | item in items :: item.JObj?
  }

  /** The title is the `plain_text` of the first title item that has that key. */
  lemma {:induction false} TitleIsFirstPlainText(database: Json, items: seq<Json>, k: nat)
    requires TitleList(database, items)
    requires k < |items| && HasKey(items[k], "plain_text")
    requires forall j :: 0 <= j < k ==> !HasKey(items[j], "plain_text")
    ensures DatabaseTitle(database) == Lookup(items[k].fields, "plain_text").value
  {
    TitleFromAt(items, JStr(Untitled), k);
  }

  lemma {:induction false} TitleFromAt(items: seq<Json>, fallback: Json, k: nat)
    requires forall item | item in items :: item.JObj?
    requires k < |items| && HasKey(items[k], "plain_text")
    requires forall j :: 0 <= j < k ==> !HasKey(items[j], "plain_text")
    ensures TitleFrom(items, fallback) == Ok(Lookup(items[k].fields, "plain_text").value)
  {
    assert items[0] in items;
    if k > 0 {
      assert !HasKey(items[0], "plain_text");
      forall j | 0 <= j < k - 1 ensures !HasKey(items[1..][j], "plain_text") {
        assert items[1..][j] == items[j + 1];
      }
      TitleFromAt(items[1..], fallback, k - 1);
    }
  }

  /** A database without a title key, or whose title items all lack `plain_text`, is
      untitled. */
  lemma {:induction false} UntitledDatabase(database: Json, items: seq<Json>)
    requires database.JObj?
    requires "title" !in Keys(database.fields) ||
             (TitleList(database, items) && forall j :: 0 <= j < |items| ==> !HasKey(items[j], "plain_text"))
    ensures DatabaseTitle(database) == JStr(Untitled)
  {
    if "title" in Keys(database.fields) {
      TitleFromNone(items, JStr(Untitled));
    }
  }

  lemma {:induction false} TitleFromNone(items: seq<Json>, fallback: Json)
    requires forall item | item in items :: item.JObj?
    requires forall j :: 0 <= j < |items| ==> !HasKey(items[j], "plain_text")
    ensures TitleFrom(items, fallback) == Ok(fallback)
  {
    if items != [] {
      assert items[0] in items;
      assert !HasKey(items[0], "plain_text");
      forall j | 0 <= j < |items| - 1 ensures !HasKey(items[1..][j], "plain_text") {
        assert items[1..][j] == items[j + 1];
      }
      TitleFromNone(items[1..], fallback);
    }
  }

  /** A non-dict database fails softly unless `"title" in database` is False: a scalar
      has no `in`, and a list or string that contains "title" cannot be indexed by it. */
  lemma UnreadableDatabase(database: Json)
    requires !database.JObj? && In("title", database) != Ok(false)
    ensures DatabaseTitle(database) == JStr(TitleUnreadable)
  {
  }

  /** A truthy title that is a number or a boolean cannot be iterated. */
  lemma UnreadableTitleValue(database: Json, t: Json)
    requires database.JObj? && Lookup(database.fields, "title") == Some(t)
    requires Truthy(t) && !(t.JObj? || t.JArr? || t.JStr?)
    ensures DatabaseTitle(database) == JStr(TitleUnreadable)
  {
    assert Index(database, "title") == Ok(t);
  }

  /** A title item that is not a container, reached before any item with `plain_text`,
      makes the extraction fail softly. */
  lemma {:induction false} UnreadableTitle(database: Json, items: seq<Json>, k: nat)
    requires database.JObj? && Lookup(database.fields, "title") == Some(JArr(items))
    requires k < |items| && !(items[k].JObj? || items[k].JArr? || items[k].JStr?)
    requires forall j :: 0 <= j < k ==> items[j].JObj? && !HasKey(items[j], "plain_text")
    ensures DatabaseTitle(database) == JStr(TitleUnreadable)
  {
    assert Index(database, "title") == Ok(JArr(items));
    TitleFromScalar(items, JStr(Untitled), k);
  }

  lemma {:induction false} TitleFromScalar(items: seq<Json>, fallback: Json, k: nat)
    requires k < |items| && !(items[k].JObj? || items[k].JArr? || items[k].JStr?)
    requires forall j :: 0 <= j < k ==> items[j].JObj? && !HasKey(items[j], "plain_text")
    ensures TitleFrom(items, fallback).Err?
  {
    if k > 0 {
      assert items[0].JObj? && !HasKey(items[0], "plain_text");
      forall j | 0 <= j < k - 1 ensures items[1..][j].JObj? && !HasKey(items[1..][j], "plain_text") {
        assert items[1..][j] == items[j + 1];
      }
      TitleFromScalar(items[1..], fallback, k - 1);
    }
  }

  // ---------------------------------------------------------------- lookup by name

  /** Whether `name.lower() in title.lower()` holds for this database's title. */
  predicate NameMatches(name: string, db: Json) {
    var title := DatabaseTitle(db);
    title.JStr? && IsSubstring(Lower(name), Lower(title.s))
  }

  /** The loop of `find_database_by_name`: the id of the first database whose title
      contains the name, ignoring case. A title that is not a string has no `.lower()`. */
  function MatchFrom(name: string, dbs: seq<Json>): Result<Option<Json>> {
    if dbs == [] then Ok(None)
    else
      var title := DatabaseTitle(dbs[0]);
      if !title.JStr? then Err(AttributeError)
      else if IsSubstring(Lower(name), Lower(title.s)) then
        var id :- Index(dbs[0], "id");
        Ok(Some(id))
      else MatchFrom(name, dbs[1..])
  }

  function FindInListing(name: string, databases: Json): Result<Option<Json>> {
    var has :- In("results", databases);
    if !has then Ok(None)
    else
      var results :- Index(databases, "results");
      if !Truthy(results) then Ok(None)
      else
        var dbs :- Iter(results);
        MatchFrom(name, dbs)
  }

  /** `find_database_by_name`: None when nothing matches. */
  function FindDatabase(api: Notion, name: string): Result<Option<Json>> {
    var databases :- DatabaseListing(api);
    FindInListing(name, databases)
  }

  method FindDatabaseByName(api: Notion, name: string) returns (r: Result<Option<Json>>)
    ensures r == FindDatabase(api, name)
  {
    var databases := GetDatabases(api);
    if databases.Err? {
      return Err(databases.error);
    }
    var has := In("results", databases.value);
    if has.Err? {
      return Err(has.error);
    }
    if !has.value {
      return Ok(None);
    }
    var results := Index(databases.value, "results");
    if results.Err? {
      return Err(results.error);
    }
    if !Truthy(results.value) {
      return Ok(None);
    }
    var dbs := Iter(results.value);
    if dbs.Err? {
      return Err(dbs.error);
    }
    var i := 0;
    while i < |dbs.value|
      invariant 0 <= i <= |dbs.value|
      invariant MatchFrom(name, dbs.value) == MatchFrom(name, dbs.value[i..])
    {
      assert dbs.value[i..][1..] == dbs.value[i + 1..];
      var db := dbs.value[i];
      var title := ExtractTitleFromDatabase(db);
      if !title.JStr? {
        return Err(AttributeError);
      }
      if IsSubstring(Lower(name), Lower(title.s)) {
        var id := Index(db, "id");
        if id.Err? {
          return Err(id.error);
        }
        return Ok(Some(id.value));
      }
      i := i + 1;
    }
    return Ok(None);
  }

  /** A database entry the lookup can read: a dict with an id and a string title. */
  predicate Listed(db: Json) {
    HasKey(db, "id") && DatabaseTitle(db).JStr?
  }

  /** Among readable entries, the lookup returns the id of the first database whose
      title contains the name, ignoring case. */
  lemma {:induction false} FindsFirstMatch(name: string, dbs: seq<Json>, k: nat)
    requires k < |dbs| && Listed(dbs[k]) && NameMatches(name, dbs[k])
    requires forall j :: 0 <= j < k ==> Listed(dbs[j]) && !NameMatches(name, dbs[j])
    ensures MatchFrom(name, dbs) == Ok(Some(Lookup(dbs[k].fields, "id").value))
  {
    if k > 0 {
      assert Listed(dbs[0]) && !NameMatches(name, dbs[0]);
      forall j | 0 <= j < k - 1 ensures Listed(dbs[1..][j]) && !NameMatches(name, dbs[1..][j]) {
        assert dbs[1..][j] == dbs[j + 1];
      }
      FindsFirstMatch(name, dbs[1..], k - 1);
    }
  }

  /** Among readable entries, no title containing the name means None. */
  lemma {:induction false} FindsNothing(name: string, dbs: seq<Json>)
    requires forall j :: 0 <= j < |dbs| ==> Listed(dbs[j]) && !NameMatches(name, dbs[j])
    ensures MatchFrom(name, dbs) == Ok(None)
  {
    if dbs != [] {
      assert Listed(dbs[0]) && !NameMatches(name, dbs[0]);
      forall j | 0 <= j < |dbs| - 1 ensures Listed(dbs[1..][j]) && !NameMatches(name, dbs[1..][j]) {
        assert dbs[1..][j] == dbs[j + 1];
      }
      FindsNothing(name, dbs[1..]);
    }
  }

  // ---------------------------------------------------------------- single requests

  /** `get_database`: the body whatever the status. */
  function GetDatabase(api: Notion, databaseId: Json): Result<Json> {
    BodyJson(api.get(DatabaseUrl(databaseId)))
  }

  /** `query_database`: a falsy filter is sent as `{}`. */
  function QueryDatabase(api: Notion, databaseId: Json, filter: Json): (r: Result<Json>)
    ensures r == BodyJson(api.post(QueryUrl(databaseId), if Truthy(filter) then filter else JObj([])))
  {
    var payload := if Truthy(filter) then filter else JObj([]);
    BodyJson(api.post(QueryUrl(databaseId), payload))
  }

  /** The filter reaches Notion unchanged: the query's answer is determined by what
      Notion returns for the filter itself (or `{}` for a falsy one), and a falsy filter
      is the same query as `{}`. */
  lemma QuerySendsFilter(api1: Notion, api2: Notion, databaseId: Json, filter: Json)
    requires var payload := if Truthy(filter) then filter else JObj([]);
             api1.post(QueryUrl(databaseId), payload) == api2.post(QueryUrl(databaseId), payload)
    ensures QueryDatabase(api1, databaseId, filter) == QueryDatabase(api2, databaseId, filter)
    ensures !Truthy(filter) ==> QueryDatabase(api1, databaseId, filter) == QueryDatabase(api1, databaseId, JObj([]))
  {
  }

  /** `update_page`: PATCH with the properties wrapped in `{"properties": ...}`. */
  function UpdatePage(api: Notion, pageId: Json, properties: Json): Result<Json> {
    BodyJson(api.patch(PageUrl(pageId), JObj([("properties", properties)])))
  }

  // ---------------------------------------------------------------- creating pages

  /** The payload of `create_page`: parent and properties, then children when truthy. */
  function PagePayload(parentId: Json, properties: Json, children: Json): Json {
    JObj([("parent", JObj([("database_id", parentId)])), ("properties", properties)] +
         IfTruthy("children", children))
  }

  method CreatePage(api: Notion, parentId: Json, properties: Json, children: Json)
    returns (r: Result<Json>)
    ensures r == BodyJson(api.post(PagesUrl, PagePayload(parentId, properties, children)))
  {
    var payload: Fields := [("parent", JObj([("database_id", parentId)])), ("properties", properties)];
    if Truthy(children) {
      PutNew(payload, "children", children);
      payload := Put(payload, "children", children);
    }
    assert payload == [("parent", JObj([("database_id", parentId)])), ("properties", properties)] +
                      IfTruthy("children", children);
    r := BodyJson(api.post(PagesUrl, JObj(payload)));
  }

  /** A page payload has distinct keys, and children appear exactly when truthy. */
  lemma PagePayloadKeys(parentId: Json, properties: Json, children: Json)
    ensures UniqueKeys(PagePayload(parentId, properties, children).fields)
    ensures Truthy(children) ==>
              Keys(PagePayload(parentId, properties, children).fields) == ["parent", "properties", "children"]
    ensures !Truthy(children) ==>
              Keys(PagePayload(parentId, properties, children).fields) == ["parent", "properties"]
    ensures Lookup(PagePayload(parentId, properties, children).fields, "properties") == Some(properties)
    ensures Lookup(PagePayload(parentId, properties, children).fields, "children") ==
              if Truthy(children) then Some(children) else None
  {
    var parent := ("parent", JObj([("database_id", parentId)]));
    var fields := PagePayload(parentId, properties, children).fields;
    if Truthy(children) {
      assert fields == [parent, ("properties", properties), ("children", children)];
      PayloadWithChildren(fields, parent.1, properties, children);
    } else {
      assert fields == [parent, ("properties", properties)];
      PayloadWithoutChildren(fields, parent.1, properties);
    }
  }

  lemma PayloadWithChildren(fields: Fields, parent: Json, properties: Json, children: Json)
    requires fields == [("parent", parent), ("properties", properties), ("children", children)]
    ensures UniqueKeys(fields) && Keys(fields) == ["parent", "properties", "children"]
    ensures Lookup(fields, "properties") == Some(properties) && Lookup(fields, "children") == Some(children)
    ensures Lookup(fields, "icon") == None
  {
    LookupFirst(fields, 1);
    LookupFirst(fields, 2);
  }

  lemma PayloadWithoutChildren(fields: Fields, parent: Json, properties: Json)
    requires fields == [("parent", parent), ("properties", properties)]
    ensures UniqueKeys(fields) && Keys(fields) == ["parent", "properties"]
    ensures Lookup(fields, "properties") == Some(properties) && Lookup(fields, "children") == None
    ensures Lookup(fields, "icon") == None
  {
    LookupFirst(fields, 1);
  }

  /** The `icon` of a workspace page: a URL is an external image, anything else an
      emoji. */
  function IconJson(icon: string): Json {
    if StartsWith(icon, "http") then JObj([("type", JStr("external")), ("external", JObj([("url", JStr(icon))]))])
    else JObj([("type", JStr("emoji")), ("emoji", JStr(icon))])
  }

  /** The icon an icon object stands for: the image URL of an external icon, or the
      emoji. */
  function IconText(j: Json): Option<string> {
    if !j.JObj? then None
    else
      var t := Lookup(j.fields, "type");
      if t == Some(JStr("external")) then
        var e := Lookup(j.fields, "external");
        if e.Some? && e.value.JObj? && Lookup(e.value.fields, "url").Some? && Lookup(e.value.fields, "url").value.JStr?
        then Some(Lookup(e.value.fields, "url").value.s)
        else None
      else if t == Some(JStr("emoji")) then
        var e := Lookup(j.fields, "emoji");
        if e.Some? && e.value.JStr? then Some(e.value.s) else None
      else None
  }

  function TitleProperty(title: Json): Json {
    JObj([("title", JArr([JObj([("type", JStr("text")), ("text", JObj([("content", title)]))])]))])
  }

  function WorkspaceBase(parentPageId: Json, title: Json): Fields {
    [("parent", JObj([("type", JStr("page_id")), ("page_id", parentPageId)])),
     ("properties", TitleProperty(title))]
  }

  /** The payload of `create_page_in_workspace` under the chosen parent page; a truthy
      icon that is not a string has no `startswith`. */
  function WorkspacePayload(parentPageId: Json, title: Json, icon: Json, children: Json): Result<Json> {
    if Truthy(icon) && !icon.JStr? then Err(AttributeError)
    else
      var iconPart := if Truthy(icon) then [("icon", IconJson(icon.s))] else [];
      Ok(JObj(WorkspaceBase(parentPageId, title) + iconPart + IfTruthy("children", children)))
  }

  /** The first search result's id, None when the search listed nothing. */
  function FirstResultId(search: Response): Result<Option<Json>> {
    var results :- BodyJson(search);
    var has :- In("results", results);
    if !has then Ok(None)
    else
      var listed :- Index(results, "results");
      if !Truthy(listed) then Ok(None)
      else
        var first :- First(listed);
        var id :- Index(first, "id");
        Ok(Some(id))
  }

  /** `create_page_in_workspace`: the new page goes under the most recently edited page. */
  function WorkspacePage(api: Notion, title: Json, icon: Json, children: Json): Result<Json> {
    var search := api.post(SearchUrl, TopPageSearch);
    if search.status != 200 then Ok(ErrorDict(SearchFailedPrefix + search.text))
    else
      var parent :- FirstResultId(search);
      match parent
      case None => Ok(ErrorDict(NoUsablePage))
      case Some(pageId) =>
        var payload :- WorkspacePayload(pageId, title, icon, children);
        BodyJson(api.post(PagesUrl, payload))
  }

  method CreatePageInWorkspace(api: Notion, title: Json, icon: Json, children: Json)
    returns (r: Result<Json>)
    ensures r == WorkspacePage(api, title, icon, children)
  {
    var search := api.post(SearchUrl, TopPageSearch);
    if search.status != 200 {
      return Ok(ErrorDict(SearchFailedPrefix + search.text));
    }
    var parent := FirstResultId(search);
    if parent.Err? {
      return Err(parent.error);
    }
    if parent.value.None? {
      return Ok(ErrorDict(NoUsablePage));
    }
    var payload := BuildWorkspacePayload(parent.value.value, title, icon, children);
    if payload.Err? {
      return Err(payload.error);
    }
    r := BodyJson(api.post(PagesUrl, payload.value));
  }

  /** The payload dictionary of `create_page_in_workspace`, filled key by key. */
  method BuildWorkspacePayload(parentPageId: Json, title: Json, icon: Json, children: Json)
    returns (r: Result<Json>)
    ensures r == WorkspacePayload(parentPageId, title, icon, children)
  {
    ghost var base := WorkspaceBase(parentPageId, title);
    ghost var iconPart := if Truthy(icon) && icon.JStr? then [("icon", IconJson(icon.s))] else [];
    var payload := WorkspaceBase(parentPageId, title);
    if Truthy(icon) {
      if !icon.JStr? {
        return Err(AttributeError);
      }
      IconStep(payload, IconJson(icon.s));
      payload := Put(payload, "icon", IconJson(icon.s));
    }
    assert payload == base + iconPart;
    if Truthy(children) {
      ChildrenStep(payload, children);
      payload := Put(payload, "children", children);
    }
    assert payload == base + iconPart + IfTruthy("children", children);
    r := Ok(JObj(payload));
  }

  /** Setting the icon on the parent-and-title payload appends it. */
  lemma IconStep(base: Fields, icon: Json)
    requires Keys(base) == ["parent", "properties"]
    ensures Put(base, "icon", icon) == base + [("icon", icon)]
  {
    PutNew(base, "icon", icon);
  }

  /** Setting children on the payload, with or without an icon, appends them. */
  lemma ChildrenStep(payload: Fields, children: Json)
    requires Keys(payload) == ["parent", "properties"] || Keys(payload) == ["parent", "properties", "icon"]
    ensures Put(payload, "children", children) == payload + [("children", children)]
  {
    PutNew(payload, "children", children);
  }

  /** The icon key is present exactly when the icon is truthy; children likewise; and
      only a truthy non-string icon makes the payload fail. */
  lemma WorkspacePayloadKeys(parentPageId: Json, title: Json, icon: Json, children: Json)
    ensures WorkspacePayload(parentPageId, title, icon, children).Err? <==> Truthy(icon) && !icon.JStr?
    ensures var p := WorkspacePayload(parentPageId, title, icon, children);
            p.Ok? ==> UniqueKeys(p.value.fields) &&
                      Lookup(p.value.fields, "icon") == (if Truthy(icon) then Some(IconJson(icon.s)) else None) &&
                      Lookup(p.value.fields, "children") == (if Truthy(children) then Some(children) else None)
  {
    if !(Truthy(icon) && !icon.JStr?) {
      var base := WorkspaceBase(parentPageId, title);
      var iconSent := if Truthy(icon) then Some(IconJson(icon.s)) else None;
      var kidsSent := if Truthy(children) then Some(children) else None;
      assert WorkspacePayload(parentPageId, title, icon, children).value.fields ==
             base + Optional("icon", iconSent) + Optional("children", kidsSent);
      OptionalLookups(base[0].1, base[1].1, iconSent, kidsSent);
    }
  }

  /** One pair when the value is present, none otherwise. */
  function Optional(k: string, v: Option<Json>): Fields {
    if v.Some? then [(k, v.value)] else []
  }

  /** The keys of parent, properties, an optional icon and optional children are
      distinct, and the optional ones read back as given. */
  lemma OptionalLookups(parent: Json, properties: Json, icon: Option<Json>, children: Option<Json>)
    ensures var fields := [("parent", parent), ("properties", properties)] +
                          Optional("icon", icon) + Optional("children", children);
            UniqueKeys(fields) && Lookup(fields, "icon") == icon && Lookup(fields, "children") == children
  {
    var fields := [("parent", parent), ("properties", properties)] +
                  Optional("icon", icon) + Optional("children", children);
    if icon.Some? && children.Some? {
      assert fields == [("parent", parent), ("properties", properties), ("icon", icon.value), ("children", children.value)];
      PayloadWithIconAndChildren(fields, parent, properties, icon.value, children.value);
    } else if icon.Some? {
      assert fields == [("parent", parent), ("properties", properties), ("icon", icon.value)];
      PayloadWithIcon(fields, parent, properties, icon.value);
    } else if children.Some? {
      assert fields == [("parent", parent), ("properties", properties), ("children", children.value)];
      PayloadWithChildren(fields, parent, properties, children.value);
    } else {
      assert fields == [("parent", parent), ("properties", properties)];
      PayloadWithoutChildren(fields, parent, properties);
    }
  }

  lemma PayloadWithIcon(fields: Fields, parent: Json, properties: Json, icon: Json)
    requires fields == [("parent", parent), ("properties", properties), ("icon", icon)]
    ensures UniqueKeys(fields)
    ensures Lookup(fields, "icon") == Some(icon) && Lookup(fields, "children") == None
  {
    assert Keys(fields) == ["parent", "properties", "icon"];
    LookupFirst(fields, 2);
  }

  lemma PayloadWithIconAndChildren(fields: Fields, parent: Json, properties: Json, icon: Json, children: Json)
    requires fields == [("parent", parent), ("properties", properties), ("icon", icon), ("children", children)]
    ensures UniqueKeys(fields)
    ensures Lookup(fields, "icon") == Some(icon) && Lookup(fields, "children") == Some(children)
  {
    var init := [("parent", parent), ("properties", properties), ("icon", icon)];
    PayloadWithIcon(init, parent, properties, icon);
    assert fields == init + [("children", children)];
    UniqueSnoc(init, ("children", children));
    LookupFirst(fields, 2);
    LookupFirst(fields, 3);
  }

  /** An icon starting with "http" is sent as an external image URL, any other as an
      emoji. */
  lemma IconKind(icon: string)
    ensures StartsWith(icon, "http") ==>
              IconJson(icon) == JObj([("type", JStr("external")), ("external", JObj([("url", JStr(icon))]))])
    ensures !StartsWith(icon, "http") ==> IconJson(icon) == JObj([("type", JStr("emoji")), ("emoji", JStr(icon))])
    ensures IconJson(icon).JObj? &&
            Lookup(IconJson(icon).fields, "type") == Some(JStr(if StartsWith(icon, "http") then "external" else "emoji"))
    ensures IconText(IconJson(icon)) == Some(icon)
  {
    var j := IconJson(icon);
    if StartsWith(icon, "http") {
      var e := JObj([("url", JStr(icon))]);
      assert Lookup(j.fields, "external") == Some(e);
      assert Lookup(e.fields, "url") == Some(JStr(icon));
    } else {
      assert Lookup(j.fields, "emoji") == Some(JStr(icon));
    }
  }

  /** A search that fails or lists nothing yields an error dict, and no page request. */
  lemma WorkspaceSearchErrors(api: Notion, title: Json, icon: Json, children: Json)
    ensures var search := api.post(SearchUrl, TopPageSearch);
            search.status != 200 ==>
              WorkspacePage(api, title, icon, children) == Ok(ErrorDict(SearchFailedPrefix + search.text))
    ensures var search := api.post(SearchUrl, TopPageSearch);
            search.status == 200 && FirstResultId(search) == Ok(None) ==>
              WorkspacePage(api, title, icon, children) == Ok(ErrorDict(NoUsablePage))
  {
  }

  /** With a 200 search whose first result has an id, the page is created under that
      page. */
  lemma WorkspaceUnderFirstResult(api: Notion, title: Json, icon: Json, children: Json, pid: Json)
    requires var search := api.post(SearchUrl, TopPageSearch);
             search.status == 200 && FirstResultId(search) == Ok(Some(pid))
    ensures WorkspacePage(api, title, icon, children) ==
              (var payload :- WorkspacePayload(pid, title, icon, children);
               BodyJson(api.post(PagesUrl, payload)))
  {
  }

  // ---------------------------------------------------------------- creating databases

  /** The schema `create_database` uses when no properties are given. */
  const DefaultSchema: Json :=
    JObj([
      ("Name", JObj([("title", JObj([]))])),
      ("Description", JObj([("rich_text", JObj([]))])),
      ("Status", JObj([("select", JObj([("options", JArr([
        JObj([("name", JStr("진행 중")), ("color", JStr("blue"))]),
        JObj([("name", JStr("완료")), ("color", JStr("green"))]),
        JObj([("name", JStr("대기 중")), ("color", JStr("yellow"))])]))]))])),
      ("생성일", JObj([("date", JObj([]))]))])

  function DatabasePayload(parentPageId: Json, title: Json, properties: Json): Json {
    JObj([("parent", JObj([("type", JStr("page_id")), ("page_id", parentPageId)])),
          ("title", JArr([JObj([("type", JStr("text")), ("text", JObj([("content", title)]))])])),
          ("properties", properties)])
  }

  /** `create_database`: without a parent page the most recently edited page is used,
      and falsy properties are replaced by the default schema. */
  function CreateDatabase(api: Notion, parentPageId: Json, title: Json, properties: Json): Result<Json> {
    var schema := if Truthy(properties) then properties else DefaultSchema;
    if Truthy(parentPageId) then
      BodyJson(api.post(DatabasesUrl, DatabasePayload(parentPageId, title, schema)))
    else
      var search := api.post(SearchUrl, PageSearch);
      if search.status != 200 then Ok(ErrorDict(PageSearchFailed))
      else
        var parent :- FirstResultId(search);
        match parent
        case None => Ok(ErrorDict(NoParentPage))
        case Some(pageId) => BodyJson(api.post(DatabasesUrl, DatabasePayload(pageId, title, schema)))
  }

  /** The request `create_database` sends: the given parent when truthy, else the id of
      the first page search result; the given properties when truthy, else the default
      schema. Without a usable parent no database request is sent. */
  lemma CreateDatabaseRequest(api: Notion, parentPageId: Json, title: Json, properties: Json)
    ensures var schema := if Truthy(properties) then properties else DefaultSchema;
            Truthy(parentPageId) ==>
              CreateDatabase(api, parentPageId, title, properties) ==
                BodyJson(api.post(DatabasesUrl, DatabasePayload(parentPageId, title, schema)))
    ensures var schema := if Truthy(properties) then properties else DefaultSchema;
            var search := api.post(SearchUrl, PageSearch);
            !Truthy(parentPageId) && search.status == 200 && FirstResultId(search).Ok? &&
            FirstResultId(search).value.Some? ==>
              CreateDatabase(api, parentPageId, title, properties) ==
                BodyJson(api.post(DatabasesUrl, DatabasePayload(FirstResultId(search).value.value, title, schema)))
    ensures var search := api.post(SearchUrl, PageSearch);
            !Truthy(parentPageId) ==>
              (search.status != 200 ==> CreateDatabase(api, parentPageId, title, properties) == Ok(ErrorDict(PageSearchFailed))) &&
              (search.status == 200 && FirstResultId(search) == Ok(None) ==>
                 CreateDatabase(api, parentPageId, title, properties) == Ok(ErrorDict(NoParentPage)))
  {
    var schema := if Truthy(properties) then properties else DefaultSchema;
    var search := api.post(SearchUrl, PageSearch);
    if !Truthy(parentPageId) && search.status == 200 {
      var parent := FirstResultId(search);
      if parent.Ok? && parent.value.Some? {
        assert CreateDatabase(api, parentPageId, title, properties) ==
               BodyJson(api.post(DatabasesUrl, DatabasePayload(parent.value.value, title, schema)));
      }
    }
  }

  /** The first search result is the id of the first listed entry; an empty or missing
      listing is None. */
  lemma FirstResultIdSpec(search: Response)
    ensures search.body.Some? && search.body.value.JObj? &&
            (var rs := Lookup(search.body.value.fields, "results");
             rs.Some? && rs.value.JArr? && rs.value.items != [] && HasKey(rs.value.items[0], "id")) ==>
              FirstResultId(search) ==
                Ok(Some(Lookup(Lookup(search.body.value.fields, "results").value.items[0].fields, "id").value))
    ensures search.body.Some? && search.body.value.JObj? &&
            (var rs := Lookup(search.body.value.fields, "results"); rs.None? || !Truthy(rs.value)) ==>
              FirstResultId(search) == Ok(None)
  {
  }
}
