/** The texts the controller builds from Notion responses: the query report of
    `_query_database` (a header, then one block per page with its title, link and
    readable properties) and the database list of `_get_databases`. */
module Reports {
  import opened Common
  import opened Text
  import opened Json
  import opened NotionClient

  const UnknownName := "알 수 없음"
  const NoLink := "링크 없음"
  const NoValue := "값 없음"
  const Checked := "✅"
  const Unchecked := "❌"

  // ---------------------------------------------------------------- comprehensions

  /** The value a dict stores under `key` (None when there is none). */
  function ValueAt(j: Json, key: string): Json {
    if j.JObj? && Lookup(j.fields, key).Some? then Lookup(j.fields, key).value else JNull
  }

  /** The text of a string value. */
  function StrOf(j: Json): string {
    if j.JStr? then j.s else ""
  }

  /** `[item.get(key, '') for item in items if key in item]`. */
  function Gather(items: seq<Json>, key: string): Result<seq<Json>> {
    if items == [] then Ok([])
    else
      var has :- In(key, items[0]);
      if has then
        var v :- Get(items[0], key, JStr(""));
        var rest :- Gather(items[1..], key);
        Ok([v] + rest)
      else Gather(items[1..], key)
  }

  /** On a list of dicts the comprehension cannot fail, and it yields exactly the values
      stored under `key`, in order. */
  lemma {:induction false} GatherDicts(items: seq<Json>, key: string)
    requires forall i :: 0 <= i < |items| ==> items[i].JObj?
    ensures Gather(items, key).Ok?
    ensures forall v :: v in Gather(items, key).value <==>
              exists i :: 0 <= i < |items| && Lookup(items[i].fields, key) == Some(v)
  {
    if items != [] {
      var tail := items[1..];
      forall i | 0 <= i < |tail| ensures tail[i].JObj? {
        assert tail[i] == items[i + 1];
      }
      GatherDicts(tail, key);
      forall v ensures (exists i :: 0 <= i < |items| && Lookup(items[i].fields, key) == Some(v)) <==>
                       (Lookup(items[0].fields, key) == Some(v) ||
                        exists i :: 0 <= i < |tail| && Lookup(tail[i].fields, key) == Some(v)) {
        if exists i :: 0 <= i < |items| && Lookup(items[i].fields, key) == Some(v) {
          var i :| 0 <= i < |items| && Lookup(items[i].fields, key) == Some(v);
          if i > 0 {
            assert tail[i - 1] == items[i];
          }
        }
        if exists i :: 0 <= i < |tail| && Lookup(tail[i].fields, key) == Some(v) {
          var i :| 0 <= i < |tail| && Lookup(tail[i].fields, key) == Some(v);
          assert tail[i] == items[i + 1];
        }
      }
    }
  }

  /** When every dict carries `key`, the comprehension is the list of their values. */
  lemma {:induction false} GatherAll(items: seq<Json>, key: string)
    requires forall i :: 0 <= i < |items| ==> HasKey(items[i], key)
    ensures Gather(items, key) == Ok(seq(|items|, i requires 0 <= i < |items| => ValueAt(items[i], key)))
  {
    if items != [] {
      var tail := items[1..];
      forall i | 0 <= i < |tail| ensures HasKey(tail[i], key) {
        assert tail[i] == items[i + 1];
      }
      GatherAll(tail, key);
      assert In(key, items[0]) == Ok(true);
      assert Get(items[0], key, JStr("")) == Ok(ValueAt(items[0], key));
      var want := seq(|items|, i requires 0 <= i < |items| => ValueAt(items[i], key));
      assert want == [want[0]] + want[1..];
      assert want[1..] == seq(|tail|, i requires 0 <= i < |tail| => ValueAt(tail[i], key));
      assert Gather(items, key) == Ok([ValueAt(items[0], key)] + Gather(tail, key).value);
    } else {
      assert seq(|items|, i requires 0 <= i < |items| => ValueAt(items[i], key)) == [];
    }
  }

  /** `sep.join(xs)`: every item must be a string. */
  function JoinStrs(sep: string, xs: seq<Json>): (r: Result<string>)
    ensures r.Ok? <==> forall x | x in xs :: x.JStr?
    ensures r.Err? ==> r.error == TypeError
  {
    if forall x | x in xs :: x.JStr? then
      Ok(Join(sep, seq(|xs|, i requires 0 <= i < |xs| => StrOf(xs[i]))))
    else Err(TypeError)
  }

  // ---------------------------------------------------------------- one page

  /** The title loop of one page: the first property of type title whose `title` list
      is truthy gives the joined plain texts; a title property with an empty list is
      passed over. */
  function PageTitleFrom(props: Fields): Result<string> {
    if props == [] then Ok(Untitled)
    else
      var t :- Get(props[0].1, "type", JNull);
      var arr := Get(props[0].1, "title", JArr([])).value;
      if t == JStr("title") && Truthy(arr) then
        var items :- Iter(arr);
        var texts :- Gather(items, "plain_text");
        JoinStrs("", texts)
      else PageTitleFrom(props[1..])
  }

  method FindPageTitle(props: Fields) returns (r: Result<string>)
    ensures r == PageTitleFrom(props)
  {
    var i := 0;
    while i < |props|
      invariant 0 <= i <= |props|
      invariant PageTitleFrom(props) == PageTitleFrom(props[i..])
    {
      assert props[i..][1..] == props[i + 1..];
      var t := Get(props[i].1, "type", JNull);
      if t.Err? {
        return Err(t.error);
      }
      if t.value == JStr("title") {
        var arr := Get(props[i].1, "title", JArr([])).value;
        if Truthy(arr) {
          var items := Iter(arr);
          if items.Err? {
            return Err(items.error);
          }
          var texts := Gather(items.value, "plain_text");
          if texts.Err? {
            return Err(texts.error);
          }
          return JoinStrs("", texts.value);
        }
      }
      i := i + 1;
    }
    return Ok(Untitled);
  }

  /** A property whose `title` holds a truthy list of text items. */
  predicate NonEmptyTitle(entry: (string, Json)) {
    entry.1.JObj? && Get(entry.1, "type", JNull) == Ok(JStr("title")) &&
    Truthy(Get(entry.1, "title", JArr([])).value)
  }

  /** The title is the concatenation of the plain texts of the first title property
      with a non-empty list. */
  lemma {:induction false} PageTitleIsFirstNonEmpty(props: Fields, k: nat, items: seq<Json>)
    requires k < |props| && NonEmptyTitle(props[k])
    requires Get(props[k].1, "title", JArr([])) == Ok(JArr(items))
    requires forall i :: 0 <= i < |items| ==> HasKey(items[i], "plain_text") && ValueAt(items[i], "plain_text").JStr?
    requires forall j :: 0 <= j < k ==> props[j].1.JObj? && !NonEmptyTitle(props[j])
    ensures PageTitleFrom(props) ==
            Ok(Join("", seq(|items|, i requires 0 <= i < |items| => StrOf(ValueAt(items[i], "plain_text")))))
  {
    if k > 0 {
      forall j | 0 <= j < k - 1 ensures props[1..][j].1.JObj? && !NonEmptyTitle(props[1..][j]) {
        assert props[1..][j] == props[j + 1];
      }
      assert props[1..][k - 1] == props[k];
      PageTitleIsFirstNonEmpty(props[1..], k - 1, items);
      TitlePassesOver(props);
    } else {
      TitleFromFirst(props, items);
    }
  }

  /** A first property that is no title with a non-empty list is passed over. */
  lemma {:induction false} TitlePassesOver(props: Fields)
    requires props != [] && props[0].1.JObj? && !NonEmptyTitle(props[0])
    ensures PageTitleFrom(props) == PageTitleFrom(props[1..])
  {
  }

  /** A first property that is a title with a non-empty list gives the title. */
  lemma {:induction false} TitleFromFirst(props: Fields, items: seq<Json>)
    requires props != [] && NonEmptyTitle(props[0])
    requires Get(props[0].1, "title", JArr([])) == Ok(JArr(items))
    requires forall i :: 0 <= i < |items| ==> HasKey(items[i], "plain_text") && ValueAt(items[i], "plain_text").JStr?
    ensures PageTitleFrom(props) ==
            Ok(Join("", seq(|items|, i requires 0 <= i < |items| => StrOf(ValueAt(items[i], "plain_text")))))
  {
    GatherAll(items, "plain_text");
    var texts := seq(|items|, i requires 0 <= i < |items| => ValueAt(items[i], "plain_text"));
    forall x | x in texts ensures x.JStr? {
    }
    assert seq(|texts|, i requires 0 <= i < |texts| => StrOf(texts[i])) ==
           seq(|items|, i requires 0 <= i < |items| => StrOf(ValueAt(items[i], "plain_text")));
  }

  /** A page without a title property holding a non-empty list is untitled. */
  lemma {:induction false} PageUntitled(props: Fields)
    requires forall j :: 0 <= j < |props| ==> props[j].1.JObj? && !NonEmptyTitle(props[j])
    ensures PageTitleFrom(props) == Ok(Untitled)
  {
    if props != [] {
      forall j | 0 <= j < |props| - 1 ensures props[1..][j].1.JObj? && !NonEmptyTitle(props[1..][j]) {
        assert props[1..][j] == props[j + 1];
      }
      PageUntitled(props[1..]);
    }
  }

  /** The start date alone, or "start ~ end" when both are set. */
  function DateValue(start: Json, end: Json): Json {
    if Truthy(start) && Truthy(end) then JStr(PyStr(start) + " ~ " + PyStr(end)) else start
  }

  function CheckMark(b: Json): Json {
    JStr(if Truthy(b) then Checked else Unchecked)
  }

  /** The displayed value of a formula property. */
  function FormulaValue(f: Json): Result<Json> {
    var hasString :- In("string", f);
    if hasString then Get(f, "string", JStr(""))
    else if In("number", f).value then
      var n :- Get(f, "number", JInt(0));
      Ok(JStr(PyStr(n)))
    else if In("boolean", f).value then
      var b :- Get(f, "boolean", JNull);
      Ok(CheckMark(b))
    else if In("date", f).value then
      var d :- Get(f, "date", JObj([]));
      if Truthy(d) then Get(d, "start", JStr("")) else Ok(JStr(""))
    else Ok(JStr(NoValue))
  }

  /** The `field` of every item listed under `key`, joined by `sep`. */
  function JoinedItems(data: Json, key: string, field: string, sep: string): Result<Json>
    requires data.JObj?
  {
    var items :- Iter(Get(data, key, JArr([])).value);
    var texts :- Gather(items, field);
    var s :- JoinStrs(sep, texts);
    Ok(JStr(s))
  }

  /** The name of the selected option, or empty when nothing is selected. */
  function SelectName(data: Json): Result<Json>
    requires data.JObj?
  {
    var sel := Get(data, "select", JObj([])).value;
    if Truthy(sel) then Get(sel, "name", JStr("")) else Ok(JStr(""))
  }

  /** The value of a date property. */
  function DateProp(data: Json): Result<Json>
    requires data.JObj?
  {
    var d := Get(data, "date", JObj([])).value;
    if Truthy(d) then
      var start :- Get(d, "start", JStr(""));
      Ok(DateValue(start, Get(d, "end", JStr("")).value))
    else Ok(DateValue(JStr(""), JStr("")))
  }

  /** The displayed value of a property of type `t`. */
  function PropValue(data: Json, t: Json): Result<Json>
    requires data.JObj?
  {
    if t == JStr("rich_text") then JoinedItems(data, "rich_text", "plain_text", "")
    else if t == JStr("number") then Ok(Get(data, "number", JInt(0)).value)
    else if t == JStr("select") then SelectName(data)
    else if t == JStr("multi_select") then JoinedItems(data, "multi_select", "name", ", ")
    else if t == JStr("date") then DateProp(data)
    else if t == JStr("checkbox") then Ok(CheckMark(Get(data, "checkbox", JNull).value))
    else if t in {JStr("url"), JStr("email"), JStr("phone_number")} then Ok(Get(data, t.s, JStr("")).value)
    else if t == JStr("formula") then FormulaValue(Get(data, "formula", JObj([])).value)
    else Ok(JStr(NoValue))
  }

  /** The line shown for one property, if any: title properties are skipped, and so is
      a value that is falsy or prints as blank. */
  function PropLine(name: string, data: Json): Result<Option<string>> {
    if name == "title" then Ok(None)
    else
      var t :- Get(data, "type", JNull);
      if t == JStr("title") then Ok(None)
      else
        var v :- PropValue(data, t);
        Ok(if Truthy(v) && Strip(PyStr(v)) != "" then Some("   " + name + ": " + PyStr(v)) else None)
  }

  function PropLineOf(entry: (string, Json)): Result<Option<string>> {
    PropLine(entry.0, entry.1)
  }

  /** The lines that are present, in order. */
  function Somes(xs: seq<Option<string>>): (r: seq<string>)
    ensures |r| <= |xs|
  {
    if xs == [] then []
    else
      var n := |xs| - 1;
      Somes(xs[..n]) + if xs[n].Some? then [xs[n].value] else []
  }

  /** The property loop of one page. */
  function PropLines(props: Fields): Result<seq<string>> {
    var lines :- MapAll(props, PropLineOf);
    Ok(Somes(lines))
  }

  method CollectPropertyLines(props: Fields) returns (r: Result<seq<string>>)
    ensures r == PropLines(props)
  {
    var lines: seq<string> := [];
    ghost var seen: seq<Option<string>> := [];
    var i := 0;
    while i < |props|
      invariant 0 <= i <= |props|
      invariant MapAll(props[..i], PropLineOf) == Ok(seen) && lines == Somes(seen)
    {
      var line := PropLine(props[i].0, props[i].1);
      MapAllStep(props, PropLineOf, i, seen);
      if line.Err? {
        return Err(line.error);
      }
      assert (seen + [line.value])[..|seen|] == seen;
      seen := seen + [line.value];
      if line.value.Some? {
        lines := lines + [line.value.value];
      }
      i := i + 1;
    }
    assert props[..i] == props;
    return Ok(lines);
  }

  /** Title properties are never listed among the page's properties. */
  lemma TitleNotListed(name: string, data: Json)
    requires name == "title" || Get(data, "type", JNull) == Ok(JStr("title"))
    ensures PropLine(name, data) == Ok(None)
  {
  }

  /** A non-title property whose value is falsy, or prints as blank, is not listed; one
      whose value prints as non-blank is listed as "   name: value". */
  lemma BlankValueOmitted(name: string, data: Json, t: Json, v: Json)
    requires name != "title" && Get(data, "type", JNull) == Ok(t) && t != JStr("title")
    requires PropValue(data, t) == Ok(v)
    ensures !Truthy(v) || Strip(PyStr(v)) == "" ==> PropLine(name, data) == Ok(None)
    ensures Truthy(v) && Strip(PyStr(v)) != "" ==> PropLine(name, data) == Ok(Some("   " + name + ": " + PyStr(v)))
  {
  }

  /** A property of a type the report does not read is still listed, with the
      placeholder value. */
  lemma UnreadTypeShowsPlaceholder(name: string, data: Json, t: string)
    requires name != "title" && Get(data, "type", JNull) == Ok(JStr(t))
    requires t !in {"title", "rich_text", "number", "select", "multi_select", "date", "checkbox",
                    "url", "email", "phone_number", "formula"}
    ensures PropLine(name, data) == Ok(Some("   " + name + ": " + NoValue))
  {
    assert Strip(NoValue) == NoValue by {
      StrippedIffNoEdges(NoValue);
    }
  }

  /** A checkbox is always listed, as a check mark. */
  lemma CheckboxAlwaysListed(name: string, data: Json)
    requires name != "title" && Get(data, "type", JNull) == Ok(JStr("checkbox"))
    ensures var v := Get(data, "checkbox", JNull).value;
            PropLine(name, data) == Ok(Some("   " + name + ": " + (if Truthy(v) then Checked else Unchecked)))
  {
    assert Strip(Checked) == Checked by {
      StrippedIffNoEdges(Checked);
    }
    assert Strip(Unchecked) == Unchecked by {
      StrippedIffNoEdges(Unchecked);
    }
  }

  /** A date with both ends shows the range. */
  lemma DateRangeListed(name: string, start: string, end: string)
    requires name != "title" && start != "" && end != ""
    ensures var data := JObj([("type", JStr("date")), ("date", JObj([("start", JStr(start)), ("end", JStr(end))]))]);
            PropLine(name, data) == Ok(Some("   " + name + ": " + start + " ~ " + end))
  {
    var d := JObj([("start", JStr(start)), ("end", JStr(end))]);
    var data := JObj([("type", JStr("date")), ("date", d)]);
    var shown := start + " ~ " + end;
    assert "   " + name + ": " + shown == "   " + name + ": " + start + " ~ " + end;
    LookupUnique(data.fields, 0);
    LookupUnique(data.fields, 1);
    LookupUnique(d.fields, 0);
    LookupUnique(d.fields, 1);
    assert Get(data, "date", JObj([])) == Ok(d) && Truthy(d);
    assert Get(d, "start", JStr("")) == Ok(JStr(start)) && Get(d, "end", JStr("")) == Ok(JStr(end));
    DateOfRange(data, d, start, end);
    RangeNotBlank(start, end);
    LineOfValue(name, data, JStr("date"), shown);
  }

  /** The date branch of the value table, once both ends are found. */
  lemma DateOfRange(data: Json, d: Json, start: string, end: string)
    requires data.JObj? && Truthy(d)
    requires Get(data, "date", JObj([])) == Ok(d)
    requires Get(d, "start", JStr("")) == Ok(JStr(start)) && Get(d, "end", JStr("")) == Ok(JStr(end))
    requires start != "" && end != ""
    ensures PropValue(data, JStr("date")) == Ok(JStr(start + " ~ " + end))
  {
    assert DateProp(data) == Ok(JStr(start + " ~ " + end));
  }

  /** A property line once its type and value are known. */
  lemma LineOfValue(name: string, data: Json, t: Json, shown: string)
    requires name != "title" && data.JObj? && t != JStr("title")
    requires Lookup(data.fields, "type") == Some(t)
    requires PropValue(data, t) == Ok(JStr(shown)) && Strip(shown) != ""
    ensures PropLine(name, data) == Ok(Some("   " + name + ": " + shown))
  {
    StripEmptyIffBlank(shown);
    assert Truthy(JStr(shown)) && PyStr(JStr(shown)) == shown;
    assert Get(data, "type", JNull) == Ok(t);
  }

  lemma RangeNotBlank(start: string, end: string)
    ensures Strip(start + " ~ " + end) != ""
  {
    var shown := start + " ~ " + end;
    StripEmptyIffBlank(shown);
    assert shown[|start| + 1] == '~';
  }

  /** The block of page `i` (counting from 0), as `''.join(page_info)` builds it: the
      link and the property lines follow the header on the same line. */
  function PageBlock(i: nat, page: Json): Result<string> {
    var id :- Get(page, "id", JStr(UnknownName));
    var url := Get(page, "url", JStr(NoLink)).value;
    var props :- Items(Get(page, "properties", JObj([])).value);
    var title :- PageTitleFrom(props);
    var shortId :- Prefix(id, 8);
    var lines :- PropLines(props);
    Ok(PageText(i, title, shortId, url, lines))
  }

  /** A page's block: its numbered header line, its link and its property lines. */
  function PageText(i: nat, title: string, shortId: Json, url: Json, lines: seq<string>): (r: string)
    ensures StartsWith(r, "\n" + IntToString(i + 1) + ". ")
  {
    var head := "\n" + IntToString(i + 1) + ". ";
    var r := head + (title + " (ID: " + PyStr(shortId) + "...)" + "   링크: " + PyStr(url) + Join("", lines));
    assert r[..|head|] == head;
    r
  }

  method FormatPage(i: nat, page: Json) returns (r: Result<string>)
    ensures r == PageBlock(i, page)
  {
    var id := Get(page, "id", JStr(UnknownName));
    if id.Err? {
      return Err(id.error);
    }
    var url := Get(page, "url", JStr(NoLink)).value;
    var props := Items(Get(page, "properties", JObj([])).value);
    if props.Err? {
      return Err(props.error);
    }
    var title := FindPageTitle(props.value);
    if title.Err? {
      return Err(title.error);
    }
    var shortId := Prefix(id.value, 8);
    if shortId.Err? {
      return Err(shortId.error);
    }
    var lines := CollectPropertyLines(props.value);
    if lines.Err? {
      return Err(lines.error);
    }
    return Ok(PageText(i, title.value, shortId.value, url, lines.value));
  }

  // ---------------------------------------------------------------- the report

  /** The database name shown in the report: the first `plain_text` of its title list.
      Unlike the database list, nothing here catches a malformed title. */
  function DatabaseName(dbInfo: Json): Result<Json> {
    var has :- In("title", dbInfo);
    if !has then Ok(JStr(UnknownName))
    else
      var title :- Index(dbInfo, "title");
      var items :- Iter(title);
      TitleFrom(items, JStr(UnknownName))
  }

  method FindDatabaseName(dbInfo: Json) returns (r: Result<Json>)
    ensures r == DatabaseName(dbInfo)
  {
    var has := In("title", dbInfo);
    if has.Err? {
      return Err(has.error);
    }
    if !has.value {
      return Ok(JStr(UnknownName));
    }
    var title := Index(dbInfo, "title");
    if title.Err? {
      return Err(title.error);
    }
    var items := Iter(title.value);
    if items.Err? {
      return Err(items.error);
    }
    var xs := items.value;
    var i := 0;
    while i < |xs|
      invariant 0 <= i <= |xs|
      invariant TitleFrom(xs, JStr(UnknownName)) == TitleFrom(xs[i..], JStr(UnknownName))
    {
      assert xs[i..][1..] == xs[i + 1..];
      var plain := In("plain_text", xs[i]);
      if plain.Err? {
        return Err(plain.error);
      }
      if plain.value {
        return Index(xs[i], "plain_text");
      }
      i := i + 1;
    }
    return Ok(JStr(UnknownName));
  }

  function ReportHeader(dbName: Json, count: nat): string {
    "'" + PyStr(dbName) + "' 데이터베이스 조회 결과: " + IntToString(count) + "개의 페이지 찾음"
  }

  /** The pages with their positions, as `enumerate` gives them. */
  function Numbered(pages: seq<Json>): (r: seq<(nat, Json)>)
    ensures |r| == |pages| && forall i :: 0 <= i < |pages| ==> r[i] == (i, pages[i])
  {
    seq(|pages|, i requires 0 <= i < |pages| => (i, pages[i]))
  }

  function NumberedBlock(entry: (nat, Json)): Result<string> {
    PageBlock(entry.0, entry.1)
  }

  /** The blocks of the pages, numbered from 1. */
  function PageBlocks(pages: seq<Json>): Result<seq<string>> {
    MapAll(Numbered(pages), NumberedBlock)
  }

  /** The report for the pages of a query; `len(pages)` and `enumerate(pages)` accept
      and reject the same values. */
  function QueryReport(dbName: Json, pages: Json): Result<string> {
    var items :- Iter(pages);
    var blocks :- PageBlocks(items);
    Ok(Join("\n", [ReportHeader(dbName, |items|)] + blocks))
  }

  method FormatQueryReport(dbName: Json, pages: Json) returns (r: Result<string>)
    ensures r == QueryReport(dbName, pages)
  {
    var items := Iter(pages);
    if items.Err? {
      return Err(items.error);
    }
    var xs := items.value;
    ghost var numbered := Numbered(xs);
    var blocks: seq<string> := [];
    var i := 0;
    while i < |xs|
      invariant 0 <= i <= |xs|
      invariant MapAll(numbered[..i], NumberedBlock) == Ok(blocks)
    {
      var block := FormatPage(i, xs[i]);
      MapAllStep(numbered, NumberedBlock, i, blocks);
      if block.Err? {
        return Err(block.error);
      }
      blocks := blocks + [block.value];
      i := i + 1;
    }
    assert numbered[..i] == numbered;
    return Ok(Join("\n", [ReportHeader(dbName, |xs|)] + blocks));
  }

  lemma PageBlockNumbered(i: nat, page: Json)
    requires PageBlock(i, page).Ok?
    ensures StartsWith(PageBlock(i, page).value, "\n" + IntToString(i + 1) + ". ")
  {
  }

  /** There is one block per page, in order, and block `i` opens a new line numbered
      `i + 1`. */
  lemma PageBlocksNumbered(pages: seq<Json>)
    requires PageBlocks(pages).Ok?
    ensures |PageBlocks(pages).value| == |pages|
    ensures forall i :: 0 <= i < |pages| ==>
              StartsWith(PageBlocks(pages).value[i], "\n" + IntToString(i + 1) + ". ")
  {
    var numbered := Numbered(pages);
    MapAllSpec(numbered, NumberedBlock);
    forall i | 0 <= i < |pages|
      ensures StartsWith(PageBlocks(pages).value[i], "\n" + IntToString(i + 1) + ". ")
    {
      assert NumberedBlock(numbered[i]) == PageBlock(i, pages[i]);
      PageBlockNumbered(i, pages[i]);
    }
  }

  /** The report opens with the header naming the database and the page count. */
  lemma ReportStartsWithCount(dbName: Json, pages: Json)
    requires QueryReport(dbName, pages).Ok?
    ensures Iter(pages).Ok?
    ensures var n := |Iter(pages).value|;
            StartsWith(QueryReport(dbName, pages).value, ReportHeader(dbName, n)) &&
            (pages.JArr? ==> n == |pages.items|)
  {
    var items := Iter(pages).value;
    var blocks := PageBlocks(items).value;
    var h := ReportHeader(dbName, |items|);
    if blocks != [] {
      JoinCons("\n", h, blocks);
      assert [h] + blocks == [h] + blocks;
      var r := QueryReport(dbName, pages).value;
      assert r == h + "\n" + Join("\n", blocks);
      assert r[..|h|] == h;
    } else {
      assert [h] + blocks == [h];
    }
  }

  // ---------------------------------------------------------------- the database list

  const ListingHeader := "사용 가능한 데이터베이스:"
  const NoDatabases := "사용 가능한 데이터베이스가 없습니다."

  /** The line of one database: its title and its id, which must exist. */
  function DatabaseLine(db: Json): (r: Result<string>)
    ensures r.Ok? <==> HasKey(db, "id")
  {
    var id :- Index(db, "id");
    Ok("- " + PyStr(DatabaseTitle(db)) + " (ID: " + PyStr(id) + ")")
  }

  function DatabaseLines(dbs: seq<Json>): Result<seq<string>> {
    MapAll(dbs, DatabaseLine)
  }

  /** The text of `_get_databases` for the listing `result`. */
  function DatabasesReport(result: Json): Result<string> {
    var dbs :- Get(result, "results", JArr([]));
    if Truthy(dbs) then
      var xs :- Iter(dbs);
      var lines :- DatabaseLines(xs);
      Ok(Join("\n", [ListingHeader] + lines))
    else Ok(NoDatabases)
  }

  method FormatDatabaseList(result: Json) returns (r: Result<string>)
    ensures r == DatabasesReport(result)
  {
    var dbs := Get(result, "results", JArr([]));
    if dbs.Err? {
      return Err(dbs.error);
    }
    if !Truthy(dbs.value) {
      return Ok(NoDatabases);
    }
    var items := Iter(dbs.value);
    if items.Err? {
      return Err(items.error);
    }
    var xs := items.value;
    var lines: seq<string> := [];
    var i := 0;
    while i < |xs|
      invariant 0 <= i <= |xs|
      invariant MapAll(xs[..i], DatabaseLine) == Ok(lines)
    {
      var title := ExtractTitleFromDatabase(xs[i]);
      var id := Index(xs[i], "id");
      MapAllStep(xs, DatabaseLine, i, lines);
      if id.Err? {
        return Err(id.error);
      }
      lines := lines + ["- " + PyStr(title) + " (ID: " + PyStr(id.value) + ")"];
      i := i + 1;
    }
    assert xs[..i] == xs;
    return Ok(Join("\n", [ListingHeader] + lines));
  }

  /** The list succeeds exactly when every database has an id, and then has one line per
      database, in order. */
  lemma DatabaseLinesSpec(dbs: seq<Json>)
    ensures DatabaseLines(dbs).Ok? <==> forall i :: 0 <= i < |dbs| ==> HasKey(dbs[i], "id")
    ensures DatabaseLines(dbs).Ok? ==>
              |DatabaseLines(dbs).value| == |dbs| &&
              forall i :: 0 <= i < |dbs| ==> DatabaseLine(dbs[i]) == Ok(DatabaseLines(dbs).value[i])
  {
    MapAllSpec(dbs, DatabaseLine);
  }

  /** A listing with no databases says so. */
  lemma EmptyListing(result: Json)
    requires result.JObj? && (Lookup(result.fields, "results").None? || !Truthy(Lookup(result.fields, "results").value))
    ensures DatabasesReport(result) == Ok(NoDatabases)
  {
  }
}
