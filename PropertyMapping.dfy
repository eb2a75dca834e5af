/** How `_create_page` turns the properties it is given into the properties it sends:
    English names are renamed through a fixed alias table, a title property is added
    from the schema when none of the values carries one, and the result is checked
    against the database schema property by property. */
module PropertyMapping {
  import opened Common
  import opened Text
  import opened Json

  // ---------------------------------------------------------------- alias table

  const AliasTable: map<string, string> := map[
    "Name" := "이름", "Description" := "설명", "Status" := "상태", "Date" := "날짜",
    "Tags" := "태그", "Priority" := "우선순위", "Assignee" := "담당자",
    "Created" := "생성일", "Updated" := "수정일"]

  /** `property_name_mapping.get(name, name)`. */
  function Alias(name: string): string {
    if name in AliasTable then AliasTable[name] else name
  }

  /** The nine English names get their Korean names; every other name is kept. */
  lemma AliasTableEntries(name: string)
    ensures Alias("Name") == "이름" && Alias("Description") == "설명" && Alias("Status") == "상태"
    ensures Alias("Date") == "날짜" && Alias("Tags") == "태그" && Alias("Priority") == "우선순위"
    ensures Alias("Assignee") == "담당자" && Alias("Created") == "생성일" && Alias("Updated") == "수정일"
    ensures name !in {"Name", "Description", "Status", "Date", "Tags", "Priority", "Assignee", "Created", "Updated"}
            ==> Alias(name) == name
  {
  }

  /** The renaming loop, for the renaming `rename`: each property is assigned under its
      new name, in order, so a later property with the same new name overwrites an
      earlier one in place. The controller renames with Alias. */
  function MapNames(props: Fields, rename: string -> string): Fields {
    if props == [] then []
    else
      var n := |props| - 1;
      Put(MapNames(props[..n], rename), rename(props[n].0), props[n].1)
  }

  method MapPropertyNames(props: Fields, rename: string -> string) returns (mapped: Fields)
    ensures mapped == MapNames(props, rename)
  {
    mapped := [];
    var i := 0;
    while i < |props|
      invariant 0 <= i <= |props|
      invariant mapped == MapNames(props[..i], rename)
    {
      assert props[..i + 1][..i] == props[..i];
      mapped := Put(mapped, rename(props[i].0), props[i].1);
      i := i + 1;
    }
    assert props[..i] == props;
  }

  /** The renamed bag has distinct keys. */
  lemma {:induction false} MapNamesUnique(props: Fields, rename: string -> string)
    ensures UniqueKeys(MapNames(props, rename))
  {
    if props != [] {
      var n := |props| - 1;
      MapNamesUnique(props[..n], rename);
      PutKeepsUnique(MapNames(props[..n], rename), rename(props[n].0), props[n].1);
    }
  }

  /** A name is present after renaming exactly when some property is renamed to it ... */
  lemma MapNamesKeys(props: Fields, rename: string -> string, k: string)
    ensures k in Keys(MapNames(props, rename)) <==> exists i :: 0 <= i < |props| && rename(props[i].0) == k
  {
    if k in Keys(MapNames(props, rename)) {
      MapNamesKeysRenamed(props, rename, k);
    }
    if exists i :: 0 <= i < |props| && rename(props[i].0) == k {
      var i :| 0 <= i < |props| && rename(props[i].0) == k;
      MapNamesKeysPresent(props, rename, k, i);
    }
  }

  lemma {:induction false} MapNamesKeysRenamed(props: Fields, rename: string -> string, k: string)
    requires k in Keys(MapNames(props, rename))
    ensures exists i :: 0 <= i < |props| && rename(props[i].0) == k
  {
    var n := |props| - 1;
    var pre := props[..n];
    var m := MapNames(pre, rename);
    PutKeysIn(m, rename(props[n].0), props[n].1, k);
    if k == rename(props[n].0) {
      assert 0 <= n < |props| && rename(props[n].0) == k;
    } else {
      MapNamesKeysRenamed(pre, rename, k);
      var i :| 0 <= i < |pre| && rename(pre[i].0) == k;
      assert pre[i] == props[i];
      assert 0 <= i < |props| && rename(props[i].0) == k;
    }
  }

  lemma MapNamesKeysPresent(props: Fields, rename: string -> string, k: string, i: nat)
    requires i < |props| && rename(props[i].0) == k
    ensures k in Keys(MapNames(props, rename))
  {
    var j := LastRenamed(props, rename, k, i, |props| - 1);
    MapNamesLast(props, rename, k, j);
  }

  /** The last index, from `i` up to `j`, of a property renamed to `k`, when none after
      `j` is. */
  ghost function LastRenamed(props: Fields, rename: string -> string, k: string, i: nat, j: nat): (l: nat)
    requires i <= j < |props| && rename(props[i].0) == k
    requires forall m :: j < m < |props| ==> rename(props[m].0) != k
    ensures i <= l < |props| && rename(props[l].0) == k
    ensures forall m :: l < m < |props| ==> rename(props[m].0) != k
    decreases j - i
  {
    if rename(props[j].0) == k then j else LastRenamed(props, rename, k, i, j - 1)
  }

  /** ... and holds the value of the last such property. */
  lemma {:induction false} MapNamesLast(props: Fields, rename: string -> string, k: string, i: nat)
    requires i < |props| && rename(props[i].0) == k
    requires forall j :: i < j < |props| ==> rename(props[j].0) != k
    ensures Lookup(MapNames(props, rename), k) == Some(props[i].1)
  {
    var n := |props| - 1;
    var pre := props[..n];
    LookupPut(MapNames(pre, rename), rename(props[n].0), props[n].1, k);
    if i < n {
      assert pre[i] == props[i];
      MapNamesLast(pre, rename, k, i);
    }
  }

  // ---------------------------------------------------------------- title injection

  function Values(fields: Fields): (vs: seq<Json>)
    ensures |vs| == |fields| && forall i :: 0 <= i < |fields| ==> vs[i] == fields[i].1
  {
    seq(|fields|, i requires 0 <= i < |fields| => fields[i].1)
  }

  /** `any('title' in v for v in values)`: stops at the first true test; a value that
      is not a container raises before that. */
  function AnyHasTitle(values: seq<Json>): Result<bool> {
    if values == [] then Ok(false)
    else
      var has :- In("title", values[0]);
      if has then Ok(true) else AnyHasTitle(values[1..])
  }

  /** The loop over the schema: the name of the first property whose `type` is
      "title". */
  function FirstTitleProperty(schema: Fields): Result<Option<string>> {
    if schema == [] then Ok(None)
    else
      var t :- Get(schema[0].1, "type", JNull);
      if t == JStr("title") then Ok(Some(schema[0].0)) else FirstTitleProperty(schema[1..])
  }

  method FindTitleProperty(schema: Fields) returns (r: Result<Option<string>>)
    ensures r == FirstTitleProperty(schema)
  {
    var i := 0;
    while i < |schema|
      invariant 0 <= i <= |schema|
      invariant FirstTitleProperty(schema) == FirstTitleProperty(schema[i..])
    {
      assert schema[i..][1..] == schema[i + 1..];
      var t := Get(schema[i].1, "type", JNull);
      if t.Err? {
        return Err(t.error);
      }
      if t.value == JStr("title") {
        return Ok(Some(schema[i].0));
      }
      i := i + 1;
    }
    return Ok(None);
  }

  /** A schema entry declares the title type. */
  predicate IsTitleEntry(entry: (string, Json)) {
    Get(entry.1, "type", JNull) == Ok(JStr("title"))
  }

  /** The title property found is the first schema entry of type title. */
  lemma {:induction false} FirstTitlePropertyIsFirst(schema: Fields, k: nat)
    requires k < |schema| && IsTitleEntry(schema[k])
    requires forall j :: 0 <= j < k ==> schema[j].1.JObj? && !IsTitleEntry(schema[j])
    ensures FirstTitleProperty(schema) == Ok(Some(schema[k].0))
  {
    if k > 0 {
      forall j | 0 <= j < k - 1 ensures schema[1..][j].1.JObj? && !IsTitleEntry(schema[1..][j]) {
        assert schema[1..][j] == schema[j + 1];
      }
      assert schema[1..][k - 1] == schema[k];
      FirstTitlePropertyIsFirst(schema[1..], k - 1);
    }
  }

  /** The value injected for the title property. */
  function TitleValue(title: Json): Json {
    JObj([("title", JArr([JObj([("text", JObj([("content", title)]))])]))])
  }

  /** The title-injection step, given `db_info.get('properties', {})` and the page
      title (`parameters.get('title', '새 페이지')`). */
  function InjectTitle(mapped: Fields, schemaProps: Json, title: Json): Result<Fields> {
    if mapped == [] then Ok(mapped)
    else
      var has :- AnyHasTitle(Values(mapped));
      if has then Ok(mapped)
      else
        var schema :- Items(schemaProps);
        var found :- FirstTitleProperty(schema);
        if found.Some? && found.value != "" && found.value !in Keys(mapped) then
          Ok(Put(mapped, found.value, TitleValue(title)))
        else Ok(mapped)
  }

  /** A title is added exactly when the bag is non-empty, no value contains 'title',
      and the first title property of the schema is a non-empty name not yet in the
      bag; it is appended last. Otherwise the bag is unchanged. */
  lemma InjectTitleSpec(mapped: Fields, schemaProps: Json, title: Json)
    ensures mapped == [] ==> InjectTitle(mapped, schemaProps, title) == Ok(mapped)
    ensures var cond := mapped != [] && AnyHasTitle(Values(mapped)) == Ok(false) &&
                        Items(schemaProps).Ok? &&
                        (var f := FirstTitleProperty(schemaProps.fields);
                         f.Ok? && f.value.Some? && f.value.value != "" && f.value.value !in Keys(mapped));
            var r := InjectTitle(mapped, schemaProps, title);
            (cond ==> r == Ok(mapped + [(FirstTitleProperty(schemaProps.fields).value.value, TitleValue(title))])) &&
            (r.Ok? && !cond ==> r.value == mapped)
  {
    if mapped != [] && AnyHasTitle(Values(mapped)) == Ok(false) && Items(schemaProps).Ok? {
      var f := FirstTitleProperty(schemaProps.fields);
      if f.Ok? && f.value.Some? && f.value.value != "" && f.value.value !in Keys(mapped) {
        PutNew(mapped, f.value.value, TitleValue(title));
      }
    }
  }

  // ---------------------------------------------------------------- validation

  /** Types whose values are kept unchanged when they carry the matching wrapper key. */
  const WrappedTypes: set<string> := {
    "rich_text", "number", "select", "multi_select", "date", "people", "files",
    "checkbox", "url", "email", "phone_number"}

  /** Read-only or unsupported types, always dropped. */
  const DroppedTypes: set<string> := {"formula", "relation", "rollup"}

  /** The coercion of a value given for the title property. */
  function CoerceTitle(value: Json): (r: Result<Json>)
    ensures r.Err? <==> value.JNull? || value.JBool? || value.JInt?
    ensures r.Ok? ==> In("title", r.value) == Ok(true)
    ensures value.JArr? && value.items != [] ==> r == Ok(JObj([("title", value)]))
    ensures r.Ok? && r.value != value ==>
              r.value == JObj([("title", value)]) ||
              r.value == TitleValue(JStr(PyStr(value)))
  {
    if value.JArr? && |value.items| > 0 then
      assert Keys([("title", value)]) == ["title"];
      Ok(JObj([("title", value)]))
    else
      var has :- In("title", value);
      if has then Ok(value)
      else
        assert Keys(TitleValue(JStr(PyStr(value))).fields) == ["title"];
        Ok(TitleValue(JStr(PyStr(value))))
  }

  /** `db_info['properties'][name].get('type')`. */
  function EntryType(dbInfo: Json, name: string): Result<Json> {
    var props :- Index(dbInfo, "properties");
    var entry :- Index(props, name);
    Get(entry, "type", JNull)
  }

  /** One step of the validation loop: the value sent for `name`, or None when the
      property is dropped. */
  function ValidateOne(name: string, value: Json, schemaProps: Json, dbInfo: Json): (r: Result<Option<Json>>)
  {
    var known :- In(name, schemaProps);
    if !known then Ok(None)
    else
      var t :- EntryType(dbInfo, name);
      if t == JStr("title") then
        var v :- CoerceTitle(value);
        Ok(Some(v))
      else if t.JStr? && t.s in WrappedTypes then
        var has :- In(t.s, value);
        Ok(if has then Some(value) else None)
      else Ok(None)
  }

  /** A property is sent only when the schema has it, and then either as the coerced
      title or, for a wrapped type, unchanged and carrying that type's key. */
  lemma ValidateOneSends(name: string, value: Json, schemaProps: Json, dbInfo: Json)
    ensures var r := ValidateOne(name, value, schemaProps, dbInfo);
            r.Ok? && r.value.Some? ==>
              In(name, schemaProps) == Ok(true) && EntryType(dbInfo, name).Ok? &&
              (var t := EntryType(dbInfo, name).value;
               (t == JStr("title") && Ok(r.value.value) == CoerceTitle(value)) ||
               (t.JStr? && t.s in WrappedTypes && In(t.s, value) == Ok(true) && r.value.value == value))
  {
  }

  /** The validation loop over the bag, in order; the first exception stops it. */
  function ValidateAll(mapped: Fields, schemaProps: Json, dbInfo: Json): Result<Fields> {
    if mapped == [] then Ok([])
    else
      var n := |mapped| - 1;
      var validated :- ValidateAll(mapped[..n], schemaProps, dbInfo);
      var kept :- ValidateOne(mapped[n].0, mapped[n].1, schemaProps, dbInfo);
      Ok(if kept.Some? then Put(validated, mapped[n].0, kept.value) else validated)
  }

  method ValidateProperties(mapped: Fields, schemaProps: Json, dbInfo: Json) returns (r: Result<Fields>)
    ensures r == ValidateAll(mapped, schemaProps, dbInfo)
  {
    var validated: Fields := [];
    var i := 0;
    while i < |mapped|
      invariant 0 <= i <= |mapped|
      invariant ValidateAll(mapped[..i], schemaProps, dbInfo) == Ok(validated)
    {
      var kept := ValidateOne(mapped[i].0, mapped[i].1, schemaProps, dbInfo);
      ValidateAllNext(mapped, i, schemaProps, dbInfo);
      if kept.Err? {
        ValidateStopsAtError(mapped, i + 1, schemaProps, dbInfo);
        return Err(kept.error);
      }
      if kept.value.Some? {
        validated := Put(validated, mapped[i].0, kept.value.value);
      }
      i := i + 1;
    }
    assert mapped[..i] == mapped;
    return Ok(validated);
  }

  /** The loop's next turn, as the function sees it. */
  lemma ValidateAllNext(mapped: Fields, i: nat, schemaProps: Json, dbInfo: Json)
    requires i < |mapped| && ValidateAll(mapped[..i], schemaProps, dbInfo).Ok?
    ensures var kept := ValidateOne(mapped[i].0, mapped[i].1, schemaProps, dbInfo);
            var validated := ValidateAll(mapped[..i], schemaProps, dbInfo).value;
            ValidateAll(mapped[..i + 1], schemaProps, dbInfo) ==
              if kept.Err? then Err(kept.error)
              else Ok(if kept.value.Some? then Put(validated, mapped[i].0, kept.value.value) else validated)
  {
    assert mapped[..i + 1][..i] == mapped[..i];
  }

  /** Once a prefix of the bag raises, the whole loop raises the same exception. */
  lemma {:induction false} ValidateStopsAtError(mapped: Fields, i: nat, schemaProps: Json, dbInfo: Json)
    requires i <= |mapped| && ValidateAll(mapped[..i], schemaProps, dbInfo).Err?
    ensures ValidateAll(mapped, schemaProps, dbInfo) == ValidateAll(mapped[..i], schemaProps, dbInfo)
    decreases |mapped| - i
  {
    if i < |mapped| {
      assert mapped[..i + 1][..i] == mapped[..i];
      ValidateStopsAtError(mapped, i + 1, schemaProps, dbInfo);
    } else {
      assert mapped[..i] == mapped;
    }
  }

  /** For a bag with distinct keys, a successful validation sends each property exactly
      as its own step decided: kept ones under their name with the checked value, dropped
      ones not at all, and nothing else. */
  lemma {:induction false} ValidateAllSpec(mapped: Fields, schemaProps: Json, dbInfo: Json)
    requires UniqueKeys(mapped)
    requires ValidateAll(mapped, schemaProps, dbInfo).Ok?
    ensures var out := ValidateAll(mapped, schemaProps, dbInfo).value;
            forall i :: 0 <= i < |mapped| ==>
              ValidateOne(mapped[i].0, mapped[i].1, schemaProps, dbInfo).Ok? &&
              Lookup(out, mapped[i].0) == ValidateOne(mapped[i].0, mapped[i].1, schemaProps, dbInfo).value
    ensures forall k :: k in Keys(ValidateAll(mapped, schemaProps, dbInfo).value) ==> k in Keys(mapped)
  {
    if mapped != [] {
      var n := |mapped| - 1;
      var pre := mapped[..n];
      var k := mapped[n].0;
      assert mapped == pre + [mapped[n]];
      KeysAppend(pre, [mapped[n]]);
      assert UniqueKeys(pre) by {
        forall i, j | 0 <= i < j < |pre| ensures pre[i].0 != pre[j].0 {
          assert pre[i] == mapped[i] && pre[j] == mapped[j];
        }
      }
      forall i | 0 <= i < |pre| ensures Keys(pre)[i] != k {
        assert pre[i] == mapped[i];
      }
      ValidateAllSpec(pre, schemaProps, dbInfo);
      var acc := ValidateAll(pre, schemaProps, dbInfo).value;
      var kept := ValidateOne(k, mapped[n].1, schemaProps, dbInfo);
      var out := ValidateAll(mapped, schemaProps, dbInfo).value;
      assert out == if kept.value.Some? then Put(acc, k, kept.value.value) else acc;
      ValidateStep(pre, k, acc, kept.value, out);
      forall i | 0 <= i < |mapped|
        ensures ValidateOne(mapped[i].0, mapped[i].1, schemaProps, dbInfo).Ok? &&
                Lookup(out, mapped[i].0) == ValidateOne(mapped[i].0, mapped[i].1, schemaProps, dbInfo).value
      {
        if i < n {
          assert pre[i] == mapped[i];
          assert Keys(pre)[i] == mapped[i].0;
        } else {
          assert kept.Ok? && Lookup(out, k) == kept.value;
        }
      }
    }
  }

  /** One turn of the validation loop on a key not seen before: the new key maps to what
      its step decided, earlier keys keep their values, and no other key appears. */
  lemma ValidateStep(pre: Fields, k: string, acc: Fields, kept: Option<Json>, out: Fields)
    requires forall kk :: kk in Keys(acc) ==> kk in Keys(pre)
    requires k !in Keys(pre)
    requires out == if kept.Some? then Put(acc, k, kept.value) else acc
    ensures Lookup(out, k) == kept
    ensures forall kk :: kk in Keys(pre) ==> Lookup(out, kk) == Lookup(acc, kk)
    ensures forall kk :: kk in Keys(out) ==> kk in Keys(pre) || kk == k
  {
    if kept.Some? {
      LookupPut(acc, k, kept.value, k);
      forall kk | kk in Keys(pre) ensures Lookup(out, kk) == Lookup(acc, kk) {
        LookupPut(acc, k, kept.value, kk);
      }
    }
  }

  /** Every property sent is in the schema, and none has a read-only type. */
  lemma SentPropertiesInSchema(name: string, value: Json, schemaProps: Json, dbInfo: Json)
    ensures var r := ValidateOne(name, value, schemaProps, dbInfo);
            r.Ok? && r.value.Some? ==>
              In(name, schemaProps) == Ok(true) &&
              (var t := EntryType(dbInfo, name).value; !(t.JStr? && t.s in DroppedTypes))
  {
    var r := ValidateOne(name, value, schemaProps, dbInfo);
    if r.Ok? && r.value.Some? {
      ValidateOneSends(name, value, schemaProps, dbInfo);
      SentNotDropped(EntryType(dbInfo, name).value);
    }
  }

  /** The title and the wrapped types are none of the dropped types. */
  lemma SentNotDropped(t: Json)
    requires t == JStr("title") || (t.JStr? && t.s in WrappedTypes)
    ensures !(t.JStr? && t.s in DroppedTypes)
  {
  }

  /** A read-only property is dropped whatever its value. */
  lemma DroppedTypesNeverSent(name: string, value: Json, schemaProps: Json, dbInfo: Json)
    requires EntryType(dbInfo, name).Ok? && EntryType(dbInfo, name).value in {JStr("formula"), JStr("relation"), JStr("rollup")}
    ensures ValidateOne(name, value, schemaProps, dbInfo) == (var known :- In(name, schemaProps); Ok(None))
  {
    DroppedNotSent(EntryType(dbInfo, name).value);
  }

  /** The dropped types are neither the title nor a wrapped type. */
  lemma DroppedNotSent(t: Json)
    requires t in {JStr("formula"), JStr("relation"), JStr("rollup")}
    ensures t != JStr("title") && !(t.JStr? && t.s in WrappedTypes)
  {
  }

  // ---------------------------------------------------------------- pipeline

  /** The properties `_create_page` sends: `db_info.get('properties', {})` is read
      first, then the renaming, the title injection and the validation. */
  function PageProperties(properties: Json, dbInfo: Json, title: Json): Result<Fields> {
    var schemaProps :- Get(dbInfo, "properties", JObj([]));
    var props :- Items(properties);
    var injected :- InjectTitle(MapNames(props, Alias), schemaProps, title);
    ValidateAll(injected, schemaProps, dbInfo)
  }

  method BuildPageProperties(properties: Json, dbInfo: Json, title: Json) returns (r: Result<Fields>)
    ensures r == PageProperties(properties, dbInfo, title)
  {
    var schemaProps := Get(dbInfo, "properties", JObj([]));
    if schemaProps.Err? {
      return Err(schemaProps.error);
    }
    var props := Items(properties);
    if props.Err? {
      return Err(props.error);
    }
    var mapped := MapPropertyNames(props.value, Alias);
    if mapped != [] {
      var has := AnyHasTitle(Values(mapped));
      if has.Err? {
        return Err(has.error);
      }
      if !has.value {
        var schema := Items(schemaProps.value);
        if schema.Err? {
          return Err(schema.error);
        }
        var found := FindTitleProperty(schema.value);
        if found.Err? {
          return Err(found.error);
        }
        if found.value.Some? && found.value.value != "" && found.value.value !in Keys(mapped) {
          mapped := Put(mapped, found.value.value, TitleValue(title));
        }
      }
    }
    r := ValidateProperties(mapped, schemaProps.value, dbInfo);
  }

  /** The bag that reaches validation has distinct keys, so the validation lemma
      applies to the whole pipeline. */
  lemma InjectedUnique(props: Fields, schemaProps: Json, title: Json)
    ensures var r := InjectTitle(MapNames(props, Alias), schemaProps, title);
            r.Ok? ==> UniqueKeys(r.value)
  {
    var mapped := MapNames(props, Alias);
    MapNamesUnique(props, Alias);
    InjectTitleSpec(mapped, schemaProps, title);
    var r := InjectTitle(mapped, schemaProps, title);
    if r.Ok? && r.value != mapped {
      var tp := FirstTitleProperty(schemaProps.fields).value.value;
      PutNew(mapped, tp, TitleValue(title));
      PutKeepsUnique(mapped, tp, TitleValue(title));
    }
  }

  /** A property given under a name that renames to the schema's first title property
      (such as "Name" for "이름") keeps the caller's value: no title is injected, and the
      property is sent as the title coercion of the value given for it. */
  lemma AliasedTitleNotInjected(properties: Json, dbInfo: Json, title: Json, i: nat)
    requires properties.JObj? && i < |properties.fields|
    requires var props := properties.fields;
             forall j :: i < j < |props| ==> Alias(props[j].0) != Alias(props[i].0)
    requires var schemaProps := Get(dbInfo, "properties", JObj([]));
             var t := Alias(properties.fields[i].0);
             schemaProps.Ok? && schemaProps.value.JObj? &&
             FirstTitleProperty(schemaProps.value.fields) == Ok(Some(t)) &&
             EntryType(dbInfo, t) == Ok(JStr("title"))
    ensures var schemaProps := Get(dbInfo, "properties", JObj([])).value;
            var mapped := MapNames(properties.fields, Alias);
            var r := InjectTitle(mapped, schemaProps, title);
            r.Ok? ==> r.value == mapped
    ensures var t := Alias(properties.fields[i].0);
            var r := PageProperties(properties, dbInfo, title);
            r.Ok? ==> CoerceTitle(properties.fields[i].1).Ok? &&
                      Lookup(r.value, t) == Some(CoerceTitle(properties.fields[i].1).value)
  {
    var props := properties.fields;
    var schemaProps := Get(dbInfo, "properties", JObj([])).value;
    var t := Alias(props[i].0);
    var v := props[i].1;
    var mapped := MapNames(props, Alias);
    MapNamesLast(props, Alias, t, i);
    assert (t, v) in mapped;
    FirstTitlePropertyIn(schemaProps.fields, t);
    InjectKeepsPresentTitle(mapped, schemaProps, title, t);
    var out := PageProperties(properties, dbInfo, title);
    if out.Ok? {
      assert out == ValidateAll(mapped, schemaProps, dbInfo);
      MapNamesUnique(props, Alias);
      ValidatedTitleEntry(mapped, schemaProps, dbInfo, t, v);
    }
  }

  /** A bag that already names the schema's title property gets no injected title. */
  lemma InjectKeepsPresentTitle(mapped: Fields, schemaProps: Json, title: Json, t: string)
    requires (exists v :: (t, v) in mapped) && schemaProps.JObj?
    requires FirstTitleProperty(schemaProps.fields) == Ok(Some(t))
    ensures var r := InjectTitle(mapped, schemaProps, title); r.Ok? ==> r.value == mapped
  {
    var v :| (t, v) in mapped;
    var m :| 0 <= m < |mapped| && mapped[m] == (t, v);
    assert Keys(mapped)[m] == t;
  }

  /** A present property whose schema type is title is sent as its coerced value. */
  lemma ValidatedTitleEntry(mapped: Fields, schemaProps: Json, dbInfo: Json, t: string, v: Json)
    requires UniqueKeys(mapped) && (t, v) in mapped
    requires schemaProps.JObj? && t in Keys(schemaProps.fields) && EntryType(dbInfo, t) == Ok(JStr("title"))
    requires ValidateAll(mapped, schemaProps, dbInfo).Ok?
    ensures CoerceTitle(v).Ok? && Lookup(ValidateAll(mapped, schemaProps, dbInfo).value, t) == Some(CoerceTitle(v).value)
  {
    ValidateAllSpec(mapped, schemaProps, dbInfo);
    var m :| 0 <= m < |mapped| && mapped[m] == (t, v);
    assert ValidateOne(mapped[m].0, mapped[m].1, schemaProps, dbInfo).Ok?;
  }

  /** The title property found is a key of the schema. */
  lemma {:induction false} FirstTitlePropertyIn(schema: Fields, t: string)
    requires FirstTitleProperty(schema) == Ok(Some(t))
    ensures t in Keys(schema)
  {
    assert schema != [];
    assert Keys(schema) == [schema[0].0] + Keys(schema[1..]);
    if schema[0].0 != t {
      FirstTitlePropertyIn(schema[1..], t);
    }
  }
}
