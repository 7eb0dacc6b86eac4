/**
 * The keyed JSON form of an index scan node (IndexScanPlanNode.toJSONString
 * and loadFromJSONObject).
 *
 * Writing puts, after the base scan node's members (here only the target
 * table name), KEY_ITERATE, LOOKUP_TYPE, SORT_DIRECTION, TARGET_INDEX_NAME,
 * END_EXPRESSION (null when there is none) and SEARCHKEY_EXPRESSIONS (an
 * array, in list order). Loading reads those members back one after the
 * other, re-binds the catalog index by table and index name, and appends
 * the loaded search keys to the ones the node already holds. A failing
 * step leaves the fields set before it in place.
 */
module IndexScanCodec {
  import opened Wrappers
  import opened Json
  import opened PlanTypes
  import opened Expressions

  /** The fields of an index scan node that are written and loaded. */
  datatype ScanFields = ScanFields(
    tableName: string,
    indexName: string,
    endExpression: Option<Expr>,
    searchKeys: seq<Expr>,
    keyIterate: bool,
    lookupType: LookupType,
    sortDirection: SortDirection,
    catalogIndex: Option<Index>)

  /** The fields of a newly constructed node. */
  function FreshFields(): ScanFields {
    ScanFields("", "", None, [], false, EQ, InvalidSort, None)
  }

  /** The written form of each search key, in list order. */
  function EncodeKeys(keys: seq<Expr>): (items: seq<Json>)
    ensures |items| == |keys|
    ensures forall i :: 0 <= i < |keys| ==> items[i] == ExprToJson(keys[i])
  {
    if keys == [] then [] else [ExprToJson(keys[0])] + EncodeKeys(keys[1..])
  }

  function EncodeEnd(e: Option<Expr>): Json {
    match e
    case None => JNull
    case Some(x) => ExprToJson(x)
  }

  /** toJSONString: the node as a JSON object. */
  function Encode(s: ScanFields): Json {
    JObject([
      ("TARGET_TABLE_NAME", JString(s.tableName)),
      ("KEY_ITERATE", JBool(s.keyIterate)),
      ("LOOKUP_TYPE", JString(LookupName(s.lookupType))),
      ("SORT_DIRECTION", JString(SortName(s.sortDirection))),
      ("TARGET_INDEX_NAME", JString(s.indexName)),
      ("END_EXPRESSION", EncodeEnd(s.endExpression)),
      ("SEARCHKEY_EXPRESSIONS", JArray(EncodeKeys(s.searchKeys)))])
  }

  /** Why loading stopped. */
  datatype LoadError =
    | MissingMember(key: string)
    | WrongKind(key: string)
    | NoSuchTable(name: string)
    | BadExpression

  /** The fields after loading, and the error loading stopped at, if any. */
  datatype Loaded = Loaded(fields: ScanFields, error: Option<LoadError>)

  /** `getString(key)` */
  function StringMember(ms: seq<(string, Json)>, key: string): (r: Result<string, LoadError>)
    ensures r.Failure? ==> r.error == MissingMember(key) || r.error == WrongKind(key)
  {
    match Get(ms, key)
    case None => Failure(MissingMember(key))
    case Some(JString(s)) => Success(s)
    case Some(_) => Failure(WrongKind(key))
  }

  /** `getBoolean(key)` */
  function BoolMember(ms: seq<(string, Json)>, key: string): (r: Result<bool, LoadError>)
    ensures r.Failure? ==> r.error == MissingMember(key) || r.error == WrongKind(key)
  {
    match Get(ms, key)
    case None => Failure(MissingMember(key))
    case Some(JBool(b)) => Success(b)
    case Some(_) => Failure(WrongKind(key))
  }

  /** The catalog index of a table by name; None when the table has no such index. */
  function CatalogIndex(t: Table, indexName: string): Option<Index> {
    if indexName in t.indexes then Some(t.indexes[indexName]) else None
  }

  /**
   * The scalar members, in the order loading reads them: the table name
   * (the base node's member), KEY_ITERATE, LOOKUP_TYPE, SORT_DIRECTION and
   * TARGET_INDEX_NAME. A member that is missing or of the wrong kind stops
   * loading with the members before it already set.
   */
  function LoadNames(s: ScanFields, ms: seq<(string, Json)>): Loaded {
    var table := StringMember(ms, "TARGET_TABLE_NAME");
    if table.Failure? then Loaded(s, Some(table.error))
    else
      var s1 := s.(tableName := table.value);
      var iterate := BoolMember(ms, "KEY_ITERATE");
      if iterate.Failure? then Loaded(s1, Some(iterate.error))
      else
        LoadLookupNames(s1.(keyIterate := iterate.value), ms)
  }

  /** LOOKUP_TYPE, SORT_DIRECTION and TARGET_INDEX_NAME, the last three scalar members. */
  function LoadLookupNames(s: ScanFields, ms: seq<(string, Json)>): Loaded {
    var lookup := StringMember(ms, "LOOKUP_TYPE");
    if lookup.Failure? then Loaded(s, Some(lookup.error))
    else
      var s1 := s.(lookupType := LookupFromName(lookup.value));
      var sort := StringMember(ms, "SORT_DIRECTION");
      if sort.Failure? then Loaded(s1, Some(sort.error))
      else
        var s2 := s1.(sortDirection := SortFromName(sort.value));
        var index := StringMember(ms, "TARGET_INDEX_NAME");
        if index.Failure? then Loaded(s2, Some(index.error))
        else Loaded(s2.(indexName := index.value), None)
  }

  /** The index looked up in the named table; a table the database does not have stops loading. */
  function BindIndex(s: ScanFields, db: Database): Loaded {
    if s.tableName !in db.tables then Loaded(s, Some(NoSuchTable(s.tableName)))
    else Loaded(s.(catalogIndex := CatalogIndex(db.tables[s.tableName], s.indexName)), None)
  }

  /** The scalar members, then the catalog binding. */
  function LoadScalars(s: ScanFields, ms: seq<(string, Json)>, db: Database): Loaded {
    var named := LoadNames(s, ms);
    if named.error.Some? then named else BindIndex(named.fields, db)
  }

  /** END_EXPRESSION: a null or missing member keeps the end expression the node has. */
  function LoadEnd(s: ScanFields, ms: seq<(string, Json)>): Loaded {
    if IsNull(ms, "END_EXPRESSION") then Loaded(s, None)
    else
      var j := Get(ms, "END_EXPRESSION").value;
      if !j.JObject? then Loaded(s, Some(WrongKind("END_EXPRESSION")))
      else
        match ExprFromJson(j)
        case None => Loaded(s, Some(BadExpression))
        case Some(e) => Loaded(s.(endExpression := Some(e)), None)
  }

  /**
   * The array items, decoded one after the other and appended to `keys`;
   * an item that is not a written expression stops the loop with the
   * keys appended before it kept.
   */
  function AppendKeys(keys: seq<Expr>, items: seq<Json>): (r: (seq<Expr>, Option<LoadError>))
    ensures |keys| <= |r.0| <= |keys| + |items| && r.0[..|keys|] == keys
    ensures r.1.None? ==> |r.0| == |keys| + |items|
    decreases |items|
  {
    if items == [] then (keys, None)
    else if !items[0].JObject? then (keys, Some(WrongKind("SEARCHKEY_EXPRESSIONS")))
    else
      match ExprFromJson(items[0])
      case None => (keys, Some(BadExpression))
      case Some(e) =>
        var r := AppendKeys(keys + [e], items[1..]);
        assert r.0[..|keys|] == r.0[..|keys| + 1][..|keys|];
        r
  }

  /** SEARCHKEY_EXPRESSIONS: a null or missing member adds no keys. */
  function LoadKeys(s: ScanFields, ms: seq<(string, Json)>): Loaded {
    if IsNull(ms, "SEARCHKEY_EXPRESSIONS") then Loaded(s, None)
    else
      match Get(ms, "SEARCHKEY_EXPRESSIONS").value
      case JArray(items) =>
        var (keys, err) := AppendKeys(s.searchKeys, items);
        Loaded(s.(searchKeys := keys), err)
      case _ => Loaded(s, Some(WrongKind("SEARCHKEY_EXPRESSIONS")))
  }

  /** loadFromJSONObject: the members read in order, stopping at the first failure. */
  function Load(s: ScanFields, ms: seq<(string, Json)>, db: Database): Loaded {
    var scalars := LoadScalars(s, ms, db);
    if scalars.error.Some? then scalars
    else
      var end := LoadEnd(scalars.fields, ms);
      if end.error.Some? then end
      else LoadKeys(end.fields, ms)
  }

  // ---------------------------------------------------------------------
  // Loading what was written

  /** Each member toJSONString writes is found under its own name. */
  lemma EncodedGets(s: ScanFields)
    ensures Encode(s).JObject?
    ensures var ms := Encode(s).members;
      Get(ms, "TARGET_TABLE_NAME") == Some(JString(s.tableName)) &&
      Get(ms, "KEY_ITERATE") == Some(JBool(s.keyIterate)) &&
      Get(ms, "LOOKUP_TYPE") == Some(JString(LookupName(s.lookupType))) &&
      Get(ms, "SORT_DIRECTION") == Some(JString(SortName(s.sortDirection))) &&
      Get(ms, "TARGET_INDEX_NAME") == Some(JString(s.indexName)) &&
      Get(ms, "END_EXPRESSION") == Some(EncodeEnd(s.endExpression)) &&
      Get(ms, "SEARCHKEY_EXPRESSIONS") == Some(JArray(EncodeKeys(s.searchKeys)))
  {
    var ms := Encode(s).members;
    NodeKeysDistinct(ms);
    MemberAt(ms, 0, "TARGET_TABLE_NAME", JString(s.tableName));
    MemberAt(ms, 1, "KEY_ITERATE", JBool(s.keyIterate));
    MemberAt(ms, 2, "LOOKUP_TYPE", JString(LookupName(s.lookupType)));
    MemberAt(ms, 3, "SORT_DIRECTION", JString(SortName(s.sortDirection)));
    MemberAt(ms, 4, "TARGET_INDEX_NAME", JString(s.indexName));
    MemberAt(ms, 5, "END_EXPRESSION", EncodeEnd(s.endExpression));
    MemberAt(ms, 6, "SEARCHKEY_EXPRESSIONS", JArray(EncodeKeys(s.searchKeys)));
  }

  lemma MemberAt(ms: seq<(string, Json)>, i: nat, key: string, v: Json)
    requires DistinctKeys(ms) && i < |ms| && ms[i] == (key, v)
    ensures Get(ms, key) == Some(v)
  {
    GetDistinct(ms, i);
  }

  /** The member names toJSONString writes are pairwise different. */
  lemma NodeKeysDistinct(ms: seq<(string, Json)>)
    requires |ms| == 7
    requires ms[0].0 == "TARGET_TABLE_NAME" && ms[1].0 == "KEY_ITERATE" && ms[2].0 == "LOOKUP_TYPE"
    requires ms[3].0 == "SORT_DIRECTION" && ms[4].0 == "TARGET_INDEX_NAME" && ms[5].0 == "END_EXPRESSION"
    requires ms[6].0 == "SEARCHKEY_EXPRESSIONS"
    ensures DistinctKeys(ms)
  {
    assert ms[0].0[7] != ms[4].0[7];
    assert |ms[3].0| != |ms[6].0|;
    forall i, j | 0 <= i < j < |ms|
      ensures ms[i].0 != ms[j].0
    {
      if !(i == 0 && j == 4) && !(i == 3 && j == 6) {
        assert ms[i].0[0] != ms[j].0[0];
      }
    }
  }

  /** Decoding written keys appends exactly those keys. */
  lemma {:induction false} AppendEncodedKeys(keys: seq<Expr>, more: seq<Expr>)
    ensures AppendKeys(keys, EncodeKeys(more)) == (keys + more, None)
    decreases |more|
  {
    if more != [] {
      var head, tail := more[0], more[1..];
      assert EncodeKeys(more) == [ExprToJson(head)] + EncodeKeys(tail);
      AppendOneEncoded(keys, head, EncodeKeys(tail));
      AppendEncodedKeys(keys + [head], tail);
      assert keys + [head] + tail == keys + more by {
        assert more == [head] + tail;
      }
    } else {
      assert keys + more == keys;
    }
  }

  lemma AppendOneEncoded(keys: seq<Expr>, e: Expr, rest: seq<Json>)
    ensures AppendKeys(keys, [ExprToJson(e)] + rest) == AppendKeys(keys + [e], rest)
  {
    ExprJsonRoundTrip(e);
    var items := [ExprToJson(e)] + rest;
    assert items[0] == ExprToJson(e) && items[1..] == rest;
    assert ExprToJson(e).JObject?;
  }

  lemma ScalarsEncoded(prior: ScanFields, s: ScanFields, db: Database)
    requires s.tableName in db.tables
    ensures LoadScalars(prior, Encode(s).members, db) == Loaded(
      prior.(tableName := s.tableName, keyIterate := s.keyIterate, lookupType := s.lookupType,
             sortDirection := s.sortDirection, indexName := s.indexName,
             catalogIndex := CatalogIndex(db.tables[s.tableName], s.indexName)),
      None)
  {
    EncodedScalars(s);
    LookupNameRoundTrip(s.lookupType);
    SortNameRoundTrip(s.sortDirection);
    ScalarsLoaded(prior, Encode(s).members, db, s.tableName, s.keyIterate, LookupName(s.lookupType),
                  SortName(s.sortDirection), s.indexName);
  }

  /** The scalar members toJSONString writes, read with their getters. */
  lemma EncodedScalars(s: ScanFields)
    ensures Encode(s).JObject?
    ensures var ms := Encode(s).members;
      StringMember(ms, "TARGET_TABLE_NAME") == Success(s.tableName) &&
      BoolMember(ms, "KEY_ITERATE") == Success(s.keyIterate) &&
      StringMember(ms, "LOOKUP_TYPE") == Success(LookupName(s.lookupType)) &&
      StringMember(ms, "SORT_DIRECTION") == Success(SortName(s.sortDirection)) &&
      StringMember(ms, "TARGET_INDEX_NAME") == Success(s.indexName)
  {
    EncodedGets(s);
    var ms := Encode(s).members;
    StringAt(ms, "TARGET_TABLE_NAME", s.tableName);
    BoolAt(ms, "KEY_ITERATE", s.keyIterate);
    StringAt(ms, "LOOKUP_TYPE", LookupName(s.lookupType));
    StringAt(ms, "SORT_DIRECTION", SortName(s.sortDirection));
    StringAt(ms, "TARGET_INDEX_NAME", s.indexName);
  }

  lemma StringAt(ms: seq<(string, Json)>, key: string, v: string)
    requires Get(ms, key) == Some(JString(v))
    ensures StringMember(ms, key) == Success(v)
  {
  }

  lemma BoolAt(ms: seq<(string, Json)>, key: string, v: bool)
    requires Get(ms, key) == Some(JBool(v))
    ensures BoolMember(ms, key) == Success(v)
  {
  }

  /** LoadScalars on an object whose scalar members are all readable. */
  lemma ScalarsLoaded(prior: ScanFields, ms: seq<(string, Json)>, db: Database,
                      table: string, iterate: bool, lookup: string, sort: string, index: string)
    requires StringMember(ms, "TARGET_TABLE_NAME") == Success(table)
    requires BoolMember(ms, "KEY_ITERATE") == Success(iterate)
    requires StringMember(ms, "LOOKUP_TYPE") == Success(lookup)
    requires StringMember(ms, "SORT_DIRECTION") == Success(sort)
    requires StringMember(ms, "TARGET_INDEX_NAME") == Success(index)
    ensures var named := prior.(tableName := table, keyIterate := iterate, lookupType := LookupFromName(lookup),
                                sortDirection := SortFromName(sort), indexName := index);
      LoadScalars(prior, ms, db) ==
        if table in db.tables then Loaded(named.(catalogIndex := CatalogIndex(db.tables[table], index)), None)
        else Loaded(named, Some(NoSuchTable(table)))
  {
  }

  lemma EndEncoded(f: ScanFields, s: ScanFields)
    ensures LoadEnd(f, Encode(s).members) ==
      Loaded(f.(endExpression := if s.endExpression.Some? then s.endExpression else f.endExpression), None)
  {
    EncodedGets(s);
    if s.endExpression.Some? {
      ExprJsonRoundTrip(s.endExpression.value);
      assert ExprToJson(s.endExpression.value).JObject?;
    }
  }

  lemma KeysEncoded(f: ScanFields, s: ScanFields)
    ensures LoadKeys(f, Encode(s).members) == Loaded(f.(searchKeys := f.searchKeys + s.searchKeys), None)
  {
    EncodedGets(s);
    AppendEncodedKeys(f.searchKeys, s.searchKeys);
    KeysFromArray(f, Encode(s).members, EncodeKeys(s.searchKeys));
  }

  /** LoadKeys on an object whose SEARCHKEY_EXPRESSIONS member is an array. */
  lemma KeysFromArray(f: ScanFields, ms: seq<(string, Json)>, items: seq<Json>)
    requires Get(ms, "SEARCHKEY_EXPRESSIONS") == Some(JArray(items))
    ensures var (keys, err) := AppendKeys(f.searchKeys, items);
      LoadKeys(f, ms) == Loaded(f.(searchKeys := keys), err)
  {
  }

  /**
   * Loading a written node into any node `prior` sets the scalar fields
   * to the written ones, binds the catalog index by the written table and
   * index names, replaces the end expression only when one was written,
   * and appends the written search keys to those `prior` holds.
   */
  lemma LoadEncoded(prior: ScanFields, s: ScanFields, db: Database)
    requires s.tableName in db.tables
    ensures Load(prior, Encode(s).members, db) == Loaded(
      s.(endExpression := if s.endExpression.Some? then s.endExpression else prior.endExpression,
         searchKeys := prior.searchKeys + s.searchKeys,
         catalogIndex := CatalogIndex(db.tables[s.tableName], s.indexName)),
      None)
  {
    ScalarsEncoded(prior, s, db);
    var mid := LoadScalars(prior, Encode(s).members, db).fields;
    EndEncoded(mid, s);
    var mid2 := LoadEnd(mid, Encode(s).members).fields;
    KeysEncoded(mid2, s);
  }

  /** Loading a written node into a fresh node restores every written field. */
  lemma FreshRoundTrip(s: ScanFields, db: Database)
    requires s.tableName in db.tables
    ensures Load(FreshFields(), Encode(s).members, db) ==
      Loaded(s.(catalogIndex := CatalogIndex(db.tables[s.tableName], s.indexName)), None)
  {
    LoadEncoded(FreshFields(), s, db);
    assert [] + s.searchKeys == s.searchKeys;
  }

  /** Loading the same node twice doubles its search keys: loading appends. */
  lemma LoadTwiceAppends(s: ScanFields, db: Database)
    requires s.tableName in db.tables
    ensures Load(Load(FreshFields(), Encode(s).members, db).fields, Encode(s).members, db).fields.searchKeys
      == s.searchKeys + s.searchKeys
  {
    FreshRoundTrip(s, db);
    LoadEncoded(Load(FreshFields(), Encode(s).members, db).fields, s, db);
  }

  /**
   * A written node naming a table the database lacks stops loading after
   * the five scalar members (the table name, KEY_ITERATE, LOOKUP_TYPE,
   * SORT_DIRECTION and TARGET_INDEX_NAME), with those already assigned.
   */
  lemma LoadUnknownTable(prior: ScanFields, s: ScanFields, db: Database)
    requires s.tableName !in db.tables
    ensures Load(prior, Encode(s).members, db) == Loaded(
      prior.(tableName := s.tableName, keyIterate := s.keyIterate, lookupType := s.lookupType,
             sortDirection := s.sortDirection, indexName := s.indexName),
      Some(NoSuchTable(s.tableName)))
  {
    EncodedScalars(s);
    LookupNameRoundTrip(s.lookupType);
    SortNameRoundTrip(s.sortDirection);
    ScalarsLoaded(prior, Encode(s).members, db, s.tableName, s.keyIterate, LookupName(s.lookupType),
                  SortName(s.sortDirection), s.indexName);
  }
}
