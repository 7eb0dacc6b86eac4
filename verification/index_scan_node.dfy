/**
 * The index scan plan node (IndexScanPlanNode): the index it scans, the
 * optional end expression, the search keys, the key-iterate flag, the
 * lookup type, the sort direction, the bound catalog index and the two
 * cost estimates, with the operations that read and update them.
 */
module IndexScanNode {
  import opened Wrappers
  import opened Json
  import opened PlanTypes
  import opened Expressions
  import opened IndexScanCost
  import opened IndexScanExplain
  import opened IndexScanCodec

  /** The outcome of validate: fine, or the first problem found. */
  datatype Validation = Valid | NoSearchKeys | InvalidEndExpression | InvalidSearchKey(position: nat)

  const InsufficientOrdering: string := "index scan may provide insufficient ordering"

  class IndexScanPlanNode {
    /** The scanned table, set by the base scan node. */
    var tableName: string
    var indexName: string
    var endExpression: Option<Expr>
    var searchKeys: seq<Expr>
    var keyIterate: bool
    var lookupType: LookupType
    var sortDirection: SortDirection
    var catalogIndex: Option<Index>
    var estimatedOutputTupleCount: int
    var estimatedProcessedTupleCount: int
    var nondeterminismDetail: string

    /** The fields the node writes to JSON and loads back. */
    function Fields(): ScanFields
      reads this
    {
      ScanFields(tableName, indexName, endExpression, searchKeys, keyIterate, lookupType, sortDirection, catalogIndex)
    }

    constructor()
      ensures Fields() == FreshFields()
      ensures estimatedOutputTupleCount == 0 && estimatedProcessedTupleCount == 0
    {
      tableName := "";
      indexName := "";
      endExpression := None;
      searchKeys := [];
      keyIterate := false;
      lookupType := EQ;
      sortDirection := InvalidSort;
      catalogIndex := None;
      estimatedOutputTupleCount := 0;
      estimatedProcessedTupleCount := 0;
      nondeterminismDetail := "";
    }

    /**
     * validate: a node without search keys is refused whatever its end
     * expression; otherwise the end expression, when set, is checked,
     * then every search key in list order, and the first one `valid`
     * refuses is reported.
     */
    method Validate(valid: Expr -> bool) returns (v: Validation)
      ensures v == NoSearchKeys <==> searchKeys == []
      ensures v == InvalidEndExpression <==>
        searchKeys != [] && endExpression.Some? && !valid(endExpression.value)
      ensures v.InvalidSearchKey? ==>
        searchKeys != [] && (endExpression.Some? ==> valid(endExpression.value)) &&
        v.position < |searchKeys| && !valid(searchKeys[v.position]) &&
        forall j :: 0 <= j < v.position ==> valid(searchKeys[j])
      ensures v == Valid <==>
        searchKeys != [] && (endExpression.Some? ==> valid(endExpression.value)) &&
        forall j :: 0 <= j < |searchKeys| ==> valid(searchKeys[j])
    {
      if searchKeys == [] {
        return NoSearchKeys;
      }
      if endExpression.Some? && !valid(endExpression.value) {
        return InvalidEndExpression;
      }
      for i := 0 to |searchKeys|
        invariant forall j :: 0 <= j < i ==> valid(searchKeys[j])
      {
        if !valid(searchKeys[i]) {
          return InvalidSearchKey(i);
        }
      }
      return Valid;
    }

    /**
     * isOrderDeterministic: true exactly for a unique index; otherwise
     * the node records why its order may vary.
     */
    method IsOrderDeterministic() returns (r: bool)
      requires catalogIndex.Some?
      modifies this`nondeterminismDetail
      ensures r == catalogIndex.value.unique
      ensures !r ==> nondeterminismDetail == InsufficientOrdering
      ensures r ==> nondeterminismDetail == old(nondeterminismDetail)
    {
      if catalogIndex.value.unique {
        return true;
      }
      nondeterminismDetail := InsufficientOrdering;
      return false;
    }

    method SetCatalogIndex(index: Option<Index>)
      modifies this`catalogIndex
      ensures catalogIndex == index
    {
      catalogIndex := index;
    }

    method SetKeyIterate(iterate: bool)
      modifies this`keyIterate
      ensures keyIterate == iterate
    {
      keyIterate := iterate;
    }

    method SetLookupType(lookup: LookupType)
      modifies this`lookupType
      ensures lookupType == lookup
    {
      lookupType := lookup;
    }

    method SetSortDirection(direction: SortDirection)
      modifies this`sortDirection
      ensures sortDirection == direction
    {
      sortDirection := direction;
    }

    method SetTargetIndexName(name: string)
      modifies this`indexName
      ensures indexName == name
    {
      indexName := name;
    }

    /** setEndExpression: a present expression replaces the stored one (as a copy); an absent one changes nothing. */
    method SetEndExpression(e: Option<Expr>)
      modifies this`endExpression
      ensures e.Some? ==> endExpression == e
      ensures e.None? ==> endExpression == old(endExpression)
    {
      if e.Some? {
        endExpression := Some(e.value);
      }
    }

    /** addSearchKeyExpression: a present expression is appended (as a copy); an absent one changes nothing. */
    method AddSearchKeyExpression(e: Option<Expr>)
      modifies this`searchKeys
      ensures e.Some? ==> searchKeys == old(searchKeys) + [e.value]
      ensures e.Some? ==>
        NodeTupleValues(endExpression, searchKeys) == NodeTupleValues(endExpression, old(searchKeys)) + TupleValues(e.value)
      ensures e.None? ==> searchKeys == old(searchKeys)
    {
      if e.Some? {
        searchKeys := searchKeys + [e.value];
        ListTupleValuesAppend(old(searchKeys), e.value);
      }
    }

    /**
     * resolveColumnIndexes: every tuple-value reference in the end
     * expression and the search keys gets its column offset from the
     * schema; the expressions change in nothing else.
     */
    method ResolveColumnIndexes(schema: seq<SchemaColumn>)
      modifies this`endExpression, this`searchKeys
      ensures endExpression == ResolveOption(schema, old(endExpression))
      ensures |searchKeys| == |old(searchKeys)|
      ensures forall j :: 0 <= j < |searchKeys| ==> searchKeys[j] == ResolveColumns(schema, old(searchKeys)[j])
      ensures |NodeTupleValues(endExpression, searchKeys)| == |NodeTupleValues(old(endExpression), old(searchKeys))|
      ensures forall i :: 0 <= i < |NodeTupleValues(old(endExpression), old(searchKeys))| ==>
        NodeTupleValues(endExpression, searchKeys)[i] == ResolveTve(schema, NodeTupleValues(old(endExpression), old(searchKeys))[i])
    {
      if endExpression.Some? {
        endExpression := Some(ResolveColumns(schema, endExpression.value));
      }
      for i := 0 to |searchKeys|
        invariant endExpression == ResolveOption(schema, old(endExpression))
        invariant |searchKeys| == |old(searchKeys)|
        invariant forall j :: 0 <= j < i ==> searchKeys[j] == ResolveColumns(schema, old(searchKeys)[j])
        invariant forall j :: i <= j < |searchKeys| ==> searchKeys[j] == old(searchKeys)[j]
      {
        searchKeys := searchKeys[i := ResolveColumns(schema, searchKeys[i])];
      }
      ResolvedNodeTupleValues(schema, old(endExpression), old(searchKeys), searchKeys);
    }

    /**
     * computeCostEstimates, step by step over the half-unit key width;
     * `maxTuples` is the target table's estimated maximum row count and
     * `discount` the floating-point discount term.
     */
    method ComputeCostEstimates(maxTuples: nat, discount: (nat, nat) -> nat)
      requires catalogIndex.Some? && catalogIndex.value.kind != InvalidIndex
      requires |searchKeys| <= catalogIndex.value.columnCount
      modifies this`estimatedOutputTupleCount, this`estimatedProcessedTupleCount
      ensures Estimates(estimatedOutputTupleCount, estimatedProcessedTupleCount) ==
        CostEstimates(catalogIndex.value, |searchKeys|, lookupType, endExpression.Some?, maxTuples, discount)
    {
      var index := catalogIndex.value;
      var colCount := 2 * index.columnCount;
      var keyWidth := 2 * |searchKeys|;
      if keyWidth > 0 && lookupType != EQ {
        keyWidth := keyWidth - 1;
      } else if keyWidth == 0 && endExpression.Some? {
        keyWidth := 1;
      }
      var tuplesToRead := 0;
      if index.kind == HashTable {
        tuplesToRead := 2;
      } else if index.kind == BalancedTree || index.kind == BTree {
        tuplesToRead := 3;
      }
      if !index.unique || colCount > keyWidth {
        tuplesToRead := Wrap32(tuplesToRead + ToInt(discount(maxTuples, keyWidth)));
        if tuplesToRead < 4 {
          tuplesToRead := 4;
        }
      }
      estimatedOutputTupleCount := tuplesToRead;
      estimatedProcessedTupleCount := tuplesToRead;
      if index.unique && colCount == keyWidth {
        estimatedOutputTupleCount := 1;
      }
    }

    /** toJSONString: the search keys are written one by one, in list order. */
    method ToJson() returns (j: Json)
      ensures j == Encode(Fields())
    {
      var items: seq<Json> := [];
      for i := 0 to |searchKeys|
        invariant |items| == i
        invariant forall k :: 0 <= k < i ==> items[k] == ExprToJson(searchKeys[k])
      {
        items := items + [ExprToJson(searchKeys[i])];
      }
      assert items == EncodeKeys(searchKeys);
      var end := if endExpression.Some? then ExprToJson(endExpression.value) else JNull;
      j := JObject([
        ("TARGET_TABLE_NAME", JString(tableName)),
        ("KEY_ITERATE", JBool(keyIterate)),
        ("LOOKUP_TYPE", JString(LookupName(lookupType))),
        ("SORT_DIRECTION", JString(SortName(sortDirection))),
        ("TARGET_INDEX_NAME", JString(indexName)),
        ("END_EXPRESSION", end),
        ("SEARCHKEY_EXPRESSIONS", JArray(items))]);
    }

    /**
     * loadFromJSONObject: the members are read in the order toJSONString
     * writes them and assigned as they are read; the first member that is
     * missing or of the wrong kind stops loading with the fields read
     * before it already set, and is returned. Search keys are appended to
     * the ones the node already has.
     */
    method LoadFromJson(ms: seq<(string, Json)>, db: Database) returns (err: Option<LoadError>)
      modifies this`tableName, this`keyIterate, this`lookupType, this`sortDirection,
        this`indexName, this`catalogIndex, this`endExpression, this`searchKeys
      ensures Loaded(Fields(), err) == Load(old(Fields()), ms, db)
    {
      err := LoadScalarMembers(ms, db);
      if err.Some? {
        return;
      }
      err := LoadEndMember(ms);
      if err.Some? {
        return;
      }
      err := LoadKeyMembers(ms);
    }

    /** The table name, KEY_ITERATE, LOOKUP_TYPE, SORT_DIRECTION, TARGET_INDEX_NAME and the catalog binding. */
    method LoadScalarMembers(ms: seq<(string, Json)>, db: Database) returns (err: Option<LoadError>)
      modifies this`tableName, this`keyIterate, this`lookupType, this`sortDirection,
        this`indexName, this`catalogIndex
      ensures Loaded(Fields(), err) == LoadScalars(old(Fields()), ms, db)
    {
      err := LoadNameMembers(ms);
      if err.Some? {
        return;
      }
      if tableName !in db.tables {
        return Some(NoSuchTable(tableName));
      }
      catalogIndex := CatalogIndex(db.tables[tableName], indexName);
    }

    /** The table name, KEY_ITERATE, LOOKUP_TYPE, SORT_DIRECTION and TARGET_INDEX_NAME. */
    method LoadNameMembers(ms: seq<(string, Json)>) returns (err: Option<LoadError>)
      modifies this`tableName, this`keyIterate, this`lookupType, this`sortDirection, this`indexName
      ensures Loaded(Fields(), err) == LoadNames(old(Fields()), ms)
    {
      var table := StringMember(ms, "TARGET_TABLE_NAME");
      if table.Failure? {
        return Some(table.error);
      }
      tableName := table.value;
      var iterate := BoolMember(ms, "KEY_ITERATE");
      if iterate.Failure? {
        return Some(iterate.error);
      }
      keyIterate := iterate.value;
      err := LoadLookupMembers(ms);
    }

    /** LOOKUP_TYPE, SORT_DIRECTION and TARGET_INDEX_NAME. */
    method LoadLookupMembers(ms: seq<(string, Json)>) returns (err: Option<LoadError>)
      modifies this`lookupType, this`sortDirection, this`indexName
      ensures Loaded(Fields(), err) == LoadLookupNames(old(Fields()), ms)
    {
      var lookup := StringMember(ms, "LOOKUP_TYPE");
      if lookup.Failure? {
        return Some(lookup.error);
      }
      lookupType := LookupFromName(lookup.value);
      var sort := StringMember(ms, "SORT_DIRECTION");
      if sort.Failure? {
        return Some(sort.error);
      }
      sortDirection := SortFromName(sort.value);
      var index := StringMember(ms, "TARGET_INDEX_NAME");
      if index.Failure? {
        return Some(index.error);
      }
      indexName := index.value;
      return None;
    }

    /** END_EXPRESSION, when present and not null. */
    method LoadEndMember(ms: seq<(string, Json)>) returns (err: Option<LoadError>)
      modifies this`endExpression
      ensures Loaded(Fields(), err) == LoadEnd(old(Fields()), ms)
    {
      if !IsNull(ms, "END_EXPRESSION") {
        var j := Get(ms, "END_EXPRESSION").value;
        if !j.JObject? {
          return Some(WrongKind("END_EXPRESSION"));
        }
        var e := ExprFromJson(j);
        if e.None? {
          return Some(BadExpression);
        }
        endExpression := e;
      }
      return None;
    }

    /** SEARCHKEY_EXPRESSIONS, when present and not null: each item decoded and appended in turn. */
    method LoadKeyMembers(ms: seq<(string, Json)>) returns (err: Option<LoadError>)
      modifies this`searchKeys
      ensures Loaded(Fields(), err) == LoadKeys(old(Fields()), ms)
    {
      if IsNull(ms, "SEARCHKEY_EXPRESSIONS") {
        return None;
      }
      var keysJson := Get(ms, "SEARCHKEY_EXPRESSIONS").value;
      if !keysJson.JArray? {
        return Some(WrongKind("SEARCHKEY_EXPRESSIONS"));
      }
      var items := keysJson.items;
      for i := 0 to |items|
        invariant AppendKeys(old(searchKeys), items) == AppendKeys(searchKeys, items[i..])
      {
        assert items[i..][0] == items[i] && items[i..][1..] == items[i + 1..];
        if !items[i].JObject? {
          return Some(WrongKind("SEARCHKEY_EXPRESSIONS"));
        }
        var e := ExprFromJson(items[i]);
        if e.None? {
          return Some(BadExpression);
        }
        searchKeys := searchKeys + [e.value];
      }
      assert items[|items|..] == [];
      return None;
    }

    /** explainPlanForNode (the indent is not used). */
    function ExplainPlanForNode(indent: string): (r: string)
      reads this
      requires catalogIndex.Some?
      ensures r == Explain(tableName, indexName,
        UsageOf(EffectiveKeyCount(|searchKeys|, endExpression.Some?), catalogIndex.value.columnCount, lookupType))
    {
      var indexSize := catalogIndex.value.columnCount;
      var keySize := if |searchKeys| == 0 && endExpression.Some? then 1 else |searchKeys|;
      var scanType := if lookupType != EQ then "range-scan" else "unique-scan";
      var cover := if indexSize > keySize then NatToString(keySize) + "/" + NatToString(indexSize) + " cols" else "covering";
      var usageInfo := if keySize == 0 then "(for sort order only)" else "(" + scanType + " " + cover + ")";
      assert usageInfo == UsageText(UsageOf(keySize, indexSize, lookupType));
      var retval := "INDEX SCAN of \"" + tableName + "\"";
      var retval' := retval + " using \"" + indexName + "\"";
      retval' + " " + usageInfo
    }
  }

  /**
   * The explain text and the cost heuristic agree when there are search
   * keys: a unique index is costed as uniquely covered exactly when the
   * text reads "(unique-scan covering)".
   */
  lemma ExplainAgreesWithCost(index: Index, keyCount: nat, lookup: LookupType, hasEnd: bool)
    requires 0 < keyCount <= index.columnCount
    ensures UniqueCovering(index, keyCount, lookup, hasEnd) <==>
      index.unique && UsageOf(EffectiveKeyCount(keyCount, hasEnd), index.columnCount, lookup) == Probe(false, Covering)
  {
    var u := UsageOf(keyCount, index.columnCount, lookup);
    var w := KeyWidth(keyCount, lookup, hasEnd);
    if lookup == EQ {
      assert w == 2 * keyCount;
    } else {
      assert w == 2 * keyCount - 1;
      assert u.rangeScan;
    }
  }

  /**
   * Without search keys the two part ways: a scan bounded only by an end
   * expression, with an EQ lookup on a one-column unique index, is
   * explained as "(unique-scan covering)" but costed as a range scan.
   */
  lemma EndOnlyScanExplainedUnique(index: Index)
    requires index.unique && index.columnCount == 1
    ensures UsageOf(EffectiveKeyCount(0, true), index.columnCount, EQ) == Probe(false, Covering)
    ensures !UniqueCovering(index, 0, EQ, true) && Discounted(index, 0, EQ, true)
  {
    assert KeyWidth(0, EQ, true) == 1;
  }
}
