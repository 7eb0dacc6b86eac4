/**
 * Expression trees as a plan node holds them: tuple-value references
 * (a table name, a column name and the column's offset in the input
 * schema), constants, parameters and binary operators. Expressions are
 * values here, so a deep copy is the value itself.
 *
 * Also: collecting the tuple-value references of a tree in pre-order,
 * resolving their column offsets against a schema, and a JSON codec for
 * the trees.
 */
module Expressions {
  import opened Wrappers
  import opened Json

  datatype OpKind = CompareEqual | CompareLessThan | CompareGreaterThan | ConjunctionAnd | OperatorPlus

  datatype Expr =
    | TupleValue(tableName: string, columnName: string, columnIndex: int)
    | Constant(value: int)
    | Parameter(paramIndex: nat)
    | Operator(op: OpKind, left: Expr, right: Expr)

  /** A tuple-value reference by itself. */
  datatype Tve = Tve(tableName: string, columnName: string, columnIndex: int)

  /** The tuple-value references of a tree, in pre-order (operator, then left, then right). */
  function TupleValues(e: Expr): seq<Tve> {
    match e
    case TupleValue(t, c, i) => [Tve(t, c, i)]
    case Constant(_) => []
    case Parameter(_) => []
    case Operator(_, l, r) => TupleValues(l) + TupleValues(r)
  }

  /** The references of an optional end expression; none for an absent one. */
  function OptionTupleValues(e: Option<Expr>): seq<Tve> {
    match e
    case None => []
    case Some(x) => TupleValues(x)
  }

  /** The references of a list of expressions, list by list in order. */
  function ListTupleValues(es: seq<Expr>): seq<Tve> {
    if es == [] then [] else TupleValues(es[0]) + ListTupleValues(es[1..])
  }

  lemma {:induction false} ListTupleValuesAppend(es: seq<Expr>, e: Expr)
    ensures ListTupleValues(es + [e]) == ListTupleValues(es) + TupleValues(e)
  {
    if es != [] {
      assert (es + [e])[1..] == es[1..] + [e];
      ListTupleValuesAppend(es[1..], e);
    } else {
      assert [e][1..] == [];
    }
  }

  // ---------------------------------------------------------------------
  // Column resolution

  /** A column of an input schema, named by its table and column. */
  datatype SchemaColumn = SchemaColumn(tableName: string, columnName: string)

  /** The offset of the first schema column with the reference's names, or -1 when none has them. */
  function IndexOfTve(schema: seq<SchemaColumn>, tableName: string, columnName: string): (r: int)
    ensures -1 <= r < |schema|
    ensures r >= 0 ==> schema[r] == SchemaColumn(tableName, columnName)
    ensures r >= 0 ==> forall j :: 0 <= j < r ==> schema[j] != SchemaColumn(tableName, columnName)
    ensures r == -1 <==> SchemaColumn(tableName, columnName) !in schema
  {
    if schema == [] then -1
    else if schema[0] == SchemaColumn(tableName, columnName) then 0
    else
      var i := IndexOfTve(schema[1..], tableName, columnName);
      if i == -1 then -1 else i + 1
  }

  /** A reference with its column offset set from the schema. */
  function ResolveTve(schema: seq<SchemaColumn>, t: Tve): Tve {
    t.(columnIndex := IndexOfTve(schema, t.tableName, t.columnName))
  }

  /** Every tuple-value reference in the tree gets its column offset set from the schema. */
  function ResolveColumns(schema: seq<SchemaColumn>, e: Expr): Expr {
    match e
    case TupleValue(t, c, _) => TupleValue(t, c, IndexOfTve(schema, t, c))
    case Constant(_) => e
    case Parameter(_) => e
    case Operator(op, l, r) => Operator(op, ResolveColumns(schema, l), ResolveColumns(schema, r))
  }

  /** The tree with every column offset blanked: what resolution must leave alone. */
  function Erase(e: Expr): Expr {
    match e
    case TupleValue(t, c, _) => TupleValue(t, c, 0)
    case Constant(_) => e
    case Parameter(_) => e
    case Operator(op, l, r) => Operator(op, Erase(l), Erase(r))
  }

  /** The references of a resolved tree are the tree's references, each resolved, in the same order. */
  lemma {:induction false} ResolvedTupleValues(schema: seq<SchemaColumn>, e: Expr)
    ensures |TupleValues(ResolveColumns(schema, e))| == |TupleValues(e)|
    ensures forall i :: 0 <= i < |TupleValues(e)| ==>
      TupleValues(ResolveColumns(schema, e))[i] == ResolveTve(schema, TupleValues(e)[i])
  {
    match e
    case TupleValue(_, _, _) =>
    case Constant(_) =>
    case Parameter(_) =>
    case Operator(_, l, r) =>
      ResolvedTupleValues(schema, l);
      ResolvedTupleValues(schema, r);
  }

  /** Resolution changes nothing but column offsets. */
  lemma {:induction false} ResolveKeepsShape(schema: seq<SchemaColumn>, e: Expr)
    ensures Erase(ResolveColumns(schema, e)) == Erase(e)
  {
    match e
    case TupleValue(_, _, _) =>
    case Constant(_) =>
    case Parameter(_) =>
    case Operator(_, l, r) =>
      ResolveKeepsShape(schema, l);
      ResolveKeepsShape(schema, r);
  }

  /** Resolving twice against the same schema is resolving once. */
  lemma {:induction false} ResolveIdempotent(schema: seq<SchemaColumn>, e: Expr)
    ensures ResolveColumns(schema, ResolveColumns(schema, e)) == ResolveColumns(schema, e)
  {
    match e
    case TupleValue(_, _, _) =>
    case Constant(_) =>
    case Parameter(_) =>
    case Operator(_, l, r) =>
      ResolveIdempotent(schema, l);
      ResolveIdempotent(schema, r);
  }

  /** An optional end expression with its references resolved. */
  function ResolveOption(schema: seq<SchemaColumn>, e: Option<Expr>): Option<Expr> {
    match e
    case None => None
    case Some(x) => Some(ResolveColumns(schema, x))
  }

  /** The references of an end expression and search keys: the end expression's, then each key's in order. */
  function NodeTupleValues(end: Option<Expr>, keys: seq<Expr>): seq<Tve> {
    OptionTupleValues(end) + ListTupleValues(keys)
  }

  /** Each of two lists of references, when resolved pointwise, resolves pointwise once joined. */
  lemma ResolvedJoin(schema: seq<SchemaColumn>, a: seq<Tve>, ra: seq<Tve>, b: seq<Tve>, rb: seq<Tve>)
    requires |ra| == |a| && forall i :: 0 <= i < |a| ==> ra[i] == ResolveTve(schema, a[i])
    requires |rb| == |b| && forall i :: 0 <= i < |b| ==> rb[i] == ResolveTve(schema, b[i])
    ensures |ra + rb| == |a + b|
    ensures forall i :: 0 <= i < |a + b| ==> (ra + rb)[i] == ResolveTve(schema, (a + b)[i])
  {
  }

  /** The references of resolved keys are the keys' references, each resolved, in the same order. */
  lemma {:induction false} ResolvedListTupleValues(schema: seq<SchemaColumn>, keys: seq<Expr>, resolved: seq<Expr>)
    requires |resolved| == |keys|
    requires forall i :: 0 <= i < |keys| ==> resolved[i] == ResolveColumns(schema, keys[i])
    ensures |ListTupleValues(resolved)| == |ListTupleValues(keys)|
    ensures forall i :: 0 <= i < |ListTupleValues(keys)| ==>
      ListTupleValues(resolved)[i] == ResolveTve(schema, ListTupleValues(keys)[i])
  {
    if keys != [] {
      ResolvedTupleValues(schema, keys[0]);
      ResolvedListTupleValues(schema, keys[1..], resolved[1..]);
      ResolvedJoin(schema, TupleValues(keys[0]), TupleValues(resolved[0]),
                   ListTupleValues(keys[1..]), ListTupleValues(resolved[1..]));
    }
  }

  /**
   * Resolving a node's end expression and search keys resolves every
   * reference they hold, in the order the end expression, then the keys
   * in list order, hold them.
   */
  lemma ResolvedNodeTupleValues(schema: seq<SchemaColumn>, end: Option<Expr>, keys: seq<Expr>, resolved: seq<Expr>)
    requires |resolved| == |keys|
    requires forall i :: 0 <= i < |keys| ==> resolved[i] == ResolveColumns(schema, keys[i])
    ensures |NodeTupleValues(ResolveOption(schema, end), resolved)| == |NodeTupleValues(end, keys)|
    ensures forall i :: 0 <= i < |NodeTupleValues(end, keys)| ==>
      NodeTupleValues(ResolveOption(schema, end), resolved)[i] == ResolveTve(schema, NodeTupleValues(end, keys)[i])
  {
    if end.Some? {
      ResolvedTupleValues(schema, end.value);
    }
    ResolvedListTupleValues(schema, keys, resolved);
    ResolvedJoin(schema, OptionTupleValues(end), OptionTupleValues(ResolveOption(schema, end)),
                 ListTupleValues(keys), ListTupleValues(resolved));
  }

  // ---------------------------------------------------------------------
  // JSON codec

  function OpName(op: OpKind): string {
    match op
    case CompareEqual => "COMPARE_EQUAL"
    case CompareLessThan => "COMPARE_LESSTHAN"
    case CompareGreaterThan => "COMPARE_GREATERTHAN"
    case ConjunctionAnd => "CONJUNCTION_AND"
    case OperatorPlus => "OPERATOR_PLUS"
  }

  function OpFromName(name: string): (r: Option<OpKind>)
    ensures r.Some? ==> OpName(r.value) == name
  {
    if name == "COMPARE_EQUAL" then Some(CompareEqual)
    else if name == "COMPARE_LESSTHAN" then Some(CompareLessThan)
    else if name == "COMPARE_GREATERTHAN" then Some(CompareGreaterThan)
    else if name == "CONJUNCTION_AND" then Some(ConjunctionAnd)
    else if name == "OPERATOR_PLUS" then Some(OperatorPlus)
    else None
  }

  function ExprToJson(e: Expr): Json {
    match e
    case TupleValue(t, c, i) =>
      JObject([("TYPE", JString("VALUE_TUPLE")), ("TABLE_NAME", JString(t)), ("COLUMN_NAME", JString(c)), ("COLUMN_IDX", JInt(i))])
    case Constant(v) =>
      JObject([("TYPE", JString("VALUE_CONSTANT")), ("VALUE", JInt(v))])
    case Parameter(p) =>
      JObject([("TYPE", JString("VALUE_PARAMETER")), ("PARAM_IDX", JInt(p))])
    case Operator(op, l, r) =>
      JObject([("TYPE", JString(OpName(op))), ("LEFT", ExprToJson(l)), ("RIGHT", ExprToJson(r))])
  }

  function GetString(members: seq<(string, Json)>, key: string): Option<string> {
    match Get(members, key)
    case Some(JString(s)) => Some(s)
    case _ => None
  }

  function GetInt(members: seq<(string, Json)>, key: string): Option<int> {
    match Get(members, key)
    case Some(JInt(n)) => Some(n)
    case _ => None
  }

  /** Reads a tree back; None for anything that is not a written tree. */
  function ExprFromJson(j: Json): Option<Expr>
    decreases j
  {
    if !j.JObject? then None
    else
      var ms := j.members;
      var kind := GetString(ms, "TYPE");
      if kind.None? then None
      else if kind.value == "VALUE_TUPLE" then TupleFromJson(ms)
      else if kind.value == "VALUE_CONSTANT" then
        var v := GetInt(ms, "VALUE");
        if v.None? then None else Some(Constant(v.value))
      else if kind.value == "VALUE_PARAMETER" then
        var p := GetInt(ms, "PARAM_IDX");
        if p.None? || p.value < 0 then None else Some(Parameter(p.value))
      else
        var op := OpFromName(kind.value);
        var li := FindKey(ms, "LEFT");
        var ri := FindKey(ms, "RIGHT");
        if op.None? || li.None? || ri.None? then None
        else
          assert ms[li.value] in ms && ms[ri.value] in ms;
          var l := ExprFromJson(ms[li.value].1);
          var r := ExprFromJson(ms[ri.value].1);
          if l.None? || r.None? then None else Some(Operator(op.value, l.value, r.value))
  }

  function TupleFromJson(ms: seq<(string, Json)>): Option<Expr> {
    var t := GetString(ms, "TABLE_NAME");
    var c := GetString(ms, "COLUMN_NAME");
    var i := GetInt(ms, "COLUMN_IDX");
    if t.None? || c.None? || i.None? then None else Some(TupleValue(t.value, c.value, i.value))
  }

  lemma OpNameRoundTrip(op: OpKind)
    ensures OpFromName(OpName(op)) == Some(op)
  {
  }

  /** Reading a written tree gives the tree back. */
  lemma {:induction false} ExprJsonRoundTrip(e: Expr)
    ensures ExprFromJson(ExprToJson(e)) == Some(e)
  {
    match e
    case TupleValue(t, c, i) => TupleJsonRoundTrip(t, c, i);
    case Constant(v) => ConstantJsonRoundTrip(v);
    case Parameter(p) => ParameterJsonRoundTrip(p);
    case Operator(op, l, r) =>
      ExprJsonRoundTrip(l);
      ExprJsonRoundTrip(r);
      OperatorJsonRoundTrip(op, l, r);
  }

  lemma TupleJsonRoundTrip(t: string, c: string, i: int)
    ensures ExprFromJson(ExprToJson(TupleValue(t, c, i))) == Some(TupleValue(t, c, i))
  {
    var ms := [("TYPE", JString("VALUE_TUPLE")), ("TABLE_NAME", JString(t)), ("COLUMN_NAME", JString(c)), ("COLUMN_IDX", JInt(i))];
    assert ExprToJson(TupleValue(t, c, i)) == JObject(ms);
    assert DistinctKeys(ms);
    GetDistinct(ms, 0);
    GetDistinct(ms, 1);
    GetDistinct(ms, 2);
    GetDistinct(ms, 3);
    FromJsonTuple(ms, t, c, i);
  }

  /** How a tree is read back from an object whose TYPE names a column reference. */
  lemma FromJsonTuple(ms: seq<(string, Json)>, t: string, c: string, i: int)
    requires Get(ms, "TYPE") == Some(JString("VALUE_TUPLE"))
    requires Get(ms, "TABLE_NAME") == Some(JString(t)) && Get(ms, "COLUMN_NAME") == Some(JString(c))
    requires Get(ms, "COLUMN_IDX") == Some(JInt(i))
    ensures ExprFromJson(JObject(ms)) == Some(TupleValue(t, c, i))
  {
    assert GetString(ms, "TYPE") == Some("VALUE_TUPLE");
    assert TupleFromJson(ms) == Some(TupleValue(t, c, i));
  }

  lemma ConstantJsonRoundTrip(v: int)
    ensures ExprFromJson(ExprToJson(Constant(v))) == Some(Constant(v))
  {
    var ms := ExprToJson(Constant(v)).members;
    assert DistinctKeys(ms);
    GetDistinct(ms, 0);
    GetDistinct(ms, 1);
    assert "VALUE_CONSTANT" != "VALUE_TUPLE";
  }

  lemma ParameterJsonRoundTrip(p: nat)
    ensures ExprFromJson(ExprToJson(Parameter(p))) == Some(Parameter(p))
  {
    var ms := ExprToJson(Parameter(p)).members;
    assert DistinctKeys(ms);
    GetDistinct(ms, 0);
    GetDistinct(ms, 1);
    assert "VALUE_PARAMETER" != "VALUE_TUPLE" && "VALUE_PARAMETER" != "VALUE_CONSTANT";
  }

  lemma OperatorJsonRoundTrip(op: OpKind, l: Expr, r: Expr)
    requires ExprFromJson(ExprToJson(l)) == Some(l) && ExprFromJson(ExprToJson(r)) == Some(r)
    ensures ExprFromJson(ExprToJson(Operator(op, l, r))) == Some(Operator(op, l, r))
  {
    var ms := [("TYPE", JString(OpName(op))), ("LEFT", ExprToJson(l)), ("RIGHT", ExprToJson(r))];
    OperatorObjectRoundTrip(op, l, r);
    assert ExprToJson(Operator(op, l, r)) == JObject(ms);
  }

  lemma OperatorObjectRoundTrip(op: OpKind, l: Expr, r: Expr)
    requires ExprFromJson(ExprToJson(l)) == Some(l) && ExprFromJson(ExprToJson(r)) == Some(r)
    ensures ExprFromJson(JObject([("TYPE", JString(OpName(op))), ("LEFT", ExprToJson(l)), ("RIGHT", ExprToJson(r))])) == Some(Operator(op, l, r))
  {
    var ms := [("TYPE", JString(OpName(op))), ("LEFT", ExprToJson(l)), ("RIGHT", ExprToJson(r))];
    OperatorMembers(ms);
    assert GetString(ms, "TYPE") == Some(OpName(op));
    FromJsonOperator(ms, op, 1, 2);
  }

  /** Where the three members of a written operator are found. */
  lemma OperatorMembers(ms: seq<(string, Json)>)
    requires |ms| == 3 && ms[0].0 == "TYPE" && ms[1].0 == "LEFT" && ms[2].0 == "RIGHT"
    ensures Get(ms, "TYPE") == Some(ms[0].1) && FindKey(ms, "LEFT") == Some(1) && FindKey(ms, "RIGHT") == Some(2)
  {
    assert ms[0].0[0] != ms[1].0[0] && ms[0].0[0] != ms[2].0[0] && ms[1].0[0] != ms[2].0[0];
    assert DistinctKeys(ms);
    GetDistinct(ms, 0);
    GetDistinct(ms, 1);
    GetDistinct(ms, 2);
  }

  /** How a tree is read back from an object whose TYPE names an operator. */
  lemma FromJsonOperator(ms: seq<(string, Json)>, op: OpKind, li: nat, ri: nat)
    requires GetString(ms, "TYPE") == Some(OpName(op)) && FindKey(ms, "LEFT") == Some(li) && FindKey(ms, "RIGHT") == Some(ri)
    requires ExprFromJson(ms[li].1).Some? && ExprFromJson(ms[ri].1).Some?
    ensures ExprFromJson(JObject(ms)) == Some(Operator(op, ExprFromJson(ms[li].1).value, ExprFromJson(ms[ri].1).value))
  {
    OpIsNoLeaf(op);
    OpNameRoundTrip(op);
  }

  lemma OpIsNoLeaf(op: OpKind)
    ensures OpName(op) != "VALUE_TUPLE" && OpName(op) != "VALUE_CONSTANT" && OpName(op) != "VALUE_PARAMETER"
  {
    assert OpName(op)[0] != 'V';
  }
}
