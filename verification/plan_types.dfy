/**
 * The catalog records an index scan binds to, and the enumerations a
 * plan node stores: the index lookup type, the sort direction and the
 * index kind. Each enumeration is written to JSON by its constant name
 * and read back by looking that name up; a name that matches no
 * constant reads as INVALID.
 */
module PlanTypes {
  import opened Wrappers

  /** The kinds of index the catalog can hold. */
  datatype IndexKind = InvalidIndex | BalancedTree | HashTable | BTree

  /** A catalog index: its column count, whether it is unique, and its kind. */
  datatype Index = Index(name: string, columnCount: nat, unique: bool, kind: IndexKind)

  /** A catalog table with its indexes by name. */
  datatype Table = Table(name: string, indexes: map<string, Index>)

  /** The catalog database: its tables by name. */
  datatype Database = Database(tables: map<string, Table>)

  /** The overall index lookup operation. */
  datatype LookupType = InvalidLookup | EQ | GT | GTE | LT | LTE

  /** The order an index scan returns its rows in. */
  datatype SortDirection = InvalidSort | Asc | Desc

  function LookupName(t: LookupType): string {
    match t
    case InvalidLookup => "INVALID"
    case EQ => "EQ"
    case GT => "GT"
    case GTE => "GTE"
    case LT => "LT"
    case LTE => "LTE"
  }

  /** The lookup type with the given constant name, INVALID for any other name. */
  function LookupFromName(name: string): (t: LookupType)
    ensures t != InvalidLookup ==> LookupName(t) == name
  {
    if name == "EQ" then EQ
    else if name == "GT" then GT
    else if name == "GTE" then GTE
    else if name == "LT" then LT
    else if name == "LTE" then LTE
    else InvalidLookup
  }

  /** Reading a written lookup type gives it back. */
  lemma LookupNameRoundTrip(t: LookupType)
    ensures LookupFromName(LookupName(t)) == t
  {
    match t
    case InvalidLookup =>
      assert LookupName(t)[0] == 'I';
    case _ =>
  }

  function SortName(d: SortDirection): string {
    match d
    case InvalidSort => "INVALID"
    case Asc => "ASC"
    case Desc => "DESC"
  }

  /** The sort direction with the given constant name, INVALID for any other name. */
  function SortFromName(name: string): (d: SortDirection)
    ensures d != InvalidSort ==> SortName(d) == name
  {
    if name == "ASC" then Asc
    else if name == "DESC" then Desc
    else InvalidSort
  }

  /** Reading a written sort direction gives it back. */
  lemma SortNameRoundTrip(d: SortDirection)
    ensures SortFromName(SortName(d)) == d
  {
    match d
    case InvalidSort =>
      assert SortName(d)[0] == 'I';
    case _ =>
  }
}
