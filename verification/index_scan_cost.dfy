/**
 * The cost heuristic of an index scan (IndexScanPlanNode.computeCostEstimates).
 *
 * The key width is kept in half-units: a range-scan key counts as half a
 * covered column. The floating-point discount term (90% of the table's
 * maximum row count, scaled by 0.1 per covered column, truncated toward
 * zero) is a parameter of the model, a natural number computed from the
 * maximum row count and the half-unit width; the conversion of that value
 * to a 32-bit int and the 32-bit addition after it are written out.
 */
module IndexScanCost {
  import opened PlanTypes

  const IntMin: int := -0x8000_0000
  const IntMax: int := 0x7FFF_FFFF

  /**
   * The number of keys an index scan probes with: the search keys, or a
   * single range key when there are none but an end expression is set.
   */
  function EffectiveKeyCount(keyCount: nat, hasEnd: bool): (k: nat)
    ensures k == 0 <==> keyCount == 0 && !hasEnd
    ensures keyCount > 0 ==> k == keyCount
    ensures keyCount == 0 && hasEnd ==> k == 1
  {
    if keyCount == 0 && hasEnd then 1 else keyCount
  }

  /** The last probing key is a range key: the lookup is not EQ, or only an end expression bounds the scan. */
  predicate EndsInRange(keyCount: nat, lookup: LookupType, hasEnd: bool) {
    (keyCount > 0 && lookup != EQ) || (keyCount == 0 && hasEnd)
  }

  /**
   * The key width in half-units. It is twice the number of probing keys,
   * less one half-unit when the last of them is a range key; so it is odd
   * exactly for a range scan and rounds up to the probing-key count.
   */
  function KeyWidth(keyCount: nat, lookup: LookupType, hasEnd: bool): (w: nat)
    ensures w == 2 * EffectiveKeyCount(keyCount, hasEnd) - (if EndsInRange(keyCount, lookup, hasEnd) then 1 else 0)
    ensures w % 2 == 1 <==> EndsInRange(keyCount, lookup, hasEnd)
    ensures (w + 1) / 2 == EffectiveKeyCount(keyCount, hasEnd)
  {
    var width := 2 * keyCount;
    if keyCount > 0 && lookup != EQ then width - 1
    else if keyCount == 0 && hasEnd then 1
    else width
  }

  /** The tie-breaking base cost of an index kind: hash tables before trees. */
  function BasePriority(kind: IndexKind): (p: int)
    requires kind != InvalidIndex
    ensures p == 2 <==> kind == HashTable
    ensures p == 3 <==> kind.BalancedTree? || kind.BTree?
  {
    if kind == HashTable then 2 else 3
  }

  /** Java's `(int)` conversion of a non-negative double: saturates at the largest int. */
  function ToInt(d: nat): (r: int)
    ensures 0 <= r <= IntMax
    ensures d <= IntMax ==> r == d
    ensures d > IntMax ==> r == IntMax
  {
    if d > IntMax then IntMax else d
  }

  /** 32-bit two's complement wrap-around. */
  function Wrap32(x: int): (r: int)
    ensures IntMin <= r <= IntMax
    ensures (r - x) % 0x1_0000_0000 == 0
    ensures IntMin <= x <= IntMax ==> r == x
  {
    (x - IntMin) % 0x1_0000_0000 + IntMin
  }

  /** The two estimates the scan writes: rows out and rows processed. */
  datatype Estimates = Estimates(output: int, processed: int)

  /** The index covers the scan uniquely: a unique index whose every column is a full (EQ) key. */
  predicate UniqueCovering(index: Index, keyCount: nat, lookup: LookupType, hasEnd: bool) {
    index.unique && 2 * index.columnCount == KeyWidth(keyCount, lookup, hasEnd)
  }

  /** The branch that discounts the full-table cost: not unique, or not every column covered. */
  predicate Discounted(index: Index, keyCount: nat, lookup: LookupType, hasEnd: bool) {
    !index.unique || 2 * index.columnCount > KeyWidth(keyCount, lookup, hasEnd)
  }

  /** The rows read in the discount branch: base plus the converted discount, wrapped, at least 4. */
  function DiscountedReads(base: int, discount: nat): (t: int)
    ensures 4 <= t <= IntMax
  {
    var t := Wrap32(base + ToInt(discount));
    if t < 4 then 4 else t
  }

  /**
   * computeCostEstimates. A unique index covered by full keys reads the
   * base cost and returns one row; any scan taking the discount branch
   * costs at least 4 and at most the largest int, with equal estimates.
   */
  function CostEstimates(index: Index, keyCount: nat, lookup: LookupType, hasEnd: bool,
                         maxTuples: nat, discount: (nat, nat) -> nat): (e: Estimates)
    requires keyCount <= index.columnCount && index.kind != InvalidIndex
    ensures UniqueCovering(index, keyCount, lookup, hasEnd) ==> e == Estimates(1, BasePriority(index.kind))
    ensures Discounted(index, keyCount, lookup, hasEnd) ==>
      e.output == e.processed && 4 <= e.processed <= IntMax
    ensures !UniqueCovering(index, keyCount, lookup, hasEnd) && !Discounted(index, keyCount, lookup, hasEnd) ==>
      e == Estimates(BasePriority(index.kind), BasePriority(index.kind))
    ensures 1 <= e.output <= e.processed <= IntMax
  {
    var w := KeyWidth(keyCount, lookup, hasEnd);
    var base := BasePriority(index.kind);
    var tuplesToRead := if !index.unique || 2 * index.columnCount > w then DiscountedReads(base, discount(maxTuples, w)) else base;
    if index.unique && 2 * index.columnCount == w then Estimates(1, tuplesToRead)
    else Estimates(tuplesToRead, tuplesToRead)
  }

  /**
   * The scans that take neither branch: a unique index with no columns,
   * bounded only by an end expression (its half-unit width 1 exceeds the
   * doubled column count 0).
   */
  lemma NeitherBranch(index: Index, keyCount: nat, lookup: LookupType, hasEnd: bool)
    requires keyCount <= index.columnCount
    ensures !UniqueCovering(index, keyCount, lookup, hasEnd) && !Discounted(index, keyCount, lookup, hasEnd)
      <==> index.unique && index.columnCount == 0 && hasEnd
  {
  }

  /** A unique covering scan is cheaper than any scan that takes the discount branch, on both estimates. */
  lemma UniqueCoveringWins(a: Index, ka: nat, la: LookupType, ha: bool,
                           b: Index, kb: nat, lb: LookupType, hb: bool,
                           maxTuples: nat, discount: (nat, nat) -> nat)
    requires ka <= a.columnCount && a.kind != InvalidIndex
    requires kb <= b.columnCount && b.kind != InvalidIndex
    requires UniqueCovering(a, ka, la, ha)
    requires !UniqueCovering(b, kb, lb, hb) && b.columnCount > 0
    ensures CostEstimates(a, ka, la, ha, maxTuples, discount).processed < CostEstimates(b, kb, lb, hb, maxTuples, discount).processed
    ensures CostEstimates(a, ka, la, ha, maxTuples, discount).output < CostEstimates(b, kb, lb, hb, maxTuples, discount).output
  {
    NeitherBranch(b, kb, lb, hb);
  }
}
