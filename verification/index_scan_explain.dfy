/**
 * The explain text of an index scan (IndexScanPlanNode.explainPlanForNode):
 * `INDEX SCAN of "<table>" using "<index>" ` and a usage note saying
 * whether the index only provides the sort order, is probed with a
 * unique (EQ) or a range lookup, and whether the probing keys cover
 * all of its columns.
 */
module IndexScanExplain {
  import opened Wrappers
  import opened Text
  import opened PlanTypes

  datatype Coverage = Covering | Partial(keys: nat, columns: nat)

  /** What the usage note says about the scan. */
  datatype Usage = SortOrderOnly | Probe(rangeScan: bool, coverage: Coverage)

  /**
   * The usage of an index with `indexSize` columns probed with `keySize`
   * keys: for the sort order only when there are no keys; otherwise a
   * range scan exactly when the lookup is not EQ, covering exactly when
   * the keys reach every column, and otherwise `keySize` of `indexSize`.
   */
  function UsageOf(keySize: nat, indexSize: nat, lookup: LookupType): (u: Usage)
    ensures u.SortOrderOnly? <==> keySize == 0
    ensures u.Probe? ==> (u.rangeScan <==> lookup != EQ)
    ensures u.Probe? ==> (u.coverage.Covering? <==> indexSize <= keySize)
    ensures u.Probe? && u.coverage.Partial? ==> u.coverage == Partial(keySize, indexSize)
  {
    if keySize == 0 then SortOrderOnly
    else Probe(lookup != EQ, if indexSize > keySize then Partial(keySize, indexSize) else Covering)
  }

  function DigitChar(d: nat): (c: char)
    requires d < 10
    ensures '0' <= c <= '9'
  {
    "0123456789"[d]
  }

  /** `%d` of a non-negative number. */
  function NatToString(n: nat): (s: string)
    ensures s != []
    ensures forall i :: 0 <= i < |s| ==> '0' <= s[i] <= '9'
  {
    if n < 10 then [DigitChar(n)] else NatToString(n / 10) + [DigitChar(n % 10)]
  }

  /** The number a non-empty run of decimal digits spells; None for anything else. */
  function ParseNat(s: string): Option<nat> {
    if s == [] || !('0' <= s[|s| - 1] <= '9') then None
    else
      var d := (s[|s| - 1] as int) - ('0' as int);
      if |s| == 1 then Some(d)
      else
        match ParseNat(s[..|s| - 1])
        case None => None
        case Some(m) => Some(10 * m + d)
  }

  lemma {:induction false} ParseNatToString(n: nat)
    ensures ParseNat(NatToString(n)) == Some(n)
  {
    var s := NatToString(n);
    if n >= 10 {
      ParseNatToString(n / 10);
      assert s[..|s| - 1] == NatToString(n / 10);
    }
  }

  function ScanText(rangeScan: bool): string {
    if rangeScan then "range-scan" else "unique-scan"
  }

  function CoverageText(c: Coverage): string {
    match c
    case Covering => "covering"
    case Partial(k, n) => NatToString(k) + "/" + NatToString(n) + " cols"
  }

  /** The usage note as explainPlanForNode writes it. */
  function UsageText(u: Usage): string {
    match u
    case SortOrderOnly => "(for sort order only)"
    case Probe(range, c) => "(" + ScanText(range) + " " + CoverageText(c) + ")"
  }

  function ParseCoverage(t: string): Option<Coverage> {
    if t == "covering" then Some(Covering)
    else
      match SplitOnce(t, '/')
      case None => None
      case Some((a, b)) =>
        if !EndsWith(b, " cols") then None
        else
          match (ParseNat(a), ParseNat(b[..|b| - 5]))
          case (Some(k), Some(n)) => Some(Partial(k, n))
          case _ => None
  }

  /** Reads a usage note back; None for any other text. */
  function ParseUsage(s: string): Option<Usage> {
    if s == "(for sort order only)" then Some(SortOrderOnly)
    else if |s| < 2 || s[0] != '(' || s[|s| - 1] != ')' then None
    else
      var inner := s[1..|s| - 1];
      if StartsWith(inner, "unique-scan ") then
        match ParseCoverage(inner[12..])
        case None => None
        case Some(c) => Some(Probe(false, c))
      else if StartsWith(inner, "range-scan ") then
        match ParseCoverage(inner[11..])
        case None => None
        case Some(c) => Some(Probe(true, c))
      else None
  }

  lemma CoverageRoundTrip(c: Coverage)
    ensures ParseCoverage(CoverageText(c)) == Some(c)
  {
    match c
    case Covering =>
    case Partial(k, n) =>
      var a := NatToString(k);
      var b := NatToString(n) + " cols";
      assert '/' !in a;
      SplitOnceAt(a, b, '/');
      assert CoverageText(c) == a + ['/'] + b;
      assert CoverageText(c) != "covering" by {
        assert CoverageText(c)[0] != 'c';
      }
      assert b[..|b| - 5] == NatToString(n);
      assert b[|b| - 5..] == " cols";
      ParseNatToString(k);
      ParseNatToString(n);
  }

  /** The usage note is unambiguous: reading it back gives the usage it was written from. */
  lemma UsageRoundTrip(u: Usage)
    ensures ParseUsage(UsageText(u)) == Some(u)
  {
    match u
    case SortOrderOnly =>
    case Probe(range, c) =>
      if range {
        assert UsageText(u) == "(" + "range-scan " + CoverageText(c) + ")";
        RangeProbeRoundTrip(c);
      } else {
        assert UsageText(u) == "(" + "unique-scan " + CoverageText(c) + ")";
        UniqueProbeRoundTrip(c);
      }
  }

  lemma UniqueProbeRoundTrip(c: Coverage)
    ensures ParseUsage("(" + "unique-scan " + CoverageText(c) + ")") == Some(Probe(false, c))
  {
    CoverageRoundTrip(c);
    UniqueProbe(CoverageText(c), c);
  }

  lemma RangeProbeRoundTrip(c: Coverage)
    ensures ParseUsage("(" + "range-scan " + CoverageText(c) + ")") == Some(Probe(true, c))
  {
    CoverageRoundTrip(c);
    RangeProbe(CoverageText(c), c);
  }

  /** A unique-scan note around any coverage text that reads back as `c`. */
  lemma UniqueProbe(t: string, c: Coverage)
    requires ParseCoverage(t) == Some(c)
    ensures ParseUsage("(" + "unique-scan " + t + ")") == Some(Probe(false, c))
  {
    var inner := "unique-scan " + t;
    assert "(" + "unique-scan " + t + ")" == "(" + inner + ")";
    Prefixed("unique-scan ", t);
    ProbeParsed(inner, false, c);
  }

  /** A range-scan note around any coverage text that reads back as `c`. */
  lemma RangeProbe(t: string, c: Coverage)
    requires ParseCoverage(t) == Some(c)
    ensures ParseUsage("(" + "range-scan " + t + ")") == Some(Probe(true, c))
  {
    var inner := "range-scan " + t;
    assert "(" + "range-scan " + t + ")" == "(" + inner + ")";
    Prefixed("range-scan ", t);
    assert inner[0] == 'r';
    ProbeParsed(inner, true, c);
  }

  /** ParseUsage on a parenthesised text that starts with one of the two scan words. */
  lemma ProbeParsed(inner: string, range: bool, c: Coverage)
    requires range ==> inner != [] && inner[0] == 'r' && StartsWith(inner, "range-scan ")
    requires range ==> ParseCoverage(inner[11..]) == Some(c)
    requires !range ==> StartsWith(inner, "unique-scan ") && ParseCoverage(inner[12..]) == Some(c)
    ensures ParseUsage("(" + inner + ")") == Some(Probe(range, c))
  {
    Parenthesised(inner);
    if range {
      assert !StartsWith(inner, "unique-scan ") by {
        assert "unique-scan "[0] == 'u';
      }
    }
  }

  lemma Parenthesised(inner: string)
    requires inner != [] && inner[0] != 'f'
    ensures var s := "(" + inner + ")";
      s != "(for sort order only)" && |s| >= 2 && s[0] == '(' && s[|s| - 1] == ')' && s[1..|s| - 1] == inner
  {
    var s := "(" + inner + ")";
    assert s[1] == inner[0];
  }

  lemma Prefixed(p: string, t: string)
    ensures StartsWith(p + t, p) && (p + t)[|p|..] == t
  {
    assert (p + t)[..|p|] == p;
  }

  /** The explain line of an index scan. */
  function Explain(tableName: string, indexName: string, u: Usage): string {
    "INDEX SCAN of \"" + tableName + "\"" + " using \"" + indexName + "\"" + " " + UsageText(u)
  }
}
