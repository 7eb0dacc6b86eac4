# Index scan plan node and source lint checks, in Dafny

This project models two pieces of the VoltDB source tree and proves
properties of them.

**The index scan plan node** (`IndexScanPlanNode`). The planner builds
this node for a scan that probes a table through one of its indexes. The
node holds:

- the target table and index names;
- an optional end expression;
- the ordered search-key expressions;
- the key-iterate flag, the lookup type (EQ, GT, ...) and the sort direction;
- the bound catalog index;
- the two cost estimates.

The node is modelled as the class `IndexScanNode.IndexScanPlanNode`.
Its methods update these fields as the Java methods do. Each method is
proved against a specification function:

- `CostEstimates` for the cost heuristic;
- `Encode` and `Load` for the keyed JSON form;
- `UsageOf` and `Explain` for the explain line;
- `ResolveColumns` for column-offset resolution.

The properties proved about those functions include:

- the cost ordering (a unique covering scan beats every other scan over an index with at least one column);
- the JSON round trip for a fresh node, and appending when loading into a used node;
- the unambiguity of the explain usage note;
- that resolution touches nothing but column offsets.

Expressions are a small tree datatype whose leaves include tuple-value
references. The catalog is a map of tables to maps of indexes.

**The licence and whitespace lint script** (`tools/licensescheck.py`).
This is modelled as the module `LicensesCheck`. It covers:

- the licence-header check and the tab, trailing-whitespace, `sprintf` and
  `GetStringChars` checks;
- the licence, tab and trailing-whitespace fixers;
- the per-file fixed/found tally.

Python's string built-ins the script relies on (`startswith`, `count`,
`lstrip`, `split`, `"\n".join`) are in the module `Text`. A Python
exception raised by the text handling is a `Run.Raises` result:

- the `ValueError` of a tuple unpacking after `split`;
- the `IndexError` of `approved[-1]` on an empty tuple.

The layout is one module per file:

- `wrappers.dfy`
- `text.dfy`
- `licenses_check.dfy`
- `json.dfy`
- `plan_types.dfy`
- `expressions.dfy`
- `index_scan_cost.dfy`
- `index_scan_explain.dfy`
- `index_scan_codec.dfy`
- `index_scan_node.dfy`

Java details written out explicitly:

- The key width is kept in half-units, so `keyWidth -= 0.5` and
  `colCount == keyWidth` are exact integer arithmetic.
- The `(int)` cast of the discount term saturates at 2^31-1.
- The `+=` after that cast wraps at 32 bits.

## Model

| member | source | states |
|---|---|---|
| IndexScanNode.IndexScanPlanNode.constructor | src/frontend/org/voltdb/plannodes/IndexScanPlanNode.java:64-90 | A new node has empty names, no end expression, no search keys, key-iterate off, lookup EQ, sort INVALID and no catalog index |
| IndexScanNode.IndexScanPlanNode.Validate | src/frontend/org/voltdb/plannodes/IndexScanPlanNode.java:97-113 | Fails with NoSearchKeys iff there are no search keys, whether or not an end expression is set. Otherwise it reports the end expression iff it is present and invalid, else the first invalid search key in list order. It is Valid iff keys exist and every expression is valid |
| IndexScanNode.IndexScanPlanNode.IsOrderDeterministic | src/frontend/org/voltdb/plannodes/IndexScanPlanNode.java:121-137 | Returns true exactly when the bound index is unique. When false, the nondeterminism detail becomes "index scan may provide insufficient ordering"; otherwise it is unchanged |
| IndexScanNode.IndexScanPlanNode.SetCatalogIndex | src/frontend/org/voltdb/plannodes/IndexScanPlanNode.java:139-142 | Stores the index binding and changes no other field |
| IndexScanNode.IndexScanPlanNode.SetKeyIterate | src/frontend/org/voltdb/plannodes/IndexScanPlanNode.java:153-155 | Stores the flag and changes no other field |
| IndexScanNode.IndexScanPlanNode.SetLookupType | src/frontend/org/voltdb/plannodes/IndexScanPlanNode.java:184-186 | Stores the lookup type and changes no other field |
| IndexScanNode.IndexScanPlanNode.SetSortDirection | src/frontend/org/voltdb/plannodes/IndexScanPlanNode.java:192-194 | Stores the sort direction and changes no other field |
| IndexScanNode.IndexScanPlanNode.SetTargetIndexName | src/frontend/org/voltdb/plannodes/IndexScanPlanNode.java:206-208 | Stores the index name and changes no other field |
| IndexScanNode.IndexScanPlanNode.SetEndExpression | src/frontend/org/voltdb/plannodes/IndexScanPlanNode.java:220-229 | A present expression replaces the stored one. An absent one leaves the previous end expression in place. No other field changes |
| IndexScanNode.IndexScanPlanNode.AddSearchKeyExpression | src/frontend/org/voltdb/plannodes/IndexScanPlanNode.java:231-240 | A present expression is appended, so the key list grows by one and the node's tuple-value references gain that expression's at the end. An absent one changes nothing, and no other field changes |
| IndexScanNode.IndexScanPlanNode.ResolveColumnIndexes | src/frontend/org/voltdb/plannodes/IndexScanPlanNode.java:252-274 | The end expression and every search key are replaced by their resolved forms. The node's reference list, in order (end expression first, then each key), keeps its length, and each reference gets the schema offset of its table and column |
| IndexScanNode.IndexScanPlanNode.ComputeCostEstimates | src/frontend/org/voltdb/plannodes/IndexScanPlanNode.java:277-369 | The step-by-step half-unit computation writes exactly the two estimates of CostEstimates |
| IndexScanNode.IndexScanPlanNode.ToJson | src/frontend/org/voltdb/plannodes/IndexScanPlanNode.java:371-386 | The object built member by member, with the search keys written one at a time in list order, is Encode of the node's fields |
| IndexScanNode.IndexScanPlanNode.LoadFromJson | src/frontend/org/voltdb/plannodes/IndexScanPlanNode.java:390-412 | The fields afterwards and the error returned are exactly Load of the fields before |
| IndexScanNode.IndexScanPlanNode.LoadScalarMembers | src/frontend/org/voltdb/plannodes/IndexScanPlanNode.java:391-396 | Assigns the table name, KEY_ITERATE, LOOKUP_TYPE, SORT_DIRECTION, TARGET_INDEX_NAME and the catalog binding as LoadScalars does, stopping at the first unreadable member or unknown table |
| IndexScanNode.IndexScanPlanNode.LoadNameMembers | src/frontend/org/voltdb/plannodes/IndexScanPlanNode.java:391-395 | Assigns the table name, KEY_ITERATE and the three lookup members in order, as LoadNames does; a missing or wrongly typed member stops loading with the members before it already assigned |
| IndexScanNode.IndexScanPlanNode.LoadLookupMembers | src/frontend/org/voltdb/plannodes/IndexScanPlanNode.java:393-395 | Assigns LOOKUP_TYPE (by enumeration name), SORT_DIRECTION and TARGET_INDEX_NAME in order, as LoadLookupNames does, stopping at the first unreadable member |
| IndexScanNode.IndexScanPlanNode.LoadEndMember | src/frontend/org/voltdb/plannodes/IndexScanPlanNode.java:398-402 | A non-null END_EXPRESSION replaces the end expression; a null or missing one keeps it (LoadEnd) |
| IndexScanNode.IndexScanPlanNode.LoadKeyMembers | src/frontend/org/voltdb/plannodes/IndexScanPlanNode.java:403-411 | The loop appends each decoded array item to the existing keys, as AppendKeys does, stopping at the first bad item |
| IndexScanNode.IndexScanPlanNode.ExplainPlanForNode | src/frontend/org/voltdb/plannodes/IndexScanPlanNode.java:415-443 | The text is Explain of the table, the index and UsageOf(key count, or 1 for an end expression alone; index column count; lookup) |
| IndexScanNode.ExplainAgreesWithCost | src/frontend/org/voltdb/plannodes/IndexScanPlanNode.java:293-304 | With search keys, a unique index is costed as uniquely covered exactly when the explain note reads "(unique-scan covering)" |
| IndexScanNode.EndOnlyScanExplainedUnique | src/frontend/org/voltdb/plannodes/IndexScanPlanNode.java:420-425 | Consider an end-expression-only EQ scan of a one-column unique index. It is explained as "(unique-scan covering)" but takes the discount branch of the cost |
| IndexScanCost.EffectiveKeyCount | src/frontend/org/voltdb/plannodes/IndexScanPlanNode.java:301-304 | The probing key count is 0 iff there are neither keys nor an end expression. It equals the key count when keys exist, and 1 for an end expression alone |
| IndexScanCost.KeyWidth | src/frontend/org/voltdb/plannodes/IndexScanPlanNode.java:293-304 | The half-unit width is 2k-1 when k>0 and the lookup is not EQ, 1 for an end expression alone, and 2k otherwise. It is odd iff the scan ends in a range key, and it rounds up to the probing-key count |
| IndexScanCost.BasePriority | src/frontend/org/voltdb/plannodes/IndexScanPlanNode.java:310-320 | The base is 2 iff the index is a hash table, and 3 iff it is a balanced tree or B-tree |
| IndexScanCost.ToInt | src/frontend/org/voltdb/plannodes/IndexScanPlanNode.java:333 | Java's (int) of a non-negative double keeps values up to 2^31-1 and saturates above |
| IndexScanCost.Wrap32 | src/frontend/org/voltdb/plannodes/IndexScanPlanNode.java:333 | The int addition result is in the 32-bit range and congruent to the exact sum modulo 2^32 |
| IndexScanCost.DiscountedReads | src/frontend/org/voltdb/plannodes/IndexScanPlanNode.java:323-347 | The discount branch yields between 4 and 2^31-1 rows read |
| IndexScanCost.CostEstimates | src/frontend/org/voltdb/plannodes/IndexScanPlanNode.java:310-368 | A unique covering scan gives output 1 and processed equal to the base (2 or 3). A discounted scan gives equal estimates in [4, 2^31-1]. The one remaining case gives both estimates equal to the base. Always 1 <= output <= processed <= 2^31-1 |
| IndexScanCost.NeitherBranch | src/frontend/org/voltdb/plannodes/IndexScanPlanNode.java:323-366 | A scan takes neither the discount nor the unique-covering branch exactly when it uses a zero-column unique index with an end expression |
| IndexScanCost.UniqueCoveringWins | src/frontend/org/voltdb/plannodes/IndexScanPlanNode.java:335-346 | A unique covering scan costs strictly less, on both estimates, than any other scan over an index with columns |
| IndexScanExplain.UsageOf | src/frontend/org/voltdb/plannodes/IndexScanPlanNode.java:420-436 | The note is "for sort order only" iff there are no probing keys. Otherwise it is a range scan iff the lookup is not EQ, and covering iff the index has no more columns than keys, else "k/n cols" |
| IndexScanExplain.NatToString | src/frontend/org/voltdb/plannodes/IndexScanPlanNode.java:429 | `%d` of a count is a non-empty run of decimal digits |
| IndexScanExplain.ParseNatToString | src/frontend/org/voltdb/plannodes/IndexScanPlanNode.java:429 | The written digits read back as the number |
| IndexScanExplain.CoverageRoundTrip | src/frontend/org/voltdb/plannodes/IndexScanPlanNode.java:427-429 | "covering" and "k/n cols" read back as the coverage they were written from |
| IndexScanExplain.UsageRoundTrip | src/frontend/org/voltdb/plannodes/IndexScanPlanNode.java:423-435 | The usage note is unambiguous: reading it back gives the usage it was written from |
| IndexScanCodec.EncodeKeys | src/frontend/org/voltdb/plannodes/IndexScanPlanNode.java:380-385 | One JSON item per search key, in list order |
| IndexScanCodec.StringMember | src/frontend/org/voltdb/plannodes/IndexScanPlanNode.java:393-395 | `getString` fails only for a missing member or one that is not a string |
| IndexScanCodec.BoolMember | src/frontend/org/voltdb/plannodes/IndexScanPlanNode.java:392 | `getBoolean` fails only for a missing member or one that is not a boolean |
| IndexScanCodec.AppendKeys | src/frontend/org/voltdb/plannodes/IndexScanPlanNode.java:404-411 | Loading keys keeps the existing keys as a prefix and adds at most one key per item. With no error it adds exactly one per item |
| IndexScanCodec.EncodedGets | src/frontend/org/voltdb/plannodes/IndexScanPlanNode.java:371-386 | Every member toJSONString writes is found under its own name, with the value written |
| IndexScanCodec.NodeKeysDistinct | src/frontend/org/voltdb/plannodes/IndexScanPlanNode.java:45-52 | The member names written are pairwise different |
| IndexScanCodec.AppendEncodedKeys | src/frontend/org/voltdb/plannodes/IndexScanPlanNode.java:403-411 | Loading written keys appends exactly those keys, in order, without error |
| IndexScanCodec.EncodedScalars | src/frontend/org/voltdb/plannodes/IndexScanPlanNode.java:391-395 | The scalar members written read back with their getters as the written values |
| IndexScanCodec.ScalarsLoaded | src/frontend/org/voltdb/plannodes/IndexScanPlanNode.java:391-396 | With all scalar members readable, they are assigned. The index is then re-bound by table and index name, or loading stops with NoSuchTable when the table is missing |
| IndexScanCodec.ScalarsEncoded | src/frontend/org/voltdb/plannodes/IndexScanPlanNode.java:391-396 | Loading written scalars restores them (enumeration names round-trip) and re-binds the catalog index |
| IndexScanCodec.EndEncoded | src/frontend/org/voltdb/plannodes/IndexScanPlanNode.java:398-402 | A written end expression is restored. A written null keeps the end expression the node had |
| IndexScanCodec.KeysEncoded | src/frontend/org/voltdb/plannodes/IndexScanPlanNode.java:403-411 | Loading written keys appends them to the keys the node already had |
| IndexScanCodec.LoadEncoded | src/frontend/org/voltdb/plannodes/IndexScanPlanNode.java:390-412 | Loading a written node into any node sets the written scalars and re-binds the index. It replaces the end expression only when one was written, and appends the written keys |
| IndexScanCodec.FreshRoundTrip | src/frontend/org/voltdb/plannodes/IndexScanPlanNode.java:372-412 | Loading a written node into a fresh node restores every written field, with search-key order preserved |
| IndexScanCodec.LoadTwiceAppends | src/frontend/org/voltdb/plannodes/IndexScanPlanNode.java:410 | Loading the same written node twice doubles its search keys |
| IndexScanCodec.LoadUnknownTable | src/frontend/org/voltdb/plannodes/IndexScanPlanNode.java:396 | A written node naming a table the database lacks stops after the scalar members, with those already assigned |
| PlanTypes.LookupFromName | src/frontend/org/voltdb/plannodes/IndexScanPlanNode.java:393 | A name read as a valid lookup type is that type's name |
| PlanTypes.LookupNameRoundTrip | src/frontend/org/voltdb/plannodes/IndexScanPlanNode.java:374 | Reading a written lookup type gives it back |
| PlanTypes.SortFromName | src/frontend/org/voltdb/plannodes/IndexScanPlanNode.java:394 | A name read as a valid sort direction is that direction's name |
| PlanTypes.SortNameRoundTrip | src/frontend/org/voltdb/plannodes/IndexScanPlanNode.java:375 | Reading a written sort direction gives it back |
| Expressions.IndexOfTve | src/frontend/org/voltdb/plannodes/IndexScanPlanNode.java:269 | The offset is that of the first schema column with the reference's table and column, or -1 iff none has them |
| Expressions.ListTupleValuesAppend | src/frontend/org/voltdb/plannodes/IndexScanPlanNode.java:262-265 | The references of a key list with one more key are the old ones followed by the new key's |
| Expressions.ResolvedTupleValues | src/frontend/org/voltdb/plannodes/IndexScanPlanNode.java:267-271 | The references of a resolved tree are the tree's references, each given its schema offset, in the same order |
| Expressions.ResolveKeepsShape | src/frontend/org/voltdb/plannodes/IndexScanPlanNode.java:267-271 | Resolution changes nothing in a tree but column offsets |
| Expressions.ResolveIdempotent | src/frontend/org/voltdb/plannodes/IndexScanPlanNode.java:267-271 | Resolving twice against the same schema is resolving once |
| Expressions.ResolvedListTupleValues | src/frontend/org/voltdb/plannodes/IndexScanPlanNode.java:262-271 | Resolving each key resolves the keys' reference list pointwise |
| Expressions.ResolvedNodeTupleValues | src/frontend/org/voltdb/plannodes/IndexScanPlanNode.java:259-271 | Resolving the end expression and each key resolves the node's whole reference list pointwise |
| Expressions.OpFromName | src/frontend/org/voltdb/plannodes/IndexScanPlanNode.java:401 | A name read as an operator is that operator's name |
| Expressions.OpNameRoundTrip | src/frontend/org/voltdb/plannodes/IndexScanPlanNode.java:401 | Reading a written operator name gives the operator back |
| Expressions.ExprJsonRoundTrip | src/frontend/org/voltdb/plannodes/IndexScanPlanNode.java:398-401 | Reading a written expression tree gives the tree back |
| Json.FindKey | src/frontend/org/voltdb/plannodes/IndexScanPlanNode.java:392-395 | Finds the first member with the name, and None iff no member has it |
| Json.Get | src/frontend/org/voltdb/plannodes/IndexScanPlanNode.java:392-395 | A member value is found iff some member has the name |
| Json.GetDistinct | src/frontend/org/voltdb/plannodes/IndexScanPlanNode.java:392-395 | In an object with distinct names, each member is found under its own name |
| Text.Count | tools/licensescheck.py:76 | The non-overlapping count is positive iff the pattern occurs in the text |
| Text.LStrip | tools/licensescheck.py:46 | `lstrip()` drops exactly the leading whitespace: the result is a suffix that is empty or starts with a non-space, and everything dropped is whitespace |
| Text.SplitOnce | tools/licensescheck.py:45 | `split(sep, 1)` unpacks into two parts iff the separator occurs. The text is then the first part, the separator and the rest, with no separator in the first part |
| Text.SplitOnceAt | tools/licensescheck.py:45 | Splitting a separator-free prefix, the separator and a rest gives back that prefix and rest |
| Text.SplitLines | tools/licensescheck.py:157 | `split("\n")` gives at least one line and no line holds a newline |
| Text.JoinSplitLines | tools/licensescheck.py:165 | Joining the lines of a text gives the text back |
| Text.SplitJoinLines | tools/licensescheck.py:175 | Splitting joined newline-free lines gives the lines back |
| LicensesCheck.LicenseStartsHere | tools/licensescheck.py:27-31 | Returns 1 iff some approved licence is a prefix of the content, else 0 |
| LicensesCheck.SkipLine | tools/licensescheck.py:45-46 | Raises ValueError iff the text has no newline. Otherwise the result is a strictly shorter suffix of the text |
| LicensesCheck.PythonLicenseText | tools/licensescheck.py:43-51 | A hashbang text without a newline raises. A text with neither header line is read as is. Whatever is read is a suffix of the content |
| LicensesCheck.VerifyLicense | tools/licensescheck.py:33-67 | For a non-.py file it is 0 iff the content begins with "/*" and with an approved Java/C licence. For a .py file not starting with "#" it is 1. Otherwise it raises iff skipping the header lines raises, and is 0 iff the remaining text starts with an approved Python licence |
| LicensesCheck.HasSpaceBeforeNewline | tools/licensescheck.py:70 | The regex search succeeds iff some space, tab, form feed or vertical tab is immediately followed by a newline |
| LicensesCheck.VerifyTrailingWhitespace | tools/licensescheck.py:69-73 | Returns 1 iff some space, tab, form feed or vertical tab is immediately followed by a newline |
| LicensesCheck.VerifyTabs | tools/licensescheck.py:75-80 | Returns 1 iff the content holds a tab |
| LicensesCheck.VerifySprintf | tools/licensescheck.py:82-87 | Returns 1 iff the content contains "sprintf" |
| LicensesCheck.VerifyGetStringChars | tools/licensescheck.py:89-97 | Returns 1 iff the name ends in .cpp, .c, .h or .hpp and the content contains GetStringChars or GetStringUTFChars |
| LicensesCheck.KeepLine | tools/licensescheck.py:130-131 | Raises ValueError iff the text has no newline. Otherwise the kept line (with its newline) followed by the rest is the text |
| LicensesCheck.SplitHeader | tools/licensescheck.py:126-136 | The kept hashbang and coding lines followed by the rest are the content |
| LicensesCheck.FixLicensePython | tools/licensescheck.py:125-144 | Raises iff a header split raises or no licence is approved. Otherwise the result keeps the header lines, ends with the rest lstripped, and has an approved licence right after the header. A rest that does not start with "#" and whose lstripped form starts with an approved licence is kept lstripped after the header. Otherwise the last approved licence is inserted between the header and the unchanged rest |
| LicensesCheck.FixAfterHeader | tools/licensescheck.py:138-144 | Raises iff no licence is approved. Otherwise it keeps the header, puts an approved licence right after it and ends with the rest lstripped. A rest not starting with "#" whose lstripped form starts with an approved licence becomes header plus lstripped rest. Otherwise the result is header, last approved licence, unchanged rest |
| LicensesCheck.FixLicenseJavaC | tools/licensescheck.py:146-153 | Raises iff no licence is approved. Otherwise the result starts with an approved licence and ends with the lstripped content. Content whose lstripped form starts with an approved licence becomes that lstripped form. Otherwise the last approved licence is put in front of the unchanged content |
| LicensesCheck.FixLicenseJavaCRepairs | tools/licensescheck.py:146-153 | When every approved Java/C licence opens a comment, the fixed text passes verifyLicense |
| LicensesCheck.HeaderThenLicense | tools/licensescheck.py:43-51 | The kept header lines followed by a plain licence are read by verifyLicense as that licence |
| LicensesCheck.FixLicensePythonRepairs | tools/licensescheck.py:125-144 | When every approved Python licence is a plain comment, the fixed text passes verifyLicense |
| LicensesCheck.TabFill | tools/licensescheck.py:162 | The fill is 1 to 4 spaces and ends at a column divisible by 4 |
| LicensesCheck.ExpandTab | tools/licensescheck.py:158-162 | Raises ValueError iff the line has two tabs. Otherwise the result has no tab, a tab-free line is unchanged, and the tab is replaced by the fill for its column |
| LicensesCheck.FixTabs | tools/licensescheck.py:155-165 | The loop's result is TabsExpanded: it raises iff some line has two tabs. Otherwise the line count is kept, every line is its expanded input line, and the result passes verifyTabs |
| LicensesCheck.StripTrailing | tools/licensescheck.py:171-172 | The result is the longest prefix of the line that does not end in space, tab, form feed or vertical tab |
| LicensesCheck.JoinStrippedLines | tools/licensescheck.py:175 | Lines without trailing whitespace join into a text that verifyTrailingWhitespace accepts |
| LicensesCheck.FixTrailingWhitespace | tools/licensescheck.py:167-175 | The loop's result is TrailingWhitespaceStripped: the line count is kept, every line is its stripped input line, and the result passes verifyTrailingWhitespace |
| LicensesCheck.LicensePass | tools/licensescheck.py:191-199 | An exception of verifyLicense is the result. Otherwise the count is verifyLicense's result, at most 1. Without a failure, or at fix level 2 or below, the text is unchanged |
| LicensesCheck.LicenseStep | tools/licensescheck.py:191-199 | Raises, counts and returns the text exactly as LicensePass. The licence count is verifyLicense's result, or its exception is raised. The text changes only when the check failed and fixing is above level 2; then it is the Python or Java/C fixer's result, or that fixer's exception |
| LicensesCheck.TabPass | tools/licensescheck.py:201-206 | The count is verifyTabs' result. Only a failed check while fixing can raise, and then ValueError. Without fixing, or with no tab, the text is unchanged |
| LicensesCheck.TabStep | tools/licensescheck.py:201-206 | Raises and returns the text exactly as TabPass. The tab count is verifyTabs' result. It raises ValueError exactly when fixing a failed check meets a line with two tabs. Otherwise, when fixing a failed check, the text is fixTabs' result. A changed text passes verifyTabs |
| LicensesCheck.WhitespacePass | tools/licensescheck.py:208-213 | The count is verifyTrailingWhitespace's result. Without fixing, or with no trailing whitespace, the text is unchanged |
| LicensesCheck.TrailingWhitespaceStep | tools/licensescheck.py:208-213 | Returns the text exactly as WhitespacePass. The count is verifyTrailingWhitespace's result. The text is unchanged unless fixing a failed check, when it is fixTrailingWhitespace's result, and a changed text passes verifyTrailingWhitespace |
| LicensesCheck.FormattingSteps | tools/licensescheck.py:201-221 | After the licence step, runs the tab and whitespace steps on the successive texts and adds their counts, then the sprintf and GetStringChars checks on the final text, as AfterLicense |
| LicensesCheck.ProcessTextBounds | tools/licensescheck.py:179-221 | Always fixed <= found <= 5. Without licence fixing fixed <= 2. With licence fixing found <= fixed + 2, as only the sprintf and GetStringChars failures go unfixed |
| LicensesCheck.ProcessTextRaises | tools/licensescheck.py:180-191 | An unchecked suffix gives (0, 0). An exception of verifyLicense is the result at every fix level |
| LicensesCheck.ProcessTextNoFix | tools/licensescheck.py:191-219 | Without fixing the result is (0, the sum of the five checks on the original text) |
| LicensesCheck.ProcessTextClean | tools/licensescheck.py:191-219 | Found is 0 iff all five checks pass on the original text |
| LicensesCheck.ProcessFile | tools/licensescheck.py:179-221 | The result is ProcessText: a raised exception from the licence check, the licence fixer or fixTabs; else fixed is the licence count above level 2 plus the tab and whitespace counts when fixing, and found is the sum of the five counts, each check run on the text the previous fix left. An unchecked suffix gives (0, 0). Always fixed <= found <= 5; without licence fixing fixed <= 2, with it found <= fixed + 2. Without fixing the result is (0, the number of failing checks). Found is 0 iff all five checks pass on the original text |

## Left out

- `OpsRegistrar.java` is not part of this model.
- The base-class passes are not modelled: `super.validate()`, `super.resolveColumnIndexes()`, and `super.toJSONString`/`loadFromJSONObject` beyond the target table name.
- `getPlanNodeType`, the getters, and `setBindings`/`getBindings` are not modelled. The bindings are an aliased list that is never serialised.
- Expression trees are values, so `clone()` is the identity, and the in-place `tve.setColumnIndex` becomes rebuilding the tree. The model does not capture aliasing between nodes.
- The expression collaborators the node calls are small concrete definitions with proved round trips, not the real code:
  - `AbstractExpression.fromJSONObject`/`toJSONString`;
  - `ExpressionUtil.getTupleValueExpressions` (pre-order);
  - `NodeSchema.getIndexOfTve` (matched by table and column name only).
- IndexScanNode.IndexScanPlanNode.Validate: the validity of one expression tree is a parameter, because `AbstractExpression.validate` is not part of this model.
- IndexScanCost.CostEstimates: the floating-point term `maxTuples * 0.90 * Math.pow(0.10, keyWidth)` is a natural-number parameter of the maximum row count and the half-unit width. Only the branch structure, the floor of 4, the saturating cast and the 32-bit addition are modelled.
- IndexScanNode.IndexScanPlanNode.ComputeCostEstimates: the table's maximum row count is a parameter. The lookup of the table and its `DatabaseEstimates` is not modelled, nor are the child estimate, cluster and parameter hints, which the method ignores.
- The Java asserts at IndexScanPlanNode.java lines 295, 320 and 417 are preconditions: at most as many keys as index columns, an index kind with a base priority (hash table, balanced tree or B-tree), and a bound index. The assert at line 288 (a known target table) has no counterpart, because the table's row count is the `maxTuples` parameter.
- IndexScanNode.IndexScanPlanNode.IsOrderDeterministic: requires a bound catalog index. With none, Java's `m_catalogIndex.getUnique()` at IndexScanPlanNode.java:122 throws a NullPointerException, and the model does not describe that case.
- Enumeration names: `IndexLookupType.get`/`SortDirectionType.get` read an unknown name as INVALID, and names are matched exactly. The enumeration classes are not part of this model.
- The JSON library is a small value tree. org.json's lenient `getBoolean` (which also accepts the strings "true"/"false") and `getString` (which converts other values) are modelled strictly. A wrong kind is an error.
- Java null strings are the empty string. A null end expression or catalog index is `None`.
- A missing table during loading is the `NoSuchTable` error, where Java throws a NullPointerException.
- In `tools/licensescheck.py`, the following are not modelled:
  - file I/O: `readFile`, `writeRepairedContent` and `rmBakFile` with its `.lcbak` backup files;
  - the `processAllFiles` directory walk and the prune list;
  - command-line parsing, the extra-repository loop and `sys.exit`;
  - all printed messages.

  The fixers return the new text instead of writing it.
- Python strings are sequences of characters. `lstrip()` removes the ASCII whitespace Python 2's `str.lstrip` removes.
