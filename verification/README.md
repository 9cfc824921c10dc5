# Audit report formatter: a Dafny model

`scripts/parse_audit.py` turns the JSON report of a product-catalog audit into a
text summary. The document lists queries (named checks). Each query lists the
issues it found, and each issue names a severity, a SKU (product identifier),
a field and some details. The script does two things, and this project models
both:

* **Aggregation** (`parse_audit_json`, from the decoded document onward) folds
  the document into *insights*. These hold the two top-level totals, a
  `{total, affected_skus}` entry per query name, a count per severity, a count
  per SKU, and the ordered list of critical (severity `required`) issues.
  Missing issue keys take their defaults: severity `unknown`, SKU `N/A`, and
  empty field and details. Lines 28, 29 and 33 read `query_name`,
  `total_issues` and `affected_skus` with no default, so a query that lacks
  any of them raises a `KeyError`; here that is a `Failure(MissingKey(key))`.
* **Report selection** (`format_insights`) decides what the report shows:
  * severities in ascending string order, each with its icon;
  * the five largest query totals; line 90 tests `> 0`, so a query whose
    total is 0 or negative is not listed;
  * the five most frequent SKUs;
  * the first five critical issues, with details cut to 60 characters and a
    "... and N more" line.

Modules:

| file | module | what it holds |
|---|---|---|
| wrappers.dfy | `Wrappers` | `Option` for optional JSON keys, `Result` for the raised error |
| tally.dfy | `Tally` | the `defaultdict(int)` counters: `Get`, `Increment`, the ghost `Sum` of all counts |
| string_order.dfy | `StringOrder` | Python's `<` on `str` (code-point lexicographic) and its order laws |
| sorting.dfy | `Sorting` | keys of a map, ascending sort, sort by descending score, top-5 selection, positive filter |
| audit.dfy | `Audit` | document and insights datatypes, the fold, independent reference definitions, and the lemmas tying them together |
| report.dfy | `Report` | the report sections as records, what each section must hold, the sections, the page layout, parse-then-format |

The aggregation is a pair of left folds, `CountIssues` inside `AddQueries`. Each
property is stated against a reference definition written independently of
the fold:

* `AllIssues` flattens the issues in traversal order;
* `CountSeverity` and `CountSku` count occurrences;
* `CriticalOf` filters the required issues;
* `NamesOf` and `LastOfItsName` describe the last query with each name.

The report is a `Report` value with one field per section. A section the
source does not print is `None`. The contract of each section is a predicate:
`SeverityListing`, `TopIssuesListing`, `SkuListing`, `CriticalListing`.

## Model

| member | source | states |
|---|---|---|
| Tally.Increment | scripts/parse_audit.py:39 | `d[k] += 1` on a defaultdict: k becomes a key, its count rises by one, every other count is unchanged, positivity of counts is kept |
| Tally.SumIncrement | scripts/parse_audit.py:39-43 | one increment adds exactly one to the sum of all counts |
| Tally.SumRemove | scripts/parse_audit.py:39-43 | the sum of counts is the same whichever key is taken out first |
| StringOrder.LessTransitive | scripts/parse_audit.py:72 | string order used by `sorted` is transitive |
| StringOrder.LessTotal | scripts/parse_audit.py:72 | any two different strings are ordered one way or the other |
| StringOrder.LessIrreflexive | scripts/parse_audit.py:72 | no string sorts before itself |
| StringOrder.LessAsymmetric | scripts/parse_audit.py:72 | two strings are never each before the other |
| Sorting.InsertAscending | scripts/parse_audit.py:72 | inserting into a strictly ascending sequence keeps it strictly ascending and adds exactly that element |
| Sorting.SortAscending | scripts/parse_audit.py:72 | the sort is strictly ascending, with the same length and the same elements as its distinct input |
| Sorting.PrependByScore | scripts/parse_audit.py:83-87 | a key outscoring every element of a ranking may go in front of it |
| Sorting.InsertByScore | scripts/parse_audit.py:83-87 | inserting into a ranking keeps scores non-increasing and keys distinct, and adds exactly that key |
| Sorting.SortByScore | scripts/parse_audit.py:83-87 | the sort has non-increasing scores, with the same length and the same keys as its distinct input |
| Sorting.KeysOf | scripts/parse_audit.py:84 | `.items()` yields every key of the map exactly once |
| Sorting.TopOfRanking | scripts/parse_audit.py:83-87 | cutting a ranking to its first 5 keeps it ranked; a key cut means 5 were kept, and it scores no higher than any kept key |
| Sorting.TopByScore | scripts/parse_audit.py:83-87 | `sorted(..., reverse=True)[:5]` keeps min(5, n) distinct keys with non-increasing scores; a key left out means five were kept, and it scores no higher than any kept key |
| Sorting.PositiveScored | scripts/parse_audit.py:89-90 | the kept keys are exactly those with a positive score, kept as a subsequence (in the order of the ranking); if every score is positive, nothing is dropped |
| Sorting.SubsequenceMembers | scripts/parse_audit.py:89-90 | every key a subsequence holds is in the sequence it was taken from |
| Sorting.SubsequenceKeepsOrder | scripts/parse_audit.py:89-90 | two keys of a subsequence appear in the same order in the sequence it was taken from |
| Sorting.PositiveScoredRanked | scripts/parse_audit.py:89-90 | the filter keeps the ranking ranked and its keys distinct |
| Audit.CountIssues | scripts/parse_audit.py:37-51 | the issue loop leaves the totals and the per-query entries untouched |
| Audit.CountsAppend | scripts/parse_audit.py:37-43 | severity and SKU counts over concatenated issue lists add up |
| Audit.CriticalOfAppend | scripts/parse_audit.py:46-51 | the critical records of concatenated issue lists are concatenated |
| Audit.CountIssuesTallies | scripts/parse_audit.py:37-43 | after the issue loop, each severity or SKU count has grown by exactly its number of occurrences, and counts stay positive |
| Audit.CountIssuesSums | scripts/parse_audit.py:37-43 | each issue adds one to the severity counts and one to the SKU counts |
| Audit.CountIssuesCritical | scripts/parse_audit.py:45-51 | the issue loop appends exactly the required issues, in order |
| Audit.AddQueries | scripts/parse_audit.py:27-34 | the query loop succeeds iff every query has `query_name`, `total_issues` and `affected_skus`, and it keeps the totals |
| Audit.AddQueriesTallies | scripts/parse_audit.py:27-43 | across all queries, each count grows by its number of occurrences in traversal order |
| Audit.AddQueriesSums | scripts/parse_audit.py:27-43 | across all queries, each tally's sum grows by the number of issues |
| Audit.AddQueriesCritical | scripts/parse_audit.py:27-51 | across all queries, the critical list grows by exactly the required issues, in order |
| Audit.AddQueriesByQuery | scripts/parse_audit.py:27-34 | the per-query keys gain exactly the query names; other entries stay; each name holds the values of its last query |
| Audit.AddQueriesFailure | scripts/parse_audit.py:28-33 | a failure reports the first query lacking a key, naming the first absent key in reading order |
| Audit.CriticalOfMembers | scripts/parse_audit.py:46-51 | a record is critical iff some issue with severity `required` produced it; there are as many as required issues |
| Audit.ParseAudit | scripts/parse_audit.py:17-53 | success iff every query carries the three keys; `total_issues` and `total_skus` are the document's values, or 0 when absent |
| Audit.ParseAuditFailure | scripts/parse_audit.py:27-34 | the error comes from the first ill-formed query and names its first missing key |
| Audit.ParseAuditByQuery | scripts/parse_audit.py:27-34 | one entry per distinct query name; a repeated name holds the last query's values |
| Audit.ParseAuditTallies | scripts/parse_audit.py:36-43 | a severity (a SKU) is a key iff it occurs, and its count is its number of occurrences, so every count is at least 1 |
| Audit.ParseAuditSums | scripts/parse_audit.py:37-43 | the severity counts sum to the number of issues, and so do the SKU counts |
| Audit.ParseAuditCritical | scripts/parse_audit.py:45-51 | the critical list is exactly the required issues in traversal order, as `{sku, field, details}` with defaults; its length is the `required` count |
| Audit.ParseAuditNoIssues | scripts/parse_audit.py:36-43 | the severity and SKU tallies are empty iff the document holds no issue |
| Audit.ParseAuditExample | scripts/parse_audit.py:17-53 | a one-query document with a required and a warning issue on one SKU yields the expected insights |
| Report.IconFor | scripts/parse_audit.py:73-78 | the fallback icon is used iff the severity is not one of required, conditional, warning, info |
| Report.IconsDistinguishKnown | scripts/parse_audit.py:73-78 | the four known severities have four different icons |
| Report.Truncate | scripts/parse_audit.py:109 | `details[:60]`: the prefix of length min(60, n) |
| Report.TruncateKeepsShort | scripts/parse_audit.py:109 | truncation changes a string iff it is longer than 60; cutting twice is cutting once |
| Report.SeveritySection | scripts/parse_audit.py:71-79 | every tallied severity appears exactly once, strictly ascending, with its count and icon |
| Report.LinesFor | scripts/parse_audit.py:89-91 | each query line carries its query's recorded total and affected-SKU count |
| Report.ShownRanked | scripts/parse_audit.py:89-91 | the query lines printed for a ranking of positive totals have positive, non-increasing totals and distinct names |
| Report.ShownLeftOut | scripts/parse_audit.py:83-91 | a query not printed totals no more than any printed one, and a positive one is left out only when five were taken |
| Report.TopIssuesFromRanking | scripts/parse_audit.py:83-91 | filtering the top-5 ranking to positive totals yields a correct top-issues listing |
| Report.TopIssuesSection | scripts/parse_audit.py:82-91 | at most 5 distinct queries with their recorded values, totals positive and non-increasing; no query left out has a larger total than one shown; a positive one is left out only when 5 are shown |
| Report.TopSkusSection | scripts/parse_audit.py:94-103 | present iff some SKU was counted; then min(5, n) distinct SKUs with their counts, non-increasing, none left out counted more than one shown |
| Report.CriticalSection | scripts/parse_audit.py:106-112 | present iff there is a critical issue; then the first min(5, n) in order with details cut to 60, and a "more" line with n - 5 exactly when n > 5 |
| Report.CriticalSectionAccounts | scripts/parse_audit.py:106-112 | records shown plus records counted as "more" are all of them |
| Report.Format | scripts/parse_audit.py:56-116 | the report carries the two totals and four sections, each meeting its listing predicate |
| Report.SkuBlock | scripts/parse_audit.py:94-103 | the SKU section prints nothing when absent; otherwise its heading, then one line per SKU in order |
| Report.CriticalBlock | scripts/parse_audit.py:106-112 | the critical section prints nothing when absent; otherwise its heading, one line per sample in order, and the "more" line when there is one |
| Report.Opening | scripts/parse_audit.py:59-91 | banner, rule, summary heading, both totals, severity heading and lines, top-issues heading and lines, in that order |
| Report.Layout | scripts/parse_audit.py:59-116 | every printed line's position: banner and 50-wide rule, summary with the two totals, severity lines, top-issues heading and lines, then the SKU and critical sections when present (each heading, entries in order, the "more" line), and the closing rule; the page length is exactly that; each optional heading appears iff its section does |
| Report.LayoutOpening | scripts/parse_audit.py:59-116 | the page length, the fixed opening lines carrying both totals, the top-issues heading, and the closing rule last |
| Report.LayoutSeverities | scripts/parse_audit.py:71-79 | the i-th severity line is printed at line 6 + i |
| Report.LayoutQueries | scripts/parse_audit.py:82-91 | the i-th top-issue line follows the top-issues heading at offset i |
| Report.LayoutSkus | scripts/parse_audit.py:94-103 | when present, the SKU heading directly follows the top issues, and the SKU lines follow it in order |
| Report.LayoutCritical | scripts/parse_audit.py:106-114 | when present, the critical heading follows the SKU section, then the samples in order and the "more" line, just before the closing rule |
| Report.LayoutHeadings | scripts/parse_audit.py:94-107 | the SKU heading is printed iff the SKU section is, and the critical heading iff the critical section is |
| Report.SeveritiesOfDocument | scripts/parse_audit.py:36-39 | severity lines that list a document's tally carry each severity's number of occurrences in the document and miss no occurring severity |
| Report.TopIssuesOfDocument | scripts/parse_audit.py:27-34 | every top-issue line names a query of the document |
| Report.SkusOfDocument | scripts/parse_audit.py:41-43 | the SKU section is present iff the document holds an issue, and each SKU line's count is that SKU's number of occurrences |
| Report.CriticalOfDocument | scripts/parse_audit.py:45-51 | the critical section is present iff some issue is required, and it samples the document's required issues in order |
| Report.AuditReport | scripts/parse_audit.py:128-131 | parse then format: fails iff a query lacks a key (first one reported); otherwise the severity, top-issue and SKU sections meet their listing predicates for the parsed insights, and in terms of the document the totals, severity and SKU counts, query names and critical sample are those of the document |

## Left out

- `main` (scripts/parse_audit.py:119-145): argument handling, printing, exit codes and the mapping from exceptions to messages. `AuditReport` returns the error value that `main` would print.
- Reading the file and decoding JSON (lines 14-15). The input is an already-decoded `Document` in which every key the source reads may be absent (`Option`).
- JSON values of other types than the ones the code expects. The model accepts only strings for names, severities, SKUs, fields and details, integers for totals, and lists for `queries` and `issues`. The source accepts some other values without error: a numeric or `null` `query_name` or `sku` becomes a dictionary key and is printed (lines 28, 31, 42-43, 91, 103), a number in `field` is printed (line 109), and a float total is compared and printed (lines 85, 90-91). On others it raises: a lone `null` severity makes `.title()` raise `AttributeError` (line 79), `"issues": "abc"` makes `issue.get` raise `AttributeError` (line 38), a number in the `details` of one of the first five required issues makes `[:60]` raise `TypeError` (line 109), and a string total raises `TypeError` when it is compared with another total or with 0 (lines 83-87, 90).
- The text of each line: emoji glyphs, `str.title()` on the severity name, the `f"..."` formatting, the blank lines that the embedded `"\n"` prefixes produce. Lines are records (`Line`, `SeverityLine`, ...) carrying the data that each printed line shows. A severity line keeps the raw severity; the printed name is its title-cased form.
- Sorting.TopByScore: ties among equal scores are returned in any order. Python's stable sort keeps tied keys in dict insertion order, which the model's maps do not record.
- Report.TopIssuesSection: ties among equal totals may be listed in any order, for the same reason.
- Report.TopSkusSection: ties among equal counts may be listed in any order, for the same reason.
