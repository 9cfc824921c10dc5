/**
 * The audit document, as the JSON decoder hands it over, and the insights
 * aggregated from it (`parse_audit_json` once the file has been read).
 */
module Audit {
  import opened Wrappers
  import opened Tally

  /** One finding. Every key is optional; absent keys take the defaults below. */
  datatype Issue = Issue(
    severity: Option<string>,
    sku: Option<string>,
    field: Option<string>,
    details: Option<string>)

  /** One named check and the findings it produced. */
  datatype Query = Query(
    queryName: Option<string>,
    totalIssues: Option<int>,
    affectedSkus: Option<int>,
    issues: Option<seq<Issue>>)

  /** The whole audit report. */
  datatype Document = Document(
    totalIssues: Option<int>,
    totalAffectedSkus: Option<int>,
    queries: Option<seq<Query>>)

  /** The `{total, affected_skus}` entry recorded per query name. */
  datatype QueryStats = QueryStats(total: int, affectedSkus: int)

  /** The `{sku, field, details}` record kept for a required issue. */
  datatype CriticalIssue = CriticalIssue(sku: string, field: string, details: string)

  datatype Insights = Insights(
    totalIssues: int,
    totalSkus: int,
    byQuery: map<string, QueryStats>,
    bySeverity: map<string, nat>,
    topSkus: map<string, nat>,
    criticalIssues: seq<CriticalIssue>)

  /** The `KeyError` raised when a query lacks a key it is read without default. */
  datatype AuditError = MissingKey(key: string)

  const REQUIRED := "required"
  const UNKNOWN_SEVERITY := "unknown"
  const NO_SKU := "N/A"

  function SeverityOf(i: Issue): string { i.severity.GetOr(UNKNOWN_SEVERITY) }

  function SkuOf(i: Issue): string { i.sku.GetOr(NO_SKU) }

  function AsCritical(i: Issue): CriticalIssue {
    CriticalIssue(SkuOf(i), i.field.GetOr(""), i.details.GetOr(""))
  }

  function IssuesOf(q: Query): seq<Issue> { q.issues.GetOr([]) }

  function QueriesOf(d: Document): seq<Query> { d.queries.GetOr([]) }

  /** A query carrying the three keys read without a default. */
  predicate WellFormed(q: Query) {
    q.queryName.Some? && q.totalIssues.Some? && q.affectedSkus.Some?
  }

  predicate AllWellFormed(qs: seq<Query>) {
    forall i | 0 <= i < |qs| :: WellFormed(qs[i])
  }

  /** `e` names the first key missing from `q` in the order the keys are read. */
  predicate ReportsFirstAbsentKey(q: Query, e: AuditError) {
    if q.queryName.None? then e == MissingKey("query_name")
    else if q.totalIssues.None? then e == MissingKey("total_issues")
    else q.affectedSkus.None? && e == MissingKey("affected_skus")
  }

  /** `qs[i]` is the first query that lacks a key. */
  predicate FirstIllFormed(qs: seq<Query>, i: int) {
    0 <= i < |qs| && !WellFormed(qs[i]) && forall j | 0 <= j < i :: WellFormed(qs[j])
  }

  function NameOf(q: Query): string
    requires WellFormed(q)
  {
    q.queryName.value
  }

  function StatsOf(q: Query): QueryStats
    requires WellFormed(q)
  {
    QueryStats(q.totalIssues.value, q.affectedSkus.value)
  }

  /** The query names that occur in `qs`. */
  function NamesOf(qs: seq<Query>): set<string> {
    set i | 0 <= i < |qs| && qs[i].queryName.Some? :: qs[i].queryName.value
  }

  /** No later query in `qs` has the name of `qs[i]`. */
  predicate LastOfItsName(qs: seq<Query>, i: int)
    requires 0 <= i < |qs|
  {
    forall j | i < j < |qs| :: qs[j].queryName != qs[i].queryName
  }

  // Reference definitions, independent of the fold: what the insights should hold.

  /** All issues of all queries, queries in order and issues in order within each. */
  function AllIssues(qs: seq<Query>): seq<Issue> {
    if |qs| == 0 then [] else IssuesOf(qs[0]) + AllIssues(qs[1..])
  }

  /** How many issues in `xs` have severity `s` (defaults applied). */
  function CountSeverity(xs: seq<Issue>, s: string): nat {
    if |xs| == 0 then 0
    else (if SeverityOf(xs[0]) == s then 1 else 0) + CountSeverity(xs[1..], s)
  }

  /** How many issues in `xs` reference SKU `k` (defaults applied). */
  function CountSku(xs: seq<Issue>, k: string): nat {
    if |xs| == 0 then 0
    else (if SkuOf(xs[0]) == k then 1 else 0) + CountSku(xs[1..], k)
  }

  /** The required issues of `xs`, in order, as critical records. */
  function CriticalOf(xs: seq<Issue>): seq<CriticalIssue> {
    if |xs| == 0 then []
    else (if SeverityOf(xs[0]) == REQUIRED then [AsCritical(xs[0])] else []) + CriticalOf(xs[1..])
  }

  lemma {:induction false} CountsAppend(a: seq<Issue>, b: seq<Issue>)
    ensures forall s :: CountSeverity(a + b, s) == CountSeverity(a, s) + CountSeverity(b, s)
    ensures forall k :: CountSku(a + b, k) == CountSku(a, k) + CountSku(b, k)
  {
    if |a| > 0 {
      assert (a + b)[1..] == a[1..] + b;
      CountsAppend(a[1..], b);
    } else {
      assert a + b == b;
    }
  }

  lemma {:induction false} CriticalOfAppend(a: seq<Issue>, b: seq<Issue>)
    ensures CriticalOf(a + b) == CriticalOf(a) + CriticalOf(b)
  {
    if |a| > 0 {
      assert (a + b)[1..] == a[1..] + b;
      CriticalOfAppend(a[1..], b);
    } else {
      assert a + b == b;
    }
  }

  // The fold itself, lines 26-51.

  /** The body of the inner loop for one issue, lines 38-51. */
  function CountIssue(acc: Insights, i: Issue): Insights {
    var severity := SeverityOf(i);
    var sku := SkuOf(i);
    acc.(
      bySeverity := Increment(acc.bySeverity, severity),
      topSkus := Increment(acc.topSkus, sku),
      criticalIssues :=
        if severity == REQUIRED then acc.criticalIssues + [AsCritical(i)] else acc.criticalIssues)
  }

  /** The inner loop over one query's issues, in order: it touches only the three tallies. */
  function CountIssues(acc: Insights, xs: seq<Issue>): (r: Insights)
    ensures r.totalIssues == acc.totalIssues && r.totalSkus == acc.totalSkus
    ensures r.byQuery == acc.byQuery
    decreases |xs|
  {
    if |xs| == 0 then acc else CountIssues(CountIssue(acc, xs[0]), xs[1..])
  }

  /** The inner loop adds each issue's severity and SKU to the tallies, and nothing else. */
  lemma {:induction false} CountIssuesTallies(acc: Insights, xs: seq<Issue>)
    ensures forall s :: Get(CountIssues(acc, xs).bySeverity, s) == Get(acc.bySeverity, s) + CountSeverity(xs, s)
    ensures forall k :: Get(CountIssues(acc, xs).topSkus, k) == Get(acc.topSkus, k) + CountSku(xs, k)
    ensures Positive(acc.bySeverity) ==> Positive(CountIssues(acc, xs).bySeverity)
    ensures Positive(acc.topSkus) ==> Positive(CountIssues(acc, xs).topSkus)
    decreases |xs|
  {
    if |xs| > 0 {
      CountIssuesTallies(CountIssue(acc, xs[0]), xs[1..]);
    }
  }

  /** Each issue adds exactly one to the severity tally and one to the SKU tally. */
  lemma {:induction false} CountIssuesSums(acc: Insights, xs: seq<Issue>)
    ensures Sum(CountIssues(acc, xs).bySeverity) == Sum(acc.bySeverity) + |xs|
    ensures Sum(CountIssues(acc, xs).topSkus) == Sum(acc.topSkus) + |xs|
    decreases |xs|
  {
    if |xs| > 0 {
      SumIncrement(acc.bySeverity, SeverityOf(xs[0]));
      SumIncrement(acc.topSkus, SkuOf(xs[0]));
      CountIssuesSums(CountIssue(acc, xs[0]), xs[1..]);
    }
  }

  /** The inner loop appends exactly the required issues, in order. */
  lemma {:induction false} CountIssuesCritical(acc: Insights, xs: seq<Issue>)
    ensures CountIssues(acc, xs).criticalIssues == acc.criticalIssues + CriticalOf(xs)
    decreases |xs|
  {
    if |xs| > 0 {
      CountIssuesCritical(CountIssue(acc, xs[0]), xs[1..]);
    }
  }

  /** The body of the outer loop for one query, lines 28-51: keys are read in source order. */
  function AddQuery(acc: Insights, q: Query): Result<Insights, AuditError> {
    if q.queryName.None? then Failure(MissingKey("query_name"))
    else if q.totalIssues.None? then Failure(MissingKey("total_issues"))
    else if q.affectedSkus.None? then Failure(MissingKey("affected_skus"))
    else
      var stats := QueryStats(q.totalIssues.value, q.affectedSkus.value);
      var recorded := acc.(byQuery := acc.byQuery[q.queryName.value := stats]);
      Success(CountIssues(recorded, IssuesOf(q)))
  }

  /** The outer loop over the queries, in order; the first query lacking a key aborts it. */
  function AddQueries(acc: Insights, qs: seq<Query>): (r: Result<Insights, AuditError>)
    ensures r.Success? <==> AllWellFormed(qs)
    ensures r.Success? ==> r.value.totalIssues == acc.totalIssues && r.value.totalSkus == acc.totalSkus
    decreases |qs|
  {
    if |qs| == 0 then Success(acc)
    else
      assert AllWellFormed(qs) <==> WellFormed(qs[0]) && AllWellFormed(qs[1..]);
      match AddQuery(acc, qs[0])
      case Failure(e) => Failure(e)
      case Success(next) => AddQueries(next, qs[1..])
  }

  /** `parse_audit_json` on an already-decoded document, lines 17-53. */
  function ParseAudit(doc: Document): (r: Result<Insights, AuditError>)
    ensures r.Success? <==> AllWellFormed(QueriesOf(doc))
    ensures r.Success? ==> r.value.totalIssues == doc.totalIssues.GetOr(0)
    ensures r.Success? ==> r.value.totalSkus == doc.totalAffectedSkus.GetOr(0)
  {
    var start := Insights(doc.totalIssues.GetOr(0), doc.totalAffectedSkus.GetOr(0), map[], map[], map[], []);
    AddQueries(start, QueriesOf(doc))
  }

  // What the outer loop accumulates, each stated against the reference definitions.

  lemma {:induction false} AddQueriesTallies(acc: Insights, qs: seq<Query>)
    requires AddQueries(acc, qs).Success?
    ensures forall s ::
      Get(AddQueries(acc, qs).value.bySeverity, s) == Get(acc.bySeverity, s) + CountSeverity(AllIssues(qs), s)
    ensures forall k ::
      Get(AddQueries(acc, qs).value.topSkus, k) == Get(acc.topSkus, k) + CountSku(AllIssues(qs), k)
    ensures Positive(acc.bySeverity) ==> Positive(AddQueries(acc, qs).value.bySeverity)
    ensures Positive(acc.topSkus) ==> Positive(AddQueries(acc, qs).value.topSkus)
    decreases |qs|
  {
    if |qs| > 0 {
      var next := AddQuery(acc, qs[0]).value;
      var recorded := acc.(byQuery := acc.byQuery[qs[0].queryName.value := StatsOf(qs[0])]);
      CountIssuesTallies(recorded, IssuesOf(qs[0]));
      CountsAppend(IssuesOf(qs[0]), AllIssues(qs[1..]));
      AddQueriesTallies(next, qs[1..]);
    }
  }

  lemma {:induction false} AddQueriesSums(acc: Insights, qs: seq<Query>)
    requires AddQueries(acc, qs).Success?
    ensures Sum(AddQueries(acc, qs).value.bySeverity) == Sum(acc.bySeverity) + |AllIssues(qs)|
    ensures Sum(AddQueries(acc, qs).value.topSkus) == Sum(acc.topSkus) + |AllIssues(qs)|
    decreases |qs|
  {
    if |qs| > 0 {
      var next := AddQuery(acc, qs[0]).value;
      var recorded := acc.(byQuery := acc.byQuery[qs[0].queryName.value := StatsOf(qs[0])]);
      CountIssuesSums(recorded, IssuesOf(qs[0]));
      AddQueriesSums(next, qs[1..]);
    }
  }

  lemma {:induction false} AddQueriesCritical(acc: Insights, qs: seq<Query>)
    requires AddQueries(acc, qs).Success?
    ensures AddQueries(acc, qs).value.criticalIssues == acc.criticalIssues + CriticalOf(AllIssues(qs))
    decreases |qs|
  {
    if |qs| > 0 {
      var next := AddQuery(acc, qs[0]).value;
      var recorded := acc.(byQuery := acc.byQuery[qs[0].queryName.value := StatsOf(qs[0])]);
      CountIssuesCritical(recorded, IssuesOf(qs[0]));
      CriticalOfAppend(IssuesOf(qs[0]), AllIssues(qs[1..]));
      AddQueriesCritical(next, qs[1..]);
    }
  }

  /** One entry per name; a later query with the same name overwrites an earlier one. */
  lemma {:induction false} AddQueriesByQuery(acc: Insights, qs: seq<Query>)
    requires AddQueries(acc, qs).Success?
    ensures AddQueries(acc, qs).value.byQuery.Keys == acc.byQuery.Keys + NamesOf(qs)
    ensures forall k | k in acc.byQuery && k !in NamesOf(qs) ::
      AddQueries(acc, qs).value.byQuery[k] == acc.byQuery[k]
    ensures forall i | 0 <= i < |qs| && LastOfItsName(qs, i) ::
      AddQueries(acc, qs).value.byQuery[NameOf(qs[i])] == StatsOf(qs[i])
    decreases |qs|
  {
    if |qs| > 0 {
      var q := qs[0];
      var next := AddQuery(acc, q).value;
      assert next.byQuery == acc.byQuery[NameOf(q) := StatsOf(q)];
      AddQueriesByQuery(next, qs[1..]);
      var r := AddQueries(acc, qs).value;
      assert r == AddQueries(next, qs[1..]).value;
      assert NamesOf(qs) == {NameOf(q)} + NamesOf(qs[1..]) by {
        forall k | k in NamesOf(qs) ensures k in {NameOf(q)} + NamesOf(qs[1..]) {
          var i :| 0 <= i < |qs| && qs[i].queryName == Some(k);
          if i > 0 {
            assert qs[1..][i - 1] == qs[i];
          }
        }
        forall k | k in NamesOf(qs[1..]) ensures k in NamesOf(qs) {
          var i :| 0 <= i < |qs[1..]| && qs[1..][i].queryName == Some(k);
          assert qs[i + 1] == qs[1..][i];
        }
      }
      forall i | 0 <= i < |qs| && LastOfItsName(qs, i)
        ensures r.byQuery[NameOf(qs[i])] == StatsOf(qs[i])
      {
        if i == 0 {
          assert NameOf(q) !in NamesOf(qs[1..]);
        } else {
          assert qs[1..][i - 1] == qs[i];
          assert LastOfItsName(qs[1..], i - 1) by {
            forall j | i - 1 < j < |qs[1..]| ensures qs[1..][j].queryName != qs[1..][i - 1].queryName {
              assert qs[1..][j] == qs[j + 1];
            }
          }
        }
      }
    }
  }

  /** A query lacking a key aborts the fold with the error of the first such query. */
  lemma {:induction false} AddQueriesFailure(acc: Insights, qs: seq<Query>)
    requires AddQueries(acc, qs).Failure?
    ensures exists i :: FirstIllFormed(qs, i) && ReportsFirstAbsentKey(qs[i], AddQueries(acc, qs).error)
    decreases |qs|
  {
    var e := AddQueries(acc, qs).error;
    if WellFormed(qs[0]) {
      var next := AddQuery(acc, qs[0]).value;
      AddQueriesFailure(next, qs[1..]);
      var j :| FirstIllFormed(qs[1..], j) && ReportsFirstAbsentKey(qs[1..][j], e);
      assert qs[j + 1] == qs[1..][j];
      forall k | 0 <= k < j + 1 ensures WellFormed(qs[k]) {
        if k > 0 {
          assert qs[k] == qs[1..][k - 1];
        }
      }
      assert FirstIllFormed(qs, j + 1);
    } else {
      assert FirstIllFormed(qs, 0);
    }
  }

  // The insights of a whole document.

  /** Exactly the required issues become critical records, in traversal order. */
  lemma {:induction false} CriticalOfMembers(xs: seq<Issue>)
    ensures forall c :: c in CriticalOf(xs) <==>
      exists i :: 0 <= i < |xs| && SeverityOf(xs[i]) == REQUIRED && AsCritical(xs[i]) == c
    ensures |CriticalOf(xs)| == CountSeverity(xs, REQUIRED)
  {
    if |xs| > 0 {
      CriticalOfMembers(xs[1..]);
      forall c | c in CriticalOf(xs)
        ensures exists i :: 0 <= i < |xs| && SeverityOf(xs[i]) == REQUIRED && AsCritical(xs[i]) == c
      {
        if !(SeverityOf(xs[0]) == REQUIRED && AsCritical(xs[0]) == c) {
          var j :| 0 <= j < |xs[1..]| && SeverityOf(xs[1..][j]) == REQUIRED && AsCritical(xs[1..][j]) == c;
          assert xs[j + 1] == xs[1..][j];
        }
      }
      forall c | exists i :: 0 <= i < |xs| && SeverityOf(xs[i]) == REQUIRED && AsCritical(xs[i]) == c
        ensures c in CriticalOf(xs)
      {
        var i :| 0 <= i < |xs| && SeverityOf(xs[i]) == REQUIRED && AsCritical(xs[i]) == c;
        if i > 0 {
          assert xs[1..][i - 1] == xs[i];
        }
      }
    }
  }

  /** On failure, the error names the first missing key of the first query that lacks one. */
  lemma ParseAuditFailure(doc: Document)
    requires ParseAudit(doc).Failure?
    ensures exists i :: FirstIllFormed(QueriesOf(doc), i) && ReportsFirstAbsentKey(QueriesOf(doc)[i], ParseAudit(doc).error)
  {
    var start := Insights(doc.totalIssues.GetOr(0), doc.totalAffectedSkus.GetOr(0), map[], map[], map[], []);
    AddQueriesFailure(start, QueriesOf(doc));
  }

  /** One entry per distinct query name, holding the values of the last query with that name. */
  lemma ParseAuditByQuery(doc: Document)
    requires ParseAudit(doc).Success?
    ensures ParseAudit(doc).value.byQuery.Keys == NamesOf(QueriesOf(doc))
    ensures forall i | 0 <= i < |QueriesOf(doc)| && LastOfItsName(QueriesOf(doc), i) ::
      ParseAudit(doc).value.byQuery[NameOf(QueriesOf(doc)[i])] == StatsOf(QueriesOf(doc)[i])
  {
    var start := Insights(doc.totalIssues.GetOr(0), doc.totalAffectedSkus.GetOr(0), map[], map[], map[], []);
    AddQueriesByQuery(start, QueriesOf(doc));
  }

  /** Each tally holds exactly the values that occur, each with its number of occurrences. */
  lemma ParseAuditTallies(doc: Document)
    requires ParseAudit(doc).Success?
    ensures var all := AllIssues(QueriesOf(doc)); var m := ParseAudit(doc).value.bySeverity;
      forall s :: (s in m <==> CountSeverity(all, s) > 0) && Get(m, s) == CountSeverity(all, s)
    ensures var all := AllIssues(QueriesOf(doc)); var m := ParseAudit(doc).value.topSkus;
      forall k :: (k in m <==> CountSku(all, k) > 0) && Get(m, k) == CountSku(all, k)
  {
    var start := Insights(doc.totalIssues.GetOr(0), doc.totalAffectedSkus.GetOr(0), map[], map[], map[], []);
    AddQueriesTallies(start, QueriesOf(doc));
  }

  /** The severity counts, and likewise the SKU counts, add up to the number of issues. */
  lemma ParseAuditSums(doc: Document)
    requires ParseAudit(doc).Success?
    ensures Sum(ParseAudit(doc).value.bySeverity) == |AllIssues(QueriesOf(doc))|
    ensures Sum(ParseAudit(doc).value.topSkus) == |AllIssues(QueriesOf(doc))|
  {
    var start := Insights(doc.totalIssues.GetOr(0), doc.totalAffectedSkus.GetOr(0), map[], map[], map[], []);
    AddQueriesSums(start, QueriesOf(doc));
  }

  /** The critical records are the required issues, in order; one per `required` count. */
  lemma ParseAuditCritical(doc: Document)
    requires ParseAudit(doc).Success?
    ensures ParseAudit(doc).value.criticalIssues == CriticalOf(AllIssues(QueriesOf(doc)))
    ensures |ParseAudit(doc).value.criticalIssues| == Get(ParseAudit(doc).value.bySeverity, REQUIRED)
  {
    var start := Insights(doc.totalIssues.GetOr(0), doc.totalAffectedSkus.GetOr(0), map[], map[], map[], []);
    AddQueriesCritical(start, QueriesOf(doc));
    CriticalOfMembers(AllIssues(QueriesOf(doc)));
    ParseAuditTallies(doc);
  }

  /** The tallies are empty exactly when the document holds no issue at all. */
  lemma ParseAuditNoIssues(doc: Document)
    requires ParseAudit(doc).Success?
    ensures |ParseAudit(doc).value.bySeverity| == 0 <==> |AllIssues(QueriesOf(doc))| == 0
    ensures |ParseAudit(doc).value.topSkus| == 0 <==> |AllIssues(QueriesOf(doc))| == 0
  {
    var all := AllIssues(QueriesOf(doc));
    var r := ParseAudit(doc).value;
    ParseAuditSums(doc);
    if |all| > 0 {
      ParseAuditTallies(doc);
      assert SeverityOf(all[0]) in r.bySeverity;
      assert SkuOf(all[0]) in r.topSkus;
    } else {
      assert r.bySeverity == map[] by {
        if r.bySeverity != map[] {
          var s :| s in r.bySeverity;
          SumRemove(r.bySeverity, s);
          ParseAuditTallies(doc);
        }
      }
      assert r.topSkus == map[] by {
        if r.topSkus != map[] {
          var k :| k in r.topSkus;
          SumRemove(r.topSkus, k);
          ParseAuditTallies(doc);
        }
      }
    }
  }

  /** The worked example of the report format: two issues of one query, one of them required. */
  lemma ParseAuditExample()
    ensures
      var doc := Document(Some(2), Some(1), Some([Query(Some("Q1"), Some(2), Some(1), Some([
        Issue(Some("required"), Some("SKU1"), Some("title"), Some("missing")),
        Issue(Some("warning"), Some("SKU1"), Some("desc"), Some("short"))]))]));
      ParseAudit(doc) == Success(Insights(2, 1,
        map["Q1" := QueryStats(2, 1)],
        map["required" := 1, "warning" := 1],
        map["SKU1" := 2],
        [CriticalIssue("SKU1", "title", "missing")]))
  {
    var i1 := Issue(Some("required"), Some("SKU1"), Some("title"), Some("missing"));
    var i2 := Issue(Some("warning"), Some("SKU1"), Some("desc"), Some("short"));
    var q := Query(Some("Q1"), Some(2), Some(1), Some([i1, i2]));
    var start := Insights(2, 1, map[], map[], map[], []);
    var recorded := start.(byQuery := map["Q1" := QueryStats(2, 1)]);
    var one := CountIssue(recorded, i1);
    var two := CountIssue(one, i2);
    assert [i1, i2][1..] == [i2];
    assert CountIssues(recorded, [i1, i2]) == CountIssues(one, [i2]) == CountIssues(two, []) == two;
    assert AddQuery(start, q) == Success(two);
    assert [q][1..] == [];
    assert AddQueries(start, [q]) == AddQueries(two, []);
    assert two.bySeverity == map["required" := 1, "warning" := 1];
    assert two.topSkus == map["SKU1" := 2];
    assert two.criticalIssues == [CriticalIssue("SKU1", "title", "missing")];
    assert two == Insights(2, 1, map["Q1" := QueryStats(2, 1)], map["required" := 1, "warning" := 1],
      map["SKU1" := 2], [CriticalIssue("SKU1", "title", "missing")]);
    var doc := Document(Some(2), Some(1), Some([q]));
    assert ParseAudit(doc) == AddQueries(start, [q]) == Success(two);
  }
}
