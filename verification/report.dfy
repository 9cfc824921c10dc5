/**
 * What `format_insights` puts in the report: the sections, which entries each
 * holds and in what order. Lines are structured records; the icon glyphs,
 * title-casing and exact text are a rendering concern.
 */
module Report {
  import opened Wrappers
  import opened StringOrder
  import opened Sorting
  import opened Audit

  /** Width of the `=` rule that opens and closes the report. */
  const RULE_WIDTH: nat := 50

  /** How many characters of a critical issue's details are shown. */
  const DETAILS_WIDTH: nat := 60

  /** The severity markers: one per known severity and a fallback for any other. */
  datatype Icon = RedCircle | YellowCircle | OrangeCircle | BlueCircle | WhiteCircle

  /** The severities that have an icon of their own. */
  predicate KnownSeverity(severity: string) {
    severity == "required" || severity == "conditional" || severity == "warning" || severity == "info"
  }

  /** The icon of a severity line, lines 73-78. */
  function IconFor(severity: string): (icon: Icon)
    ensures icon == WhiteCircle <==> !KnownSeverity(severity)
  {
    if severity == "required" then RedCircle
    else if severity == "conditional" then YellowCircle
    else if severity == "warning" then OrangeCircle
    else if severity == "info" then BlueCircle
    else WhiteCircle
  }

  /** Distinct known severities never share an icon. */
  lemma IconsDistinguishKnown(a: string, b: string)
    requires KnownSeverity(a) && KnownSeverity(b) && a != b
    ensures IconFor(a) != IconFor(b)
  {
  }

  /** One `BY SEVERITY` line; the name is shown title-cased. */
  datatype SeverityLine = SeverityLine(icon: Icon, severity: string, count: nat)

  /** One `TOP ISSUES` line. */
  datatype QueryLine = QueryLine(name: string, total: int, affectedSkus: int)

  /** One `TOP PROBLEMATIC SKUs` line. */
  datatype SkuLine = SkuLine(sku: string, count: nat)

  /** The `CRITICAL ISSUES (Sample)` section: the records shown and the "... and N more" count. */
  datatype CriticalSample = CriticalSample(shown: seq<CriticalIssue>, more: Option<nat>)

  /** The report's content, section by section; an absent optional section is not printed at all. */
  datatype Report = Report(
    totalIssues: int,
    totalSkus: int,
    severities: seq<SeverityLine>,
    topIssues: seq<QueryLine>,
    topSkus: Option<seq<SkuLine>>,
    critical: Option<CriticalSample>)

  /** `details[:60]`: the first DETAILS_WIDTH characters, the whole string when shorter. */
  function Truncate(details: string): (r: string)
    ensures |r| == Min(DETAILS_WIDTH, |details|)
    ensures r == details[..|r|]
  {
    if |details| <= DETAILS_WIDTH then details else details[..DETAILS_WIDTH]
  }

  /** Truncation changes a string exactly when it is too long, and a second cut changes nothing. */
  lemma TruncateKeepsShort(details: string)
    ensures Truncate(details) == details <==> |details| <= DETAILS_WIDTH
    ensures Truncate(Truncate(details)) == Truncate(details)
  {
  }

  /** A critical record as shown: only its details are cut. */
  function Shown(c: CriticalIssue): CriticalIssue {
    c.(details := Truncate(c.details))
  }

  // What each section must hold.

  /** `BY SEVERITY`: every tallied severity once, ascending, with its count and icon. */
  predicate SeverityListing(m: map<string, nat>, lines: seq<SeverityLine>) {
    && |lines| == |m|
    && (forall i, j :: 0 <= i < j < |lines| ==> Less(lines[i].severity, lines[j].severity))
    && (forall i | 0 <= i < |lines| ::
          && lines[i].severity in m
          && lines[i].count == m[lines[i].severity]
          && lines[i].icon == IconFor(lines[i].severity))
    && (forall s | s in m :: exists i :: 0 <= i < |lines| && lines[i].severity == s)
  }

  function QueryNames(lines: seq<QueryLine>): seq<string> {
    seq(|lines|, i requires 0 <= i < |lines| => lines[i].name)
  }

  predicate QueryListed(lines: seq<QueryLine>, name: string) {
    name in QueryNames(lines)
  }

  /**
   * `TOP ISSUES`: at most TOP_N queries with a positive total, largest first,
   * each with its recorded values; no query left out has a larger total than
   * one shown, and a positive one is left out only when TOP_N are shown.
   */
  predicate TopIssuesListing(byQuery: map<string, QueryStats>, lines: seq<QueryLine>) {
    && |lines| <= TOP_N
    && (forall i | 0 <= i < |lines| ::
          && lines[i].name in byQuery
          && byQuery[lines[i].name] == QueryStats(lines[i].total, lines[i].affectedSkus)
          && lines[i].total > 0)
    && (forall i, j :: 0 <= i < j < |lines| ==>
          lines[i].total >= lines[j].total && lines[i].name != lines[j].name)
    && (forall k | k in byQuery && !QueryListed(lines, k) ::
          forall i | 0 <= i < |lines| :: byQuery[k].total <= lines[i].total)
    && (forall k | k in byQuery && !QueryListed(lines, k) && byQuery[k].total > 0 :: |lines| == TOP_N)
  }

  predicate SkuListed(lines: seq<SkuLine>, sku: string) {
    exists i :: 0 <= i < |lines| && lines[i].sku == sku
  }

  /**
   * `TOP PROBLEMATIC SKUs`: present iff some SKU was tallied; then the
   * min(TOP_N, n) most frequent SKUs, most frequent first, each with its count.
   */
  predicate SkuListing(m: map<string, nat>, section: Option<seq<SkuLine>>) {
    && (section.Some? <==> |m| > 0)
    && (section.Some? ==>
          var lines := section.value;
          && |lines| == Min(TOP_N, |m|)
          && (forall i | 0 <= i < |lines| :: lines[i].sku in m && lines[i].count == m[lines[i].sku])
          && (forall i, j :: 0 <= i < j < |lines| ==>
                lines[i].count >= lines[j].count && lines[i].sku != lines[j].sku)
          && (forall k | k in m && !SkuListed(lines, k) ::
                forall i | 0 <= i < |lines| :: m[k] <= lines[i].count))
  }

  /**
   * `CRITICAL ISSUES (Sample)`: present iff there is a critical issue; then the
   * first min(TOP_N, n) of them in order with details cut, and a "more" count
   * of n - TOP_N exactly when n > TOP_N.
   */
  predicate CriticalListing(cs: seq<CriticalIssue>, section: Option<CriticalSample>) {
    && (section.Some? <==> |cs| > 0)
    && (section.Some? ==>
          var sample := section.value;
          && |sample.shown| == Min(TOP_N, |cs|)
          && (forall i | 0 <= i < |sample.shown| :: sample.shown[i] == Shown(cs[i]))
          && (sample.more.Some? <==> |cs| > TOP_N)
          && (sample.more.Some? ==> sample.more.value == |cs| - TOP_N))
  }

  // The sections.

  /** The `BY SEVERITY` section, lines 71-79: `sorted(by_severity.items())`. */
  method SeveritySection(m: map<string, nat>) returns (lines: seq<SeverityLine>)
    ensures SeverityListing(m, lines)
  {
    var keys := KeysOf(m);
    var sorted := SortAscending(keys);
    lines := seq(|sorted|, i requires 0 <= i < |sorted| => SeverityLine(IconFor(sorted[i]), sorted[i], m[sorted[i]]));
    forall s | s in m ensures exists i :: 0 <= i < |lines| && lines[i].severity == s {
      var i :| 0 <= i < |sorted| && sorted[i] == s;
      assert lines[i].severity == s;
    }
  }

  /** A `TOP ISSUES` line for each name, carrying that query's recorded values. */
  function LinesFor(names: seq<string>, byQuery: map<string, QueryStats>): (lines: seq<QueryLine>)
    requires forall k | k in names :: k in byQuery
    ensures QueryNames(lines) == names
    ensures |lines| == |names|
    ensures forall i | 0 <= i < |lines| ::
      && lines[i].name == names[i]
      && lines[i].name in byQuery
      && byQuery[lines[i].name] == QueryStats(lines[i].total, lines[i].affectedSkus)
  {
    var lines := seq(|names|, i requires 0 <= i < |names| =>
      QueryLine(names[i], byQuery[names[i]].total, byQuery[names[i]].affectedSkus));
    assert QueryNames(lines) == names;
    lines
  }

  /** Lines for a ranking of positive totals are positive, non-increasing and distinct. */
  lemma ShownRanked(byQuery: map<string, QueryStats>, totals: map<string, int>, shown: seq<string>)
    requires forall k | k in byQuery :: k in totals && totals[k] == byQuery[k].total
    requires forall k | k in shown :: k in byQuery && totals[k] > 0
    requires Scored(shown, totals) && ByScore(shown, totals) && Distinct(shown)
    ensures var lines := LinesFor(shown, byQuery);
      && (forall i | 0 <= i < |lines| :: lines[i].total > 0)
      && (forall i, j :: 0 <= i < j < |lines| ==>
            lines[i].total >= lines[j].total && lines[i].name != lines[j].name)
  {
    var lines := LinesFor(shown, byQuery);
    forall i | 0 <= i < |lines| ensures lines[i].total > 0 {
      assert shown[i] in shown;
    }
  }

  /** A query missing from lines for the positive part of a top ranking totals no more than any shown one. */
  lemma ShownLeftOut(byQuery: map<string, QueryStats>, totals: map<string, int>, top: seq<string>, shown: seq<string>)
    requires totals.Keys == byQuery.Keys
    requires forall k | k in byQuery :: totals[k] == byQuery[k].total
    requires Scored(top, totals) && |top| <= TOP_N
    requires forall k | k in totals && k !in top :: |top| == TOP_N
    requires forall k, x | k in totals && k !in top && x in top :: totals[k] <= totals[x]
    requires forall y :: y in shown <==> y in top && totals[y] > 0
    requires |shown| <= |top| && (AllPositive(top, totals) ==> shown == top)
    ensures var lines := LinesFor(shown, byQuery);
      && (forall k | k in byQuery && !QueryListed(lines, k) ::
            forall i | 0 <= i < |lines| :: byQuery[k].total <= lines[i].total)
      && (forall k | k in byQuery && !QueryListed(lines, k) && byQuery[k].total > 0 :: |lines| == TOP_N)
  {
    var lines := LinesFor(shown, byQuery);
    forall k, i | k in byQuery && !QueryListed(lines, k) && 0 <= i < |lines|
      ensures byQuery[k].total <= lines[i].total
    {
      assert shown[i] in shown;
      if k in top {
        assert totals[k] <= 0;
      }
    }
    forall k | k in byQuery && !QueryListed(lines, k) && byQuery[k].total > 0
      ensures |lines| == TOP_N
    {
      assert k !in top;
      assert AllPositive(top, totals) by {
        forall i | 0 <= i < |top| ensures totals[top[i]] > 0 {
          assert top[i] in top;
          assert totals[k] <= totals[top[i]];
        }
      }
    }
  }

  /** The TOP_N best totals, filtered to the positive ones, make a correct `TOP ISSUES` listing. */
  lemma TopIssuesFromRanking(byQuery: map<string, QueryStats>, totals: map<string, int>, top: seq<string>)
    requires totals.Keys == byQuery.Keys
    requires forall k | k in byQuery :: totals[k] == byQuery[k].total
    requires |top| <= TOP_N
    requires Scored(top, totals) && ByScore(top, totals) && Distinct(top)
    requires forall k | k in totals && k !in top :: |top| == TOP_N
    requires forall k, x | k in totals && k !in top && x in top :: totals[k] <= totals[x]
    ensures TopIssuesListing(byQuery, LinesFor(PositiveScored(top, totals), byQuery))
  {
    var shown := PositiveScored(top, totals);
    PositiveScoredRanked(top, totals);
    ShownRanked(byQuery, totals, shown);
    ShownLeftOut(byQuery, totals, top, shown);
  }

  /** The `TOP ISSUES` section, lines 82-91: the TOP_N largest totals, positive ones only. */
  method TopIssuesSection(byQuery: map<string, QueryStats>) returns (lines: seq<QueryLine>)
    ensures TopIssuesListing(byQuery, lines)
  {
    var totals := map k | k in byQuery :: byQuery[k].total;
    var top := TopByScore(totals);
    TopIssuesFromRanking(byQuery, totals, top);
    lines := LinesFor(PositiveScored(top, totals), byQuery);
  }

  /** The `TOP PROBLEMATIC SKUs` section, lines 94-103: present only when some SKU was tallied. */
  method TopSkusSection(m: map<string, nat>) returns (section: Option<seq<SkuLine>>)
    ensures SkuListing(m, section)
  {
    if |m| == 0 {
      section := None;
    } else {
      var top := TopByScore(m);
      var lines := seq(|top|, i requires 0 <= i < |top| => SkuLine(top[i], m[top[i]]));
      forall k | k in m && !SkuListed(lines, k)
        ensures forall i | 0 <= i < |lines| :: m[k] <= lines[i].count
      {
        if k in top {
          var j :| 0 <= j < |top| && top[j] == k;
          assert lines[j].sku == k;
        }
      }
      section := Some(lines);
    }
  }

  /** The `CRITICAL ISSUES (Sample)` section, lines 106-112. */
  function CriticalSection(cs: seq<CriticalIssue>): (r: Option<CriticalSample>)
    ensures CriticalListing(cs, r)
  {
    if |cs| == 0 then None
    else
      var n := Min(TOP_N, |cs|);
      Some(CriticalSample(
        seq(n, i requires 0 <= i < n => Shown(cs[i])),
        if |cs| > TOP_N then Some(|cs| - TOP_N) else None))
  }

  /** The sample loses nothing: records shown plus records counted as "more" are all of them. */
  lemma CriticalSectionAccounts(cs: seq<CriticalIssue>)
    requires |cs| > 0
    ensures |CriticalSection(cs).value.shown| + CriticalSection(cs).value.more.GetOr(0) == |cs|
  {
  }

  /** `format_insights`, lines 56-116, up to the text of each line. */
  method Format(ins: Insights) returns (rep: Report)
    ensures rep.totalIssues == ins.totalIssues && rep.totalSkus == ins.totalSkus
    ensures SeverityListing(ins.bySeverity, rep.severities)
    ensures TopIssuesListing(ins.byQuery, rep.topIssues)
    ensures SkuListing(ins.topSkus, rep.topSkus)
    ensures CriticalListing(ins.criticalIssues, rep.critical)
  {
    var severities := SeveritySection(ins.bySeverity);
    var topIssues := TopIssuesSection(ins.byQuery);
    var topSkus := TopSkusSection(ins.topSkus);
    rep := Report(ins.totalIssues, ins.totalSkus, severities, topIssues, topSkus, CriticalSection(ins.criticalIssues));
  }

  // The page: the sections in print order between the banner and the closing rule.

  /** One printed line, with the data it carries; the scaffold lines carry none. */
  datatype Line =
    | Banner
    | Rule(width: nat)
    | SummaryHeading
    | TotalIssuesLine(totalIssues: int)
    | AffectedSkusLine(totalSkus: int)
    | SeverityHeading
    | SeverityEntry(severityLine: SeverityLine)
    | TopIssuesHeading
    | QueryEntry(queryLine: QueryLine)
    | SkusHeading
    | SkuEntry(skuLine: SkuLine)
    | CriticalHeading
    | CriticalEntry(issue: CriticalIssue)
    | MoreEntry(omitted: nat)

  /** How many lines the optional SKU section prints: its heading and one line per SKU. */
  function SkuBlockSize(section: Option<seq<SkuLine>>): nat {
    if section.Some? then 1 + |section.value| else 0
  }

  /** How many lines the optional critical section prints: heading, samples, and the "more" line. */
  function CriticalBlockSize(section: Option<CriticalSample>): nat {
    if section.Some? then 1 + |section.value.shown| + (if section.value.more.Some? then 1 else 0) else 0
  }

  /** The SKU section as printed, lines 94-103. */
  function SkuBlock(section: Option<seq<SkuLine>>): (block: seq<Line>)
    ensures |block| == SkuBlockSize(section)
    ensures CriticalHeading !in block
    ensures section.Some? ==>
      && block[0] == SkusHeading
      && forall i | 0 <= i < |section.value| :: block[1 + i] == SkuEntry(section.value[i])
  {
    match section
    case None => []
    case Some(lines) => [SkusHeading] + seq(|lines|, i requires 0 <= i < |lines| => SkuEntry(lines[i]))
  }

  /** The critical section as printed, lines 106-112. */
  function CriticalBlock(section: Option<CriticalSample>): (block: seq<Line>)
    ensures |block| == CriticalBlockSize(section)
    ensures SkusHeading !in block
    ensures CriticalHeading in block <==> section.Some?
    ensures section.Some? ==>
      && block[0] == CriticalHeading
      && (forall i | 0 <= i < |section.value.shown| :: block[1 + i] == CriticalEntry(section.value.shown[i]))
      && (section.value.more.Some? ==> block[1 + |section.value.shown|] == MoreEntry(section.value.more.value))
  {
    match section
    case None => []
    case Some(sample) =>
      [CriticalHeading]
      + seq(|sample.shown|, i requires 0 <= i < |sample.shown| => CriticalEntry(sample.shown[i]))
      + (match sample.more case None => [] case Some(n) => [MoreEntry(n)])
  }

  /** Lines 59-91: banner, rule, summary, severities and top issues, none of them an optional heading. */
  function Opening(rep: Report): (lines: seq<Line>)
    ensures |lines| == 7 + |rep.severities| + |rep.topIssues|
    ensures lines[0] == Banner && lines[1] == Rule(RULE_WIDTH) && lines[2] == SummaryHeading
    ensures lines[3] == TotalIssuesLine(rep.totalIssues) && lines[4] == AffectedSkusLine(rep.totalSkus)
    ensures lines[5] == SeverityHeading
    ensures forall i | 0 <= i < |rep.severities| :: lines[6 + i] == SeverityEntry(rep.severities[i])
    ensures lines[6 + |rep.severities|] == TopIssuesHeading
    ensures forall i | 0 <= i < |rep.topIssues| :: lines[7 + |rep.severities| + i] == QueryEntry(rep.topIssues[i])
    ensures SkusHeading !in lines && CriticalHeading !in lines
  {
    var head := [Banner, Rule(RULE_WIDTH), SummaryHeading,
      TotalIssuesLine(rep.totalIssues), AffectedSkusLine(rep.totalSkus), SeverityHeading];
    var severities := seq(|rep.severities|, i requires 0 <= i < |rep.severities| => SeverityEntry(rep.severities[i]));
    var queries := seq(|rep.topIssues|, i requires 0 <= i < |rep.topIssues| => QueryEntry(rep.topIssues[i]));
    head + severities + [TopIssuesHeading] + queries
  }

  /** An element of the middle part of a three-part concatenation, found by its offset. */
  lemma SegmentAt<T>(pre: seq<T>, mid: seq<T>, post: seq<T>, j: nat)
    requires j < |mid|
    ensures (pre + mid + post)[|pre| + j] == mid[j]
  {
  }

  /**
   * The printed report, lines 59-116: `"\n".join(output)` before the text of
   * each line. Every line's position is fixed: banner, rule, the summary with
   * both totals, the severity lines, the top issues, then the optional SKU and
   * critical sections, and the closing rule.
   */
  function Layout(rep: Report): (lines: seq<Line>)
    ensures var skus := 7 + |rep.severities| + |rep.topIssues|;
      var critical := skus + SkuBlockSize(rep.topSkus);
      && |lines| == critical + CriticalBlockSize(rep.critical) + 1
      && lines[0] == Banner && lines[1] == Rule(RULE_WIDTH) && lines[2] == SummaryHeading
      && lines[3] == TotalIssuesLine(rep.totalIssues) && lines[4] == AffectedSkusLine(rep.totalSkus)
      && lines[5] == SeverityHeading
      && (forall i | 0 <= i < |rep.severities| :: lines[6 + i] == SeverityEntry(rep.severities[i]))
      && lines[6 + |rep.severities|] == TopIssuesHeading
      && (forall i | 0 <= i < |rep.topIssues| ::
            lines[7 + |rep.severities| + i] == QueryEntry(rep.topIssues[i]))
      && (rep.topSkus.Some? ==>
            && lines[skus] == SkusHeading
            && forall i | 0 <= i < |rep.topSkus.value| :: lines[skus + 1 + i] == SkuEntry(rep.topSkus.value[i]))
      && (rep.critical.Some? ==>
            var sample := rep.critical.value;
            && lines[critical] == CriticalHeading
            && (forall i | 0 <= i < |sample.shown| :: lines[critical + 1 + i] == CriticalEntry(sample.shown[i]))
            && (sample.more.Some? ==> lines[critical + 1 + |sample.shown|] == MoreEntry(sample.more.value)))
      && lines[|lines| - 1] == Rule(RULE_WIDTH)
    ensures SkusHeading in lines <==> rep.topSkus.Some?
    ensures CriticalHeading in lines <==> rep.critical.Some?
  {
    LayoutOpening(rep);
    LayoutSeverities(rep);
    LayoutQueries(rep);
    LayoutSkus(rep);
    LayoutCritical(rep);
    LayoutHeadings(rep);
    Opening(rep) + SkuBlock(rep.topSkus) + CriticalBlock(rep.critical) + [Rule(RULE_WIDTH)]
  }

  /** The page's length, its fixed opening lines, and the closing rule last. */
  lemma LayoutOpening(rep: Report)
    ensures var lines := Opening(rep) + SkuBlock(rep.topSkus) + CriticalBlock(rep.critical) + [Rule(RULE_WIDTH)];
      && |lines| == 7 + |rep.severities| + |rep.topIssues| + SkuBlockSize(rep.topSkus) + CriticalBlockSize(rep.critical) + 1
      && lines[0] == Banner && lines[1] == Rule(RULE_WIDTH) && lines[2] == SummaryHeading
      && lines[3] == TotalIssuesLine(rep.totalIssues) && lines[4] == AffectedSkusLine(rep.totalSkus)
      && lines[5] == SeverityHeading
      && lines[6 + |rep.severities|] == TopIssuesHeading
      && lines[|lines| - 1] == Rule(RULE_WIDTH)
  {
    var opening := Opening(rep);
    var lines := opening + SkuBlock(rep.topSkus) + CriticalBlock(rep.critical) + [Rule(RULE_WIDTH)];
    assert lines[..|opening|] == opening;
  }

  /** The severity lines keep their order and contents after the summary. */
  lemma LayoutSeverities(rep: Report)
    ensures var lines := Opening(rep) + SkuBlock(rep.topSkus) + CriticalBlock(rep.critical) + [Rule(RULE_WIDTH)];
      forall i | 0 <= i < |rep.severities| :: lines[6 + i] == SeverityEntry(rep.severities[i])
  {
    var opening := Opening(rep);
    var lines := opening + SkuBlock(rep.topSkus) + CriticalBlock(rep.critical) + [Rule(RULE_WIDTH)];
    forall i | 0 <= i < |rep.severities| ensures lines[6 + i] == SeverityEntry(rep.severities[i]) {
      assert lines[..|opening|][6 + i] == opening[6 + i];
    }
  }

  /** The top-issue lines keep their order and contents after their heading. */
  lemma LayoutQueries(rep: Report)
    ensures var lines := Opening(rep) + SkuBlock(rep.topSkus) + CriticalBlock(rep.critical) + [Rule(RULE_WIDTH)];
      forall i | 0 <= i < |rep.topIssues| :: lines[7 + |rep.severities| + i] == QueryEntry(rep.topIssues[i])
  {
    var opening := Opening(rep);
    var lines := opening + SkuBlock(rep.topSkus) + CriticalBlock(rep.critical) + [Rule(RULE_WIDTH)];
    forall i | 0 <= i < |rep.topIssues| ensures lines[7 + |rep.severities| + i] == QueryEntry(rep.topIssues[i]) {
      assert lines[..|opening|][7 + |rep.severities| + i] == opening[7 + |rep.severities| + i];
    }
  }

  /** The SKU section keeps its lines, in order, right after the top issues. */
  lemma LayoutSkus(rep: Report)
    ensures var lines := Opening(rep) + SkuBlock(rep.topSkus) + CriticalBlock(rep.critical) + [Rule(RULE_WIDTH)];
      var skus := 7 + |rep.severities| + |rep.topIssues|;
      rep.topSkus.Some? ==>
        && lines[skus] == SkusHeading
        && forall i | 0 <= i < |rep.topSkus.value| :: lines[skus + 1 + i] == SkuEntry(rep.topSkus.value[i])
  {
    if rep.topSkus.Some? {
      var opening, block, rest := Opening(rep), SkuBlock(rep.topSkus), CriticalBlock(rep.critical) + [Rule(RULE_WIDTH)];
      var lines := opening + block + CriticalBlock(rep.critical) + [Rule(RULE_WIDTH)];
      var skus := 7 + |rep.severities| + |rep.topIssues|;
      assert lines == opening + block + rest;
      SegmentAt(opening, block, rest, 0);
      forall i | 0 <= i < |rep.topSkus.value| ensures lines[skus + 1 + i] == SkuEntry(rep.topSkus.value[i]) {
        SegmentAt(opening, block, rest, 1 + i);
      }
    }
  }

  /** The critical section keeps its lines, in order, right before the closing rule. */
  lemma LayoutCritical(rep: Report)
    ensures var lines := Opening(rep) + SkuBlock(rep.topSkus) + CriticalBlock(rep.critical) + [Rule(RULE_WIDTH)];
      var critical := 7 + |rep.severities| + |rep.topIssues| + SkuBlockSize(rep.topSkus);
      rep.critical.Some? ==>
        var sample := rep.critical.value;
        && lines[critical] == CriticalHeading
        && (forall i | 0 <= i < |sample.shown| :: lines[critical + 1 + i] == CriticalEntry(sample.shown[i]))
        && (sample.more.Some? ==> lines[critical + 1 + |sample.shown|] == MoreEntry(sample.more.value))
  {
    if rep.critical.Some? {
      var sample := rep.critical.value;
      var pre, block := Opening(rep) + SkuBlock(rep.topSkus), CriticalBlock(rep.critical);
      var lines := pre + block + [Rule(RULE_WIDTH)];
      var critical := 7 + |rep.severities| + |rep.topIssues| + SkuBlockSize(rep.topSkus);
      assert |pre| == critical;
      SegmentAt(pre, block, [Rule(RULE_WIDTH)], 0);
      forall i | 0 <= i < |sample.shown| ensures lines[critical + 1 + i] == CriticalEntry(sample.shown[i]) {
        SegmentAt(pre, block, [Rule(RULE_WIDTH)], 1 + i);
      }
      if sample.more.Some? {
        SegmentAt(pre, block, [Rule(RULE_WIDTH)], 1 + |sample.shown|);
      }
    }
  }

  /** Each optional heading is printed exactly when its section is. */
  lemma LayoutHeadings(rep: Report)
    ensures var lines := Opening(rep) + SkuBlock(rep.topSkus) + CriticalBlock(rep.critical) + [Rule(RULE_WIDTH)];
      && (SkusHeading in lines <==> rep.topSkus.Some?)
      && (CriticalHeading in lines <==> rep.critical.Some?)
  {
    var opening, skus, critical := Opening(rep), SkuBlock(rep.topSkus), CriticalBlock(rep.critical);
    assert SkusHeading in opening + skus + critical + [Rule(RULE_WIDTH)] <==> SkusHeading in skus;
    assert CriticalHeading in opening + skus + critical + [Rule(RULE_WIDTH)] <==> CriticalHeading in critical;
  }

  /** Severity lines listing a document's tally carry the document's occurrence counts and miss no severity. */
  lemma SeveritiesOfDocument(doc: Document, lines: seq<SeverityLine>)
    requires ParseAudit(doc).Success? && SeverityListing(ParseAudit(doc).value.bySeverity, lines)
    ensures var all := AllIssues(QueriesOf(doc));
      && (forall i | 0 <= i < |lines| :: lines[i].count == CountSeverity(all, lines[i].severity))
      && (forall s | CountSeverity(all, s) > 0 :: exists i :: 0 <= i < |lines| && lines[i].severity == s)
  {
    ParseAuditTallies(doc);
  }

  /** Top-issue lines listing a document's queries name only queries of the document. */
  lemma TopIssuesOfDocument(doc: Document, lines: seq<QueryLine>)
    requires ParseAudit(doc).Success? && TopIssuesListing(ParseAudit(doc).value.byQuery, lines)
    ensures forall i | 0 <= i < |lines| :: lines[i].name in NamesOf(QueriesOf(doc))
  {
    ParseAuditByQuery(doc);
  }

  /** A SKU section listing a document's tally is present iff there is an issue, with the document's counts. */
  lemma SkusOfDocument(doc: Document, section: Option<seq<SkuLine>>)
    requires ParseAudit(doc).Success? && SkuListing(ParseAudit(doc).value.topSkus, section)
    ensures var all := AllIssues(QueriesOf(doc));
      && (section.Some? <==> |all| > 0)
      && (section.Some? ==>
            forall i | 0 <= i < |section.value| :: section.value[i].count == CountSku(all, section.value[i].sku))
  {
    ParseAuditTallies(doc);
    ParseAuditNoIssues(doc);
  }

  /** A critical sample of a document's insights is present iff some issue is required, and samples those issues. */
  lemma CriticalOfDocument(doc: Document, section: Option<CriticalSample>)
    requires ParseAudit(doc).Success? && CriticalListing(ParseAudit(doc).value.criticalIssues, section)
    ensures var all := AllIssues(QueriesOf(doc));
      && (section.Some? <==> CountSeverity(all, REQUIRED) > 0)
      && CriticalListing(CriticalOf(all), section)
  {
    ParseAuditCritical(doc);
    ParseAuditTallies(doc);
  }

  /** Parse then format (lines 129-130): what the report shows, in terms of the document. */
  method AuditReport(doc: Document) returns (r: Result<Report, AuditError>)
    ensures r.Success? <==> AllWellFormed(QueriesOf(doc))
    ensures r.Failure? ==>
      exists i :: FirstIllFormed(QueriesOf(doc), i) && ReportsFirstAbsentKey(QueriesOf(doc)[i], r.error)
    ensures r.Success? ==> ParseAudit(doc).Success? && var ins := ParseAudit(doc).value;
      && SeverityListing(ins.bySeverity, r.value.severities)
      && TopIssuesListing(ins.byQuery, r.value.topIssues)
      && SkuListing(ins.topSkus, r.value.topSkus)
    ensures r.Success? ==>
      && r.value.totalIssues == doc.totalIssues.GetOr(0)
      && r.value.totalSkus == doc.totalAffectedSkus.GetOr(0)
    ensures r.Success? ==> var all := AllIssues(QueriesOf(doc)); var rep := r.value;
      && (forall i | 0 <= i < |rep.severities| :: rep.severities[i].count == CountSeverity(all, rep.severities[i].severity))
      && (forall s | CountSeverity(all, s) > 0 :: exists i :: 0 <= i < |rep.severities| && rep.severities[i].severity == s)
      && (rep.topSkus.Some? <==> |all| > 0)
      && (rep.critical.Some? <==> CountSeverity(all, REQUIRED) > 0)
      && CriticalListing(CriticalOf(all), rep.critical)
      && (forall i | 0 <= i < |rep.topIssues| :: rep.topIssues[i].name in NamesOf(QueriesOf(doc)))
      && (rep.topSkus.Some? ==>
            forall i | 0 <= i < |rep.topSkus.value| :: rep.topSkus.value[i].count == CountSku(all, rep.topSkus.value[i].sku))
  {
    var parsed := ParseAudit(doc);
    match parsed
    case Failure(e) =>
      ParseAuditFailure(doc);
      r := Failure(e);
    case Success(ins) =>
      var rep := Format(ins);
      SeveritiesOfDocument(doc, rep.severities);
      TopIssuesOfDocument(doc, rep.topIssues);
      SkusOfDocument(doc, rep.topSkus);
      CriticalOfDocument(doc, rep.critical);
      r := Success(rep);
  }
}
