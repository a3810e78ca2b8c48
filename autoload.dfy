/**
 * `detect_anomalies` of the batch script: normalize and join the three
 * frames, run the nine checks on every joined row, and collect one Finding
 * per flagged row.
 */
module Autoload {
  import opened Wrappers
  import opened Values
  import opened Rules
  import opened Findings
  import opened Loader

  /**
   * Lines 22-57: the nine checks of one joined row, in the source's order.
   * A numeric check fires only on a cell that is present and a number.
   */
  method CheckRow(row: Row) returns (issues: seq<string>)
    ensures issues == RowIssues(row)
  {
    BatteryAsChecks(row);
    issues := [];
    var status := Get(row, "Status Code");
    issues := AppendIf(issues, !PyIn(status, STATUS_ALLOWED), STATUS_LABEL);
    var indexability := Get(row, "Indexability");
    issues := AppendIf(issues, !PyIn(indexability, INDEX_ALLOWED), INDEX_LABEL);
    var depth := Get(row, "Crawl Depth");
    issues := AppendIf(issues, Above(depth, 4.0), DEPTH_LABEL);
    var words := Get(row, "Word Count");
    issues := AppendIf(issues, Below(words, 300.0), THIN_LABEL);
    var perf := Get(row, "Performance Score");
    issues := AppendIf(issues, Below(perf, 50.0), PERF_LABEL);
    var ctr := Get(row, "CTR");
    issues := AppendIf(issues, Below(ctr, 0.5), CTR_LABEL);
    var position := Get(row, "Position");
    issues := AppendIf(issues, Above(position, 20.0), POSITION_LABEL);
    var engagement := Get(row, "GA4 Engagement rate");
    issues := AppendIf(issues, Below(engagement, 0.3), ENGAGEMENT_LABEL);
    var eeat := Get(row, "OpenAI: 1");
    issues := AppendIf(issues, Below(eeat, 0.5), EEAT_LABEL);
  }

  /** What `detect_anomalies` returns: the report over the joined rows, or the error the join raises. */
  function AutoloadRun(crawl: Table, ga: Table, gsc: Table): Result<seq<Finding>, LoadError>
  {
    match Normalize(crawl, ga, gsc)
    case Failure(e) => Failure(e)
    case Success(t) => Success(Report(BATTERY, t.rows))
  }

  /** Lines 10-66: join the frames, then check the joined rows one by one. */
  method DetectAnomalies(ga: Table, gsc: Table, crawl: Table) returns (r: Result<seq<Finding>, LoadError>)
    ensures r == AutoloadRun(crawl, ga, gsc)
  {
    var joined := Normalize(crawl, ga, gsc);
    if joined.Failure? {
      return Failure(joined.error);
    }
    var rows := joined.value.rows;
    var anomalies: seq<Finding> := [];
    var i := 0;
    while i < |rows|
      invariant i <= |rows|
      invariant anomalies == ReportUpTo(BATTERY, rows, i)
    {
      var url := Get(rows[i], URL_COLUMN);
      var issues := CheckRow(rows[i]);
      if issues != [] {
        anomalies := anomalies + [Finding(url, Join(issues), |issues|)];
      }
      i := i + 1;
    }
    return Success(anomalies);
  }

  /** Running the detector twice on the same frames gives the same result: it keeps no state. */
  method Rerun(ga: Table, gsc: Table, crawl: Table) returns (first: Result<seq<Finding>, LoadError>, second: Result<seq<Finding>, LoadError>)
    ensures first == second
  {
    first := DetectAnomalies(ga, gsc, crawl);
    second := DetectAnomalies(ga, gsc, crawl);
  }

  /** The joined rows that produce a Finding, by crawl position. */
  ghost function FlaggedRows(crawl: Table, ga: Table, gsc: Table): seq<nat>
    requires Normalize(crawl, ga, gsc).Success?
  {
    var t := Normalize(crawl, ga, gsc).value;
    EmittedUpTo(BATTERY, t.rows, |t.rows|)
  }

  /**
   * The Findings follow the crawl frame: Finding `p` carries the Address of
   * crawl row `FlaggedRows(..)[p]`, those rows are in crawl order, and a crawl
   * row is among them exactly when its joined row has a label.
   */
  lemma FindingsFollowCrawl(crawl: Table, ga: Table, gsc: Table)
    requires InputsOk(crawl, ga, gsc)
    requires AutoloadRun(crawl, ga, gsc).Success?
    ensures var fs, ix := AutoloadRun(crawl, ga, gsc).value, FlaggedRows(crawl, ga, gsc);
      |ix| == |fs|
      && (forall p :: 0 <= p < |ix| ==>
            ix[p] < |crawl.rows| && fs[p].url == Get(crawl.rows[ix[p]], CrawlKeyColumn(crawl)))
      && (forall p, q :: 0 <= p < q < |ix| ==> ix[p] < ix[q])
      && (forall j :: 0 <= j < |crawl.rows| ==>
            (j in ix <==> RowIssues(Normalize(crawl, ga, gsc).value.rows[j]) != []))
  {
    var t := Normalize(crawl, ga, gsc).value;
    assert AutoloadRun(crawl, ga, gsc).value == Report(BATTERY, t.rows);
    JoinFollowsCrawl(crawl, ga, gsc);
    ReportSpec(BATTERY, t.rows);
  }

  /** Severity is the number of ", "-separated labels, between 1 and 9, for every Finding. */
  lemma AutoloadFindingsShape(crawl: Table, ga: Table, gsc: Table)
    ensures AutoloadRun(crawl, ga, gsc).Success? ==>
      forall f :: f in AutoloadRun(crawl, ga, gsc).value ==>
        1 <= f.severity <= 9 && |Split(f.issues)| == f.severity
  {
    if Normalize(crawl, ga, gsc).Success? {
      BatteryShape();
      BatteryCommaFree();
      FindingsShape(BATTERY, Normalize(crawl, ga, gsc).value.rows);
    }
  }

  /**
   * When none of the three input frames has an "OpenAI: 1" column, the joined
   * rows read that cell as missing, so no row and no Finding carries the EEAT
   * label.
   */
  lemma EeatAbsentWithoutColumn(crawl: Table, ga: Table, gsc: Table)
    requires Covered(crawl) && Covered(ga) && Covered(gsc)
    requires "OpenAI: 1" !in crawl.columns && "OpenAI: 1" !in ga.columns && "OpenAI: 1" !in gsc.columns
    ensures Normalize(crawl, ga, gsc).Success? ==>
      var t := Normalize(crawl, ga, gsc).value;
      && (forall j :: 0 <= j < |t.rows| ==> EEAT_LABEL !in RowIssues(t.rows[j]))
      && (forall f :: f in AutoloadRun(crawl, ga, gsc).value ==> EEAT_LABEL !in Split(f.issues))
  {
    JoinedColumns(crawl, ga, gsc);
    if Normalize(crawl, ga, gsc).Success? {
      var t := Normalize(crawl, ga, gsc).value;
      NormalizeCovered(crawl, ga, gsc);
      assert "OpenAI: 1" !in t.columns;
      forall j | 0 <= j < |t.rows| ensures EEAT_LABEL !in RowIssues(t.rows[j]) {
        assert t.rows[j] in t.rows;
        assert Get(t.rows[j], "OpenAI: 1") == VNull;
        NumericRules(t.rows[j]);
      }
      BatteryShape();
      BatteryCommaFree();
      LabelAbsentFromReport(BATTERY, t.rows, EEAT_LABEL);
    }
  }

  /**
   * A crawl URL without an analytics row reads every analytics-only column
   * as missing, so no numeric check on such a column fires for it.
   */
  lemma UnmatchedAnalyticsSkipped(crawl: Table, ga: Table, gsc: Table, i: nat, col: string)
    requires InputsOk(crawl, ga, gsc)
    requires Normalize(crawl, ga, gsc).Success?
    requires i < |crawl.rows|
    requires col in KeyFirst(ga).columns && col != URL_COLUMN
    requires Lookup(KeyFirst(ga).rows, Get(crawl.rows[i], CrawlKeyColumn(crawl))).None?
    ensures Get(Normalize(crawl, ga, gsc).value.rows[i], col) == VNull
    ensures forall k :: 0 <= k < |BATTERY| && BATTERY[k].Threshold? && BATTERY[k].field == col ==>
      !Fires(BATTERY[k], Normalize(crawl, ga, gsc).value.rows[i])
  {
    JoinBringsAnalytics(crawl, ga, gsc, i, col);
  }

  /** The same for a crawl URL without a search-console row. */
  lemma UnmatchedSearchConsoleSkipped(crawl: Table, ga: Table, gsc: Table, i: nat, col: string)
    requires InputsOk(crawl, ga, gsc)
    requires Normalize(crawl, ga, gsc).Success?
    requires i < |crawl.rows|
    requires col in KeyFirst(gsc).columns && col != URL_COLUMN
    requires Lookup(KeyFirst(gsc).rows, Get(crawl.rows[i], CrawlKeyColumn(crawl))).None?
    ensures Get(Normalize(crawl, ga, gsc).value.rows[i], col) == VNull
    ensures forall k :: 0 <= k < |BATTERY| && BATTERY[k].Threshold? && BATTERY[k].field == col ==>
      !Fires(BATTERY[k], Normalize(crawl, ga, gsc).value.rows[i])
  {
    JoinBringsSearchConsole(crawl, ga, gsc, i, col);
  }

  // ---- Worked rows ----

  /** A healthy crawl row with no analytics or search-console data gets no label and no Finding. */
  lemma HealthyRowNotReported(row: Row)
    requires Get(row, "Status Code") == VInt(200) && Get(row, "Indexability") == VStr("Indexable")
    requires Get(row, "Crawl Depth") == VInt(2) && Get(row, "Word Count") == VInt(500)
    requires Get(row, "Performance Score") == VNull && Get(row, "CTR") == VNull && Get(row, "Position") == VNull
    requires Get(row, "GA4 Engagement rate") == VNull && Get(row, "OpenAI: 1") == VNull
    ensures RowIssues(row) == []
    ensures FindingOf(row, RowIssues(row)) == []
  {
    BatteryAsChecks(row);
    assert PyEq(Get(row, "Status Code"), STATUS_ALLOWED[0]);
    assert PyEq(Get(row, "Indexability"), INDEX_ALLOWED[0]);
    assert !Above(Get(row, "Crawl Depth"), 4.0);
    assert !Below(Get(row, "Word Count"), 300.0);
    assert !Below(Get(row, "CTR"), 0.5);
    assert AppendIf([], false, STATUS_LABEL) == [];
  }

  /** A 404 page with 100 words is reported with two labels. */
  lemma BrokenThinRow(row: Row)
    requires Get(row, "Status Code") == VInt(404) && Get(row, "Indexability") == VStr("Indexable")
    requires Get(row, "Crawl Depth") == VNull && Get(row, "Word Count") == VInt(100)
    requires Get(row, "Performance Score") == VNull && Get(row, "CTR") == VNull && Get(row, "Position") == VNull
    requires Get(row, "GA4 Engagement rate") == VNull && Get(row, "OpenAI: 1") == VNull
    ensures FindingOf(row, RowIssues(row)) ==
      [Finding(Get(row, URL_COLUMN), STATUS_LABEL + ", " + THIN_LABEL, 2)]
  {
    BatteryAsChecks(row);
    assert PyEq(Get(row, "Indexability"), INDEX_ALLOWED[0]);
    var ls := [STATUS_LABEL, THIN_LABEL];
    assert RowIssues(row) == ls;
    assert ls[1..] == [THIN_LABEL];
    assert Join(ls) == STATUS_LABEL + ", " + THIN_LABEL;
  }

  /** A page that is not indexable and ranks badly in search is reported with three labels. */
  lemma NoindexLowCtrRow(row: Row)
    requires Get(row, "Status Code") == VInt(200) && Get(row, "Indexability") == VStr("Noindex")
    requires Get(row, "Crawl Depth") == VNull && Get(row, "Word Count") == VNull
    requires Get(row, "Performance Score") == VNull && Get(row, "CTR") == VReal(0.2) && Get(row, "Position") == VInt(35)
    requires Get(row, "GA4 Engagement rate") == VNull && Get(row, "OpenAI: 1") == VNull
    ensures FindingOf(row, RowIssues(row)) ==
      [Finding(Get(row, URL_COLUMN), INDEX_LABEL + ", " + CTR_LABEL + ", " + POSITION_LABEL, 3)]
  {
    BatteryAsChecks(row);
    assert PyEq(Get(row, "Status Code"), STATUS_ALLOWED[0]);
    var ls := [INDEX_LABEL, CTR_LABEL, POSITION_LABEL];
    assert RowIssues(row) == ls;
    assert ls[1..] == [CTR_LABEL, POSITION_LABEL] && ls[1..][1..] == [POSITION_LABEL];
    assert Join(ls[1..]) == CTR_LABEL + ", " + POSITION_LABEL;
    assert Join(ls) == INDEX_LABEL + ", " + (CTR_LABEL + ", " + POSITION_LABEL)
                    == INDEX_LABEL + ", " + CTR_LABEL + ", " + POSITION_LABEL;
  }

  /** A row with nothing but its URL is reported with the two categorical labels and Severity 2. */
  lemma AbsentRowFinding(row: Row)
    requires forall c :: c != URL_COLUMN ==> Get(row, c) == VNull
    ensures FindingOf(row, RowIssues(row)) ==
      [Finding(Get(row, URL_COLUMN), STATUS_LABEL + ", " + INDEX_LABEL, 2)]
  {
    AbsentRowIssues(row);
    var ls := [STATUS_LABEL, INDEX_LABEL];
    assert ls[1..] == [INDEX_LABEL];
    assert Join(ls) == STATUS_LABEL + ", " + INDEX_LABEL;
  }
}
