/**
 * The interactive dashboard's detector: the same join and the same first
 * eight checks as the batch script, with a ninth check that runs only when
 * the joined frame has an "OpenAI: 1" column and that skips a cell which is
 * not an `int` or a `float`.
 */
module Dashboard {
  import opened Wrappers
  import opened Values
  import opened Rules
  import opened Findings
  import opened Loader
  import Autoload

  const OPENAI_COLUMN := "OpenAI: 1"

  /** The dashboard's ninth check: guarded by `isinstance(val, (int, float))`. */
  const GUARDED_EEAT_RULE := Threshold(OPENAI_COLUMN, Less, 0.5, EEAT_LABEL, true)

  /** The checks the dashboard runs on a frame with the given columns. */
  function DashboardRules(columns: seq<string>): seq<Rule>
  {
    SHARED + (if OPENAI_COLUMN in columns then [GUARDED_EEAT_RULE] else [])
  }

  /** The dashboard's label list for one row of a frame with the given columns. */
  function DashboardIssues(columns: seq<string>, row: Row): seq<string>
  {
    Labels(DashboardRules(columns), row)
  }

  /**
   * The dashboard's labels are the shared ones, then, only when the column
   * exists, the EEAT label for a present number below 0.5.
   */
  lemma DashboardSplit(columns: seq<string>, row: Row)
    ensures OPENAI_COLUMN in columns ==>
      DashboardIssues(columns, row) == AppendIf(Labels(SHARED, row), Below(Get(row, OPENAI_COLUMN), 0.5), EEAT_LABEL)
    ensures OPENAI_COLUMN !in columns ==> DashboardIssues(columns, row) == Labels(SHARED, row)
  {
    BatteryShape();
    var rules := DashboardRules(columns);
    LabelsUpToPrefix(rules, SHARED, 8, row);
    if OPENAI_COLUMN !in columns {
      assert rules == SHARED;
    }
  }

  /** Lines 35-62: the checks of one joined row, in the source's order. */
  method CheckRow(row: Row, columns: seq<string>) returns (issues: seq<string>)
    ensures issues == DashboardIssues(columns, row)
  {
    DashboardSplit(columns, row);
    SharedAsChecks(row);
    issues := [];
    var status := Get(row, "Status Code");
    issues := AppendIf(issues, !PyIn(status, STATUS_ALLOWED), STATUS_LABEL);
    var indexability := Get(row, "Indexability");
    issues := AppendIf(issues, !PyIn(indexability, INDEX_ALLOWED), INDEX_LABEL);
    var depth := Get(row, "Crawl Depth");
    issues := AppendIf(issues, Above(depth, 4.0), DEPTH_LABEL);
    var words := Get(row, "Word Count");
    issues := AppendIf(issues, Below(words, 300.0), THIN_LABEL);
    var perf := Get(row, "Performance Score");
    issues := AppendIf(issues, Below(perf, 50.0), PERF_LABEL);
    var ctr := Get(row, "CTR");
    issues := AppendIf(issues, Below(ctr, 0.5), CTR_LABEL);
    var position := Get(row, "Position");
    issues := AppendIf(issues, Above(position, 20.0), POSITION_LABEL);
    var engagement := Get(row, "GA4 Engagement rate");
    issues := AppendIf(issues, Below(engagement, 0.3), ENGAGEMENT_LABEL);
    if OPENAI_COLUMN in columns {
      var val := Get(row, OPENAI_COLUMN);
      issues := AppendIf(issues, NotNa(val) && IsNumber(val) && Num(val) < 0.5, EEAT_LABEL);
    }
  }

  /** What the dashboard shows: the report over the joined rows, or the error the join raises. */
  function DashboardRun(crawl: Table, ga: Table, gsc: Table): Result<seq<Finding>, LoadError>
  {
    match Normalize(crawl, ga, gsc)
    case Failure(e) => Failure(e)
    case Success(t) => Success(Report(DashboardRules(t.columns), t.rows))
  }

  /** Lines 21-69: join the frames, then check the joined rows one by one. */
  method AnomalyReport(crawl: Table, ga: Table, gsc: Table) returns (r: Result<seq<Finding>, LoadError>)
    ensures r == DashboardRun(crawl, ga, gsc)
  {
    var joined := Normalize(crawl, ga, gsc);
    if joined.Failure? {
      return Failure(joined.error);
    }
    var df := joined.value;
    ghost var rules := DashboardRules(df.columns);
    var anomalies: seq<Finding> := [];
    var i := 0;
    while i < |df.rows|
      invariant i <= |df.rows|
      invariant anomalies == ReportUpTo(rules, df.rows, i)
    {
      var url := Get(df.rows[i], URL_COLUMN);
      var issues := CheckRow(df.rows[i], df.columns);
      if issues != [] {
        anomalies := anomalies + [Finding(url, Join(issues), |issues|)];
      }
      i := i + 1;
    }
    return Success(anomalies);
  }

  /** None of the shared checks carries the EEAT label. */
  lemma SharedLacksEeat(row: Row)
    ensures EEAT_LABEL !in Labels(SHARED, row)
  {
    SharedNotEeat();
    FiredSpec(SHARED, |SHARED|, row);
  }

  /** Line 59: without an "OpenAI: 1" column no row is labelled "Low OpenAI EEAT score". */
  lemma EeatNeedsColumn(columns: seq<string>, row: Row)
    requires OPENAI_COLUMN !in columns
    ensures EEAT_LABEL !in DashboardIssues(columns, row)
  {
    DashboardSplit(columns, row);
    SharedLacksEeat(row);
  }

  /**
   * Line 59 on the joined frame: when none of the three input frames has an
   * "OpenAI: 1" column, the dashboard runs only the shared checks, and no row
   * and no Finding carries the EEAT label.
   */
  lemma EeatAbsentWithoutColumn(crawl: Table, ga: Table, gsc: Table)
    requires OPENAI_COLUMN !in crawl.columns && OPENAI_COLUMN !in ga.columns && OPENAI_COLUMN !in gsc.columns
    ensures Normalize(crawl, ga, gsc).Success? ==>
      var t := Normalize(crawl, ga, gsc).value;
      && DashboardRules(t.columns) == SHARED
      && (forall j :: 0 <= j < |t.rows| ==> EEAT_LABEL !in DashboardIssues(t.columns, t.rows[j]))
      && (forall f :: f in DashboardRun(crawl, ga, gsc).value ==> EEAT_LABEL !in Split(f.issues))
  {
    JoinedColumns(crawl, ga, gsc);
    if Normalize(crawl, ga, gsc).Success? {
      var t := Normalize(crawl, ga, gsc).value;
      assert OPENAI_COLUMN !in t.columns;
      assert DashboardRules(t.columns) == SHARED + [] == SHARED;
      assert DashboardRun(crawl, ga, gsc) == Success(Report(SHARED, t.rows));
      forall j | 0 <= j < |t.rows| ensures EEAT_LABEL !in DashboardIssues(t.columns, t.rows[j]) {
        EeatNeedsColumn(t.columns, t.rows[j]);
      }
      BatteryShape();
      BatteryCommaFree();
      assert CommaFree(SHARED) by {
        forall i | 0 <= i < |SHARED| ensures ',' !in SHARED[i].issue {
          assert SHARED[i].issue == BATTERY[i].issue;
        }
      }
      LabelAbsentFromReport(SHARED, t.rows, EEAT_LABEL);
    }
  }

  /**
   * Lines 60-62: with the column present, the EEAT label is listed exactly when
   * the cell is present, an `int` or a `float`, and below 0.5; a text cell is
   * skipped.
   */
  lemma EeatGuarded(columns: seq<string>, row: Row)
    requires OPENAI_COLUMN in columns
    ensures var v := Get(row, OPENAI_COLUMN);
      EEAT_LABEL in DashboardIssues(columns, row) <==> NotNa(v) && IsNumber(v) && Num(v) < 0.5
    ensures Get(row, OPENAI_COLUMN).VStr? ==> EEAT_LABEL !in DashboardIssues(columns, row)
  {
    DashboardSplit(columns, row);
    SharedLacksEeat(row);
  }

  /**
   * Row by row, the dashboard lists the batch script's labels, except that it
   * drops the EEAT label when the frame has no "OpenAI: 1" column.
   */
  lemma DashboardAgreesWithBatch(columns: seq<string>, row: Row)
    ensures OPENAI_COLUMN in columns || !Below(Get(row, OPENAI_COLUMN), 0.5) ==>
      DashboardIssues(columns, row) == RowIssues(row)
    ensures OPENAI_COLUMN !in columns && Below(Get(row, OPENAI_COLUMN), 0.5) ==>
      RowIssues(row) == DashboardIssues(columns, row) + [EEAT_LABEL]
  {
    DashboardSplit(columns, row);
    BatterySplit(row);
  }

  /**
   * On frames whose rows hold cells only in their own columns, the dashboard
   * reports exactly what the batch script reports: a joined row can then only
   * carry an "OpenAI: 1" cell when the joined frame has that column.
   */
  lemma DashboardMatchesBatch(crawl: Table, ga: Table, gsc: Table)
    requires Covered(crawl) && Covered(ga) && Covered(gsc)
    ensures DashboardRun(crawl, ga, gsc) == Autoload.AutoloadRun(crawl, ga, gsc)
  {
    if Normalize(crawl, ga, gsc).Success? {
      var t := Normalize(crawl, ga, gsc).value;
      NormalizeCovered(crawl, ga, gsc);
      var rules := DashboardRules(t.columns);
      forall i | 0 <= i < |t.rows| ensures Labels(rules, t.rows[i]) == Labels(BATTERY, t.rows[i]) {
        assert t.rows[i] in t.rows;
        DashboardAgreesWithBatch(t.columns, t.rows[i]);
      }
      ReportUpToAgree(rules, BATTERY, t.rows, |t.rows|);
    }
  }

  /** Severity is the number of ", "-separated labels, between 1 and 9, for every Finding. */
  lemma DashboardFindingsShape(crawl: Table, ga: Table, gsc: Table)
    ensures DashboardRun(crawl, ga, gsc).Success? ==>
      forall f :: f in DashboardRun(crawl, ga, gsc).value ==>
        1 <= f.severity <= 9 && |Split(f.issues)| == f.severity
  {
    if Normalize(crawl, ga, gsc).Success? {
      var t := Normalize(crawl, ga, gsc).value;
      var rules := DashboardRules(t.columns);
      BatteryShape();
      BatteryCommaFree();
      assert CommaFree(rules) by {
        forall i | 0 <= i < |rules| ensures ',' !in rules[i].issue {
          assert rules[i].issue == BATTERY[i].issue;
        }
      }
      FindingsShape(rules, t.rows);
    }
  }
}
