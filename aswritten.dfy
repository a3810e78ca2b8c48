/**
 * The checks as the two scripts run them (for the dashboard, with line 61's
 * block as intended: as written that script does not parse).
 * `pd.notna(v) and v < b` compares a text cell with a number, which raises
 * `TypeError` in Python, so a single text cell in a numeric column (such as
 * "unknown" in Word Count) makes the whole run fail instead of skipping that check. Only the dashboard's
 * ninth check is protected, by its `isinstance` guard. This module models
 * that behaviour; the rest of the model uses the skipping checks of module
 * Rules: what the report evidently intends, and what the dashboard's
 * guarded ninth check does.
 */
module AsWritten {
  import opened Wrappers
  import opened Values
  import opened Rules
  import opened Findings
  import Dashboard

  /** Evaluating the rule on the row raises `TypeError`: an unguarded comparison of a text cell. */
  predicate Raises(rule: Rule, row: Row)
  {
    rule.Threshold? && !rule.typeGuarded && Get(row, rule.field).VStr?
  }

  /**
   * The first `k` checks as written: the labels, or the column whose
   * comparison raised first.
   */
  function StrictUpTo(rules: seq<Rule>, k: nat, row: Row): Result<seq<string>, string>
    requires k <= |rules|
  {
    if k == 0 then Success([])
    else match StrictUpTo(rules, k - 1, row)
      case Failure(field) => Failure(field)
      case Success(ls) =>
        if Raises(rules[k - 1], row) then Failure(rules[k - 1].field)
        else Success(AppendIf(ls, Fires(rules[k - 1], row), rules[k - 1].issue))
  }

  /** All the checks as written. */
  function StrictLabels(rules: seq<Rule>, row: Row): Result<seq<string>, string>
  {
    StrictUpTo(rules, |rules|, row)
  }

  /**
   * The checks as written succeed exactly when no check raises, and then list
   * the same labels as the skipping checks; otherwise they report the column
   * of the first check that raises.
   */
  lemma {:induction false} StrictSpec(rules: seq<Rule>, k: nat, row: Row)
    requires k <= |rules|
    ensures StrictUpTo(rules, k, row).Success? <==> forall i :: 0 <= i < k ==> !Raises(rules[i], row)
    ensures StrictUpTo(rules, k, row).Success? ==> StrictUpTo(rules, k, row).value == LabelsUpTo(rules, k, row)
    ensures StrictUpTo(rules, k, row).Failure? ==>
      exists i :: 0 <= i < k && Raises(rules[i], row) && StrictUpTo(rules, k, row).error == rules[i].field
        && forall j :: 0 <= j < i ==> !Raises(rules[j], row)
  {
    if k > 0 {
      StrictSpec(rules, k - 1, row);
      if StrictUpTo(rules, k - 1, row).Success? && Raises(rules[k - 1], row) {
        assert forall j :: 0 <= j < k - 1 ==> !Raises(rules[j], row);
      }
    }
  }

  /** The report as written: the first row whose checks raise aborts the whole run. */
  function StrictReportUpTo(rules: seq<Rule>, rows: seq<Row>, k: nat): Result<seq<Finding>, string>
    requires k <= |rows|
  {
    if k == 0 then Success([])
    else match StrictReportUpTo(rules, rows, k - 1)
      case Failure(field) => Failure(field)
      case Success(fs) =>
        match StrictLabels(rules, rows[k - 1])
        case Failure(field) => Failure(field)
        case Success(ls) => Success(fs + FindingOf(rows[k - 1], ls))
  }

  /** The run as written succeeds exactly when no row raises, and then yields the skipping report. */
  lemma {:induction false} StrictReportSpec(rules: seq<Rule>, rows: seq<Row>, k: nat)
    requires k <= |rows|
    ensures StrictReportUpTo(rules, rows, k).Success? <==>
      forall i :: 0 <= i < k ==> StrictLabels(rules, rows[i]).Success?
    ensures StrictReportUpTo(rules, rows, k).Success? ==>
      StrictReportUpTo(rules, rows, k).value == ReportUpTo(rules, rows, k)
  {
    if k > 0 {
      StrictReportSpec(rules, rows, k - 1);
      StrictSpec(rules, |rules|, rows[k - 1]);
    }
  }

  /**
   * A page whose Word Count cell reads "unknown": the skipping checks find
   * nothing wrong with it, while the batch script as written raises on it.
   */
  lemma TextCellCrashes(row: Row)
    requires Get(row, "Status Code") == VInt(200) && Get(row, "Indexability") == VStr("Indexable")
    requires Get(row, "Crawl Depth") == VInt(2) && Get(row, "Word Count") == VStr("unknown")
    requires Get(row, "Performance Score") == VNull && Get(row, "CTR") == VNull && Get(row, "Position") == VNull
    requires Get(row, "GA4 Engagement rate") == VNull && Get(row, "OpenAI: 1") == VNull
    ensures RowIssues(row) == []
    ensures StrictLabels(BATTERY, row) == Failure("Word Count")
    ensures StrictReportUpTo(BATTERY, [row], 1) == Failure("Word Count")
    ensures Report(BATTERY, [row]) == []
  {
    BatteryAsChecks(row);
    assert PyEq(Get(row, "Status Code"), STATUS_ALLOWED[0]);
    assert PyEq(Get(row, "Indexability"), INDEX_ALLOWED[0]);
    assert !Above(Get(row, "Crawl Depth"), 4.0);
    BatteryShape();
    StrictSpec(BATTERY, 9, row);
    assert Raises(BATTERY[3], row);
    assert !Raises(BATTERY[0], row) && !Raises(BATTERY[1], row) && !Raises(BATTERY[2], row);
  }

  /**
   * The two scripts as written, row by row: the dashboard raises only where
   * the batch script raises too; where the batch script raises and the
   * dashboard does not, the reason is a text "OpenAI: 1" cell; and where
   * both succeed they list the same labels, up to the EEAT label that the
   * dashboard drops for a frame without the column.
   */
  lemma ScriptsAsWritten(columns: seq<string>, row: Row)
    ensures StrictLabels(BATTERY, row).Success? ==> StrictLabels(Dashboard.DashboardRules(columns), row).Success?
    ensures StrictLabels(Dashboard.DashboardRules(columns), row).Success? && StrictLabels(BATTERY, row).Failure? ==>
      Get(row, Dashboard.OPENAI_COLUMN).VStr?
    ensures (&& StrictLabels(Dashboard.DashboardRules(columns), row).Success?
             && StrictLabels(BATTERY, row).Success?
             && (Dashboard.OPENAI_COLUMN in columns || !Below(Get(row, Dashboard.OPENAI_COLUMN), 0.5))) ==>
      StrictLabels(Dashboard.DashboardRules(columns), row).value == StrictLabels(BATTERY, row).value
  {
    var d := Dashboard.DashboardRules(columns);
    BatteryShape();
    StrictSpec(BATTERY, |BATTERY|, row);
    StrictSpec(d, |d|, row);
    assert forall i :: 0 <= i < 8 ==> d[i] == BATTERY[i];
    assert |d| == 9 ==> !Raises(d[8], row);
    Dashboard.DashboardAgreesWithBatch(columns, row);
  }
}
