/**
 * The detector's fixed battery of row checks, written as a list of
 * declarative rule descriptors and evaluated by one generic function.
 * This is the reference definition the hand-written checks of both
 * scripts are proved against.
 */
module Rules {
  import opened Values

  datatype Cmp = Less | Greater

  datatype Rule =
      /** Fires when the cell is not `==` to any allowed value; a missing cell is not, so it fires. */
    | OneOf(field: string, allowed: seq<Value>, issue: string)
      /**
       * Fires when the cell holds a number that compares strictly with `bound`;
       * a missing or non-numeric cell never fires. `typeGuarded` records whether
       * the source guards the comparison with `isinstance`; it matters only for
       * the source as written (module AsWritten).
       */
    | Threshold(field: string, cmp: Cmp, bound: real, issue: string, typeGuarded: bool)

  const STATUS_LABEL := "Non-200/3xx status"
  const INDEX_LABEL := "Not indexable"
  const DEPTH_LABEL := "High crawl depth"
  const THIN_LABEL := "Thin content"
  const PERF_LABEL := "Low performance score"
  const CTR_LABEL := "Low CTR"
  const POSITION_LABEL := "Poor average position"
  const ENGAGEMENT_LABEL := "Low engagement rate"
  const EEAT_LABEL := "Low OpenAI EEAT score"

  const STATUS_ALLOWED: seq<Value> := [VInt(200), VInt(301), VInt(302)]
  const INDEX_ALLOWED: seq<Value> := [VStr("Indexable"), VStr("Canonical")]

  /** The ninth check as the batch script writes it: no type guard. */
  const EEAT_RULE := Threshold("OpenAI: 1", Less, 0.5, EEAT_LABEL, false)

  /** The eight checks both scripts share, in their order. */
  const SHARED: seq<Rule> := [
    OneOf("Status Code", STATUS_ALLOWED, STATUS_LABEL),
    OneOf("Indexability", INDEX_ALLOWED, INDEX_LABEL),
    Threshold("Crawl Depth", Greater, 4.0, DEPTH_LABEL, false),
    Threshold("Word Count", Less, 300.0, THIN_LABEL, false),
    Threshold("Performance Score", Less, 50.0, PERF_LABEL, false),
    Threshold("CTR", Less, 0.5, CTR_LABEL, false),
    Threshold("Position", Greater, 20.0, POSITION_LABEL, false),
    Threshold("GA4 Engagement rate", Less, 0.3, ENGAGEMENT_LABEL, false)
  ]

  /** The batch script's nine checks, in evaluation order. */
  const BATTERY: seq<Rule> := SHARED + [EEAT_RULE]

  predicate Holds(cmp: Cmp, x: real, bound: real)
  {
    match cmp
    case Less => x < bound
    case Greater => x > bound
  }

  /**
   * When a rule adds its label: a `OneOf` rule when the cell is not `==` to
   * any allowed value, a `Threshold` rule when the cell is a present number
   * that passes the strict comparison (any other cell is skipped).
   */
  predicate Fires(rule: Rule, row: Row)
  {
    match rule
    case OneOf(field, allowed, _) => !PyIn(Get(row, field), allowed)
    case Threshold(field, cmp, bound, _, _) =>
      IsNumber(Get(row, field)) && Holds(cmp, Num(Get(row, field)), bound)
  }

  /** `if fired: ls.append(issue)`, one check of the battery. */
  function AppendIf(ls: seq<string>, fired: bool, issue: string): seq<string>
  {
    if fired then ls + [issue] else ls
  }

  /** The labels of the first `k` rules that fire on `row`, in rule order. */
  function LabelsUpTo(rules: seq<Rule>, k: nat, row: Row): (ls: seq<string>)
    requires k <= |rules|
    ensures |ls| <= k
  {
    if k == 0 then [] else AppendIf(LabelsUpTo(rules, k - 1, row), Fires(rules[k - 1], row), rules[k - 1].issue)
  }

  /** The labels of the rules that fire on `row`, in rule order. */
  function Labels(rules: seq<Rule>, row: Row): seq<string>
  {
    LabelsUpTo(rules, |rules|, row)
  }

  /** The batch script's label list for one row. */
  function RowIssues(row: Row): seq<string>
  {
    Labels(BATTERY, row)
  }

  /** The positions, among the first `k` rules, of those that fire on `row`. */
  ghost function FiredUpTo(rules: seq<Rule>, k: nat, row: Row): seq<nat>
    requires k <= |rules|
  {
    if k == 0 then [] else FiredUpTo(rules, k - 1, row) + (if Fires(rules[k - 1], row) then [k - 1] else [])
  }

  predicate DistinctLabels(rules: seq<Rule>)
  {
    forall i, j :: 0 <= i < j < |rules| ==> rules[i].issue != rules[j].issue
  }

  predicate CommaFree(rules: seq<Rule>)
  {
    forall i :: 0 <= i < |rules| ==> ',' !in rules[i].issue
  }

  /**
   * The labels of the first `k` rules are exactly the labels of the firing
   * ones, listed by strictly increasing rule position: every firing rule
   * contributes, no other does.
   */
  lemma {:induction false} FiredSpec(rules: seq<Rule>, k: nat, row: Row)
    requires k <= |rules|
    ensures |FiredUpTo(rules, k, row)| == |LabelsUpTo(rules, k, row)|
    ensures forall p :: 0 <= p < |FiredUpTo(rules, k, row)| ==>
      FiredUpTo(rules, k, row)[p] < k
      && Fires(rules[FiredUpTo(rules, k, row)[p]], row)
      && LabelsUpTo(rules, k, row)[p] == rules[FiredUpTo(rules, k, row)[p]].issue
    ensures forall p, q :: 0 <= p < q < |FiredUpTo(rules, k, row)| ==>
      FiredUpTo(rules, k, row)[p] < FiredUpTo(rules, k, row)[q]
    ensures forall i :: 0 <= i < k && Fires(rules[i], row) ==> i in FiredUpTo(rules, k, row)
  {
    if k > 0 {
      FiredSpec(rules, k - 1, row);
    }
  }

  /** With distinct labels, a rule's label is listed exactly when the rule fires. */
  lemma LabelIff(rules: seq<Rule>, row: Row, i: nat)
    requires DistinctLabels(rules)
    requires i < |rules|
    ensures rules[i].issue in Labels(rules, row) <==> Fires(rules[i], row)
  {
    FiredSpec(rules, |rules|, row);
    var ls, ix := Labels(rules, row), FiredUpTo(rules, |rules|, row);
    if rules[i].issue in ls {
      var p :| 0 <= p < |ls| && ls[p] == rules[i].issue;
      assert rules[ix[p]].issue == rules[i].issue;
      assert ix[p] == i;
    }
    if Fires(rules[i], row) {
      var p :| 0 <= p < |ix| && ix[p] == i;
      assert ls[p] == rules[i].issue;
    }
  }

  /** The labels of the first `k` rules depend on those rules only. */
  lemma {:induction false} LabelsUpToPrefix(rules: seq<Rule>, other: seq<Rule>, k: nat, row: Row)
    requires k <= |rules| && k <= |other|
    requires forall i :: 0 <= i < k ==> rules[i] == other[i]
    ensures LabelsUpTo(rules, k, row) == LabelsUpTo(other, k, row)
  {
    if k > 0 {
      LabelsUpToPrefix(rules, other, k - 1, row);
    }
  }

  lemma BatteryShape()
    ensures |SHARED| == 8 && |BATTERY| == 9
  {
  }

  lemma BatteryDistinct()
    ensures DistinctLabels(BATTERY)
  {
    var lens := [18, 13, 16, 12, 21, 7, 21, 19, 21];
    assert forall i :: 0 <= i < 9 ==> |BATTERY[i].issue| == lens[i];
    // the three labels of length 21 differ in their first or fifth letter
    assert BATTERY[4].issue[0] == 'L' && BATTERY[4].issue[4] == 'p';
    assert BATTERY[6].issue[0] == 'P';
    assert BATTERY[8].issue[0] == 'L' && BATTERY[8].issue[4] == 'O';
  }

  /** No shared check carries the EEAT label. */
  lemma SharedNotEeat()
    ensures forall i :: 0 <= i < |SHARED| ==> SHARED[i].issue != EEAT_LABEL
  {
    var lens := [18, 13, 16, 12, 21, 7, 21, 19];
    assert forall i :: 0 <= i < 8 ==> |SHARED[i].issue| == lens[i];
    assert |EEAT_LABEL| == 21 && EEAT_LABEL[4] == 'O';
    assert SHARED[4].issue[4] == 'p' && SHARED[6].issue[4] == ' ';
  }

  lemma BatteryCommaFree()
    ensures CommaFree(BATTERY)
  {
    forall i | 0 <= i < |BATTERY| ensures ',' !in BATTERY[i].issue {
      CommaFreeLabel(BATTERY[i].issue);
    }
  }

  lemma CommaFreeLabel(s: string)
    requires s in {STATUS_LABEL, INDEX_LABEL, DEPTH_LABEL, THIN_LABEL, PERF_LABEL,
                   CTR_LABEL, POSITION_LABEL, ENGAGEMENT_LABEL, EEAT_LABEL}
    ensures ',' !in s
  {
    forall j | 0 <= j < |s| ensures s[j] != ',' {
    }
  }

  // ---- The battery, rule by rule, in the source's own terms ----

  /** The status codes the first check accepts: 200, 301 and 302, as int or float cells. */
  predicate AllowedStatus(v: Value)
  {
    match v
    case VInt(n) => n == 200 || n == 301 || n == 302
    case VReal(x) => x == 200.0 || x == 301.0 || x == 302.0
    case _ => false
  }

  /**
   * `pd.notna(v) and v > bound` with a non-numeric cell skipped: the cell is
   * present, a number, and strictly above `bound`. (A number cell is never
   * NaN here, so `pd.notna` holds of it.)
   */
  predicate Above(v: Value, bound: real)
  {
    IsNumber(v) && Num(v) > bound
  }

  /** `pd.notna(v) and v < bound`, with a non-numeric cell skipped. */
  predicate Below(v: Value, bound: real)
  {
    IsNumber(v) && Num(v) < bound
  }

  /** Check 1: a row is flagged unless its status code is 200, 301 or 302; a missing code is flagged. */
  lemma StatusRule(row: Row)
    ensures STATUS_LABEL in RowIssues(row) <==> !AllowedStatus(Get(row, "Status Code"))
    ensures Get(row, "Status Code") == VNull ==> STATUS_LABEL in RowIssues(row)
  {
    BatteryDistinct();
    LabelIff(BATTERY, row, 0);
    var v := Get(row, "Status Code");
    if AllowedStatus(v) {
      var k := if Num(v) == 200.0 then 0 else if Num(v) == 301.0 then 1 else 2;
      assert PyEq(v, STATUS_ALLOWED[k]);
    }
  }

  /** Check 2: a row is flagged unless it is "Indexable" or "Canonical"; a missing value is flagged. */
  lemma IndexabilityRule(row: Row)
    ensures INDEX_LABEL in RowIssues(row) <==>
      Get(row, "Indexability") != VStr("Indexable") && Get(row, "Indexability") != VStr("Canonical")
    ensures Get(row, "Indexability") == VNull ==> INDEX_LABEL in RowIssues(row)
  {
    BatteryDistinct();
    LabelIff(BATTERY, row, 1);
    var v := Get(row, "Indexability");
    if v == VStr("Indexable") {
      assert PyEq(v, INDEX_ALLOWED[0]);
    } else if v == VStr("Canonical") {
      assert PyEq(v, INDEX_ALLOWED[1]);
    }
  }

  /**
   * Checks 3 to 9: each fires exactly when its cell holds a number that passes
   * the strict comparison; a missing or non-numeric cell never fires.
   */
  lemma NumericRules(row: Row)
    ensures DEPTH_LABEL in RowIssues(row) <==> Above(Get(row, "Crawl Depth"), 4.0)
    ensures THIN_LABEL in RowIssues(row) <==> Below(Get(row, "Word Count"), 300.0)
    ensures PERF_LABEL in RowIssues(row) <==> Below(Get(row, "Performance Score"), 50.0)
    ensures CTR_LABEL in RowIssues(row) <==> Below(Get(row, "CTR"), 0.5)
    ensures POSITION_LABEL in RowIssues(row) <==> Above(Get(row, "Position"), 20.0)
    ensures ENGAGEMENT_LABEL in RowIssues(row) <==> Below(Get(row, "GA4 Engagement rate"), 0.3)
    ensures EEAT_LABEL in RowIssues(row) <==> Below(Get(row, "OpenAI: 1"), 0.5)
  {
    BatteryDistinct();
    LabelIff(BATTERY, row, 2);
    LabelIff(BATTERY, row, 3);
    LabelIff(BATTERY, row, 4);
    LabelIff(BATTERY, row, 5);
    LabelIff(BATTERY, row, 6);
    LabelIff(BATTERY, row, 7);
    LabelIff(BATTERY, row, 8);
  }

  /** The eight shared rules written out as consecutive checks. */
  lemma SharedUnfold(row: Row)
    ensures Labels(SHARED, row) == AppendIf(AppendIf(AppendIf(AppendIf(AppendIf(AppendIf(AppendIf(AppendIf([],
        Fires(SHARED[0], row), SHARED[0].issue),
        Fires(SHARED[1], row), SHARED[1].issue),
        Fires(SHARED[2], row), SHARED[2].issue),
        Fires(SHARED[3], row), SHARED[3].issue),
        Fires(SHARED[4], row), SHARED[4].issue),
        Fires(SHARED[5], row), SHARED[5].issue),
        Fires(SHARED[6], row), SHARED[6].issue),
        Fires(SHARED[7], row), SHARED[7].issue)
  {
    BatteryShape();
    var b := SHARED;
    assert LabelsUpTo(b, 1, row) == AppendIf([], Fires(b[0], row), b[0].issue);
    assert LabelsUpTo(b, 2, row) == AppendIf(AppendIf([], Fires(b[0], row), b[0].issue), Fires(b[1], row), b[1].issue);
    assert LabelsUpTo(b, 3, row) == AppendIf(AppendIf(AppendIf([], Fires(b[0], row), b[0].issue), Fires(b[1], row), b[1].issue), Fires(b[2], row), b[2].issue);
    assert LabelsUpTo(b, 4, row) == AppendIf(AppendIf(AppendIf(AppendIf([], Fires(b[0], row), b[0].issue), Fires(b[1], row), b[1].issue), Fires(b[2], row), b[2].issue), Fires(b[3], row), b[3].issue);
    assert LabelsUpTo(b, 5, row) == AppendIf(AppendIf(AppendIf(AppendIf(AppendIf([], Fires(b[0], row), b[0].issue), Fires(b[1], row), b[1].issue), Fires(b[2], row), b[2].issue), Fires(b[3], row), b[3].issue), Fires(b[4], row), b[4].issue);
    assert LabelsUpTo(b, 6, row) == AppendIf(AppendIf(AppendIf(AppendIf(AppendIf(AppendIf([], Fires(b[0], row), b[0].issue), Fires(b[1], row), b[1].issue), Fires(b[2], row), b[2].issue), Fires(b[3], row), b[3].issue), Fires(b[4], row), b[4].issue), Fires(b[5], row), b[5].issue);
    assert LabelsUpTo(b, 7, row) == AppendIf(AppendIf(AppendIf(AppendIf(AppendIf(AppendIf(AppendIf([], Fires(b[0], row), b[0].issue), Fires(b[1], row), b[1].issue), Fires(b[2], row), b[2].issue), Fires(b[3], row), b[3].issue), Fires(b[4], row), b[4].issue), Fires(b[5], row), b[5].issue), Fires(b[6], row), b[6].issue);
    assert LabelsUpTo(b, 8, row) == AppendIf(AppendIf(AppendIf(AppendIf(AppendIf(AppendIf(AppendIf(AppendIf([], Fires(b[0], row), b[0].issue), Fires(b[1], row), b[1].issue), Fires(b[2], row), b[2].issue), Fires(b[3], row), b[3].issue), Fires(b[4], row), b[4].issue), Fires(b[5], row), b[5].issue), Fires(b[6], row), b[6].issue), Fires(b[7], row), b[7].issue);
  }

  /** The eight shared rules in the source's own terms: when each fires, and the label it adds. */
  lemma SharedConditions(row: Row)
    ensures Fires(SHARED[0], row) == !PyIn(Get(row, "Status Code"), STATUS_ALLOWED)
    ensures Fires(SHARED[1], row) == !PyIn(Get(row, "Indexability"), INDEX_ALLOWED)
    ensures Fires(SHARED[2], row) == Above(Get(row, "Crawl Depth"), 4.0)
    ensures Fires(SHARED[3], row) == Below(Get(row, "Word Count"), 300.0)
    ensures Fires(SHARED[4], row) == Below(Get(row, "Performance Score"), 50.0)
    ensures Fires(SHARED[5], row) == Below(Get(row, "CTR"), 0.5)
    ensures Fires(SHARED[6], row) == Above(Get(row, "Position"), 20.0)
    ensures Fires(SHARED[7], row) == Below(Get(row, "GA4 Engagement rate"), 0.3)
    ensures SHARED[0].issue == STATUS_LABEL && SHARED[1].issue == INDEX_LABEL
    ensures SHARED[2].issue == DEPTH_LABEL && SHARED[3].issue == THIN_LABEL
    ensures SHARED[4].issue == PERF_LABEL && SHARED[5].issue == CTR_LABEL
    ensures SHARED[6].issue == POSITION_LABEL && SHARED[7].issue == ENGAGEMENT_LABEL
  {
  }

  /**
   * The eight checks both scripts share, as their source writes them: each
   * appends its label when its condition holds.
   */
  lemma SharedAsChecks(row: Row)
    ensures Labels(SHARED, row) == AppendIf(AppendIf(AppendIf(AppendIf(AppendIf(AppendIf(AppendIf(AppendIf([],
      !PyIn(Get(row, "Status Code"), STATUS_ALLOWED), STATUS_LABEL),
      !PyIn(Get(row, "Indexability"), INDEX_ALLOWED), INDEX_LABEL),
      Above(Get(row, "Crawl Depth"), 4.0), DEPTH_LABEL),
      Below(Get(row, "Word Count"), 300.0), THIN_LABEL),
      Below(Get(row, "Performance Score"), 50.0), PERF_LABEL),
      Below(Get(row, "CTR"), 0.5), CTR_LABEL),
      Above(Get(row, "Position"), 20.0), POSITION_LABEL),
      Below(Get(row, "GA4 Engagement rate"), 0.3), ENGAGEMENT_LABEL)
  {
    SharedUnfold(row);
    SharedConditions(row);
  }

  /** The batch script's labels are the shared ones, then the EEAT label when the score is a number below 0.5. */
  lemma BatterySplit(row: Row)
    ensures RowIssues(row) == AppendIf(Labels(SHARED, row), Below(Get(row, "OpenAI: 1"), 0.5), EEAT_LABEL)
  {
    BatteryShape();
    LabelsUpToPrefix(BATTERY, SHARED, 8, row);
  }

  /** The batch script's nine checks, as its source writes them. */
  lemma BatteryAsChecks(row: Row)
    ensures RowIssues(row) == AppendIf(AppendIf(AppendIf(AppendIf(AppendIf(AppendIf(AppendIf(AppendIf(AppendIf([],
      !PyIn(Get(row, "Status Code"), STATUS_ALLOWED), STATUS_LABEL),
      !PyIn(Get(row, "Indexability"), INDEX_ALLOWED), INDEX_LABEL),
      Above(Get(row, "Crawl Depth"), 4.0), DEPTH_LABEL),
      Below(Get(row, "Word Count"), 300.0), THIN_LABEL),
      Below(Get(row, "Performance Score"), 50.0), PERF_LABEL),
      Below(Get(row, "CTR"), 0.5), CTR_LABEL),
      Above(Get(row, "Position"), 20.0), POSITION_LABEL),
      Below(Get(row, "GA4 Engagement rate"), 0.3), ENGAGEMENT_LABEL),
      Below(Get(row, "OpenAI: 1"), 0.5), EEAT_LABEL)
  {
    BatterySplit(row);
    SharedAsChecks(row);
  }

  /** Position of the first rule carrying `issue` (|rules| when none does). */
  function IndexOfIssue(rules: seq<Rule>, issue: string): (k: nat)
    ensures k <= |rules|
    ensures k < |rules| ==> rules[k].issue == issue
    ensures forall i :: 0 <= i < k ==> rules[i].issue != issue
  {
    if rules == [] then 0
    else if rules[0].issue == issue then 0
    else 1 + IndexOfIssue(rules[1..], issue)
  }

  lemma IndexOfOwnIssue(rules: seq<Rule>, j: nat)
    requires DistinctLabels(rules)
    requires j < |rules|
    ensures IndexOfIssue(rules, rules[j].issue) == j
  {
  }

  /** Position of a label in the battery: the order in which the checks run. */
  function Rank(issue: string): nat
  {
    IndexOfIssue(BATTERY, issue)
  }

  /**
   * A row's labels appear in the fixed order of the checks, each at most once,
   * and there are at most nine of them.
   */
  lemma RowIssuesOrdered(row: Row)
    ensures |RowIssues(row)| <= 9
    ensures forall i, j :: 0 <= i < j < |RowIssues(row)| ==> Rank(RowIssues(row)[i]) < Rank(RowIssues(row)[j])
    ensures forall i, j :: 0 <= i < j < |RowIssues(row)| ==> RowIssues(row)[i] != RowIssues(row)[j]
  {
    BatteryShape();
    BatteryDistinct();
    FiredSpec(BATTERY, |BATTERY|, row);
    var ls, ix := RowIssues(row), FiredUpTo(BATTERY, |BATTERY|, row);
    forall k | 0 <= k < |ls| ensures Rank(ls[k]) == ix[k] {
      IndexOfOwnIssue(BATTERY, ix[k]);
    }
  }

  /** A row whose every cell but URL is missing gets exactly the two categorical labels. */
  lemma AbsentRowIssues(row: Row)
    requires forall c :: c != "URL" ==> Get(row, c) == VNull
    ensures RowIssues(row) == [STATUS_LABEL, INDEX_LABEL]
  {
    BatteryAsChecks(row);
    assert !PyIn(VNull, STATUS_ALLOWED);
    assert !PyIn(VNull, INDEX_ALLOWED);
    assert Get(row, "Status Code") == VNull && Get(row, "Indexability") == VNull;
    assert Get(row, "Crawl Depth") == VNull && Get(row, "Word Count") == VNull;
    assert Get(row, "Performance Score") == VNull && Get(row, "CTR") == VNull;
    assert Get(row, "Position") == VNull && Get(row, "GA4 Engagement rate") == VNull;
    assert Get(row, "OpenAI: 1") == VNull;
  }

  /** Values exactly at a threshold do not fire: every comparison is strict. */
  lemma BoundariesDoNotFire(row: Row)
    requires Get(row, "Crawl Depth") == VInt(4)
    requires Get(row, "Word Count") == VInt(300)
    requires Get(row, "Performance Score") == VInt(50)
    requires Get(row, "CTR") == VReal(0.5)
    requires Get(row, "Position") == VInt(20)
    requires Get(row, "GA4 Engagement rate") == VReal(0.3)
    requires Get(row, "OpenAI: 1") == VReal(0.5)
    ensures DEPTH_LABEL !in RowIssues(row) && THIN_LABEL !in RowIssues(row)
    ensures PERF_LABEL !in RowIssues(row) && CTR_LABEL !in RowIssues(row)
    ensures POSITION_LABEL !in RowIssues(row) && ENGAGEMENT_LABEL !in RowIssues(row)
    ensures EEAT_LABEL !in RowIssues(row)
  {
    NumericRules(row);
  }
}
