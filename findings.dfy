/**
 * The report: one Finding per row that has at least one label, in row order,
 * and the `", "` text encoding of a label list that the Issues column uses.
 */
module Findings {
  import opened Values
  import opened Rules

  /** One report line: the row's URL, its labels joined by ", ", and their number. */
  datatype Finding = Finding(url: Value, issues: string, severity: nat)

  /** `", ".join(ls)`. */
  function Join(ls: seq<string>): string
  {
    if |ls| == 0 then ""
    else if |ls| == 1 then ls[0]
    else ls[0] + ", " + Join(ls[1..])
  }

  /** `s.split(", ")`, scanning left to right with `piece` the text read since the last separator. */
  function SplitFrom(s: string, piece: string): seq<string>
    decreases |s|
  {
    if |s| == 0 then [piece]
    else if |s| >= 2 && s[0] == ',' && s[1] == ' ' then [piece] + SplitFrom(s[2..], "")
    else SplitFrom(s[1..], piece + [s[0]])
  }

  /** `s.split(", ")`. */
  function Split(s: string): seq<string>
  {
    SplitFrom(s, "")
  }

  /** Text without a comma is read through without splitting. */
  lemma {:induction false} SplitFromCommaFree(a: string, t: string, piece: string)
    requires ',' !in a
    ensures SplitFrom(a + t, piece) == SplitFrom(t, piece + a)
    decreases |a|
  {
    if a == [] {
      assert a + t == t;
      assert piece + a == piece;
    } else {
      assert (a + t)[0] == a[0] && (a + t)[1..] == a[1..] + t;
      assert ',' !in a[1..];
      SplitFromCommaFree(a[1..], t, piece + [a[0]]);
      assert piece + [a[0]] + a[1..] == piece + a;
    }
  }

  /** Splitting the Issues text at ", " gives back the labels, when no label holds a comma. */
  lemma {:induction false} SplitJoin(ls: seq<string>)
    requires |ls| >= 1
    requires forall i :: 0 <= i < |ls| ==> ',' !in ls[i]
    ensures Split(Join(ls)) == ls
  {
    if |ls| == 1 {
      SplitFromCommaFree(ls[0], "", "");
      assert ls[0] + "" == ls[0];
      assert "" + ls[0] == ls[0];
    } else {
      var rest := Join(ls[1..]);
      assert Join(ls) == ls[0] + (", " + rest);
      SplitFromCommaFree(ls[0], ", " + rest, "");
      assert "" + ls[0] == ls[0];
      assert (", " + rest)[2..] == rest;
      SplitJoin(ls[1..]);
      assert ls == [ls[0]] + ls[1..];
    }
  }

  /** The Finding a row with labels `ls` contributes: one when there are labels, none otherwise. */
  function FindingOf(row: Row, ls: seq<string>): (fs: seq<Finding>)
    ensures |fs| <= 1
    ensures fs != [] <==> ls != []
  {
    if ls == [] then [] else [Finding(Get(row, URL_COLUMN), Join(ls), |ls|)]
  }

  /** The Findings of the first `k` rows, in row order, each row labelled by `rules`. */
  function ReportUpTo(rules: seq<Rule>, rows: seq<Row>, k: nat): (fs: seq<Finding>)
    requires k <= |rows|
    ensures |fs| <= k
  {
    if k == 0 then [] else ReportUpTo(rules, rows, k - 1) + FindingOf(rows[k - 1], Labels(rules, rows[k - 1]))
  }

  /** The report that running `rules` on a table's rows produces. */
  function Report(rules: seq<Rule>, rows: seq<Row>): seq<Finding>
  {
    ReportUpTo(rules, rows, |rows|)
  }

  /** Two rule lists that label the first `k` rows alike give the same Findings for them. */
  lemma {:induction false} ReportUpToAgree(rules: seq<Rule>, other: seq<Rule>, rows: seq<Row>, k: nat)
    requires k <= |rows|
    requires forall i :: 0 <= i < k ==> Labels(rules, rows[i]) == Labels(other, rows[i])
    ensures ReportUpTo(rules, rows, k) == ReportUpTo(other, rows, k)
  {
    if k > 0 {
      ReportUpToAgree(rules, other, rows, k - 1);
    }
  }

  /** The positions, among the first `k` rows, of the rows that have a label. */
  ghost function EmittedUpTo(rules: seq<Rule>, rows: seq<Row>, k: nat): (ix: seq<nat>)
    requires k <= |rows|
    ensures forall p :: 0 <= p < |ix| ==> ix[p] < k
  {
    if k == 0 then []
    else EmittedUpTo(rules, rows, k - 1) + (if Labels(rules, rows[k - 1]) != [] then [k - 1] else [])
  }

  /** `f` is the Finding a row with labels `ls` contributes. */
  ghost predicate Describes(f: Finding, row: Row, ls: seq<string>)
  {
    ls != [] && f == Finding(Get(row, URL_COLUMN), Join(ls), |ls|)
  }

  /** The emitted positions increase strictly and include every row with a label. */
  lemma {:induction false} EmittedPositions(rules: seq<Rule>, rows: seq<Row>, k: nat)
    requires k <= |rows|
    ensures forall p, q :: 0 <= p < q < |EmittedUpTo(rules, rows, k)| ==>
      EmittedUpTo(rules, rows, k)[p] < EmittedUpTo(rules, rows, k)[q]
    ensures forall j :: 0 <= j < k && Labels(rules, rows[j]) != [] ==> j in EmittedUpTo(rules, rows, k)
  {
    if k > 0 {
      EmittedPositions(rules, rows, k - 1);
    }
  }

  /** Finding `p` of the report describes the row at emitted position `p`. */
  lemma {:induction false} EmittedDescribed(rules: seq<Rule>, rows: seq<Row>, k: nat)
    requires k <= |rows|
    ensures |EmittedUpTo(rules, rows, k)| == |ReportUpTo(rules, rows, k)|
    ensures forall p :: 0 <= p < |EmittedUpTo(rules, rows, k)| ==>
      Describes(ReportUpTo(rules, rows, k)[p], rows[EmittedUpTo(rules, rows, k)[p]],
                Labels(rules, rows[EmittedUpTo(rules, rows, k)[p]]))
  {
    if k > 0 {
      EmittedDescribed(rules, rows, k - 1);
      var fs, ix, ls := ReportUpTo(rules, rows, k - 1), EmittedUpTo(rules, rows, k - 1), Labels(rules, rows[k - 1]);
      if ls != [] {
        var f := Finding(Get(rows[k - 1], URL_COLUMN), Join(ls), |ls|);
        assert ReportUpTo(rules, rows, k) == fs + [f];
        assert EmittedUpTo(rules, rows, k) == ix + [k - 1];
        assert Describes(f, rows[k - 1], ls);
      } else {
        assert ReportUpTo(rules, rows, k) == fs;
        assert EmittedUpTo(rules, rows, k) == ix;
      }
    }
  }

  /**
   * The report is the subsequence of rows that have a label: Finding `p`
   * describes row `EmittedUpTo(..)[p]`, those positions strictly increase, and
   * a row is among them exactly when it has a label.
   */
  lemma ReportSpec(rules: seq<Rule>, rows: seq<Row>)
    ensures |EmittedUpTo(rules, rows, |rows|)| == |ReportUpTo(rules, rows, |rows|)|
    ensures forall p :: 0 <= p < |EmittedUpTo(rules, rows, |rows|)| ==>
      EmittedUpTo(rules, rows, |rows|)[p] < |rows|
      && Describes(ReportUpTo(rules, rows, |rows|)[p], rows[EmittedUpTo(rules, rows, |rows|)[p]],
                   Labels(rules, rows[EmittedUpTo(rules, rows, |rows|)[p]]))
    ensures forall p, q :: 0 <= p < q < |EmittedUpTo(rules, rows, |rows|)| ==>
      EmittedUpTo(rules, rows, |rows|)[p] < EmittedUpTo(rules, rows, |rows|)[q]
    ensures forall j :: 0 <= j < |rows| ==>
      (j in EmittedUpTo(rules, rows, |rows|) <==> Labels(rules, rows[j]) != [])
  {
    EmittedPositions(rules, rows, |rows|);
    EmittedDescribed(rules, rows, |rows|);
    var ix := EmittedUpTo(rules, rows, |rows|);
    forall j | 0 <= j < |rows| && j in ix ensures Labels(rules, rows[j]) != [] {
      var p :| 0 <= p < |ix| && ix[p] == j;
    }
  }

  /**
   * Every Finding has between 1 and |rules| labels, Severity is their number,
   * and splitting Issues at ", " yields exactly Severity items.
   */
  lemma FindingsShape(rules: seq<Rule>, rows: seq<Row>)
    requires CommaFree(rules)
    ensures forall f :: f in Report(rules, rows) ==>
      1 <= f.severity <= |rules| && |Split(f.issues)| == f.severity
  {
    ReportSpec(rules, rows);
    var fs, ix := Report(rules, rows), EmittedUpTo(rules, rows, |rows|);
    forall f | f in fs ensures 1 <= f.severity <= |rules| && |Split(f.issues)| == f.severity {
      var p :| 0 <= p < |fs| && fs[p] == f;
      var ls := Labels(rules, rows[ix[p]]);
      assert Describes(f, rows[ix[p]], ls);
      LabelsFromRules(rules, rows[ix[p]]);
      SplitJoin(ls);
    }
  }

  /** A label that no row gets appears in no Finding's Issues. */
  lemma LabelAbsentFromReport(rules: seq<Rule>, rows: seq<Row>, x: string)
    requires CommaFree(rules)
    requires forall j :: 0 <= j < |rows| ==> x !in Labels(rules, rows[j])
    ensures forall f :: f in Report(rules, rows) ==> x !in Split(f.issues)
  {
    ReportSpec(rules, rows);
    var fs, ix := Report(rules, rows), EmittedUpTo(rules, rows, |rows|);
    forall f | f in fs ensures x !in Split(f.issues) {
      var p :| 0 <= p < |fs| && fs[p] == f;
      var ls := Labels(rules, rows[ix[p]]);
      assert Describes(f, rows[ix[p]], ls);
      LabelsFromRules(rules, rows[ix[p]]);
      SplitJoin(ls);
    }
  }

  /** Every label is the label of some rule, so it holds no comma when no rule label does. */
  lemma LabelsFromRules(rules: seq<Rule>, row: Row)
    requires CommaFree(rules)
    ensures forall i :: 0 <= i < |Labels(rules, row)| ==> ',' !in Labels(rules, row)[i]
  {
    FiredSpec(rules, |rules|, row);
  }
}
