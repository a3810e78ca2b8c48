/**
 * The loader/normalizer both scripts share: rename each frame's URL column
 * to "URL" and left-join crawl with analytics, then with search console.
 */
module Loader {
  import opened Wrappers
  import opened Values

  /** The crawl export's URL column. */
  const ADDRESS_COLUMN := "Address"

  /** A pandas DataFrame: its column labels, in order, and its rows. */
  datatype Table = Table(columns: seq<string>, rows: seq<Row>)

  datatype Source = Crawl | Analytics | SearchConsole

  /** Why a run stops before any row is checked. */
  datatype LoadError =
      /** `df.columns[0]` on a frame with no columns raises IndexError. */
    | NoColumns(source: Source)
      /** `merge(on='URL')` raises KeyError when the renamed crawl frame has no URL column. */
    | NoUrlColumn
      /** `merge(on='URL')` raises ValueError when a frame it joins has more than one URL column. */
    | DuplicateUrl(source: Source)

  predicate Distinct(cs: seq<string>)
  {
    forall i, j :: 0 <= i < j < |cs| ==> cs[i] != cs[j]
  }

  /** Every row has a cell, possibly NaN, in exactly the frame's columns, and no label repeats. */
  ghost predicate WellFormed(t: Table)
  {
    Distinct(t.columns) && forall r :: r in t.rows ==> forall c :: c in r <==> c in t.columns
  }

  /** Every cell a row has belongs to one of the frame's columns. */
  ghost predicate Covered(t: Table)
  {
    forall r :: r in t.rows ==> forall c :: c in r ==> c in t.columns
  }

  /** Two column lists share no label except the join key. */
  predicate SharesOnlyKey(xs: seq<string>, ys: seq<string>)
  {
    forall i, j :: 0 <= i < |xs| && 0 <= j < |ys| && xs[i] == ys[j] ==> xs[i] == URL_COLUMN
  }

  /** No two rows of a frame have URLs the join would match, so a left join adds no rows. */
  ghost predicate UniqueKeys(t: Table)
  {
    forall i, j :: 0 <= i < j < |t.rows| ==> !KeyMatch(Get(t.rows[i], URL_COLUMN), Get(t.rows[j], URL_COLUMN))
  }

  /** How many times the label `x` occurs in `cs`. */
  function Count(cs: seq<string>, x: string): (n: nat)
    ensures n <= |cs|
    ensures n == 0 <==> x !in cs
  {
    if cs == [] then 0 else (if cs[0] == x then 1 else 0) + Count(cs[1..], x)
  }

  /** `rename(columns={from: to})` on a list of labels. */
  function RenameLabels(cs: seq<string>, from: string, to: string): (rs: seq<string>)
    ensures |rs| == |cs|
    ensures forall c :: c in rs <==> (c == to && from in cs) || (c in cs && c != from)
  {
    if cs == [] then []
    else [if cs[0] == from then to else cs[0]] + RenameLabels(cs[1..], from, to)
  }

  /** `rename(columns={from: to})` on one row; a row without `from` is unchanged. */
  function RenameKey(row: Row, from: string, to: string): Row
  {
    if from in row then (row - {from})[to := row[from]] else row
  }

  /** `df.rename(columns={from: to})`. */
  function Rename(t: Table, from: string, to: string): (r: Table)
    ensures |r.rows| == |t.rows|
    ensures r.columns == RenameLabels(t.columns, from, to)
  {
    Table(RenameLabels(t.columns, from, to),
          seq(|t.rows|, i requires 0 <= i < |t.rows| => RenameKey(t.rows[i], from, to)))
  }

  /** The labels of a frame whose first column has been renamed to URL. */
  function KeyFirstLabels(cs: seq<string>): (rs: seq<string>)
    ensures |rs| == |cs|
    ensures cs != [] ==> rs[0] == URL_COLUMN
    ensures URL_COLUMN in rs <==> cs != []
  {
    if cs == [] then [] else RenameLabels(cs, cs[0], URL_COLUMN)
  }

  /** `cs` without the label `x`. */
  function Without(cs: seq<string>, x: string): (rs: seq<string>)
    ensures forall c :: c in rs <==> c in cs && c != x
  {
    if cs == [] then []
    else if cs[0] == x then Without(cs[1..], x)
    else [cs[0]] + Without(cs[1..], x)
  }

  /** The first row whose URL cell matches `key`. */
  function Lookup(rows: seq<Row>, key: Value): (m: Option<Row>)
    ensures m.Some? ==> m.value in rows && KeyMatch(Get(m.value, URL_COLUMN), key)
    ensures m.None? ==> forall r :: r in rows ==> !KeyMatch(Get(r, URL_COLUMN), key)
    ensures m.Some? ==>
      exists k :: (0 <= k < |rows| && rows[k] == m.value &&
                   forall j :: 0 <= j < k ==> !KeyMatch(Get(rows[j], URL_COLUMN), key))
  {
    if rows == [] then None
    else if KeyMatch(Get(rows[0], URL_COLUMN), key) then Some(rows[0])
    else Lookup(rows[1..], key)
  }

  /** A row of NaN in the given columns. */
  function NullRow(cs: seq<string>): (r: Row)
    ensures r.Keys == set c | c in cs
    ensures forall c :: Get(r, c) == VNull
  {
    map c | c in cs :: VNull
  }

  /** The cells a left join adds to row `l`: the matching right row's, or NaN when none matches. */
  function Extra(l: Row, right: Table): Row
  {
    match Lookup(right.rows, Get(l, URL_COLUMN))
    case Some(r) => r - {URL_COLUMN}
    case None => NullRow(Without(right.columns, URL_COLUMN))
  }

  /** `left.merge(right, on='URL', how='left')`: one row per left row, in left order. */
  function MergeLeft(left: Table, right: Table): (t: Table)
    ensures |t.rows| == |left.rows|
  {
    Table(left.columns + Without(right.columns, URL_COLUMN),
          seq(|left.rows|, i requires 0 <= i < |left.rows| => left.rows[i] + Extra(left.rows[i], right)))
  }

  /** The renamed crawl frame. */
  function CrawlKeyed(crawl: Table): (r: Table)
    ensures |r.rows| == |crawl.rows|
    ensures URL_COLUMN in r.columns <==> ADDRESS_COLUMN in crawl.columns || URL_COLUMN in crawl.columns
  {
    Rename(crawl, ADDRESS_COLUMN, URL_COLUMN)
  }

  /** A frame whose first column has been renamed to URL. */
  function KeyFirst(t: Table): (r: Table)
    requires t.columns != []
    ensures |r.rows| == |t.rows|
    ensures r.columns == KeyFirstLabels(t.columns) && r.columns[0] == URL_COLUMN
  {
    Rename(t, t.columns[0], URL_COLUMN)
  }

  /**
   * Lines 14-19 (and 21-26 of the dashboard): rename, then two left merges.
   * The run fails exactly when a frame has no column to rename, or a merge
   * finds no URL column or more than one in a frame it joins. The second
   * merge's left frame has exactly the crawl frame's one URL column.
   */
  function Normalize(crawl: Table, ga: Table, gsc: Table): (r: Result<Table, LoadError>)
    ensures r.Failure? <==>
      || ga.columns == [] || gsc.columns == []
      || Count(CrawlKeyed(crawl).columns, URL_COLUMN) != 1
      || Count(KeyFirstLabels(ga.columns), URL_COLUMN) > 1
      || Count(KeyFirstLabels(gsc.columns), URL_COLUMN) > 1
    ensures ga.columns == [] ==> r == Failure(NoColumns(Analytics))
    ensures ga.columns != [] && gsc.columns == [] ==> r == Failure(NoColumns(SearchConsole))
    ensures ga.columns != [] && gsc.columns != [] && URL_COLUMN !in CrawlKeyed(crawl).columns ==>
      r == Failure(NoUrlColumn)
    ensures r == Failure(DuplicateUrl(Crawl)) ==> Count(CrawlKeyed(crawl).columns, URL_COLUMN) > 1
    ensures r == Failure(DuplicateUrl(Analytics)) ==> Count(KeyFirstLabels(ga.columns), URL_COLUMN) > 1
    ensures r == Failure(DuplicateUrl(SearchConsole)) ==> Count(KeyFirstLabels(gsc.columns), URL_COLUMN) > 1
    ensures r.Success? ==> |r.value.rows| == |crawl.rows|
  {
    var c := CrawlKeyed(crawl);
    if ga.columns == [] then Failure(NoColumns(Analytics))
    else if gsc.columns == [] then Failure(NoColumns(SearchConsole))
    else if URL_COLUMN !in c.columns then Failure(NoUrlColumn)
    else if Count(c.columns, URL_COLUMN) > 1 then Failure(DuplicateUrl(Crawl))
    else if Count(KeyFirst(ga).columns, URL_COLUMN) > 1 then Failure(DuplicateUrl(Analytics))
    else if Count(KeyFirst(gsc).columns, URL_COLUMN) > 1 then Failure(DuplicateUrl(SearchConsole))
    else Success(MergeLeft(MergeLeft(c, KeyFirst(ga)), KeyFirst(gsc)))
  }

  /**
   * What the source assumes of its inputs: rectangular frames whose labels,
   * once renamed, are distinct and shared across frames only by URL (pandas
   * would otherwise duplicate labels or add `_x`/`_y` suffixes), and URLs
   * unique in the analytics and search-console frames (pandas would
   * otherwise repeat a crawl row once per match).
   */
  ghost predicate InputsOk(crawl: Table, ga: Table, gsc: Table)
  {
    && WellFormed(crawl) && WellFormed(ga) && WellFormed(gsc)
    && (var c, a, s := RenameLabels(crawl.columns, ADDRESS_COLUMN, URL_COLUMN),
                       KeyFirstLabels(ga.columns), KeyFirstLabels(gsc.columns);
        Distinct(c) && Distinct(a) && Distinct(s)
        && SharesOnlyKey(c, a) && SharesOnlyKey(c, s) && SharesOnlyKey(a, s))
    && (ga.columns != [] ==> UniqueKeys(KeyFirst(ga)))
    && (gsc.columns != [] ==> UniqueKeys(KeyFirst(gsc)))
  }

  // ---- Lemmas ----

  lemma RenameCovered(t: Table, from: string, to: string)
    requires Covered(t)
    ensures Covered(Rename(t, from, to))
  {
    var r := Rename(t, from, to);
    forall row | row in r.rows ensures forall c :: c in row ==> c in r.columns {
      var i :| 0 <= i < |r.rows| && r.rows[i] == row;
      assert row == RenameKey(t.rows[i], from, to);
      assert t.rows[i] in t.rows;
    }
  }

  lemma MergeCovered(left: Table, right: Table)
    requires Covered(left) && Covered(right)
    ensures Covered(MergeLeft(left, right))
  {
    var t := MergeLeft(left, right);
    forall row | row in t.rows ensures forall c :: c in row ==> c in t.columns {
      var i :| 0 <= i < |t.rows| && t.rows[i] == row;
      var l := left.rows[i];
      assert l in left.rows;
      assert row == l + Extra(l, right);
      match Lookup(right.rows, Get(l, URL_COLUMN))
      case Some(r) =>
        assert r in right.rows;
      case None =>
    }
  }

  /** The joined frame only has cells in its own columns. */
  lemma NormalizeCovered(crawl: Table, ga: Table, gsc: Table)
    requires Covered(crawl) && Covered(ga) && Covered(gsc)
    requires Normalize(crawl, ga, gsc).Success?
    ensures Covered(Normalize(crawl, ga, gsc).value)
  {
    RenameCovered(crawl, ADDRESS_COLUMN, URL_COLUMN);
    RenameCovered(ga, ga.columns[0], URL_COLUMN);
    RenameCovered(gsc, gsc.columns[0], URL_COLUMN);
    MergeCovered(CrawlKeyed(crawl), KeyFirst(ga));
    MergeCovered(MergeLeft(CrawlKeyed(crawl), KeyFirst(ga)), KeyFirst(gsc));
  }

  /** A left merge's columns: the left frame's, in order, then the right frame's other than URL. */
  lemma MergeLeftColumns(left: Table, right: Table)
    ensures var t := MergeLeft(left, right);
      && |left.columns| <= |t.columns| && t.columns[..|left.columns|] == left.columns
      && forall c :: c in t.columns <==> c in left.columns || (c in right.columns && c != URL_COLUMN)
  {
  }

  /**
   * The joined frame's columns: URL, the crawl frame's other columns but
   * Address, and the analytics and search-console columns but their first.
   */
  lemma JoinedColumns(crawl: Table, ga: Table, gsc: Table)
    ensures Normalize(crawl, ga, gsc).Success? ==>
      && URL_COLUMN in Normalize(crawl, ga, gsc).value.columns
      && forall c :: c != URL_COLUMN ==>
           (c in Normalize(crawl, ga, gsc).value.columns <==>
              || (c in crawl.columns && c != ADDRESS_COLUMN)
              || (c in ga.columns && c != ga.columns[0])
              || (c in gsc.columns && c != gsc.columns[0]))
  {
    if Normalize(crawl, ga, gsc).Success? {
      MergeLeftColumns(CrawlKeyed(crawl), KeyFirst(ga));
      MergeLeftColumns(MergeLeft(CrawlKeyed(crawl), KeyFirst(ga)), KeyFirst(gsc));
    }
  }

  /** The crawl column that becomes URL: "Address" when the crawl frame has one. */
  function CrawlKeyColumn(crawl: Table): (k: string)
    ensures URL_COLUMN in CrawlKeyed(crawl).columns <==> k in crawl.columns
  {
    if ADDRESS_COLUMN in crawl.columns then ADDRESS_COLUMN else URL_COLUMN
  }

  /**
   * The join keeps exactly the crawl rows, in crawl order, and each joined
   * row's URL is that crawl row's Address: a URL found only in the analytics
   * or search-console frame never appears.
   */
  lemma JoinFollowsCrawl(crawl: Table, ga: Table, gsc: Table)
    requires WellFormed(crawl)
    requires Normalize(crawl, ga, gsc).Success?
    ensures |Normalize(crawl, ga, gsc).value.rows| == |crawl.rows|
    ensures forall i :: 0 <= i < |crawl.rows| ==>
      Get(Normalize(crawl, ga, gsc).value.rows[i], URL_COLUMN) == Get(crawl.rows[i], CrawlKeyColumn(crawl))
  {
    var c := CrawlKeyed(crawl);
    var m := MergeLeft(c, KeyFirst(ga));
    var t := MergeLeft(m, KeyFirst(gsc));
    forall i | 0 <= i < |crawl.rows|
      ensures Get(t.rows[i], URL_COLUMN) == Get(crawl.rows[i], CrawlKeyColumn(crawl))
    {
      assert crawl.rows[i] in crawl.rows;
      assert URL_COLUMN !in Extra(c.rows[i], KeyFirst(ga));
      assert URL_COLUMN !in Extra(m.rows[i], KeyFirst(gsc));
    }
  }

  /** A cell of the crawl frame, other than its URL, is carried unchanged into the joined row. */
  lemma JoinKeepsCrawlCells(crawl: Table, ga: Table, gsc: Table, i: nat, col: string)
    requires InputsOk(crawl, ga, gsc)
    requires Normalize(crawl, ga, gsc).Success?
    requires i < |crawl.rows|
    requires col in crawl.rows[i] && col != ADDRESS_COLUMN && col != URL_COLUMN
    ensures Get(Normalize(crawl, ga, gsc).value.rows[i], col) == crawl.rows[i][col]
  {
    var c, a, s := CrawlKeyed(crawl), KeyFirst(ga), KeyFirst(gsc);
    var m := MergeLeft(c, a);
    assert crawl.rows[i] in crawl.rows;
    assert col in crawl.columns;
    assert col in c.columns;
    RenameCovered(ga, ga.columns[0], URL_COLUMN);
    RenameCovered(gsc, gsc.columns[0], URL_COLUMN);
    assert col !in a.columns;
    assert col !in s.columns;
    ExtraWithin(c.rows[i], a);
    ExtraWithin(m.rows[i], s);
  }

  /** The cells a join adds come from the right frame's non-key columns. */
  lemma ExtraWithin(l: Row, right: Table)
    requires Covered(right)
    ensures forall c :: c in Extra(l, right) ==> c in right.columns && c != URL_COLUMN
  {
    match Lookup(right.rows, Get(l, URL_COLUMN))
    case Some(r) =>
      assert r in right.rows;
    case None =>
  }

  /** A left join leaves the key and every cell of a column the right frame lacks as they were. */
  lemma MergedLeftCell(l: Row, right: Table, col: string)
    requires Covered(right)
    requires col == URL_COLUMN || col !in right.columns
    ensures Get(l + Extra(l, right), col) == Get(l, col)
  {
    ExtraWithin(l, right);
  }

  /** The value a left join puts in column `col` for a row with URL `key`. */
  function Joined(right: Table, key: Value, col: string): Value
  {
    match Lookup(right.rows, key)
    case Some(r) => Get(r, col)
    case None => VNull
  }

  /** In a right-frame column, a left join puts the first matching row's cell, or NaN when none matches. */
  lemma MergedRightCell(l: Row, right: Table, col: string)
    requires WellFormed(right)
    requires col in right.columns && col != URL_COLUMN
    ensures Get(l + Extra(l, right), col) == Joined(right, Get(l, URL_COLUMN), col)
  {
    match Lookup(right.rows, Get(l, URL_COLUMN))
    case Some(r) =>
      assert r in right.rows;
    case None =>
  }

  /** Renaming a column of a well-formed frame, without creating a duplicate label, keeps it well-formed. */
  lemma RenameWellFormed(t: Table, from: string, to: string)
    requires WellFormed(t)
    requires Distinct(RenameLabels(t.columns, from, to))
    ensures WellFormed(Rename(t, from, to))
  {
    var r := Rename(t, from, to);
    forall row | row in r.rows ensures forall c :: c in row <==> c in r.columns {
      var i :| 0 <= i < |r.rows| && r.rows[i] == row;
      assert row == RenameKey(t.rows[i], from, to);
      assert t.rows[i] in t.rows;
    }
  }

  /** `rename` moves each row's `from` cell to `to` and leaves every other cell as it was. */
  lemma RenameCells(t: Table, from: string, to: string, i: nat)
    requires i < |t.rows|
    ensures from in t.rows[i] ==> Get(Rename(t, from, to).rows[i], to) == t.rows[i][from]
    ensures from in t.rows[i] ==> from == to || from !in Rename(t, from, to).rows[i]
    ensures from !in t.rows[i] ==> Rename(t, from, to).rows[i] == t.rows[i]
    ensures forall c :: c != from && c != to ==> Get(Rename(t, from, to).rows[i], c) == Get(t.rows[i], c)
  {
    assert Rename(t, from, to).rows[i] == RenameKey(t.rows[i], from, to);
  }

  /**
   * Lines 15-16: in the renamed analytics or search-console frame, row `i`'s
   * URL is the cell of the original frame's first column, and its other
   * cells are the original row's.
   */
  lemma KeyFirstRows(t: Table, i: nat)
    requires WellFormed(t) && t.columns != [] && i < |t.rows|
    ensures |KeyFirst(t).rows| == |t.rows|
    ensures Get(KeyFirst(t).rows[i], URL_COLUMN) == Get(t.rows[i], t.columns[0])
    ensures forall c :: c != URL_COLUMN && c != t.columns[0] ==> Get(KeyFirst(t).rows[i], c) == Get(t.rows[i], c)
  {
    assert t.rows[i] in t.rows;
    RenameCells(t, t.columns[0], URL_COLUMN, i);
  }

  /** The renamed frames the join reads are well-formed. */
  lemma KeyedWellFormed(crawl: Table, ga: Table, gsc: Table)
    requires InputsOk(crawl, ga, gsc)
    requires ga.columns != [] && gsc.columns != []
    ensures WellFormed(CrawlKeyed(crawl)) && WellFormed(KeyFirst(ga)) && WellFormed(KeyFirst(gsc))
  {
    RenameWellFormed(crawl, ADDRESS_COLUMN, URL_COLUMN);
    RenameWellFormed(ga, ga.columns[0], URL_COLUMN);
    RenameWellFormed(gsc, gsc.columns[0], URL_COLUMN);
  }

  /**
   * A joined row's analytics column holds the cell of the first analytics
   * row with the same URL, or NaN when the crawl URL has no analytics row.
   */
  lemma JoinBringsAnalytics(crawl: Table, ga: Table, gsc: Table, i: nat, col: string)
    requires InputsOk(crawl, ga, gsc)
    requires Normalize(crawl, ga, gsc).Success?
    requires i < |crawl.rows|
    requires col in KeyFirst(ga).columns && col != URL_COLUMN
    ensures Get(Normalize(crawl, ga, gsc).value.rows[i], col)
         == Joined(KeyFirst(ga), Get(crawl.rows[i], CrawlKeyColumn(crawl)), col)
  {
    var c, a, s := CrawlKeyed(crawl), KeyFirst(ga), KeyFirst(gsc);
    var m := MergeLeft(c, a);
    KeyedWellFormed(crawl, ga, gsc);
    JoinFollowsCrawl(crawl, ga, gsc);
    MergedLeftCell(c.rows[i], a, URL_COLUMN);
    MergedRightCell(c.rows[i], a, col);
    assert col !in s.columns;
    MergedLeftCell(m.rows[i], s, col);
    MergedLeftCell(m.rows[i], s, URL_COLUMN);
  }

  /**
   * A joined row's search-console column holds the cell of the first
   * search-console row with the same URL, or NaN when there is none.
   */
  lemma JoinBringsSearchConsole(crawl: Table, ga: Table, gsc: Table, i: nat, col: string)
    requires InputsOk(crawl, ga, gsc)
    requires Normalize(crawl, ga, gsc).Success?
    requires i < |crawl.rows|
    requires col in KeyFirst(gsc).columns && col != URL_COLUMN
    ensures Get(Normalize(crawl, ga, gsc).value.rows[i], col)
         == Joined(KeyFirst(gsc), Get(crawl.rows[i], CrawlKeyColumn(crawl)), col)
  {
    var c, a, s := CrawlKeyed(crawl), KeyFirst(ga), KeyFirst(gsc);
    var m := MergeLeft(c, a);
    KeyedWellFormed(crawl, ga, gsc);
    JoinFollowsCrawl(crawl, ga, gsc);
    MergedLeftCell(c.rows[i], a, URL_COLUMN);
    MergedRightCell(m.rows[i], s, col);
  }
}
