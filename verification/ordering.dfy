/** The ORDER BY clauses of the project listings, and a sort that realises them. */
module Ordering {
  import opened Wrappers
  import opened Schema

  /** SQLite's BINARY collation on text: lexicographic by character code. */
  predicate TextLe(a: string, b: string) {
    |a| == 0 || (|b| > 0 && (a[0] < b[0] || (a[0] == b[0] && TextLe(a[1..], b[1..]))))
  }

  lemma {:induction false} TextLeTotal(a: string, b: string)
    ensures TextLe(a, b) || TextLe(b, a)
  {
    if |a| > 0 && |b| > 0 && a[0] == b[0] {
      TextLeTotal(a[1..], b[1..]);
    }
  }

  lemma {:induction false} TextLeTransitive(a: string, b: string, c: string)
    requires TextLe(a, b) && TextLe(b, c)
    ensures TextLe(a, c)
  {
    if |a| > 0 && a[0] == b[0] && b[0] == c[0] {
      TextLeTransitive(a[1..], b[1..], c[1..]);
    }
  }

  /** The dashboard's importance ranking: High, Medium, Low, then anything else (NULL included). */
  function Rank(importance: Option<string>): (r: int)
    ensures 1 <= r <= 4
    ensures r == 4 <==> importance !in {Some("High"), Some("Medium"), Some("Low")}
  {
    match importance
    case Some("High") => 1
    case Some("Medium") => 2
    case Some("Low") => 3
    case _ => 4
  }

  /** `deadline ASC`, with NULL after every date (`NULLS LAST`) or before every date. */
  predicate DeadlineLe(x: Option<nat>, y: Option<nat>, nullsFirst: bool) {
    match (x, y)
    case (Some(d), Some(e)) => d <= e
    case (None, None) => true
    case (None, Some(_)) => nullsFirst
    case (Some(_), None) => !nullsFirst
  }

  /** The orders a project listing can be sorted in. */
  datatype SortKey =
    | ByImportance          // CASE importance ... END
    | ByClient              // clients.name ASC
    | ByValue               // projects.value DESC
    | ByDeadline            // projects.deadline ASC NULLS LAST
    | ByDeadlineNullsFirst  // deadline ASC, where SQLite puts NULL first

  /** The `sort` query argument of the dashboard selects the order; anything unknown means deadline. */
  function SortKeyOf(sortBy: string): (key: SortKey)
    ensures sortBy == "importance" ==> key == ByImportance
    ensures sortBy == "client" ==> key == ByClient
    ensures sortBy == "value" ==> key == ByValue
    ensures key != ByDeadlineNullsFirst
    ensures key == ByDeadline <==> sortBy !in {"importance", "client", "value"}
  {
    if sortBy == "importance" then ByImportance
    else if sortBy == "client" then ByClient
    else if sortBy == "value" then ByValue
    else ByDeadline
  }

  /** `a` may be listed before `b` under `key`. */
  predicate Le(key: SortKey, a: ProjectRow, b: ProjectRow) {
    match key
    case ByImportance => Rank(a.project.importance) <= Rank(b.project.importance)
    case ByClient => TextLe(a.clientName, b.clientName)
    case ByValue => a.project.value >= b.project.value
    case ByDeadline => DeadlineLe(a.project.deadline, b.project.deadline, false)
    case ByDeadlineNullsFirst => DeadlineLe(a.project.deadline, b.project.deadline, true)
  }

  lemma LeTotal(key: SortKey, a: ProjectRow, b: ProjectRow)
    ensures Le(key, a, b) || Le(key, b, a)
  {
    if key == ByClient {
      TextLeTotal(a.clientName, b.clientName);
    }
  }

  lemma LeTransitive(key: SortKey, a: ProjectRow, b: ProjectRow, c: ProjectRow)
    requires Le(key, a, b) && Le(key, b, c)
    ensures Le(key, a, c)
  {
    if key == ByClient {
      TextLeTransitive(a.clientName, b.clientName, c.clientName);
    }
  }

  predicate Sorted(key: SortKey, rows: seq<ProjectRow>) {
    forall i, j :: 0 <= i < j < |rows| ==> Le(key, rows[i], rows[j])
  }

  /** Places `x` in front of the first row it may precede. */
  function Insert(key: SortKey, x: ProjectRow, rows: seq<ProjectRow>): (r: seq<ProjectRow>)
    ensures multiset(r) == multiset(rows) + multiset{x}
  {
    if rows == [] || Le(key, x, rows[0]) then [x] + rows
    else
      assert rows == [rows[0]] + rows[1..];
      [rows[0]] + Insert(key, x, rows[1..])
  }

  /** A row that may precede every row of a sorted listing may be put in front of it. */
  lemma ConsSorted(key: SortKey, x: ProjectRow, rows: seq<ProjectRow>)
    requires Sorted(key, rows)
    requires forall j :: 0 <= j < |rows| ==> Le(key, x, rows[j])
    ensures Sorted(key, [x] + rows)
  {
    var r := [x] + rows;
    forall i, j | 0 <= i < j < |r|
      ensures Le(key, r[i], r[j])
    {
      assert r[j] == rows[j - 1];
      if i > 0 {
        assert r[i] == rows[i - 1];
      }
    }
  }

  /** In a sorted listing, a row that may precede the first row may precede every row. */
  lemma PrecedesAll(key: SortKey, x: ProjectRow, rows: seq<ProjectRow>)
    requires Sorted(key, rows) && rows != [] && Le(key, x, rows[0])
    ensures forall j :: 0 <= j < |rows| ==> Le(key, x, rows[j])
  {
    forall j | 0 < j < |rows|
      ensures Le(key, x, rows[j])
    {
      LeTransitive(key, x, rows[0], rows[j]);
    }
  }

  /** A lower bound of `x` and of every row is a lower bound of every row after inserting `x`. */
  lemma InsertBounded(key: SortKey, y: ProjectRow, x: ProjectRow, rows: seq<ProjectRow>)
    requires Le(key, y, x)
    requires forall j :: 0 <= j < |rows| ==> Le(key, y, rows[j])
    ensures forall k :: 0 <= k < |Insert(key, x, rows)| ==> Le(key, y, Insert(key, x, rows)[k])
  {
    var r := Insert(key, x, rows);
    forall k | 0 <= k < |r|
      ensures Le(key, y, r[k])
    {
      assert r[k] in multiset(r);
      if r[k] != x {
        assert r[k] in multiset(rows);
        var j :| 0 <= j < |rows| && rows[j] == r[k];
      }
    }
  }

  lemma {:induction false} InsertKeepsSorted(key: SortKey, x: ProjectRow, rows: seq<ProjectRow>)
    requires Sorted(key, rows)
    ensures Sorted(key, Insert(key, x, rows))
  {
    if rows == [] {
    } else if Le(key, x, rows[0]) {
      PrecedesAll(key, x, rows);
      ConsSorted(key, x, rows);
    } else {
      var tail := rows[1..];
      LeTotal(key, x, rows[0]);
      InsertKeepsSorted(key, x, tail);
      assert forall j :: 0 <= j < |tail| ==> Le(key, rows[0], tail[j]) by {
        forall j | 0 <= j < |tail|
          ensures Le(key, rows[0], tail[j])
        {
          assert tail[j] == rows[j + 1];
        }
      }
      InsertBounded(key, rows[0], x, tail);
      ConsSorted(key, rows[0], Insert(key, x, tail));
    }
  }

  /** Insertion sort: a permutation of `rows` in `key` order. Ties keep no promised order. */
  function SortRows(key: SortKey, rows: seq<ProjectRow>): (r: seq<ProjectRow>)
    ensures multiset(r) == multiset(rows)
    ensures Sorted(key, r)
  {
    if rows == [] then []
    else
      var rest := SortRows(key, rows[1..]);
      InsertKeepsSorted(key, rows[0], rest);
      assert rows == [rows[0]] + rows[1..];
      Insert(key, rows[0], rest)
  }

  /** Sorting by importance lists High, then Medium, then Low, then everything else. */
  lemma ImportanceOrder(rows: seq<ProjectRow>, i: nat, j: nat)
    requires i < j < |SortRows(ByImportance, rows)|
    ensures var r := SortRows(ByImportance, rows);
      && (r[j].project.importance == Some("High") ==> r[i].project.importance == Some("High"))
      && (r[j].project.importance == Some("Medium") ==> r[i].project.importance in {Some("High"), Some("Medium")})
      && (r[i].project.importance !in {Some("High"), Some("Medium"), Some("Low")} ==>
            r[j].project.importance !in {Some("High"), Some("Medium"), Some("Low")})
  {
    var r := SortRows(ByImportance, rows);
    assert Le(ByImportance, r[i], r[j]);
  }

  /** Sorting by deadline lists dated projects earliest first, and undated ones after all dated ones. */
  lemma DeadlineOrder(rows: seq<ProjectRow>, i: nat, j: nat)
    requires i < j < |SortRows(ByDeadline, rows)|
    ensures var r := SortRows(ByDeadline, rows);
      && (r[i].project.deadline.None? ==> r[j].project.deadline.None?)
      && (r[i].project.deadline.Some? && r[j].project.deadline.Some? ==>
            r[i].project.deadline.value <= r[j].project.deadline.value)
  {
    var r := SortRows(ByDeadline, rows);
    assert Le(ByDeadline, r[i], r[j]);
  }

  /** Sorting by client lists client names in ascending text order. */
  lemma ClientOrder(rows: seq<ProjectRow>, i: nat, j: nat)
    requires i < j < |SortRows(ByClient, rows)|
    ensures var r := SortRows(ByClient, rows); TextLe(r[i].clientName, r[j].clientName)
  {
    var r := SortRows(ByClient, rows);
    assert Le(ByClient, r[i], r[j]);
  }

  /** Sorting by value lists the largest value first. */
  lemma ValueOrder(rows: seq<ProjectRow>, i: nat, j: nat)
    requires i < j < |SortRows(ByValue, rows)|
    ensures var r := SortRows(ByValue, rows); r[i].project.value >= r[j].project.value
  {
    var r := SortRows(ByValue, rows);
    assert Le(ByValue, r[i], r[j]);
  }
}
