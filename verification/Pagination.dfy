/**
 Keyset pagination: a page of an ordered query after a cursor, and the walk over all pages.
 */
module Pagination {
  import opened Prelude

  datatype Row = Row(id: nat, at: int)

  /** The order of the query: by time and then by identifier, in one direction. */
  predicate Before(desc: bool, a: Row, b: Row) {
    if desc then b.at < a.at || (b.at == a.at && b.id < a.id)
    else b.at > a.at || (b.at == a.at && b.id > a.id)
  }

  predicate UniqueIds(table: seq<Row>) {
    forall i, j :: 0 <= i < j < |table| ==> table[i].id != table[j].id
  }

  /** The rows the query selects, behind `after` where it is given. */
  function Select(table: seq<Row>, keep: Row -> bool, desc: bool, after: Option<Row>): seq<Row> {
    if table == [] then []
    else
      var r := table[|table| - 1];
      Select(table[..|table| - 1], keep, desc, after) +
      if keep(r) && (after.Some? ==> Before(desc, after.value, r)) then [r] else []
  }

  function Insert(desc: bool, x: Row, s: seq<Row>): seq<Row> {
    if s == [] || Before(desc, x, s[0]) then [x] + s else [s[0]] + Insert(desc, x, s[1..])
  }

  function Sort(desc: bool, s: seq<Row>): seq<Row> {
    if s == [] then [] else Insert(desc, s[0], Sort(desc, s[1..]))
  }

  function Query(table: seq<Row>, keep: Row -> bool, desc: bool, after: Option<Row>): seq<Row> {
    Sort(desc, Select(table, keep, desc, after))
  }

  function LookUp(table: seq<Row>, id: nat): Option<Row> {
    if table == [] then None
    else if table[0].id == id then Some(table[0])
    else LookUp(table[1..], id)
  }

  function Take(s: seq<Row>, n: nat): seq<Row> {
    if |s| <= n then s else s[..n]
  }

  /** One row more than the limit is fetched to see whether another page follows. An unknown cursor is ignored. */
  function Paginate(table: seq<Row>, keep: Row -> bool, desc: bool, cursor: Option<nat>, limit: nat): (seq<Row>, Option<nat>) {
    var after := if cursor.Some? then LookUp(table, cursor.value) else None;
    PageOf(Query(table, keep, desc, after), limit)
  }

  function PageOf(selected: seq<Row>, limit: nat): (seq<Row>, Option<nat>) {
    var rows := Take(selected, limit + 1);
    var items := Take(rows, limit);
    (items, if |rows| > limit && items != [] then Some(items[|items| - 1].id) else None)
  }

  // ---------------------------------------------------------------- ordered lists

  ghost predicate Ordered(desc: bool, s: seq<Row>) {
    forall i, j :: 0 <= i < j < |s| ==> Before(desc, s[i], s[j])
  }

  lemma InsertMembers(desc: bool, x: Row, s: seq<Row>)
    ensures multiset(Insert(desc, x, s)) == multiset(s) + multiset{x}
  {
    if s != [] && !Before(desc, x, s[0]) {
      InsertMembers(desc, x, s[1..]);
      assert s == [s[0]] + s[1..];
    }
  }

  lemma {:induction false} InsertOrders(desc: bool, x: Row, s: seq<Row>)
    requires Ordered(desc, s) && forall r :: r in s ==> r.id != x.id
    ensures Ordered(desc, Insert(desc, x, s))
  {
    if s != [] && !Before(desc, x, s[0]) {
      InsertOrders(desc, x, s[1..]);
      InsertMembers(desc, x, s[1..]);
      var rest := Insert(desc, x, s[1..]);
      assert s[0] in s;
      forall j | 0 <= j < |rest|
        ensures Before(desc, s[0], rest[j])
      {
        assert rest[j] in multiset(rest);
        assert rest[j] == x || rest[j] in s[1..];
      }
    }
  }

  lemma {:induction false} SortOrders(desc: bool, s: seq<Row>)
    requires UniqueIds(s)
    ensures Ordered(desc, Sort(desc, s)) && multiset(Sort(desc, s)) == multiset(s)
  {
    if s != [] {
      SortOrders(desc, s[1..]);
      var rest := Sort(desc, s[1..]);
      forall r | r in rest
        ensures r.id != s[0].id
      {
        assert r in multiset(rest);
        assert r in s[1..];
      }
      InsertOrders(desc, s[0], rest);
      InsertMembers(desc, s[0], rest);
      assert s == [s[0]] + s[1..];
    }
  }

  lemma {:induction false} SelectMembers(table: seq<Row>, keep: Row -> bool, desc: bool, after: Option<Row>, r: Row)
    ensures r in Select(table, keep, desc, after) <==>
            r in table && keep(r) && (after.Some? ==> Before(desc, after.value, r))
  {
    if table != [] {
      SelectMembers(table[..|table| - 1], keep, desc, after, r);
      assert table == table[..|table| - 1] + [table[|table| - 1]];
    }
  }

  lemma {:induction false} SelectUnique(table: seq<Row>, keep: Row -> bool, desc: bool, after: Option<Row>)
    requires UniqueIds(table)
    ensures UniqueIds(Select(table, keep, desc, after))
  {
    if table != [] {
      var head, r := table[..|table| - 1], table[|table| - 1];
      SelectUnique(head, keep, desc, after);
      var s := Select(head, keep, desc, after);
      forall i | 0 <= i < |s|
        ensures s[i].id != r.id
      {
        SelectMembers(head, keep, desc, after, s[i]);
      }
    }
  }

  /** The query's result is ordered and holds exactly the selected rows. */
  lemma QuerySound(table: seq<Row>, keep: Row -> bool, desc: bool, after: Option<Row>)
    requires UniqueIds(table)
    ensures Ordered(desc, Query(table, keep, desc, after))
    ensures forall r :: r in Query(table, keep, desc, after) <==>
                        r in table && keep(r) && (after.Some? ==> Before(desc, after.value, r))
  {
    var s := Select(table, keep, desc, after);
    SelectUnique(table, keep, desc, after);
    SortOrders(desc, s);
    forall r
      ensures r in Query(table, keep, desc, after) <==>
              r in table && keep(r) && (after.Some? ==> Before(desc, after.value, r))
    {
      SelectMembers(table, keep, desc, after, r);
      assert r in Sort(desc, s) <==> r in multiset(Sort(desc, s));
    }
  }

  lemma NoMembers(t: seq<Row>)
    requires forall r :: r !in t
    ensures t == []
  {
    assert forall r :: r in multiset(t) <==> r in t;
    assert multiset(t) == multiset{};
    assert |t| == |multiset(t)|;
  }

  /** Two ordered lists with the same rows are the same list. */
  lemma {:induction false} OrderedUnique(desc: bool, s: seq<Row>, t: seq<Row>)
    requires Ordered(desc, s) && Ordered(desc, t)
    requires forall r :: r in s <==> r in t
    ensures s == t
  {
    if s == [] {
      NoMembers(t);
    } else {
      assert s[0] in t;
      assert t[0] in s;
      assert s[0] == t[0];
      forall r
        ensures r in s[1..] <==> r in t[1..]
      {
        TailMembers(desc, s, r);
        TailMembers(desc, t, r);
      }
      OrderedUnique(desc, s[1..], t[1..]);
    }
  }

  lemma TailMembers(desc: bool, s: seq<Row>, r: Row)
    requires Ordered(desc, s) && s != []
    ensures r in s[1..] <==> r in s && r != s[0]
  {
    assert s == [s[0]] + s[1..];
  }

  /** The rows behind the k-th row of the whole list are the rest of the list. */
  lemma RestOfQuery(table: seq<Row>, keep: Row -> bool, desc: bool, k: nat)
    requires UniqueIds(table) && k < |Query(table, keep, desc, None)|
    ensures Query(table, keep, desc, Some(Query(table, keep, desc, None)[k])) == Query(table, keep, desc, None)[k + 1..]
  {
    var all := Query(table, keep, desc, None);
    var rest := Query(table, keep, desc, Some(all[k]));
    QuerySound(table, keep, desc, None);
    QuerySound(table, keep, desc, Some(all[k]));
    forall r
      ensures r in rest <==> r in all[k + 1..]
    {
      SuffixMembers(desc, all, k, r);
    }
    OrderedUnique(desc, rest, all[k + 1..]);
  }

  lemma SuffixMembers(desc: bool, s: seq<Row>, k: nat, r: Row)
    requires Ordered(desc, s) && k < |s|
    ensures r in s[k + 1..] <==> r in s && Before(desc, s[k], r)
  {
    if r in s && Before(desc, s[k], r) {
      var j :| 0 <= j < |s| && s[j] == r;
      assert j > k;
      assert s[k + 1..][j - k - 1] == r;
    }
    if r in s[k + 1..] {
      var j :| 0 <= j < |s| - k - 1 && s[k + 1..][j] == r;
      assert s[k + 1 + j] == r;
    }
  }

  lemma LookUpFinds(table: seq<Row>, r: Row)
    requires UniqueIds(table) && r in table
    ensures LookUp(table, r.id) == Some(r)
  {
    if table[0] != r {
      assert table == [table[0]] + table[1..];
      assert r in table[1..];
    }
  }

  // ---------------------------------------------------------------- pages

  function CursorAt(all: seq<Row>, k: nat): Option<nat>
    requires k <= |all|
  {
    if k == 0 then None else Some(all[k - 1].id)
  }

  function Least(x: nat, y: nat): nat {
    if x <= y then x else y
  }

  lemma PageBehind(table: seq<Row>, keep: Row -> bool, desc: bool, r: Row, limit: nat)
    requires LookUp(table, r.id) == Some(r)
    ensures Paginate(table, keep, desc, Some(r.id), limit) == PageOf(Query(table, keep, desc, Some(r)), limit)
  {
  }

  lemma FirstPage(table: seq<Row>, keep: Row -> bool, desc: bool, limit: nat)
    ensures Paginate(table, keep, desc, None, limit) == PageOf(Query(table, keep, desc, None), limit)
  {
  }

  lemma AtCursor(table: seq<Row>, keep: Row -> bool, desc: bool, k: nat, limit: nat, all: seq<Row>)
    requires UniqueIds(table) && all == Query(table, keep, desc, None) && k <= |all|
    ensures Paginate(table, keep, desc, CursorAt(all, k), limit) == PageOf(all[k..], limit)
  {
    if k > 0 {
      CursorRow(table, keep, desc, k - 1);
      PageBehind(table, keep, desc, all[k - 1], limit);
      RestOfQuery(table, keep, desc, k - 1);
    } else {
      FirstPage(table, keep, desc, limit);
      assert all[0..] == all;
    }
  }

  lemma CursorRow(table: seq<Row>, keep: Row -> bool, desc: bool, k: nat)
    requires UniqueIds(table) && k < |Query(table, keep, desc, None)|
    ensures LookUp(table, Query(table, keep, desc, None)[k].id) == Some(Query(table, keep, desc, None)[k])
  {
    QuerySound(table, keep, desc, None);
    assert Query(table, keep, desc, None)[k] in Query(table, keep, desc, None);
    LookUpFinds(table, Query(table, keep, desc, None)[k]);
  }

  lemma PageOfRest(all: seq<Row>, k: nat, limit: nat)
    requires k <= |all| && limit >= 1
    ensures PageOf(all[k..], limit) ==
            (all[k..Least(k + limit, |all|)],
             if Least(k + limit, |all|) < |all| then CursorAt(all, Least(k + limit, |all|)) else None)
  {
    var end := Least(k + limit, |all|);
    assert Take(Take(all[k..], limit + 1), limit) == all[k..end];
  }

  /** The page at a cursor is the next slice of the whole list, and the next cursor is the last row of
      the slice exactly when rows remain behind it. */
  lemma PageIsSlice(table: seq<Row>, keep: Row -> bool, desc: bool, k: nat, limit: nat, all: seq<Row>)
    requires UniqueIds(table) && all == Query(table, keep, desc, None) && k <= |all| && limit >= 1
    ensures Paginate(table, keep, desc, CursorAt(all, k), limit) ==
            (all[k..Least(k + limit, |all|)],
             if Least(k + limit, |all|) < |all| then CursorAt(all, Least(k + limit, |all|)) else None)
  {
    AtCursor(table, keep, desc, k, limit, all);
    PageOfRest(all, k, limit);
  }

  /** A cursor whose row is gone starts over. */
  lemma {:induction false} StaleCursorStartsOver(table: seq<Row>, keep: Row -> bool, desc: bool, id: nat, limit: nat)
    requires forall r :: r in table ==> r.id != id
    ensures Paginate(table, keep, desc, Some(id), limit) == Paginate(table, keep, desc, None, limit)
  {
    NotFound(table, id);
  }

  lemma NotFound(table: seq<Row>, id: nat)
    requires forall r :: r in table ==> r.id != id
    ensures LookUp(table, id).None?
  {
    if table != [] {
      assert table[0] in table;
    }
  }

  lemma PageJoins(all: seq<Row>, k: nat, end: nat)
    requires k <= end <= |all|
    ensures all[..k] + all[k..end] == all[..end]
  {
  }

  /** Following the next cursor until there is none ends, and the pages put together are the whole
      ordered list.  With limit zero the walk ends at once, which is right for an empty list only. */
  method Walk(table: seq<Row>, keep: Row -> bool, desc: bool, limit: nat) returns (rows: seq<Row>)
    requires UniqueIds(table)
    ensures rows == Query(table, keep, desc, None) <==> limit >= 1 || Query(table, keep, desc, None) == []
  {
    ghost var all := Query(table, keep, desc, None);
    var page := Paginate(table, keep, desc, None, limit);
    rows := page.0;
    var cursor := page.1;
    if limit == 0 {
      return;
    }
    PageIsSlice(table, keep, desc, 0, limit, all);
    while cursor.Some?
      invariant |rows| <= |all| && rows == all[..|rows|]
      invariant cursor.None? ==> |rows| == |all|
      invariant cursor.Some? ==> 0 < |rows| < |all| && cursor == CursorAt(all, |rows|)
      decreases |all| - |rows|
    {
      ghost var k := |rows|;
      PageIsSlice(table, keep, desc, k, limit, all);
      PageJoins(all, k, Least(k + limit, |all|));
      page := Paginate(table, keep, desc, cursor, limit);
      rows, cursor := rows + page.0, page.1;
    }
  }

  /** The whole list has every selected row exactly once, in the query's order, tied times or not. */
  lemma WholeListExactly(table: seq<Row>, keep: Row -> bool, desc: bool)
    requires UniqueIds(table)
    ensures Ordered(desc, Query(table, keep, desc, None))
    ensures Distinct(Query(table, keep, desc, None))
    ensures forall r :: r in Query(table, keep, desc, None) <==> r in table && keep(r)
  {
    QuerySound(table, keep, desc, None);
  }

  /** Descending means newest first, and among rows of one moment the larger identifier first; ascending means
      the reverse. */
  lemma NewestFirst(table: seq<Row>, keep: Row -> bool, desc: bool, i: nat, j: nat)
    requires UniqueIds(table) && i < j < |Query(table, keep, desc, None)|
    ensures var rows := Query(table, keep, desc, None);
            && (desc ==> rows[i].at >= rows[j].at && (rows[i].at == rows[j].at ==> rows[i].id > rows[j].id))
            && (!desc ==> rows[i].at <= rows[j].at && (rows[i].at == rows[j].at ==> rows[i].id < rows[j].id))
  {
    QuerySound(table, keep, desc, None);
  }
}
