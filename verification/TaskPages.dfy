/** Keyset paging of the task list (internal/controlplane/task_query.go): pages by title or by the time of the last
    change, and exactly when they concatenate to the whole list. */
module TaskPages {
  import opened Options

  /** A row of the task table: its id by its rank in the database's order, what its document holds of the sort field,
      the key the database sorts it by, and the filters (archived, owner, status, search term, updated_after) that it
      passes. */
  datatype Row = Row(id: nat, value: int, key: int, passes: set<nat>)

  datatype Order = ById | Ascending | Descending
  datatype Query = Query(order: Order, filter: nat)

  /** A cursor binds a position (the sort value it carries, if that is not empty, and an id) to the query it
      came from. */
  datatype Cursor = Start | At(value: Option<int>, id: nat, query: Query)
  datatype Page = Page(items: seq<Row>, next: Cursor) | InvalidCursor

  predicate Before(order: Order, a: Row, b: Row) {
    match order
    case ById => a.id < b.id
    case Ascending => a.key < b.key || (a.key == b.key && a.id < b.id)
    case Descending => a.key > b.key || (a.key == b.key && a.id > b.id)
  }

  /** The keyset clause: the row lies after the cursor. */
  predicate After(q: Query, c: Cursor, r: Row) {
    match c
    case Start => true
    case At(value, id, _) =>
      match q.order
      case ById => r.id > id
      case Ascending => value.Some? && (r.key > value.value || (r.key == value.value && r.id > id))
      case Descending => value.Some? && (r.key < value.value || (r.key == value.value && r.id < id))
  }

  /** A cursor of another query is refused, and so is an empty sort value where one is needed. */
  predicate Refused(q: Query, c: Cursor) { c.At? && (c.query != q || (q.order != ById && c.value.None?)) }

  ghost predicate UniqueIds(table: set<Row>) {
    forall a, b :: a in table && b in table && a.id == b.id ==> a == b
  }

  ghost function Filtered(table: set<Row>, q: Query): set<Row> {
    set r | r in table && q.filter in r.passes
  }

  ghost function Rest(rows: set<Row>, q: Query, c: Cursor): set<Row> {
    set r | r in rows && After(q, c, r)
  }

  // --- ORDER BY -------------------------------------------------------------

  ghost predicate Sorted(order: Order, s: seq<Row>) {
    forall i, j {:trigger s[i], s[j]} :: 0 <= i < j < |s| ==> Before(order, s[i], s[j])
  }

  ghost predicate Least(order: Order, rows: set<Row>, m: Row) {
    m in rows && forall r :: r in rows && r != m ==> Before(order, m, r)
  }

  lemma {:induction false} LeastExists(order: Order, rows: set<Row>)
    requires rows != {} && UniqueIds(rows)
    ensures exists m :: Least(order, rows, m)
  {
    var m :| m in rows;
    var rest := rows - {m};
    if rest == {} {
      assert rows == {m};
      assert Least(order, rows, m);
    } else {
      LeastExists(order, rest);
      var l :| Least(order, rest, l);
      assert l in rows && l.id != m.id;
      var least := if Before(order, l, m) then l else m;
      forall r | r in rows && r != least ensures Before(order, least, r) {
        if r != m && r != l { assert r in rest && Before(order, l, r); }
      }
      assert Least(order, rows, least);
    }
  }

  ghost function LeastRow(order: Order, rows: set<Row>): (m: Row)
    requires rows != {} && UniqueIds(rows)
    ensures Least(order, rows, m)
  {
    LeastExists(order, rows);
    var m :| Least(order, rows, m);
    m
  }

  /** The rows in order. */
  ghost function Ordered(order: Order, rows: set<Row>): (s: seq<Row>)
    requires UniqueIds(rows)
    ensures |s| == |rows| && forall r :: r in s <==> r in rows
  {
    if rows == {} then []
    else
      var first := LeastRow(order, rows);
      [first] + Ordered(order, rows - {first})
  }

  lemma FirstThenSorted(order: Order, first: Row, t: seq<Row>)
    requires Sorted(order, t) && forall r :: r in t ==> Before(order, first, r)
    ensures Sorted(order, [first] + t)
  {
    var s := [first] + t;
    forall i, j | 0 <= i < j < |s| ensures Before(order, s[i], s[j]) {
      assert s[j] == t[j - 1] && s[j] in t;
      if i > 0 { assert s[i] == t[i - 1]; }
    }
  }

  lemma {:induction false} OrderedSorted(order: Order, rows: set<Row>)
    requires UniqueIds(rows)
    ensures Sorted(order, Ordered(order, rows))
  {
    if rows != {} {
      var first := LeastRow(order, rows);
      OrderedSorted(order, rows - {first});
      var s, t := Ordered(order, rows), Ordered(order, rows - {first});
      FirstThenSorted(order, first, t);
      assert s == [first] + t;
    }
  }

  lemma FirstIsLeast(order: Order, rows: set<Row>, t: seq<Row>)
    requires UniqueIds(rows) && Sorted(order, t) && t != []
    requires forall r :: r in t <==> r in rows
    ensures rows != {} && t[0] == LeastRow(order, rows)
    ensures forall r :: r in t[1..] <==> r in rows - {t[0]}
  {
    assert t[0] in rows;
    var first := LeastRow(order, rows);
    var i :| 0 <= i < |t| && t[i] == first;
    assert i > 0 ==> Before(order, t[0], t[i]);
    forall r ensures r in t[1..] <==> r in rows - {t[0]} {
      if r in t[1..] {
        var k :| 1 <= k < |t| && t[k] == r;
        assert Before(order, t[0], t[k]);
      }
    }
  }

  /** A sorted list is determined by its rows. */
  lemma {:induction false} SortedUnique(order: Order, rows: set<Row>, t: seq<Row>)
    requires UniqueIds(rows) && Sorted(order, t)
    requires forall r :: r in t <==> r in rows
    ensures t == Ordered(order, rows)
    decreases |t|
  {
    if t == [] {
      assert forall r :: r in rows ==> r in t;
      assert rows == {};
    } else {
      FirstIsLeast(order, rows, t);
      SortedUnique(order, rows - {t[0]}, t[1..]);
    }
  }

  // --- One page -------------------------------------------------------------

  function Min(a: nat, b: nat): nat { if a < b then a else b }

  /** `carry` is the key that the next request compares with: what becomes of the document's value on its way through
      the cursor and into the query. */
  function Cut(rows: seq<Row>, q: Query, limit: nat, carry: int -> Option<int>): Page
    requires 1 <= limit
  {
    if |rows| > limit then Page(rows[..limit], At(carry(rows[limit - 1].value), rows[limit - 1].id, q))
    else Page(rows, Start)
  }

  ghost function PageOf(table: set<Row>, q: Query, limit: nat, c: Cursor, carry: int -> Option<int>): Page
    requires UniqueIds(table) && 1 <= limit
  {
    if Refused(q, c) then InvalidCursor
    else Cut(Ordered(q.order, Rest(Filtered(table, q), q, c)), q, limit, carry)
  }

  ghost function RowSet(stored: seq<Row>): set<Row> { set r | r in stored }

  /** One more row than asked for is read, to learn whether another page exists. */
  method ListTasks(stored: seq<Row>, q: Query, limit: nat, c: Cursor, carry: int -> Option<int>) returns (p: Page)
    requires 1 <= limit && UniqueIds(RowSet(stored)) && Sorted(q.order, stored)
    ensures p == PageOf(RowSet(stored), q, limit, c, carry)
  {
    if Refused(q, c) { return InvalidCursor; }
    ghost var wanted := Rest(Filtered(RowSet(stored), q), q, c);
    var items: seq<Row> := [];
    var n := 0;
    while n < |stored| && |items| <= limit
      invariant Scanned(stored, q.order, wanted, items, n)
      invariant |items| <= limit + 1
    {
      ScanNext(stored, q.order, wanted, items, n);
      assert stored[n] in wanted <==> q.filter in stored[n].passes && After(q, c, stored[n]);
      if q.filter in stored[n].passes && After(q, c, stored[n]) { items := items + [stored[n]]; }
      n := n + 1;
    }
    EnoughToCut(stored, q, limit, carry, wanted, items, n);
    return Cut(items, q, limit, carry);
  }

  lemma EnoughToCut(stored: seq<Row>, q: Query, limit: nat, carry: int -> Option<int>, wanted: set<Row>, items: seq<Row>, n: nat)
    requires 1 <= limit && UniqueIds(wanted) && (forall r :: r in wanted ==> r in stored) && Sorted(q.order, stored)
    requires Scanned(stored, q.order, wanted, items, n) && (n == |stored| || |items| > limit)
    ensures Cut(items, q, limit, carry) == Cut(Ordered(q.order, wanted), q, limit, carry)
  {
    PageIsPrefix(stored, q.order, wanted, items, n);
    if n == |stored| {
      assert stored[..|stored|] == stored;
      SortedUnique(q.order, wanted, items);
    } else {
      var whole := Ordered(q.order, wanted);
      assert items[..limit] == whole[..limit] && items[limit - 1] == whole[limit - 1];
    }
  }

  /** After `n` rows of a scan in order, the wanted ones among them have been collected in order. */
  ghost predicate Scanned(stored: seq<Row>, order: Order, wanted: set<Row>, items: seq<Row>, n: nat) {
    n <= |stored| && Sorted(order, items) && forall r :: r in items <==> r in wanted && r in stored[..n]
  }

  lemma ScanNext(stored: seq<Row>, order: Order, wanted: set<Row>, items: seq<Row>, n: nat)
    requires Sorted(order, stored) && n < |stored| && Scanned(stored, order, wanted, items, n)
    ensures Scanned(stored, order, wanted, if stored[n] in wanted then items + [stored[n]] else items, n + 1)
  {
    assert stored[..n + 1] == stored[..n] + [stored[n]];
    if stored[n] in wanted {
      var more := items + [stored[n]];
      forall i, j | 0 <= i < j < |more| ensures Before(order, more[i], more[j]) {
        if j == |items| {
          assert items[i] in items;
          var k :| 0 <= k < n && stored[k] == items[i];
        }
      }
    }
  }

  /** What a scan in order has found after `n` rows is a prefix of all it will find. */
  lemma PageIsPrefix(stored: seq<Row>, order: Order, wanted: set<Row>, items: seq<Row>, n: nat)
    requires Sorted(order, stored) && UniqueIds(wanted) && Scanned(stored, order, wanted, items, n)
    requires forall r :: r in wanted ==> r in stored
    ensures items <= Ordered(order, wanted)
  {
    var later := set r | r in wanted && r !in items;
    var tail := Ordered(order, later);
    OrderedSorted(order, later);
    var all := items + tail;
    forall i, j | 0 <= i < j < |all| ensures Before(order, all[i], all[j]) {
      if i < |items| <= j {
        assert all[i] in items && all[j] in tail && all[j] in later && all[j] in stored;
        var a :| 0 <= a < n && stored[a] == all[i];
        var b :| 0 <= b < |stored| && stored[b] == all[j];
        assert all[j] !in stored[..n];
        assert a < b;
      } else if i >= |items| {
        assert Before(order, tail[i - |items|], tail[j - |items|]);
      }
    }
    forall r ensures r in all <==> r in wanted {
      if r in wanted && r !in items { assert r in later && r in tail; }
      if r in tail { assert r in later; }
    }
    SortedUnique(order, wanted, all);
  }

  // --- All pages --------------------------------------------------------------

  /** The rows a client collects by following at most `n` cursors. */
  ghost function Follow(fetch: Cursor -> Page, c: Cursor, n: nat): seq<Row>
    decreases n
  {
    if n == 0 || fetch(c).InvalidCursor? then []
    else if fetch(c).next == Start then fetch(c).items
    else fetch(c).items + Follow(fetch, fetch(c).next, n - 1)
  }

  ghost function Fetch(table: set<Row>, q: Query, limit: nat, carry: int -> Option<int>): Cursor -> Page
    requires UniqueIds(table) && 1 <= limit
  {
    c => PageOf(table, q, limit, c, carry)
  }

  ghost function Collected(table: set<Row>, q: Query, limit: nat, carry: int -> Option<int>, n: nat): seq<Row>
    requires UniqueIds(table) && 1 <= limit
  {
    Follow(Fetch(table, q, limit, carry), Start, n)
  }

  /** The cursor stands at position `p` of the whole list. */
  ghost predicate Stands(whole: seq<Row>, q: Query, carry: int -> Option<int>, c: Cursor, p: nat) {
    p <= |whole| && (if p == 0 then c == Start else c == At(carry(whole[p - 1].value), whole[p - 1].id, q))
  }

  /** The cursor selects the list from position `p` on. */
  ghost predicate Selects(whole: seq<Row>, q: Query, c: Cursor, p: nat) {
    p <= |whole| && forall k :: 0 <= k < |whole| ==> (After(q, c, whole[k]) <==> k >= p)
  }

  /** The position is a whole number of pages on. */
  predicate Boundary(limit: nat, p: nat)
    requires 1 <= limit
  {
    p == 0 || (p >= limit && Boundary(limit, p - limit))
  }

  /** A page ends before position `p`, and it is not the last one. */
  ghost predicate EndsPage(whole: seq<Row>, limit: nat, p: nat)
    requires 1 <= limit
  {
    0 < p < |whole| && Boundary(limit, p)
  }

  /** What the cursor carries of the row before `p` separates the rows up to it from those after it. */
  ghost predicate Separates(whole: seq<Row>, q: Query, carry: int -> Option<int>, p: nat)
    requires 0 < p <= |whole|
  {
    var c := At(carry(whole[p - 1].value), whole[p - 1].id, q);
    !Refused(q, c) && Selects(whole, q, c, p)
  }

  lemma AfterIsUpward(q: Query, c: Cursor, a: Row, b: Row)
    requires After(q, c, a) && Before(q.order, a, b)
    ensures After(q, c, b)
  {
  }

  /** Whatever a cursor carries, it selects the list from some position on. */
  lemma {:induction false} SelectsSome(whole: seq<Row>, q: Query, c: Cursor, n: nat) returns (p: nat)
    requires Sorted(q.order, whole) && n <= |whole| && forall k :: n <= k < |whole| ==> After(q, c, whole[k])
    ensures Selects(whole, q, c, p)
  {
    if n == 0 { return 0; }
    if After(q, c, whole[n - 1]) {
      p := SelectsSome(whole, q, c, n - 1);
    } else {
      forall k | 0 <= k < n ensures !After(q, c, whole[k]) {
        if k < n - 1 && After(q, c, whole[k]) { AfterIsUpward(q, c, whole[k], whole[n - 1]); }
      }
      return n;
    }
  }

  lemma SuffixRows(whole: seq<Row>, rows: set<Row>, q: Query, c: Cursor, p: nat)
    requires Selects(whole, q, c, p) && forall r :: r in whole <==> r in rows
    ensures forall r :: r in whole[p..] <==> r in Rest(rows, q, c)
  {
    forall r ensures r in whole[p..] <==> r in Rest(rows, q, c) {
      if r in whole && After(q, c, r) {
        var k :| 0 <= k < |whole| && whole[k] == r;
        assert whole[p..][k - p] == r;
      }
    }
  }

  lemma RestIsSuffix(table: set<Row>, whole: seq<Row>, q: Query, c: Cursor, p: nat)
    requires UniqueIds(table) && whole == Ordered(q.order, Filtered(table, q)) && Selects(whole, q, c, p)
    ensures Ordered(q.order, Rest(Filtered(table, q), q, c)) == whole[p..]
  {
    OrderedSorted(q.order, Filtered(table, q));
    SuffixRows(whole, Filtered(table, q), q, c, p);
    assert Sorted(q.order, whole[p..]);
    SortedUnique(q.order, Rest(Filtered(table, q), q, c), whole[p..]);
  }

  /** The page read under a cursor that stands at position `p` of the whole list and selects the list from there. */
  ghost predicate ReadsAt(page: Page, whole: seq<Row>, q: Query, limit: nat, carry: int -> Option<int>, p: nat)
    requires p <= |whole|
  {
    && page.Page?
    && if |whole| - p > limit
       then page.items == whole[p..p + limit] && page.next != Start && Stands(whole, q, carry, page.next, p + limit)
       else page.items == whole[p..] && page.next == Start
  }

  lemma CutReads(whole: seq<Row>, q: Query, limit: nat, carry: int -> Option<int>, p: nat)
    requires 1 <= limit && p <= |whole|
    ensures ReadsAt(Cut(whole[p..], q, limit, carry), whole, q, limit, carry, p)
  {
    if |whole| - p > limit { assert whole[p..][..limit] == whole[p..p + limit]; }
  }

  lemma PageAt(table: set<Row>, whole: seq<Row>, q: Query, limit: nat, c: Cursor, carry: int -> Option<int>, p: nat)
    requires UniqueIds(table) && 1 <= limit && whole == Ordered(q.order, Filtered(table, q))
    requires Selects(whole, q, c, p) && !Refused(q, c)
    ensures ReadsAt(PageOf(table, q, limit, c, carry), whole, q, limit, carry, p)
  {
    RestIsSuffix(table, whole, q, c, p);
    CutReads(whole, q, limit, carry, p);
  }

  /** Following the cursors gives the whole filtered list, in order, once. */
  ghost predicate RefinesWholeList(table: set<Row>, q: Query, limit: nat, carry: int -> Option<int>)
    requires UniqueIds(table) && 1 <= limit
  {
    forall n: nat :: n > |table| ==> Collected(table, q, limit, carry, n) == Ordered(q.order, Filtered(table, q))
  }

  /** At the positions where pages begin, the page read is the right one. */
  ghost predicate AllRead(fetch: Cursor -> Page, whole: seq<Row>, q: Query, limit: nat, carry: int -> Option<int>)
    requires 1 <= limit
  {
    forall c, p: nat {:trigger Stands(whole, q, carry, c, p)} ::
      Stands(whole, q, carry, c, p) && (p == 0 || EndsPage(whole, limit, p)) ==> ReadsAt(fetch(c), whole, q, limit, carry, p)
  }

  lemma {:induction false} FollowFrom(fetch: Cursor -> Page, whole: seq<Row>, q: Query, limit: nat, carry: int -> Option<int>, c: Cursor, n: nat, p: nat)
    requires 1 <= limit && AllRead(fetch, whole, q, limit, carry) && Stands(whole, q, carry, c, p) && (p == 0 || EndsPage(whole, limit, p))
    requires n > 0 && n >= |whole| - p
    ensures Follow(fetch, c, n) == whole[p..]
    decreases n
  {
    if |whole| - p > limit {
      assert Boundary(limit, p + limit);
      FollowFrom(fetch, whole, q, limit, carry, fetch(c).next, n - 1, p + limit);
      assert whole[p..] == whole[p..p + limit] + whole[p + limit..];
    }
  }

  lemma SeparatedPagesRefine(table: set<Row>, q: Query, limit: nat, carry: int -> Option<int>)
    requires UniqueIds(table) && 1 <= limit && AllSeparate(Ordered(q.order, Filtered(table, q)), q, limit, carry)
    ensures RefinesWholeList(table, q, limit, carry)
  {
    FilteredSmaller(table, q);
    var whole := Ordered(q.order, Filtered(table, q));
    var fetch := Fetch(table, q, limit, carry);
    forall c, p: nat | Stands(whole, q, carry, c, p) && (p == 0 || EndsPage(whole, limit, p)) ensures ReadsAt(fetch(c), whole, q, limit, carry, p) {
      PageAt(table, whole, q, limit, c, carry, p);
    }
    forall n: nat | n > |table| ensures Collected(table, q, limit, carry, n) == whole {
      FollowFrom(fetch, whole, q, limit, carry, Start, n, 0);
    }
  }

  lemma SortedOnce(order: Order, whole: seq<Row>, i: nat, j: nat)
    requires Sorted(order, whole) && i < |whole| && j < |whole| && whole[i] == whole[j]
    ensures i == j
  {
  }

  /** The first row a client collects from a cursor on shows where the cursor selects from. */
  lemma CollectedShows(table: set<Row>, whole: seq<Row>, q: Query, limit: nat, carry: int -> Option<int>, c: Cursor, n: nat, p: nat)
    requires UniqueIds(table) && 1 <= limit && whole == Ordered(q.order, Filtered(table, q)) && p < |whole| && n > 0
    requires Follow(Fetch(table, q, limit, carry), c, n) == whole[p..]
    ensures !Refused(q, c) && Selects(whole, q, c, p)
  {
    var fetch := Fetch(table, q, limit, carry);
    assert whole[p..][0] == whole[p];
    assert fetch(c).Page?;
    OrderedSorted(q.order, Filtered(table, q));
    var m := SelectsSome(whole, q, c, |whole|);
    PageAt(table, whole, q, limit, c, carry, m);
    assert m < |whole| && fetch(c).items[0] == whole[m];
    assert fetch(c).items[0] == Follow(fetch, c, n)[0];
    SortedOnce(q.order, whole, m, p);
  }

  lemma DropFront(a: seq<Row>, b: seq<Row>, all: seq<Row>, p: nat, n: nat)
    requires p + n <= |all| && a == all[p..p + n] && a + b == all[p..]
    ensures b == all[p + n..]
  {
    assert all[p..] == all[p..p + n] + all[p + n..];
    assert (a + b)[n..] == b && all[p..][n..] == all[p + n..];
  }

  lemma CollectedNext(table: set<Row>, whole: seq<Row>, q: Query, limit: nat, carry: int -> Option<int>, c: Cursor, n: nat, p: nat)
    returns (next: Cursor)
    requires UniqueIds(table) && 1 <= limit && whole == Ordered(q.order, Filtered(table, q)) && |whole| - p > limit && n > 0
    requires Follow(Fetch(table, q, limit, carry), c, n) == whole[p..]
    ensures next == Fetch(table, q, limit, carry)(c).next && Stands(whole, q, carry, next, p + limit)
    ensures Follow(Fetch(table, q, limit, carry), next, n - 1) == whole[p + limit..]
  {
    CollectedShows(table, whole, q, limit, carry, c, n, p);
    PageAt(table, whole, q, limit, c, carry, p);
    var page := Fetch(table, q, limit, carry)(c);
    next := page.next;
    DropFront(page.items, Follow(Fetch(table, q, limit, carry), next, n - 1), whole, p, limit);
  }

  /** The client stands at position `p` and goes on to collect the rest. */
  ghost predicate Underway(fetch: Cursor -> Page, whole: seq<Row>, q: Query, carry: int -> Option<int>, c: Cursor, n: nat, p: nat) {
    p < |whole| && n > |whole| - p && Stands(whole, q, carry, c, p) && Follow(fetch, c, n) == whole[p..]
  }

  /** From every place under way the next page leads on, and shows that the cursor separates. */
  ghost predicate LeadsOn(fetch: Cursor -> Page, whole: seq<Row>, q: Query, limit: nat, carry: int -> Option<int>) {
    forall c, n: nat, p: nat {:trigger Underway(fetch, whole, q, carry, c, n, p)} :: Underway(fetch, whole, q, carry, c, n, p) ==>
      && (p > 0 ==> Separates(whole, q, carry, p))
      && (|whole| - p > limit ==> Underway(fetch, whole, q, carry, fetch(c).next, n - 1, p + limit))
  }

  lemma PagesLeadOn(table: set<Row>, whole: seq<Row>, q: Query, limit: nat, carry: int -> Option<int>)
    requires UniqueIds(table) && 1 <= limit && whole == Ordered(q.order, Filtered(table, q))
    ensures LeadsOn(Fetch(table, q, limit, carry), whole, q, limit, carry)
  {
    var fetch := Fetch(table, q, limit, carry);
    forall c, n: nat, p: nat | Underway(fetch, whole, q, carry, c, n, p)
      ensures p > 0 ==> Separates(whole, q, carry, p)
      ensures |whole| - p > limit ==> Underway(fetch, whole, q, carry, fetch(c).next, n - 1, p + limit)
    {
      CollectedShows(table, whole, q, limit, carry, c, n, p);
      if |whole| - p > limit { var next := CollectedNext(table, whole, q, limit, carry, c, n, p); }
    }
  }

  lemma {:induction false} UnderwaySeparates(fetch: Cursor -> Page, whole: seq<Row>, q: Query, limit: nat, carry: int -> Option<int>, c: Cursor,
                                             n: nat, p: nat, m: nat)
    requires 1 <= limit && LeadsOn(fetch, whole, q, limit, carry) && Underway(fetch, whole, q, carry, c, n, p)
    requires 0 < m < |whole| && p <= m && Boundary(limit, m - p)
    ensures Separates(whole, q, carry, m)
    decreases n
  {
    if p < m { UnderwaySeparates(fetch, whole, q, limit, carry, fetch(c).next, n - 1, p + limit, m); }
  }

  /** At every row that ends a page and is not on the last, what the cursor carries separates. */
  ghost predicate AllSeparate(whole: seq<Row>, q: Query, limit: nat, carry: int -> Option<int>)
    requires 1 <= limit
  {
    forall p: nat {:trigger EndsPage(whole, limit, p)} :: EndsPage(whole, limit, p) ==> Separates(whole, q, carry, p)
  }

  lemma RefinedPagesSeparate(table: set<Row>, whole: seq<Row>, q: Query, limit: nat, carry: int -> Option<int>)
    requires UniqueIds(table) && 1 <= limit && RefinesWholeList(table, q, limit, carry) && whole == Ordered(q.order, Filtered(table, q))
    ensures AllSeparate(whole, q, limit, carry)
  {
    FilteredSmaller(table, q);
    PagesLeadOn(table, whole, q, limit, carry);
    var n := |table| + 1;
    assert Collected(table, q, limit, carry, n) == whole == whole[0..];
    forall p: nat | EndsPage(whole, limit, p) ensures Separates(whole, q, carry, p) {
      UnderwaySeparates(Fetch(table, q, limit, carry), whole, q, limit, carry, Start, n, 0, p);
    }
  }

  /** For a given table, query and page size, the pages concatenate to the whole sorted filtered list exactly when
      the cursor separates at every row that ends a page and is not on the last. */
  lemma PagesExactIff(table: set<Row>, q: Query, limit: nat, carry: int -> Option<int>)
    requires UniqueIds(table) && 1 <= limit
    ensures RefinesWholeList(table, q, limit, carry) <==> AllSeparate(Ordered(q.order, Filtered(table, q)), q, limit, carry)
  {
    if RefinesWholeList(table, q, limit, carry) { RefinedPagesSeparate(table, Ordered(q.order, Filtered(table, q)), q, limit, carry); }
    if AllSeparate(Ordered(q.order, Filtered(table, q)), q, limit, carry) { SeparatedPagesRefine(table, q, limit, carry); }
  }

  lemma {:induction false} SubsetSmaller<T>(a: set<T>, b: set<T>)
    requires a <= b
    ensures |a| <= |b|
  {
    if a != {} {
      var x :| x in a;
      SubsetSmaller(a - {x}, b - {x});
    }
  }

  lemma FilteredSmaller(table: set<Row>, q: Query)
    ensures |Filtered(table, q)| <= |table|
  {
    SubsetSmaller(Filtered(table, q), table);
  }

  // --- By title, and by the time of the last change ------------------------------------------------------

  /** A key that arrives as it was separates. */
  lemma CarriedSeparates(whole: seq<Row>, q: Query, carry: int -> Option<int>, p: nat)
    requires Sorted(q.order, whole) && 0 < p <= |whole|
    requires q.order == ById || carry(whole[p - 1].value) == Some(whole[p - 1].key)
    ensures Separates(whole, q, carry, p)
  {
    var c := At(carry(whole[p - 1].value), whole[p - 1].id, q);
    forall k | 0 <= k < |whole| ensures After(q, c, whole[k]) <==> k >= p {
      if k < p - 1 { assert Before(q.order, whole[k], whole[p - 1]); }
      if p - 1 < k { assert Before(q.order, whole[p - 1], whole[k]); }
    }
  }

  /** If the rows of the list carry their keys, paging is exact. */
  lemma CarriedPagesExact(table: set<Row>, q: Query, limit: nat, carry: int -> Option<int>)
    requires UniqueIds(table) && 1 <= limit
    requires q.order == ById || forall r :: r in Filtered(table, q) ==> carry(r.value) == Some(r.key)
    ensures RefinesWholeList(table, q, limit, carry)
  {
    var whole := Ordered(q.order, Filtered(table, q));
    OrderedSorted(q.order, Filtered(table, q));
    forall p: nat | EndsPage(whole, limit, p) ensures Separates(whole, q, carry, p) {
      assert whole[p - 1] in whole;
      CarriedSeparates(whole, q, carry, p);
    }
    PagesExactIff(table, q, limit, carry);
  }

  /** Titles by rank, the empty one being rank 0: the cursor omits it, and is refused without it. */
  function CarryTitle(title: int): Option<int> { if title == 0 then None else Some(title) }

  /** A title has at least one character, so paging by title is exact. */
  lemma TitlePagesExact(table: set<Row>, q: Query, limit: nat)
    requires UniqueIds(table) && 1 <= limit && forall r :: r in table ==> r.key == r.value && r.value > 0
    ensures RefinesWholeList(table, q, limit, CarryTitle)
  {
    CarriedPagesExact(table, q, limit, CarryTitle);
  }

  /** The document's nanoseconds, read as a timestamp, are rounded to microseconds; which way at exactly half is left
      open. */
  predicate RoundsUp(time: int, half: int -> bool) { time % 1000 > 500 || (time % 1000 == 500 && half(time)) }

  function Rounded(time: int, half: int -> bool): int { time / 1000 + if RoundsUp(time, half) then 1 else 0 }

  /** The cursor's time, bound as a parameter, is cut to microseconds. */
  function CarryTime(time: int): Option<int> { Some(time / 1000) }

  ghost predicate TimeKeyed(table: set<Row>, half: int -> bool) { forall r :: r in table ==> r.key == Rounded(r.value, half) }

  lemma AscendingSeparatesIff(whole: seq<Row>, q: Query, half: int -> bool, p: nat)
    requires Sorted(Ascending, whole) && q.order == Ascending && 0 < p <= |whole| && whole[p - 1].key == Rounded(whole[p - 1].value, half)
    ensures Separates(whole, q, CarryTime, p) <==> !RoundsUp(whole[p - 1].value, half)
  {
    if RoundsUp(whole[p - 1].value, half) {
      assert After(q, At(CarryTime(whole[p - 1].value), whole[p - 1].id, q), whole[p - 1]);
    } else {
      CarriedSeparates(whole, q, CarryTime, p);
    }
  }

  /** Oldest change first: exact if and only if no row that ends a page before the last is rounded up. */
  lemma OldestFirstExactIff(table: set<Row>, q: Query, limit: nat, half: int -> bool)
    requires UniqueIds(table) && 1 <= limit && TimeKeyed(table, half) && q.order == Ascending
    ensures var whole := Ordered(q.order, Filtered(table, q));
            RefinesWholeList(table, q, limit, CarryTime) <==>
            forall p: nat {:trigger EndsPage(whole, limit, p)} :: EndsPage(whole, limit, p) ==> !RoundsUp(whole[p - 1].value, half)
  {
    var whole := Ordered(q.order, Filtered(table, q));
    OrderedSorted(q.order, Filtered(table, q));
    PagesExactIff(table, q, limit, CarryTime);
    forall p: nat | EndsPage(whole, limit, p) ensures Separates(whole, q, CarryTime, p) <==> !RoundsUp(whole[p - 1].value, half) {
      assert whole[p - 1] in whole;
      AscendingSeparatesIff(whole, q, half, p);
    }
  }

  /** Some row after the end of the page is lost when that end is cut: one of the same key, or of the key below with an
      id not below its id. */
  ghost predicate Hidden(whole: seq<Row>, p: nat, k: nat)
    requires 0 < p <= k < |whole|
  {
    var end := whole[p - 1];
    whole[k].key == end.key || (whole[k].key == end.key - 1 && whole[k].id >= end.id)
  }

  lemma DescendingSeparatesIff(whole: seq<Row>, q: Query, half: int -> bool, p: nat)
    requires Sorted(Descending, whole) && q.order == Descending && 0 < p <= |whole| && whole[p - 1].key == Rounded(whole[p - 1].value, half)
    ensures Separates(whole, q, CarryTime, p) <==>
            (RoundsUp(whole[p - 1].value, half) ==> forall k: nat {:trigger Hidden(whole, p, k)} :: p <= k < |whole| ==> !Hidden(whole, p, k))
  {
    var end := whole[p - 1];
    if RoundsUp(end.value, half) {
      var c := At(CarryTime(end.value), end.id, q);
      forall k: nat | k < |whole| ensures After(q, c, whole[k]) <==> p <= k && !Hidden(whole, p, k) {
        if k < p - 1 { assert Before(Descending, whole[k], end); }
        if p - 1 < k { assert Before(Descending, end, whole[k]); }
      }
    } else {
      CarriedSeparates(whole, q, CarryTime, p);
    }
  }

  /** Newest change first, the default: exact if and only if no page before the last ends in a row that is rounded up
      and hides a row after it. */
  lemma NewestFirstExactIff(table: set<Row>, q: Query, limit: nat, half: int -> bool)
    requires UniqueIds(table) && 1 <= limit && TimeKeyed(table, half) && q.order == Descending
    ensures var whole := Ordered(q.order, Filtered(table, q));
            RefinesWholeList(table, q, limit, CarryTime) <==>
            forall p: nat, k: nat {:trigger EndsPage(whole, limit, p), whole[k]} ::
              EndsPage(whole, limit, p) && RoundsUp(whole[p - 1].value, half) && p <= k < |whole| ==> !Hidden(whole, p, k)
  {
    var whole := Ordered(q.order, Filtered(table, q));
    OrderedSorted(q.order, Filtered(table, q));
    PagesExactIff(table, q, limit, CarryTime);
    forall p: nat | EndsPage(whole, limit, p)
      ensures Separates(whole, q, CarryTime, p) <==>
              (RoundsUp(whole[p - 1].value, half) ==> forall k: nat {:trigger Hidden(whole, p, k)} :: p <= k < |whole| ==> !Hidden(whole, p, k))
    {
      assert whole[p - 1] in whole;
      DescendingSeparatesIff(whole, q, half, p);
    }
  }

  lemma TwoRows(order: Order, r1: Row, r2: Row, q: Query)
    requires q == Query(order, 0) && r1.passes == {0} && r2.passes == {0} && r1.id != r2.id && Before(order, r1, r2)
    ensures UniqueIds({r1, r2}) && Filtered({r1, r2}, q) == {r1, r2} && Ordered(order, {r1, r2}) == [r1, r2]
  {
    assert Filtered({r1, r2}, q) == {r1, r2};
    SortedUnique(order, {r1, r2}, [r1, r2]);
  }

  /** Two tasks changed within a second, the first at 600 ns past a microsecond; oldest first, one to a page. The
      second page is the first again, under the same cursor, and so is every page after it. */
  lemma OldestFirstRepeats(half: int -> bool)
    ensures var r1, r2 := Row(1, 1_000_600, 1001, {0}), Row(2, 2_000_000, 2000, {0});
            var q := Query(Ascending, 0);
            var c := At(CarryTime(r1.value), r1.id, q);
            && UniqueIds({r1, r2}) && TimeKeyed({r1, r2}, half)
            && PageOf({r1, r2}, q, 1, Start, CarryTime) == Page([r1], c) && PageOf({r1, r2}, q, 1, c, CarryTime) == Page([r1], c)
  {
    var r1, r2 := Row(1, 1_000_600, 1001, {0}), Row(2, 2_000_000, 2000, {0});
    var q := Query(Ascending, 0);
    TwoRows(Ascending, r1, r2, q);
    assert Rest({r1, r2}, q, Start) == {r1, r2};
    assert Rest({r1, r2}, q, At(CarryTime(r1.value), r1.id, q)) == {r1, r2};
  }

  /** Two tasks changed in the same microsecond, newest first, one to a page: the second task is never listed. */
  lemma NewestFirstSkips(half: int -> bool)
    ensures var r1, r2 := Row(2, 1_000_600, 1001, {0}), Row(1, 1_000_700, 1001, {0});
            var q := Query(Descending, 0);
            var c := At(CarryTime(r1.value), r1.id, q);
            && UniqueIds({r1, r2}) && TimeKeyed({r1, r2}, half)
            && PageOf({r1, r2}, q, 1, Start, CarryTime) == Page([r1], c) && PageOf({r1, r2}, q, 1, c, CarryTime) == Page([], Start)
  {
    var r1, r2 := Row(2, 1_000_600, 1001, {0}), Row(1, 1_000_700, 1001, {0});
    var q := Query(Descending, 0);
    TwoRows(Descending, r1, r2, q);
    assert Rest({r1, r2}, q, Start) == {r1, r2};
    assert Rest({r1, r2}, q, At(CarryTime(r1.value), r1.id, q)) == {};
  }
}
