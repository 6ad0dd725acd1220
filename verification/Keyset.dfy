/**
 Keyset pagination over a table that changes between pages. A page query fetches
 one row more than the limit, strictly beyond the cursor, in the order of a
 unique key; the four list endpoints differ only in that key and its direction.
 */
module Keyset {
  import opened Text

  // ---- The order --------------------------------------------------------------

  ghost predicate StrictTotal<K(!new)>(less: (K, K) -> bool) {
    && (forall a :: !less(a, a))
    && (forall a, b :: a != b ==> less(a, b) || less(b, a))
    && (forall a, b, c :: less(a, b) && less(b, c) ==> less(a, c))
  }

  /** Row-value comparison `(a.0, a.1) < (b.0, b.1)`. */
  function RowValue<A(==), B>(first: (A, A) -> bool, second: (B, B) -> bool): ((A, B), (A, B)) -> bool {
    (x: (A, B), y: (A, B)) => first(x.0, y.0) || (x.0 == y.0 && second(x.1, y.1))
  }

  /** `ORDER BY … DESC` with `<` in the predicate is the same algorithm on the reversed order. */
  function Descending<K>(less: (K, K) -> bool): (K, K) -> bool {
    (a, b) => less(b, a)
  }

  /** The tie-breaker makes `(created_at, id)` and `(name, id)` orders in which no two rows are level. */
  lemma RowValueIsTotal<A(!new), B(!new)>(first: (A, A) -> bool, second: (B, B) -> bool)
    requires StrictTotal(first) && StrictTotal(second)
    ensures StrictTotal(RowValue(first, second)) && StrictTotal(Descending(RowValue(first, second)))
  {
    var both := RowValue(first, second);
    forall a: (A, B), b: (A, B) | a != b ensures both(a, b) || both(b, a) {
      assert a.0 != b.0 || a.1 != b.1;
    }
  }

  /** The first key decides; the tie-breaker only where the first keys are equal, and in the same direction. */
  lemma RowValueOrders<A(!new), B(!new)>(first: (A, A) -> bool, second: (B, B) -> bool, x: (A, B), y: (A, B))
    requires StrictTotal(first) && StrictTotal(second)
    ensures first(x.0, y.0) ==> RowValue(first, second)(x, y) && Descending(RowValue(first, second))(y, x)
    ensures x.0 == y.0 && second(x.1, y.1) ==> RowValue(first, second)(x, y) && Descending(RowValue(first, second))(y, x)
  {
  }

  predicate Ascending<K>(less: (K, K) -> bool, s: seq<K>) {
    forall i, j :: 0 <= i < j < |s| ==> less(s[i], s[j])
  }

  predicate Beyond<K>(less: (K, K) -> bool, after: Option<K>, k: K) {
    after.None? || less(after.value, k)
  }

  // ---- Sorting a set of keys --------------------------------------------------

  ghost predicate IsLeast<K(!new)>(less: (K, K) -> bool, s: set<K>, m: K) {
    m in s && forall x :: x in s && x != m ==> less(m, x)
  }

  lemma {:induction false} LeastExists<K(!new)>(less: (K, K) -> bool, s: set<K>)
    requires StrictTotal(less) && s != {}
    ensures exists m :: IsLeast(less, s, m)
    decreases |s|
  {
    var x :| x in s;
    if s == {x} {
      assert IsLeast(less, s, x);
    } else {
      var rest := s - {x};
      assert rest != {};
      LeastExists(less, rest);
      var m :| IsLeast(less, rest, m);
      if less(x, m) {
        forall y | y in s && y != x ensures less(x, y) {
          assert y == m || less(m, y);
        }
        assert IsLeast(less, s, x);
      } else {
        assert IsLeast(less, s, m);
      }
    }
  }

  /** `ORDER BY` the key. */
  ghost function Sorted<K(!new)>(less: (K, K) -> bool, s: set<K>): (r: seq<K>)
    requires StrictTotal(less)
    ensures Ascending(less, r) && (forall k :: k in r <==> k in s) && |r| == |s|
    decreases |s|
  {
    if s == {} then []
    else
      LeastExists(less, s);
      var m :| IsLeast(less, s, m);
      var rest := Sorted(less, s - {m});
      assert |s - {m}| == |s| - 1;
      assert forall i :: 0 <= i < |rest| ==> rest[i] in s - {m};
      [m] + rest
  }

  /** There is only one ascending listing of a set. */
  lemma {:induction false} AscendingIsUnique<K(!new)>(less: (K, K) -> bool, a: seq<K>, b: seq<K>)
    requires StrictTotal(less) && Ascending(less, a) && Ascending(less, b) && forall k :: k in a <==> k in b
    ensures a == b
  {
    assert b != [] ==> b[0] in b;
    if a != [] {
      assert a[0] in b && b != [];
      assert b[0] in a;
      var i :| 0 <= i < |b| && b[i] == a[0];
      var j :| 0 <= j < |a| && a[j] == b[0];
      assert i == 0 && j == 0;
      forall k ensures k in a[1..] <==> k in b[1..] {
        SameButFirst(less, a, b, k);
        SameButFirst(less, b, a, k);
      }
      AscendingIsUnique(less, a[1..], b[1..]);
      assert a == [a[0]] + a[1..] && b == [b[0]] + b[1..];
    }
  }

  lemma SameButFirst<K(!new)>(less: (K, K) -> bool, a: seq<K>, b: seq<K>, k: K)
    requires StrictTotal(less) && Ascending(less, a) && a != [] && b != [] && a[0] == b[0] && forall x :: x in a <==> x in b
    ensures k in a[1..] ==> k in b[1..]
  {
    if k in a[1..] {
      var i :| 0 <= i < |a[1..]| && a[1..][i] == k;
      assert less(a[0], a[i + 1]);
      assert k in b;
    }
  }

  // ---- One page ---------------------------------------------------------------

  datatype Page<K> = Page(items: seq<K>, next: Option<K>)

  function Take<T>(s: seq<T>, n: nat): seq<T> {
    if |s| <= n then s else s[..n]
  }

  /** `list_page`: the rows matching the filter now, strictly beyond the cursor, in order, at most `limit`. */
  ghost function ListPage<K(!new)>(less: (K, K) -> bool, matching: set<K>, after: Option<K>, limit: nat): seq<K>
    requires StrictTotal(less)
  {
    Take(Sorted(less, set k | k in matching && Beyond(less, after, k)), limit)
  }

  /** The endpoint: `rows` were fetched with `limit + 1`; the extra one only answers whether there is more. */
  function Assemble<K>(rows: seq<K>, limit: nat): Page<K> {
    var items := Take(rows, limit);
    Page(items, if |rows| > limit && items != [] then Some(items[|items| - 1]) else None)
  }

  ghost function PageAt<K(!new)>(less: (K, K) -> bool, matching: set<K>, after: Option<K>, limit: nat): Page<K>
    requires StrictTotal(less)
  {
    Assemble(ListPage(less, matching, after, limit + 1), limit)
  }

  /** Cutting an ascending list at `limit` after fetching one more. */
  lemma AssembledPage<K(!new)>(less: (K, K) -> bool, all: seq<K>, limit: nat)
    requires StrictTotal(less) && Ascending(less, all) && limit >= 1
    ensures var p := Assemble(Take(all, limit + 1), limit);
      && p.items == Take(all, limit)
      && (p.next.Some? <==> |all| > limit) && (p.next.Some? ==> p.next.value == all[limit - 1])
      && (forall k :: k in all && (p.next.None? || !less(p.next.value, k)) ==> k in p.items)
  {
    var p := Assemble(Take(all, limit + 1), limit);
    assert p.items == Take(all, limit);
    assert forall j :: limit <= j < |all| ==> less(all[limit - 1], all[j]);
    forall k | k in all && (p.next.None? || !less(p.next.value, k)) ensures k in p.items {
      var i :| 0 <= i < |all| && all[i] == k;
      assert p.items[i] == k;
    }
  }

  /** A page serves matching rows beyond the cursor in order, and leaves out nothing up to where it says to resume. */
  lemma PageServes<K(!new)>(less: (K, K) -> bool, matching: set<K>, after: Option<K>, limit: nat)
    requires StrictTotal(less) && limit >= 1
    ensures var p := PageAt(less, matching, after, limit);
      && Ascending(less, p.items) && |p.items| <= limit
      && (forall k :: k in p.items ==> k in matching && Beyond(less, after, k))
      && (p.next.Some? ==> |p.items| == limit && p.next.value == p.items[limit - 1])
      && (forall k :: k in matching && Beyond(less, after, k) && (p.next.None? || !less(p.next.value, k)) ==> k in p.items)
  {
    var all := Sorted(less, set k | k in matching && Beyond(less, after, k));
    AssembledPage(less, all, limit);
    var p := PageAt(less, matching, after, limit);
    assert p == Assemble(Take(all, limit + 1), limit);
    assert forall k :: k in p.items ==> k in all;
  }

  // ---- Walks ------------------------------------------------------------------

  /** One visit of a client: what matched the filter at that moment, and the limit it asked for. */
  datatype Visit<!K> = Visit(matching: set<K>, limit: nat)

  /** Pages got by following `next_cursor` from `after`, each against the table as it was at its own moment. */
  ghost predicate Walk<K(!new)>(less: (K, K) -> bool, visits: seq<Visit<K>>, after: Option<K>, pages: seq<Page<K>>)
    requires StrictTotal(less)
  {
    && |visits| == |pages| && pages != [] && visits[0].limit >= 1
    && pages[0] == PageAt(less, visits[0].matching, after, visits[0].limit)
    && (|pages| > 1 ==> pages[0].next.Some? && Walk(less, visits[1..], pages[0].next, pages[1..]))
  }

  function Served<K>(pages: seq<Page<K>>): seq<K> {
    if pages == [] then [] else pages[0].items + Served(pages[1..])
  }

  predicate Finished<K>(pages: seq<Page<K>>) {
    pages != [] && pages[|pages| - 1].next.None?
  }

  lemma AscendingJoin<K(!new)>(less: (K, K) -> bool, a: seq<K>, b: seq<K>)
    requires StrictTotal(less) && Ascending(less, a) && Ascending(less, b)
    requires a != [] && forall k :: k in b ==> less(a[|a| - 1], k)
    ensures Ascending(less, a + b)
  {
    var s := a + b;
    forall i, j | 0 <= i < j < |s| ensures less(s[i], s[j]) {
      if i < |a| <= j {
        assert b[j - |a|] in b;
      }
    }
  }

  /** However the table changes between pages, keys are served in strictly ascending order: never one twice. */
  lemma {:induction false} WalkAscends<K(!new)>(less: (K, K) -> bool, visits: seq<Visit<K>>, after: Option<K>, pages: seq<Page<K>>)
    requires StrictTotal(less) && Walk(less, visits, after, pages)
    ensures Ascending(less, Served(pages)) && forall k :: k in Served(pages) ==> Beyond(less, after, k)
    decreases |pages|
  {
    PageServes(less, visits[0].matching, after, visits[0].limit);
    if |pages| == 1 {
      assert Served(pages) == pages[0].items;
    } else {
      WalkAscends(less, visits[1..], pages[0].next, pages[1..]);
      var items, rest := pages[0].items, Served(pages[1..]);
      AscendingJoin(less, items, rest);
      assert pages[0].next.value in items;
      forall k | k in items + rest ensures Beyond(less, after, k) {
        assert k in items || k in rest;
      }
    }
  }

  /** A walk that reaches the end has served every row that matched throughout, and only rows that matched when served. */
  lemma {:induction false} WalkCovers<K(!new)>(less: (K, K) -> bool, visits: seq<Visit<K>>, after: Option<K>, pages: seq<Page<K>>, k: K)
    requires StrictTotal(less) && Walk(less, visits, after, pages) && Finished(pages) && Beyond(less, after, k)
    requires forall i :: 0 <= i < |visits| ==> k in visits[i].matching
    ensures k in Served(pages)
    decreases |pages|
  {
    PageServes(less, visits[0].matching, after, visits[0].limit);
    if |pages| > 1 && k !in pages[0].items {
      assert less(pages[0].next.value, k);
      WalkCovers(less, visits[1..], pages[0].next, pages[1..], k);
    }
  }

  lemma {:induction false} ServedMatched<K(!new)>(less: (K, K) -> bool, visits: seq<Visit<K>>, after: Option<K>, pages: seq<Page<K>>, k: K)
    requires StrictTotal(less) && Walk(less, visits, after, pages) && k in Served(pages)
    ensures exists i :: 0 <= i < |visits| && k in visits[i].matching && k in pages[i].items
    decreases |pages|
  {
    PageServes(less, visits[0].matching, after, visits[0].limit);
    if k in pages[0].items {
      assert k in visits[0].matching;
    } else {
      ServedMatched(less, visits[1..], pages[0].next, pages[1..], k);
      var i :| 0 <= i < |visits[1..]| && k in visits[1..][i].matching && k in pages[1..][i].items;
      assert k in visits[i + 1].matching && k in pages[i + 1].items;
    }
  }

  /** A row that matched throughout a finished walk is served exactly once. */
  lemma ServedExactlyOnce<K(!new)>(less: (K, K) -> bool, visits: seq<Visit<K>>, pages: seq<Page<K>>, k: K)
    requires StrictTotal(less) && Walk(less, visits, None, pages) && Finished(pages)
    requires forall i :: 0 <= i < |visits| ==> k in visits[i].matching
    ensures exists n :: 0 <= n < |Served(pages)| && Served(pages)[n] == k && forall m :: 0 <= m < |Served(pages)| && m != n ==> Served(pages)[m] != k
  {
    WalkCovers(less, visits, None, pages, k);
    WalkAscends(less, visits, None, pages);
    var s := Served(pages);
    var n :| 0 <= n < |s| && s[n] == k;
    forall m | 0 <= m < |s| && m != n ensures s[m] != k {
      assert m < n ==> less(s[m], s[n]);
      assert n < m ==> less(s[n], s[m]);
    }
  }

  // ---- A table that stands still ----------------------------------------------

  ghost predicate Still<K>(visits: seq<Visit<K>>, matching: set<K>, limit: nat) {
    forall i :: 0 <= i < |visits| ==> visits[i] == Visit(matching, limit)
  }

  ghost function Remaining<K(!new)>(less: (K, K) -> bool, matching: set<K>, after: Option<K>): set<K> {
    set k | k in matching && Beyond(less, after, k)
  }

  /** How many pages it takes: ⌈n / limit⌉, and one empty page for an empty table. */
  function PagesFor(n: nat, limit: nat): nat
    requires limit >= 1
  {
    if n <= limit then 1 else 1 + PagesFor(n - limit, limit)
  }

  lemma {:induction false} PagesForIsCeiling(n: nat, limit: nat)
    requires limit >= 1
    ensures PagesFor(n, limit) == if n == 0 then 1 else (n + limit - 1) / limit
  {
    if n > limit {
      PagesForIsCeiling(n - limit, limit);
      DivideAfter(n - 1, limit);
    } else if n > 0 {
      Quotient(n + limit - 1, limit, 1);
    }
  }

  lemma OneMore(a: nat, b: nat, d: nat)
    requires a < b
    ensures a * d + d <= b * d
  {
    assert (b - a - 1) * d >= 0;
    assert b * d == a * d + d + (b - a - 1) * d;
  }

  lemma Quotient(x: nat, d: nat, q: nat)
    requires d >= 1 && q * d <= x < q * d + d
    ensures x / d == q
  {
    var p := x / d;
    assert x == p * d + x % d;
    if p < q {
      OneMore(p, q, d);
      assert false;
    } else if p > q {
      OneMore(q, p, d);
      assert false;
    }
  }

  lemma DivideAfter(x: nat, d: nat)
    requires d >= 1
    ensures (x + d) / d == x / d + 1
  {
    assert x == x / d * d + x % d;
    assert (x / d + 1) * d == x / d * d + d;
    Quotient(x + d, d, x / d + 1);
  }

  /** A full page that promises more leaves exactly the rest of the sorted list. */
  lemma AfterFullPage<K(!new)>(less: (K, K) -> bool, matching: set<K>, after: Option<K>, limit: nat)
    requires StrictTotal(less) && limit >= 1
    ensures var p, n := PageAt(less, matching, after, limit), |Remaining(less, matching, after)|;
      && (p.next.None? <==> n <= limit)
      && (p.next.Some? ==> |Remaining(less, matching, p.next)| == n - limit)
  {
    var all := Sorted(less, Remaining(less, matching, after));
    AssembledPage(less, all, limit);
    var p := Assemble(Take(all, limit + 1), limit);
    assert p == PageAt(less, matching, after, limit);
    if p.next.Some? {
      forall k ensures k in all[limit..] <==> k in Remaining(less, matching, p.next) {
        RestIsRemaining(less, all, after, matching, limit, k);
      }
      CountDistinct(less, all[limit..], Remaining(less, matching, p.next));
    }
  }

  lemma RestIsRemaining<K(!new)>(less: (K, K) -> bool, all: seq<K>, after: Option<K>, matching: set<K>, limit: nat, k: K)
    requires StrictTotal(less) && 1 <= limit < |all| && all == Sorted(less, Remaining(less, matching, after))
    ensures k in all[limit..] <==> k in Remaining(less, matching, Some(all[limit - 1]))
  {
    var rest := all[limit..];
    if k in rest {
      var i :| 0 <= i < |rest| && rest[i] == k;
      assert less(all[limit - 1], all[limit + i]) && all[limit + i] in all;
    }
    if k in Remaining(less, matching, Some(all[limit - 1])) {
      BeyondNext(less, all, after, matching, limit, k);
    }
  }

  lemma BeyondNext<K(!new)>(less: (K, K) -> bool, all: seq<K>, after: Option<K>, matching: set<K>, limit: nat, k: K)
    requires StrictTotal(less) && 1 <= limit < |all| && all == Sorted(less, Remaining(less, matching, after))
    requires k in matching && less(all[limit - 1], k)
    ensures k in all[limit..]
  {
    assert all[limit - 1] in all;
    assert k in Remaining(less, matching, after);
    assert k in all;
    assert forall j :: 0 <= j < limit ==> j == limit - 1 || less(all[j], all[limit - 1]);
    var i :| 0 <= i < |all| && all[i] == k;
    assert all[limit..][i - limit] == k;
  }

  lemma {:induction false} CountDistinct<K(!new)>(less: (K, K) -> bool, s: seq<K>, elements: set<K>)
    requires StrictTotal(less) && Ascending(less, s) && forall k :: k in s <==> k in elements
    ensures |s| == |elements|
  {
    AscendingIsUnique(less, s, Sorted(less, elements));
  }

  /** The first page of a finished walk over a fixed table, and the walk that is left. */
  lemma {:induction false} StillWalkOn<K(!new)>(less: (K, K) -> bool, visits: seq<Visit<K>>, after: Option<K>, pages: seq<Page<K>>, matching: set<K>, limit: nat)
    requires StrictTotal(less) && Walk(less, visits, after, pages) && Finished(pages) && Still(visits, matching, limit)
    ensures |pages| == |visits| && pages != [] && pages[0] == PageAt(less, matching, after, limit) && (pages[0].next.None? <==> |pages| == 1)
    ensures |pages| > 1 ==>
      Walk(less, visits[1..], pages[0].next, pages[1..]) && Finished(pages[1..]) && Still(visits[1..], matching, limit)
  {
  }

  /** How many rows are left after a page, and so how many pages. */
  lemma PagesAfter<K(!new)>(less: (K, K) -> bool, matching: set<K>, after: Option<K>, limit: nat)
    requires StrictTotal(less) && limit >= 1
    ensures var p, n := PageAt(less, matching, after, limit), |Remaining(less, matching, after)|;
      PagesFor(n, limit) == if p.next.None? then 1 else 1 + PagesFor(|Remaining(less, matching, p.next)|, limit)
  {
    AfterFullPage(less, matching, after, limit);
  }

  lemma {:induction false} StillWalkCount<K(!new)>(less: (K, K) -> bool, visits: seq<Visit<K>>, after: Option<K>, pages: seq<Page<K>>,
                                                   matching: set<K>, limit: nat)
    requires StrictTotal(less) && limit >= 1 && Walk(less, visits, after, pages) && Finished(pages) && Still(visits, matching, limit)
    ensures |pages| == PagesFor(|Remaining(less, matching, after)|, limit)
    decreases |pages|
  {
    StillWalkOn(less, visits, after, pages, matching, limit);
    PagesAfter(less, matching, after, limit);
    if |pages| > 1 {
      StillWalkCount(less, visits[1..], pages[0].next, pages[1..], matching, limit);
    }
  }

  lemma StillWalkServes<K(!new)>(less: (K, K) -> bool, visits: seq<Visit<K>>, pages: seq<Page<K>>, matching: set<K>, limit: nat, k: K)
    requires StrictTotal(less) && limit >= 1 && Walk(less, visits, None, pages) && Finished(pages) && Still(visits, matching, limit)
    ensures k in Served(pages) <==> k in matching
  {
    if k in matching {
      WalkCovers(less, visits, None, pages, k);
    }
    if k in Served(pages) {
      ServedMatched(less, visits, None, pages, k);
    }
  }

  /** On a fixed table the pages concatenate to the sorted matching rows. */
  lemma StillWalk<K(!new)>(less: (K, K) -> bool, visits: seq<Visit<K>>, pages: seq<Page<K>>, matching: set<K>, limit: nat)
    requires StrictTotal(less) && limit >= 1 && Walk(less, visits, None, pages) && Finished(pages) && Still(visits, matching, limit)
    ensures Served(pages) == Sorted(less, matching)
  {
    WalkAscends(less, visits, None, pages);
    forall k ensures k in Served(pages) <==> k in Sorted(less, matching) {
      StillWalkServes(less, visits, pages, matching, limit, k);
    }
    AscendingIsUnique(less, Served(pages), Sorted(less, matching));
  }

  /** It takes max(1, ⌈n / limit⌉) pages. */
  lemma StillWalkPages<K(!new)>(less: (K, K) -> bool, visits: seq<Visit<K>>, pages: seq<Page<K>>, matching: set<K>, limit: nat)
    requires StrictTotal(less) && limit >= 1 && Walk(less, visits, None, pages) && Finished(pages) && Still(visits, matching, limit)
    ensures |pages| == if |matching| == 0 then 1 else (|matching| + limit - 1) / limit
  {
    StillWalkCount(less, visits, None, pages, matching, limit);
    assert Remaining(less, matching, None) == matching;
    PagesForIsCeiling(|matching|, limit);
  }

  /** Following the cursors of a fixed table does come to an end. */
  lemma {:induction false} StillWalkExists<K(!new)>(less: (K, K) -> bool, after: Option<K>, matching: set<K>, limit: nat)
    returns (visits: seq<Visit<K>>, pages: seq<Page<K>>)
    requires StrictTotal(less) && limit >= 1
    ensures Walk(less, visits, after, pages) && Finished(pages) && Still(visits, matching, limit)
    decreases |Remaining(less, matching, after)|
  {
    var p := PageAt(less, matching, after, limit);
    AfterFullPage(less, matching, after, limit);
    if p.next.None? {
      visits, pages := [Visit(matching, limit)], [p];
    } else {
      var laterVisits, laterPages := StillWalkExists(less, p.next, matching, limit);
      visits, pages := [Visit(matching, limit)] + laterVisits, [p] + laterPages;
      assert visits[1..] == laterVisits && pages[1..] == laterPages;
    }
  }
}
