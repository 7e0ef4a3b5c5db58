/**
 * What a query against the `ads` table means. A query is a conjunction of
 * conditions (each `.eq(...)` or `.or(...)` the client adds) and at most one
 * ordering (the `.order(...)` call). A backend answers a query when it returns
 * exactly the selected rows (as a multiset) in an order that respects the
 * ordering; rows that tie on the sort column may come in any order.
 */
module Query {
  import opened Wrappers
  import opened Schema
  import opened Seqs

  datatype Column = CreatedAt | Price

  datatype Ordering = Unordered | OrderBy(column: Column, ascending: bool)

  datatype Condition =
    | StatusIs(status: Status)
      /** `or(title.ilike.%needle%, description.ilike.%needle%)` */
    | TextMatches(needle: string)
    | CategoryIs(categoryId: string)
    | LocationIs(locationId: string)
    | OwnerIs(userId: string)

  datatype AdQuery = AdQuery(conditions: seq<Condition>, ordering: Ordering)

  /** What the backend sends back for a query: an error, or rows (possibly null). */
  datatype Response = Failed(message: string) | Returned(data: Option<seq<Ad>>)

  /** Case folding for `ilike`, on the ASCII letters. */
  function LowerChar(c: char): char {
    if 'A' <= c <= 'Z' then (c as int + 32) as char else c
  }

  function Lower(s: string): (r: string)
    ensures |r| == |s|
    ensures forall i :: 0 <= i < |s| ==> r[i] == LowerChar(s[i])
  {
    seq(|s|, i requires 0 <= i < |s| => LowerChar(s[i]))
  }

  /** `needle` occurs in `haystack` starting at position `i`. */
  predicate OccursAt(haystack: string, needle: string, i: nat) {
    i + |needle| <= |haystack| && haystack[i..i + |needle|] == needle
  }

  predicate Contains(haystack: string, needle: string) {
    exists i: nat :: i <= |haystack| && OccursAt(haystack, needle, i)
  }

  /** `haystack ilike '%needle%'` for a needle without wildcard characters. */
  predicate ContainsIgnoringCase(haystack: string, needle: string) {
    Contains(Lower(haystack), Lower(needle))
  }

  predicate Holds(c: Condition, ad: Ad) {
    match c
    case StatusIs(s) => ad.status == s
    case TextMatches(n) => ContainsIgnoringCase(ad.title, n) || ContainsIgnoringCase(ad.description, n)
    case CategoryIs(id) => ad.category_id == id
    case LocationIs(id) => ad.location_id == id
    case OwnerIs(id) => ad.user_id == id
  }

  predicate AllHold(conditions: seq<Condition>, ad: Ad) {
    forall k :: 0 <= k < |conditions| ==> Holds(conditions[k], ad)
  }

  predicate Selects(q: AdQuery, ad: Ad) {
    AllHold(q.conditions, ad)
  }

  lemma AllHoldSingleton(c: Condition)
    ensures forall ad :: AllHold([c], ad) <==> Holds(c, ad)
  {
    forall ad ensures AllHold([c], ad) <==> Holds(c, ad) {
      assert [c][0] == c;
    }
  }

  /** Adding conditions to a query is conjunction. */
  lemma AllHoldAppend(c1: seq<Condition>, c2: seq<Condition>)
    ensures forall ad :: AllHold(c1 + c2, ad) <==> AllHold(c1, ad) && AllHold(c2, ad)
  {
    forall ad ensures AllHold(c1 + c2, ad) <==> AllHold(c1, ad) && AllHold(c2, ad) {
      if AllHold(c1 + c2, ad) {
        forall k | 0 <= k < |c1| ensures Holds(c1[k], ad) {
          assert (c1 + c2)[k] == c1[k];
        }
        forall k | 0 <= k < |c2| ensures Holds(c2[k], ad) {
          assert (c1 + c2)[|c1| + k] == c2[k];
        }
      }
      if AllHold(c1, ad) && AllHold(c2, ad) {
        forall k | 0 <= k < |c1 + c2| ensures Holds((c1 + c2)[k], ad) {
          if k < |c1| {
            assert (c1 + c2)[k] == c1[k];
          } else {
            assert (c1 + c2)[k] == c2[k - |c1|];
          }
        }
      }
    }
  }

  /** The rows of `table` the query's conditions select, in table order. */
  function Selected(q: AdQuery, table: seq<Ad>): seq<Ad> {
    Filter(table, a => Selects(q, a))
  }

  /**
   * `p <= q` on a nullable price, with the database's default placement of
   * nulls: last in ascending order, first in descending order, i.e. null is
   * larger than every number.
   */
  predicate PriceAtMost(p: Option<int>, q: Option<int>) {
    match (p, q)
    case (_, None) => true
    case (None, Some(_)) => false
    case (Some(x), Some(y)) => x <= y
  }

  /** `a` may be listed before `b` under the ordering. */
  predicate Precedes(o: Ordering, a: Ad, b: Ad) {
    match o
    case Unordered => true
    case OrderBy(CreatedAt, true) => a.created_at <= b.created_at
    case OrderBy(CreatedAt, false) => a.created_at >= b.created_at
    case OrderBy(Price, true) => PriceAtMost(a.price, b.price)
    case OrderBy(Price, false) => PriceAtMost(b.price, a.price)
  }

  predicate SortedBy(o: Ordering, rows: seq<Ad>) {
    forall i, j :: 0 <= i < j < |rows| ==> Precedes(o, rows[i], rows[j])
  }

  /** `rows` is a correct answer to `q` over `table`. */
  predicate Answers(q: AdQuery, table: seq<Ad>, rows: seq<Ad>) {
    multiset(rows) == multiset(Selected(q, table)) && SortedBy(q.ordering, rows)
  }

  lemma PrecedesTotal(o: Ordering, a: Ad, b: Ad)
    ensures Precedes(o, a, b) || Precedes(o, b, a)
  {
  }

  lemma PrecedesTransitive(o: Ordering, a: Ad, b: Ad, c: Ad)
    requires Precedes(o, a, b) && Precedes(o, b, c)
    ensures Precedes(o, a, c)
  {
  }

  /** Insertion of one row into a sorted sequence. */
  function Insert(o: Ordering, x: Ad, rows: seq<Ad>): (r: seq<Ad>)
    ensures multiset(r) == multiset(rows) + multiset{x}
    ensures |r| == |rows| + 1
    decreases |rows|
  {
    if rows == [] then [x]
    else if Precedes(o, x, rows[0]) then [x] + rows
    else
      assert rows == [rows[0]] + rows[1..];
      [rows[0]] + Insert(o, x, rows[1..])
  }

  lemma {:induction false} InsertSorted(o: Ordering, x: Ad, rows: seq<Ad>)
    requires SortedBy(o, rows)
    ensures SortedBy(o, Insert(o, x, rows))
    decreases |rows|
  {
    if rows != [] && !Precedes(o, x, rows[0]) {
      var tail := Insert(o, x, rows[1..]);
      InsertSorted(o, x, rows[1..]);
      PrecedesTotal(o, x, rows[0]);
      forall k | 0 <= k < |tail| ensures Precedes(o, rows[0], tail[k]) {
        assert tail[k] in multiset(rows[1..]) + multiset{x};
        if tail[k] != x {
          assert tail[k] in rows[1..];
          var m :| 0 <= m < |rows[1..]| && rows[1..][m] == tail[k];
          assert rows[1 + m] == tail[k];
        }
      }
      var r := [rows[0]] + tail;
      forall i, j | 0 <= i < j < |r| ensures Precedes(o, r[i], r[j]) {
        if i == 0 {
          assert r[j] == tail[j - 1];
        } else {
          assert r[i] == tail[i - 1] && r[j] == tail[j - 1];
        }
      }
    } else if rows != [] {
      var r := [x] + rows;
      forall i, j | 0 <= i < j < |r| ensures Precedes(o, r[i], r[j]) {
        if i == 0 && j > 1 {
          PrecedesTransitive(o, x, rows[0], rows[j - 1]);
        }
      }
    }
  }

  function Sort(o: Ordering, rows: seq<Ad>): (r: seq<Ad>)
    ensures multiset(r) == multiset(rows)
    decreases |rows|
  {
    if rows == [] then []
    else
      assert rows == [rows[0]] + rows[1..];
      Insert(o, rows[0], Sort(o, rows[1..]))
  }

  lemma {:induction false} SortSorted(o: Ordering, rows: seq<Ad>)
    ensures SortedBy(o, Sort(o, rows))
    decreases |rows|
  {
    if rows != [] {
      SortSorted(o, rows[1..]);
      InsertSorted(o, rows[0], Sort(o, rows[1..]));
    }
  }

  /** A reference backend: select, then sort. It always answers the query. */
  function Evaluate(q: AdQuery, table: seq<Ad>): (rows: seq<Ad>)
    ensures Answers(q, table, rows)
  {
    SortSorted(q.ordering, Selected(q, table));
    Sort(q.ordering, Selected(q, table))
  }

  /** Any answer holds exactly the selected rows of the table. */
  lemma AnswerMembers(q: AdQuery, table: seq<Ad>, rows: seq<Ad>, a: Ad)
    requires Answers(q, table, rows)
    ensures a in rows <==> a in table && Selects(q, a)
  {
    FilterMembers(table, a => Selects(q, a), a);
    assert a in rows <==> a in multiset(rows);
    assert a in Selected(q, table) <==> a in multiset(Selected(q, table));
  }

  /** `a` and `b` tie on the sort column: either may come first. */
  predicate Ties(o: Ordering, a: Ad, b: Ad) {
    Precedes(o, a, b) && Precedes(o, b, a)
  }

  lemma PrecedesReflexive(o: Ordering, a: Ad)
    ensures Precedes(o, a, a)
  {
  }

  /** Removing one position keeps a sorted sequence sorted. */
  lemma SortedWithout(o: Ordering, rows: seq<Ad>, k: nat)
    requires SortedBy(o, rows) && k < |rows|
    ensures SortedBy(o, rows[..k] + rows[k + 1..])
  {
    var r := rows[..k] + rows[k + 1..];
    forall i, j | 0 <= i < j < |r| ensures Precedes(o, r[i], r[j]) {
      var i' := if i < k then i else i + 1;
      var j' := if j < k then j else j + 1;
      assert r[i] == rows[i'] && r[j] == rows[j'];
    }
  }

  lemma TiesTransitive(o: Ordering, a: Ad, b: Ad, c: Ad)
    requires Ties(o, a, b) && Ties(o, b, c)
    ensures Ties(o, a, c)
  {
    PrecedesTransitive(o, a, b, c);
    PrecedesTransitive(o, c, b, a);
  }

  /** Taking one row out at the same value leaves equal multisets. */
  lemma PermutationWithout(r1: seq<Ad>, r2: seq<Ad>, k: nat)
    requires multiset(r1) == multiset(r2) && r1 != [] && k < |r2| && r2[k] == r1[0]
    ensures multiset(r1[1..]) == multiset(r2[..k] + r2[k + 1..])
  {
    assert r2 == r2[..k] + [r2[k]] + r2[k + 1..];
    assert multiset(r2) == multiset(r2[..k]) + multiset{r2[k]} + multiset(r2[k + 1..]);
    assert r1 == [r1[0]] + r1[1..];
    assert multiset(r1) == multiset{r1[0]} + multiset(r1[1..]);
    assert multiset(r2[..k] + r2[k + 1..]) == multiset(r2[..k]) + multiset(r2[k + 1..]);
    assert multiset(r1[1..]) == multiset(r1) - multiset{r1[0]};
    assert multiset(r2[..k]) + multiset(r2[k + 1..]) == multiset(r2) - multiset{r2[k]};
  }

  /** The first row of a sorted sequence may come before every row of any rearrangement of it. */
  lemma FirstPrecedesAll(o: Ordering, r1: seq<Ad>, r2: seq<Ad>)
    requires SortedBy(o, r1) && multiset(r1) == multiset(r2) && r1 != []
    ensures forall j :: 0 <= j < |r2| ==> Precedes(o, r1[0], r2[j])
  {
    forall j | 0 <= j < |r2| ensures Precedes(o, r1[0], r2[j]) {
      assert r2[j] in multiset(r1);
      var m :| 0 <= m < |r1| && r1[m] == r2[j];
      if m == 0 {
        PrecedesReflexive(o, r1[0]);
      } else {
        assert Precedes(o, r1[0], r1[m]);
      }
    }
  }

  /**
   * Two sorted arrangements of the same rows agree position by position up to
   * ties: the row at each index of one ties with the row at that index of the other.
   */
  lemma {:induction false} SortedPermutationsTie(o: Ordering, r1: seq<Ad>, r2: seq<Ad>)
    requires SortedBy(o, r1) && SortedBy(o, r2) && multiset(r1) == multiset(r2)
    ensures |r1| == |r2|
    ensures forall i :: 0 <= i < |r1| ==> Ties(o, r1[i], r2[i])
    decreases |r1|
  {
    assert |r1| == |multiset(r1)| == |multiset(r2)| == |r2|;
    if r1 != [] {
      var x := r1[0];
      assert x in multiset(r2);
      var k :| 0 <= k < |r2| && r2[k] == x;
      var rest1 := r1[1..];
      var rest2 := r2[..k] + r2[k + 1..];
      PermutationWithout(r1, r2, k);
      SortedWithout(o, r2, k);
      assert SortedBy(o, rest1);
      SortedPermutationsTie(o, rest1, rest2);
      FirstPrecedesAll(o, r1, r2);
      forall j | 0 <= j <= k ensures Ties(o, x, r2[j]) {
        if j < k {
          assert Precedes(o, r2[j], r2[k]);
        } else {
          PrecedesReflexive(o, x);
        }
      }
      forall i | 0 <= i < |r1| ensures Ties(o, r1[i], r2[i]) {
        if i == 0 {
          assert Ties(o, x, r2[0]);
        } else if i <= k {
          assert r1[i] == rest1[i - 1] && rest2[i - 1] == r2[i - 1];
          TiesTransitive(o, x, r2[i - 1], r1[i]);
          TiesTransitive(o, r1[i], x, r2[i]);
        } else {
          assert r1[i] == rest1[i - 1] && rest2[i - 1] == r2[i];
        }
      }
    }
  }

  /**
   * Two answers to one query hold the same rows, and differ only in the order
   * of rows that tie on the sort column.
   */
  lemma AnswersArePermutations(q: AdQuery, table: seq<Ad>, rows1: seq<Ad>, rows2: seq<Ad>)
    requires Answers(q, table, rows1) && Answers(q, table, rows2)
    ensures multiset(rows1) == multiset(rows2)
    ensures |rows1| == |rows2|
    ensures forall i :: 0 <= i < |rows1| ==> Ties(q.ordering, rows1[i], rows2[i])
  {
    SortedPermutationsTie(q.ordering, rows1, rows2);
  }
}
