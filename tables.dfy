/**
 * The two tables the app writes, `ads` and `favorites`, held in memory as
 * sequences of rows. Their methods are the backend's primitive operations the
 * pages call: a `.delete().eq('id', ...)`, an `.insert(...)` and a
 * `.select(...).eq(...).eq(...).single()` lookup.
 */
module Tables {
  import opened Wrappers
  import opened Schema
  import opened Seqs

  /** Every row has its own key, as a primary key column guarantees. */
  predicate UniqueKeys<T>(rows: seq<T>, key: T -> string) {
    forall i, j :: 0 <= i < j < |rows| ==> key(rows[i]) != key(rows[j])
  }

  function Keys<T>(rows: seq<T>, key: T -> string): set<string> {
    set i | 0 <= i < |rows| :: key(rows[i])
  }

  /** The table after `.delete().eq('id', id)`. */
  function WithoutKey<T>(rows: seq<T>, key: T -> string, id: string): seq<T> {
    Filter(rows, r => key(r) != id)
  }

  /**
   * Deleting by id removes the rows with that id and keeps every other row in its
   * relative order; with unique ids and the id present, that is exactly one row.
   */
  lemma WithoutKeyEffect<T>(rows: seq<T>, key: T -> string, id: string)
    ensures forall x :: x in WithoutKey(rows, key, id) <==> x in rows && key(x) != id
    ensures UniqueKeys(rows, key) && id in Keys(rows, key) ==>
              exists k :: 0 <= k < |rows| && key(rows[k]) == id &&
                WithoutKey(rows, key, id) == rows[..k] + rows[k + 1..]
    ensures id !in Keys(rows, key) ==> WithoutKey(rows, key, id) == rows
  {
    forall x {
      FilterMembers(rows, r => key(r) != id, x);
    }
    if UniqueKeys(rows, key) && id in Keys(rows, key) {
      var k :| 0 <= k < |rows| && key(rows[k]) == id;
      FilterRemovesOne(rows, r => key(r) != id, k);
    }
    if id !in Keys(rows, key) {
      assert forall i :: 0 <= i < |rows| ==> key(rows[i]) in Keys(rows, key);
      FilterKeepsAll(rows, r => key(r) != id);
    }
  }

  /** Dropping one position keeps the keys unique. */
  lemma UniqueWithout<T>(rows: seq<T>, key: T -> string, k: nat)
    requires UniqueKeys(rows, key) && k < |rows|
    ensures UniqueKeys(rows[..k] + rows[k + 1..], key)
  {
    var r := rows[..k] + rows[k + 1..];
    forall i, j | 0 <= i < j < |r| ensures key(r[i]) != key(r[j]) {
      var i' := if i < k then i else i + 1;
      var j' := if j < k then j else j + 1;
      assert r[i] == rows[i'] && r[j] == rows[j'];
    }
  }

  /** Deleting by id keeps the ids unique. */
  lemma WithoutKeyUnique<T>(rows: seq<T>, key: T -> string, id: string)
    requires UniqueKeys(rows, key)
    ensures UniqueKeys(WithoutKey(rows, key, id), key)
  {
    if id in Keys(rows, key) {
      var k :| 0 <= k < |rows| && key(rows[k]) == id;
      FilterRemovesOne(rows, r => key(r) != id, k);
      UniqueWithout(rows, key, k);
    } else {
      assert forall i :: 0 <= i < |rows| ==> key(rows[i]) in Keys(rows, key);
      FilterKeepsAll(rows, r => key(r) != id);
    }
  }

  /** Appending a row with a new id keeps the ids unique. */
  lemma AppendUnique<T>(rows: seq<T>, key: T -> string, x: T)
    requires UniqueKeys(rows, key) && key(x) !in Keys(rows, key)
    ensures UniqueKeys(rows + [x], key)
  {
    var r := rows + [x];
    forall i, j | 0 <= i < j < |r| ensures key(r[i]) != key(r[j]) {
      if j == |rows| {
        assert key(r[i]) in Keys(rows, key);
      }
    }
  }

  /** `.single()`: a row only when exactly one row matches. */
  function Single<T>(matches: seq<T>): Option<T> {
    if |matches| == 1 then Some(matches[0]) else None
  }

  function MatchingFavorites(rows: seq<Favorite>, userId: string, adId: string): seq<Favorite> {
    Filter(rows, (f: Favorite) => f.user_id == userId && f.ad_id == adId)
  }

  lemma MatchingMembers(rows: seq<Favorite>, u: string, a: string)
    ensures forall f :: f in MatchingFavorites(rows, u, a) <==> f in rows && f.user_id == u && f.ad_id == a
  {
    forall f {
      FilterMembers(rows, (f: Favorite) => f.user_id == u && f.ad_id == a, f);
    }
  }

  /** What an appended row contributes to the lookup of (u, a). */
  lemma MatchingAppend(rows: seq<Favorite>, f: Favorite, u: string, a: string)
    ensures MatchingFavorites(rows + [f], u, a)
         == MatchingFavorites(rows, u, a) + (if f.user_id == u && f.ad_id == a then [f] else [])
  {
    FilterAppend(rows, [f], (f: Favorite) => f.user_id == u && f.ad_id == a);
    assert [f][1..] == [];
  }

  /** The lookup of a pair distributes over concatenation. */
  lemma MatchingConcat(s: seq<Favorite>, t: seq<Favorite>, u: string, a: string)
    ensures MatchingFavorites(s + t, u, a) == MatchingFavorites(s, u, a) + MatchingFavorites(t, u, a)
  {
    FilterAppend(s, t, (f: Favorite) => f.user_id == u && f.ad_id == a);
  }

  /** Deleting rows never makes the lookup of a pair find more rows. */
  lemma {:induction false} MatchingAfterDelete(rows: seq<Favorite>, id: string, u: string, a: string)
    ensures |MatchingFavorites(WithoutKey(rows, FavoriteId, id), u, a)| <= |MatchingFavorites(rows, u, a)|
    decreases |rows|
  {
    if rows != [] {
      MatchingAfterDelete(rows[1..], id, u, a);
      var head := if rows[0].id != id then [rows[0]] else [];
      assert FavoriteId(rows[0]) == rows[0].id;
      assert WithoutKey(rows, FavoriteId, id) == head + WithoutKey(rows[1..], FavoriteId, id);
      MatchingConcat(head, WithoutKey(rows[1..], FavoriteId, id), u, a);
      assert rows == [rows[0]] + rows[1..];
      MatchingConcat([rows[0]], rows[1..], u, a);
      MatchingConcat([], [rows[0]], u, a);
      if head != [] {
        assert head == [rows[0]];
      }
    }
  }

  /** Deleting by id distributes over an appended row. */
  lemma WithoutKeyAppend<T>(rows: seq<T>, x: T, key: T -> string, id: string)
    ensures WithoutKey(rows + [x], key, id) == WithoutKey(rows, key, id) + (if key(x) != id then [x] else [])
  {
    FilterAppend(rows, [x], r => key(r) != id);
    assert [x][1..] == [];
  }

  class FavoritesTable {
    var rows: seq<Favorite>

    ghost predicate Valid()
      reads this
    {
      UniqueKeys(rows, FavoriteId)
    }

    constructor (initial: seq<Favorite>)
      requires UniqueKeys(initial, FavoriteId)
      ensures Valid() && rows == initial
    {
      rows := initial;
    }

    /** `.select('id').eq('user_id', userId).eq('ad_id', adId).single()` */
    method SelectSingle(userId: string, adId: string) returns (r: Option<Favorite>)
      ensures r == Single(MatchingFavorites(rows, userId, adId))
      ensures r.Some? <==> |MatchingFavorites(rows, userId, adId)| == 1
      ensures r.Some? ==> r.value in rows && r.value.user_id == userId && r.value.ad_id == adId
    {
      var m := MatchingFavorites(rows, userId, adId);
      r := Single(m);
      if r.Some? {
        FilterMembers(rows, (f: Favorite) => f.user_id == userId && f.ad_id == adId, m[0]);
      }
    }

    /** `.delete().eq('id', id)` */
    method DeleteWhereId(id: string)
      requires Valid()
      modifies this
      ensures Valid()
      ensures rows == WithoutKey(old(rows), FavoriteId, id)
    {
      WithoutKeyUnique(rows, FavoriteId, id);
      rows := WithoutKey(rows, FavoriteId, id);
    }

    /** `.insert(f)`; the database gives the row an id no other row has. */
    method Insert(f: Favorite)
      requires Valid() && f.id !in Keys(rows, FavoriteId)
      modifies this
      ensures Valid()
      ensures rows == old(rows) + [f]
    {
      AppendUnique(rows, FavoriteId, f);
      rows := rows + [f];
    }
  }

  class AdsTable {
    var rows: seq<Ad>

    ghost predicate Valid()
      reads this
    {
      UniqueKeys(rows, AdId)
    }

    constructor (initial: seq<Ad>)
      requires UniqueKeys(initial, AdId)
      ensures Valid() && rows == initial
    {
      rows := initial;
    }

    /** `.delete().eq('id', id)` */
    method DeleteWhereId(id: string)
      requires Valid()
      modifies this
      ensures Valid()
      ensures rows == WithoutKey(old(rows), AdId, id)
    {
      WithoutKeyUnique(rows, AdId, id);
      rows := WithoutKey(rows, AdId, id);
    }
  }
}
