/**
 * The browse page: the listing query it builds from the filter and sort state,
 * what it displays from the backend's answer, the favorite toggle, the
 * query-string parameters it writes, and its price label.
 */
module Listings {
  import opened Wrappers
  import opened Schema
  import opened Seqs
  import opened Query
  import opened Tables

  /**
   * The ads the listing page is meant to show: approved ones whose title or
   * description contains the search text (ignoring case, when the text is not
   * empty) and whose category and location equal the selected ones (when a
   * selection is made).
   */
  predicate ListingMatches(ad: Ad, searchQuery: string, category: string, location: string) {
    && ad.status == Approved
    && (searchQuery == "" || ContainsIgnoringCase(ad.title, searchQuery)
                          || ContainsIgnoringCase(ad.description, searchQuery))
    && (category == "" || ad.category_id == category)
    && (location == "" || ad.location_id == location)
  }

  /** The one ordering a sort key selects; an unknown key selects none. */
  function SortOrdering(sortBy: string): Ordering {
    if sortBy == "newest" then OrderBy(CreatedAt, false)
    else if sortBy == "oldest" then OrderBy(CreatedAt, true)
    else if sortBy == "price_low" then OrderBy(Price, true)
    else if sortBy == "price_high" then OrderBy(Price, false)
    else Unordered
  }

  function OptionalCondition(value: string, c: Condition): seq<Condition> {
    if value == "" then [] else [c]
  }

  lemma OptionalHolds(value: string, c: Condition)
    ensures forall ad :: AllHold(OptionalCondition(value, c), ad) <==> value == "" || Holds(c, ad)
  {
    AllHoldSingleton(c);
  }

  /** The listing query: the approved-status condition first, then the user's filters. */
  function ListingQuery(searchQuery: string, category: string, location: string, sortBy: string): (q: AdQuery)
    ensures |q.conditions| >= 1 && q.conditions[0] == StatusIs(Approved)
    ensures forall ad :: Selects(q, ad) <==> ListingMatches(ad, searchQuery, category, location)
    ensures searchQuery == "" ==> forall k :: 0 <= k < |q.conditions| ==> !q.conditions[k].TextMatches?
    ensures q.ordering == SortOrdering(sortBy)
  {
    var c1 := [StatusIs(Approved)];
    var c2 := OptionalCondition(searchQuery, TextMatches(searchQuery));
    var c3 := OptionalCondition(category, CategoryIs(category));
    var c4 := OptionalCondition(location, LocationIs(location));
    AllHoldAppend(c1, c2);
    AllHoldAppend(c1 + c2, c3);
    AllHoldAppend(c1 + c2 + c3, c4);
    AllHoldSingleton(StatusIs(Approved));
    OptionalHolds(searchQuery, TextMatches(searchQuery));
    OptionalHolds(category, CategoryIs(category));
    OptionalHolds(location, LocationIs(location));
    AdQuery(c1 + c2 + c3 + c4, SortOrdering(sortBy))
  }

  /** `fetchAds`'s query construction, one reassignment per filter and per sort case. */
  method BuildListingQuery(searchQuery: string, category: string, location: string, sortBy: string)
    returns (q: AdQuery)
    ensures q == ListingQuery(searchQuery, category, location, sortBy)
  {
    var query := AdQuery([StatusIs(Approved)], Unordered);
    if searchQuery != "" {
      query := query.(conditions := query.conditions + [TextMatches(searchQuery)]);
    }
    if category != "" {
      query := query.(conditions := query.conditions + [CategoryIs(category)]);
    }
    if location != "" {
      query := query.(conditions := query.conditions + [LocationIs(location)]);
    }
    if sortBy == "newest" {
      query := query.(ordering := OrderBy(CreatedAt, false));
    } else if sortBy == "oldest" {
      query := query.(ordering := OrderBy(CreatedAt, true));
    } else if sortBy == "price_low" {
      query := query.(ordering := OrderBy(Price, true));
    } else if sortBy == "price_high" {
      query := query.(ordering := OrderBy(Price, false));
    }
    q := query;
  }

  /**
   * Every correct answer to the listing query holds exactly the table's
   * matching ads (so only approved ones), ordered as the sort key says.
   */
  lemma ListingAnswer(searchQuery: string, category: string, location: string, sortBy: string,
                      table: seq<Ad>, rows: seq<Ad>)
    requires Answers(ListingQuery(searchQuery, category, location, sortBy), table, rows)
    ensures forall a :: a in rows <==> a in table && ListingMatches(a, searchQuery, category, location)
    ensures forall a :: a in rows ==> a.status == Approved
    ensures searchQuery != "" ==> forall a :: a in rows ==>
              ContainsIgnoringCase(a.title, searchQuery) || ContainsIgnoringCase(a.description, searchQuery)
    ensures category != "" ==> forall a :: a in rows ==> a.category_id == category
    ensures location != "" ==> forall a :: a in rows ==> a.location_id == location
    ensures sortBy == "newest" ==> forall i, j :: 0 <= i < j < |rows| ==> rows[i].created_at >= rows[j].created_at
    ensures sortBy == "oldest" ==> forall i, j :: 0 <= i < j < |rows| ==> rows[i].created_at <= rows[j].created_at
    ensures sortBy == "price_low" ==> forall i, j :: 0 <= i < j < |rows| ==> PriceAtMost(rows[i].price, rows[j].price)
    ensures sortBy == "price_high" ==> forall i, j :: 0 <= i < j < |rows| ==> PriceAtMost(rows[j].price, rows[i].price)
  {
    var q := ListingQuery(searchQuery, category, location, sortBy);
    forall a ensures a in rows <==> a in table && ListingMatches(a, searchQuery, category, location) {
      AnswerMembers(q, table, rows, a);
    }
  }

  /** Sorting by price from low: the priced ads come first, their prices non-decreasing. */
  lemma PriceLowOrder(searchQuery: string, category: string, location: string,
                      table: seq<Ad>, rows: seq<Ad>)
    requires Answers(ListingQuery(searchQuery, category, location, "price_low"), table, rows)
    ensures forall i, j :: 0 <= i < j < |rows| && rows[i].price.Some? && rows[j].price.Some? ==>
              rows[i].price.value <= rows[j].price.value
    ensures forall i, j :: 0 <= i < j < |rows| && rows[i].price.None? ==> rows[j].price.None?
  {
    ListingAnswer(searchQuery, category, location, "price_low", table, rows);
  }

  /** Sorting by price from high: the priced ads come last, their prices non-increasing. */
  lemma PriceHighOrder(searchQuery: string, category: string, location: string,
                       table: seq<Ad>, rows: seq<Ad>)
    requires Answers(ListingQuery(searchQuery, category, location, "price_high"), table, rows)
    ensures forall i, j :: 0 <= i < j < |rows| && rows[i].price.Some? && rows[j].price.Some? ==>
              rows[i].price.value >= rows[j].price.value
    ensures forall i, j :: 0 <= i < j < |rows| && rows[j].price.None? ==> rows[i].price.None?
  {
    ListingAnswer(searchQuery, category, location, "price_high", table, rows);
  }

  /** Any key but the four known ones leaves the order to the backend. */
  lemma UnknownSortKeyUnordered(searchQuery: string, category: string, location: string, sortBy: string)
    requires sortBy !in {"newest", "oldest", "price_low", "price_high"}
    ensures ListingQuery(searchQuery, category, location, sortBy).ordering == Unordered
    ensures forall table, rows ::
              multiset(rows) == multiset(Selected(ListingQuery(searchQuery, category, location, sortBy), table)) ==>
                Answers(ListingQuery(searchQuery, category, location, sortBy), table, rows)
  {
  }

  class ListingsPage {
    var ads: seq<Ad>

    constructor ()
      ensures ads == []
    {
      ads := [];
    }

    /**
     * `fetchAds`: build the query, run it on the backend (a function from
     * query to response), and on success display the returned rows
     * (nothing when none come back); on an error keep what was shown.
     */
    method FetchAds(searchQuery: string, category: string, location: string, sortBy: string,
                    backend: AdQuery -> Response)
      modifies this
      ensures backend(ListingQuery(searchQuery, category, location, sortBy)).Failed? ==> ads == old(ads)
      ensures backend(ListingQuery(searchQuery, category, location, sortBy)).Returned? ==>
                ads == backend(ListingQuery(searchQuery, category, location, sortBy)).data.GetOr([])
    {
      var query := BuildListingQuery(searchQuery, category, location, sortBy);
      var response := backend(query);
      if response.Returned? {
        ads := response.data.GetOr([]);
      }
    }
  }

  // ---------------------------------------------------------------- favorites

  datatype ToggleOutcome = SignInRequired | Removed | Added | WriteFailed(message: string)

  /** The favorites table after a successful toggle of (userId, adId). */
  function ToggleRows(rows: seq<Favorite>, userId: string, adId: string, newId: string, now: int): seq<Favorite> {
    match Single(MatchingFavorites(rows, userId, adId))
    case Some(existing) => WithoutKey(rows, FavoriteId, existing.id)
    case None => rows + [Favorite(newId, userId, adId, now)]
  }

  /**
   * `toggleFavorite`: with nobody signed in, nothing is touched. Otherwise look
   * the pair up with `.single()`; one match is deleted by its id, anything
   * else (no match or several) inserts a new row. A failed write changes nothing.
   * The new row's id and timestamp are the database's defaults, passed in.
   */
  method ToggleFavorite(favorites: FavoritesTable, user: Option<User>, adId: string,
                        newId: string, now: int, writeError: Option<string>)
    returns (o: ToggleOutcome)
    requires favorites.Valid() && newId !in Keys(favorites.rows, FavoriteId)
    modifies favorites
    ensures favorites.Valid()
    ensures user.None? ==> o == SignInRequired && favorites.rows == old(favorites.rows)
    ensures user.Some? && writeError.Some? ==>
              o == WriteFailed(writeError.value) && favorites.rows == old(favorites.rows)
    ensures user.Some? && writeError.None? ==>
              && favorites.rows == ToggleRows(old(favorites.rows), user.value.id, adId, newId, now)
              && (o == Removed <==> |MatchingFavorites(old(favorites.rows), user.value.id, adId)| == 1)
              && (o == Added <==> |MatchingFavorites(old(favorites.rows), user.value.id, adId)| != 1)
  {
    if user.None? {
      return SignInRequired;
    }
    var existing := favorites.SelectSingle(user.value.id, adId);
    if existing.Some? {
      if writeError.None? {
        favorites.DeleteWhereId(existing.value.id);
        o := Removed;
      } else {
        o := WriteFailed(writeError.value);
      }
    } else {
      if writeError.None? {
        favorites.Insert(Favorite(newId, user.value.id, adId, now));
        o := Added;
      } else {
        o := WriteFailed(writeError.value);
      }
    }
  }

  /**
   * Toggling off removes the one matching row and keeps every other row in
   * order; toggling on appends exactly the new row.
   */
  lemma ToggleEffect(rows: seq<Favorite>, u: string, a: string, newId: string, now: int)
    requires UniqueKeys(rows, FavoriteId)
    ensures |MatchingFavorites(rows, u, a)| == 1 ==>
              exists k :: 0 <= k < |rows| && rows[k].user_id == u && rows[k].ad_id == a &&
                ToggleRows(rows, u, a, newId, now) == rows[..k] + rows[k + 1..]
    ensures |MatchingFavorites(rows, u, a)| != 1 ==>
              ToggleRows(rows, u, a, newId, now) == rows + [Favorite(newId, u, a, now)]
  {
    var m := MatchingFavorites(rows, u, a);
    if |m| == 1 {
      MatchingMembers(rows, u, a);
      var k :| 0 <= k < |rows| && rows[k] == m[0];
      assert m[0].id in Keys(rows, FavoriteId);
      WithoutKeyEffect(rows, FavoriteId, m[0].id);
      var k' :| 0 <= k' < |rows| && rows[k'].id == m[0].id &&
                WithoutKey(rows, FavoriteId, m[0].id) == rows[..k'] + rows[k' + 1..];
      assert k' == k;
    }
  }

  /** From a state with no favorite for the pair, toggling twice restores the table. */
  lemma {:induction false} ToggleTwice(rows: seq<Favorite>, u: string, a: string,
                                       id1: string, now1: int, id2: string, now2: int)
    requires UniqueKeys(rows, FavoriteId) && id1 !in Keys(rows, FavoriteId)
    requires |MatchingFavorites(rows, u, a)| == 0
    ensures ToggleRows(ToggleRows(rows, u, a, id1, now1), u, a, id2, now2) == rows
  {
    var added := Favorite(id1, u, a, now1);
    var once := rows + [added];
    assert ToggleRows(rows, u, a, id1, now1) == once;
    MatchingAppend(rows, added, u, a);
    assert MatchingFavorites(once, u, a) == [added];
    assert ToggleRows(once, u, a, id2, now2) == WithoutKey(once, FavoriteId, id1);
    WithoutKeyAppend(rows, added, FavoriteId, id1);
    WithoutKeyEffect(rows, FavoriteId, id1);
  }

  /** The lookup sees at most one favorite for every pair. */
  ghost predicate AtMostOnePerPair(rows: seq<Favorite>) {
    forall u, a :: |MatchingFavorites(rows, u, a)| <= 1
  }

  /** Sequential toggles keep "at most one favorite per (user, ad)". */
  lemma ToggleKeepsAtMostOne(rows: seq<Favorite>, u: string, a: string, newId: string, now: int)
    requires UniqueKeys(rows, FavoriteId) && AtMostOnePerPair(rows)
    ensures AtMostOnePerPair(ToggleRows(rows, u, a, newId, now))
  {
    var m := MatchingFavorites(rows, u, a);
    var r := ToggleRows(rows, u, a, newId, now);
    if |m| == 1 {
      forall u', a' ensures |MatchingFavorites(r, u', a')| <= 1 {
        MatchingAfterDelete(rows, m[0].id, u', a');
      }
    } else {
      forall u', a' ensures |MatchingFavorites(r, u', a')| <= 1 {
        MatchingAppend(rows, Favorite(newId, u, a, now), u', a');
      }
    }
  }

  /**
   * Because the lookup uses `.single()`, a pair that already has two or more
   * favorites is never toggled off: each toggle adds one more.
   */
  lemma ToggleWithDuplicatesAdds(rows: seq<Favorite>, u: string, a: string, newId: string, now: int)
    requires |MatchingFavorites(rows, u, a)| >= 2
    ensures |MatchingFavorites(ToggleRows(rows, u, a, newId, now), u, a)| == |MatchingFavorites(rows, u, a)| + 1
  {
    MatchingAppend(rows, Favorite(newId, u, a, now), u, a);
  }

  // ------------------------------------------------------ search parameters

  /** `URLSearchParams.get`: the first value stored under `key`. */
  function ParamGet(params: seq<(string, string)>, key: string): Option<string>
    decreases |params|
  {
    if params == [] then None
    else if params[0].0 == key then Some(params[0].1)
    else ParamGet(params[1..], key)
  }

  /** Setting a key not yet present adds it after the others. */
  lemma {:induction false} ParamGetAppend(params: seq<(string, string)>, k: string, v: string, key: string)
    requires ParamGet(params, k).None?
    ensures ParamGet(params + [(k, v)], key) == if key == k then Some(v) else ParamGet(params, key)
    decreases |params|
  {
    if params == [] {
    } else {
      assert (params + [(k, v)])[1..] == params[1..] + [(k, v)];
      if params[0].0 != key && params[0].0 != k {
        ParamGetAppend(params[1..], k, v, key);
      } else if params[0].0 != key {
        assert false;
      }
    }
  }

  /** How the page reads a filter back from the query string: `get(key) || ''`. */
  function FilterParam(params: seq<(string, string)>, key: string): string {
    match ParamGet(params, key)
    case Some(v) => v
    case None => ""
  }

  /**
   * `updateSearch`'s parameters: `q`, `category` and `location`, each only when
   * its value is not empty. Reading them back gives the same filter state.
   */
  method UpdateSearch(searchQuery: string, category: string, location: string)
    returns (params: seq<(string, string)>)
    ensures forall i :: 0 <= i < |params| ==> params[i].1 != "" && params[i].0 in {"q", "category", "location"}
    ensures ParamGet(params, "q") == (if searchQuery == "" then None else Some(searchQuery))
    ensures ParamGet(params, "category") == (if category == "" then None else Some(category))
    ensures ParamGet(params, "location") == (if location == "" then None else Some(location))
    ensures FilterParam(params, "q") == searchQuery
    ensures FilterParam(params, "category") == category
    ensures FilterParam(params, "location") == location
  {
    params := [];
    if searchQuery != "" {
      ParamGetAppend(params, "q", searchQuery, "category");
      ParamGetAppend(params, "q", searchQuery, "location");
      ParamGetAppend(params, "q", searchQuery, "q");
      params := params + [("q", searchQuery)];
    }
    if category != "" {
      ParamGetAppend(params, "category", category, "q");
      ParamGetAppend(params, "category", category, "location");
      ParamGetAppend(params, "category", category, "category");
      params := params + [("category", category)];
    }
    if location != "" {
      ParamGetAppend(params, "location", location, "q");
      ParamGetAppend(params, "location", location, "category");
      ParamGetAppend(params, "location", location, "location");
      params := params + [("location", location)];
    }
  }

  // ------------------------------------------------------------- price label

  const PriceOnRequest := "Price on request"

  /** The rupee sign. */
  const Rupee := "\U{20B9}"

  /**
   * `formatPrice`: a missing or zero price is "Price on request"; otherwise
   * the rupee amount as `show` renders the number, with " (Negotiable)" for
   * the negotiable price type.
   */
  function FormatPrice(price: Option<int>, priceType: string, show: int -> string): (r: string)
    ensures (price.None? || price == Some(0)) ==> r == PriceOnRequest
    ensures price.Some? && price.value != 0 && priceType == "negotiable" ==>
              r == Rupee + show(price.value) + " (Negotiable)"
    ensures price.Some? && price.value != 0 && priceType != "negotiable" ==>
              r == Rupee + show(price.value)
  {
    if price.None? || price.value == 0 then PriceOnRequest
    else if priceType == "negotiable" then Rupee + show(price.value) + " (Negotiable)"
    else Rupee + show(price.value)
  }

  /** The fallback label appears exactly when there is no (non-zero) price. */
  lemma FormatPriceOnRequestIff(price: Option<int>, priceType: string, show: int -> string)
    ensures FormatPrice(price, priceType, show) == PriceOnRequest <==> price.None? || price == Some(0)
  {
    var r := FormatPrice(price, priceType, show);
    if price.Some? && price.value != 0 {
      assert r[0] == Rupee[0];
      assert PriceOnRequest[0] == 'P';
    }
  }
}
