/**
 * The dashboard: the signed-in user's own ads, deleting an ad or a favorite
 * by id, the status badge and the price label.
 */
module Dashboard {
  import opened Wrappers
  import opened Schema
  import opened Query
  import opened Tables
  import Listings

  // ------------------------------------------------------------ status badge

  datatype BadgeVariant = Default | Secondary | Destructive | Outline

  datatype Badge = Badge(text: string, variant: BadgeVariant)

  /**
   * The names every JavaScript object inherits from `Object.prototype`
   * (section 20.1.3 and annex B.2.2 of ECMA-262). Looking one of them up in the
   * badge table finds the inherited member, which is truthy, so the pending
   * fallback is not taken.
   */
  const ObjectPrototypeKeys: set<string> := {
    "constructor", "hasOwnProperty", "isPrototypeOf", "propertyIsEnumerable",
    "toLocaleString", "toString", "valueOf", "__proto__",
    "__defineGetter__", "__defineSetter__", "__lookupGetter__", "__lookupSetter__"
  }

  /**
   * `getStatusBadge`: the badge for a status name, the pending one for any other
   * text; `None` for an inherited member, which carries no label and no variant.
   */
  function StatusBadge(status: string): (r: Option<Badge>)
    ensures r.None? <==> status in ObjectPrototypeKeys
    ensures r.Some? ==> r.value in {Badge("Pending", Secondary), Badge("Active", Default),
                                    Badge("Rejected", Destructive), Badge("Expired", Outline)}
  {
    if status == "pending" then Some(Badge("Pending", Secondary))
    else if status == "approved" then Some(Badge("Active", Default))
    else if status == "rejected" then Some(Badge("Rejected", Destructive))
    else if status == "expired" then Some(Badge("Expired", Outline))
    else if status in ObjectPrototypeKeys then None
    else Some(Badge("Pending", Secondary))
  }

  /** The badge each stored status gets. */
  lemma StatusBadges()
    ensures StatusBadge(StatusName(Pending)) == Some(Badge("Pending", Secondary))
    ensures StatusBadge(StatusName(Approved)) == Some(Badge("Active", Default))
    ensures StatusBadge(StatusName(Rejected)) == Some(Badge("Rejected", Destructive))
    ensures StatusBadge(StatusName(Expired)) == Some(Badge("Expired", Outline))
  {
  }

  /**
   * Text that names no status gets the pending badge, unless it names an
   * inherited member, which yields no badge at all.
   */
  lemma StatusBadgeFallback(status: string)
    requires forall s: Status :: StatusName(s) != status
    ensures StatusBadge(status).None? <==> status in ObjectPrototypeKeys
    ensures status !in ObjectPrototypeKeys ==> StatusBadge(status) == StatusBadge(StatusName(Pending))
  {
    assert StatusName(Pending) != status && StatusName(Approved) != status;
    assert StatusName(Rejected) != status && StatusName(Expired) != status;
  }

  /** Different statuses get different badges, so the badge tells the status. */
  lemma StatusBadgeInjective(s1: Status, s2: Status)
    requires StatusBadge(StatusName(s1)) == StatusBadge(StatusName(s2))
    ensures s1 == s2
  {
  }

  // ------------------------------------------------------------- price label

  /** The dashboard's price label: the rupee amount when the price is truthy. */
  function DashboardPrice(price: Option<int>, show: int -> string): (r: string)
    ensures (price.None? || price == Some(0)) ==> r == Listings.PriceOnRequest
    ensures price.Some? && price.value != 0 ==> r == Listings.Rupee + show(price.value)
  {
    if price.Some? && price.value != 0 then Listings.Rupee + show(price.value) else Listings.PriceOnRequest
  }

  /** The dashboard shows what the listing page shows, minus the negotiable suffix. */
  lemma DashboardPriceAgrees(price: Option<int>, priceType: string, show: int -> string)
    requires priceType != "negotiable"
    ensures DashboardPrice(price, show) == Listings.FormatPrice(price, priceType, show)
  {
  }

  // ------------------------------------------------------------------ my ads

  /** `fetchMyAds`'s query: the user's own ads, newest first. */
  function MyAdsQuery(userId: string): (q: AdQuery)
    ensures forall ad :: Selects(q, ad) <==> ad.user_id == userId
    ensures q.ordering == OrderBy(CreatedAt, false)
  {
    AllHoldSingleton(OwnerIs(userId));
    AdQuery([OwnerIs(userId)], OrderBy(CreatedAt, false))
  }

  /** Every correct answer holds exactly the user's ads, by creation time descending. */
  lemma MyAdsAnswer(userId: string, table: seq<Ad>, rows: seq<Ad>)
    requires Answers(MyAdsQuery(userId), table, rows)
    ensures forall a :: a in rows <==> a in table && a.user_id == userId
    ensures forall i, j :: 0 <= i < j < |rows| ==> rows[i].created_at >= rows[j].created_at
  {
    forall a ensures a in rows <==> a in table && a.user_id == userId {
      AnswerMembers(MyAdsQuery(userId), table, rows, a);
    }
  }

  class DashboardPage {
    var myAds: seq<Ad>

    constructor ()
      ensures myAds == []
    {
      myAds := [];
    }

    /** `fetchMyAds`: nothing without a user; on an error the list is kept. */
    method FetchMyAds(user: Option<User>, backend: AdQuery -> Response)
      modifies this
      ensures user.None? ==> myAds == old(myAds)
      ensures user.Some? && backend(MyAdsQuery(user.value.id)).Failed? ==> myAds == old(myAds)
      ensures user.Some? && backend(MyAdsQuery(user.value.id)).Returned? ==>
                myAds == backend(MyAdsQuery(user.value.id)).data.GetOr([])
    {
      if user.None? {
        return;
      }
      var response := backend(MyAdsQuery(user.value.id));
      if response.Returned? {
        myAds := response.data.GetOr([]);
      }
    }
  }

  // ---------------------------------------------------------------- deleting

  /** `deleteAd`: the ad with that id is deleted unless the backend reports an error. */
  method DeleteAd(ads: AdsTable, adId: string, writeError: Option<string>) returns (ok: bool)
    requires ads.Valid()
    modifies ads
    ensures ads.Valid()
    ensures ok <==> writeError.None?
    ensures ads.rows == if ok then WithoutKey(old(ads.rows), AdId, adId) else old(ads.rows)
    ensures forall a :: a in ads.rows <==> a in old(ads.rows) && (!ok || a.id != adId)
  {
    WithoutKeyEffect(ads.rows, AdId, adId);
    ok := writeError.None?;
    if ok {
      ads.DeleteWhereId(adId);
    }
  }

  /** `removeFavorite`: the favorite with that id is deleted unless the backend reports an error. */
  method RemoveFavorite(favorites: FavoritesTable, favoriteId: string, writeError: Option<string>)
    returns (ok: bool)
    requires favorites.Valid()
    modifies favorites
    ensures favorites.Valid()
    ensures ok <==> writeError.None?
    ensures favorites.rows == if ok then WithoutKey(old(favorites.rows), FavoriteId, favoriteId)
                              else old(favorites.rows)
    ensures forall f :: f in favorites.rows <==> f in old(favorites.rows) && (!ok || f.id != favoriteId)
  {
    WithoutKeyEffect(favorites.rows, FavoriteId, favoriteId);
    ok := writeError.None?;
    if ok {
      favorites.DeleteWhereId(favoriteId);
    }
  }
}
