/**
 * Row shapes of the hosted database's tables (profiles, categories, locations,
 * ads, favorites). Identifiers and text are strings; every timestamp column is
 * an integer count of milliseconds since the epoch; `null` is `None`.
 */
module Schema {
  import opened Wrappers

  datatype Status = Pending | Approved | Rejected | Expired

  datatype PriceType = Fixed | Negotiable | OnRequest

  /** The text stored in the `status` column for each status. */
  function StatusName(s: Status): string {
    match s
    case Pending => "pending"
    case Approved => "approved"
    case Rejected => "rejected"
    case Expired => "expired"
  }

  /** The text stored in the `price_type` column for each price type. */
  function PriceTypeName(p: PriceType): string {
    match p
    case Fixed => "fixed"
    case Negotiable => "negotiable"
    case OnRequest => "on_request"
  }

  /** Reading a `price_type` column value back; anything else is not a price type. */
  function ParsePriceType(s: string): (r: Option<PriceType>)
    ensures r.Some? <==> s in {"fixed", "negotiable", "on_request"}
    ensures r.Some? ==> PriceTypeName(r.value) == s
  {
    if s == "fixed" then Some(Fixed)
    else if s == "negotiable" then Some(Negotiable)
    else if s == "on_request" then Some(OnRequest)
    else None
  }

  lemma PriceTypeRoundTrip(p: PriceType)
    ensures ParsePriceType(PriceTypeName(p)) == Some(p)
  {
  }

  datatype Profile = Profile(
    id: string,
    email: string,
    full_name: Option<string>,
    phone: Option<string>,
    district: Option<string>,
    created_at: int,
    updated_at: int)

  datatype Category = Category(
    id: string,
    name: string,
    slug: string,
    icon: string,
    description: Option<string>,
    is_active: bool,
    sort_order: int,
    created_at: int)

  datatype Location = Location(
    id: string,
    district: string,
    city: string,
    state: string,
    created_at: int)

  datatype Ad = Ad(
    id: string,
    title: string,
    description: string,
    price: Option<int>,
    price_type: PriceType,
    category_id: string,
    location_id: string,
    user_id: string,
    images: seq<string>,
    contact_phone: Option<string>,
    contact_email: Option<string>,
    status: Status,
    is_featured: bool,
    featured_until: Option<int>,
    view_count: int,
    created_at: int,
    updated_at: int,
    expires_at: int)

  datatype Favorite = Favorite(
    id: string,
    user_id: string,
    ad_id: string,
    created_at: int)

  /** The signed-in user as the auth service reports it. */
  datatype User = User(id: string, email: Option<string>)

  function AdId(a: Ad): string { a.id }

  function FavoriteId(f: Favorite): string { f.id }
}
