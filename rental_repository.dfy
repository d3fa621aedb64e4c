/**
 * `network/RentalRepository.kt`: every call turns what the service produced
 * (a response, or an exception) into a `Result`. The service itself is not
 * modelled; a call's effect is its `Exchange`, given as input.
 */
module RentalRepository {
  import opened Common
  import opened Models
  import opened Service

  /** A page of listings. */
  datatype ListPage = ListPage(total: int, result: seq<Listing>)

  /** The repository calls the view models and screens make, with their arguments. */
  datatype Call =
    | ListCall(page: int, pageSize: int)
    | DetailCall(token: string, id: int)
    | RecommendCall(token: string)
    | ToggleCall(token: string, rentalId: int)
    | FavoritesCall(token: string, page: int, pageSize: int)
    | CheckCall(token: string, rentalId: int)
    | SearchCall(query: string, minPrice: Option<int>, maxPrice: Option<int>, minArea: Option<int>,
                 maxArea: Option<int>, houseType: Option<string>, orientation: Option<string>,
                 province: Option<string>, city: Option<string>)

  /** The service requests the repository sends: each call's arguments as the service receives them. */
  datatype ServiceRequest =
    | ListRequest(page: int, pageSize: int)
    | DetailRequest(token: string, id: int)
    | RecommendRequest(token: string)
    | ToggleRequest(token: string, requestBody: map<string, int>)
    | FavoritesRequest(token: string, page: int, pageSize: int)
    | CheckRequest(token: string, id: int)
    | SearchRequest(query: string, minPrice: Option<int>, maxPrice: Option<int>, minArea: Option<int>,
                maxArea: Option<int>, houseType: Option<string>, orientation: Option<string>,
                province: Option<string>, city: Option<string>)

  /**
   * The request each call sends. `toggleFavorite` sends the body
   * `{"id": rentalId}`; `searchRental` passes its nine arguments in order.
   */
  function RequestOf(c: Call): (q: ServiceRequest)
    ensures c.ToggleCall? ==> q.ToggleRequest? && q.token == c.token
                              && q.requestBody.Keys == {"id"} && q.requestBody["id"] == c.rentalId
    ensures c.SearchCall? ==> q == SearchRequest(c.query, c.minPrice, c.maxPrice, c.minArea, c.maxArea,
                                             c.houseType, c.orientation, c.province, c.city)
  {
    match c
    case ListCall(page, size) => ListRequest(page, size)
    case DetailCall(token, id) => DetailRequest(token, id)
    case RecommendCall(token) => RecommendRequest(token)
    case ToggleCall(token, id) => ToggleRequest(token, map["id" := id])
    case FavoritesCall(token, page, size) => FavoritesRequest(token, page, size)
    case CheckCall(token, id) => CheckRequest(token, id)
    case SearchCall(q, a, b, c1, d, t, o, p, city) => SearchRequest(q, a, b, c1, d, t, o, p, city)
  }

  /** No argument is lost on the way to the service: the request determines the call. */
  lemma {:induction false} RequestDeterminesCall(c1: Call, c2: Call)
    requires RequestOf(c1) == RequestOf(c2)
    ensures c1 == c2
  {
    if c1.ToggleCall? {
      assert RequestOf(c1).requestBody["id"] == RequestOf(c2).requestBody["id"];
    }
  }

  /** The message used when nothing was delivered: fixed text, or the HTTP status text. */
  datatype Fallback = Fixed(text: string) | StatusLine

  /**
   * How every call fails when the answer is not accepted: an exception is
   * returned as the failure itself, a delivered body with another code fails
   * with the body's message, and an undelivered answer fails with the fallback.
   */
  predicate RejectedAs<D, T>(x: Exchange<Envelope<D>>, fallback: Fallback, r: Outcome<T>) {
    match x
    case Raised(cause) => r == Fail(cause)
    case Completed(resp) =>
      if Delivered(x) then r == Fail(Some(resp.body.value.message))
      else r == Fail(Some(match fallback case Fixed(t) => t case StatusLine => resp.statusMessage))
  }

  /** The scheme every call shares; `decode` reads the data of an accepted answer. */
  function Classify<D, T>(x: Exchange<Envelope<D>>, fallback: Fallback, decode: D -> Outcome<T>): (r: Outcome<T>)
    ensures !Accepted(x) ==> RejectedAs(x, fallback, r)
    ensures Accepted(x) ==> r == decode(x.response.body.value.data)
  {
    match x
    case Raised(cause) => Fail(cause)
    case Completed(resp) =>
      if resp.isSuccessful && resp.body.Some? then
        if resp.body.value.code == 200 then decode(resp.body.value.data)
        else Fail(Some(resp.body.value.message))
      else
        Fail(Some(match fallback case Fixed(t) => t case StatusLine => resp.statusMessage))
  }

  /** `getRentalList`: the page's listings. */
  function GetRentalList(x: Exchange<Envelope<ListPage>>): (r: Outcome<seq<Listing>>)
    ensures r.Ok? <==> Accepted(x)
    ensures r.Ok? ==> r.value == x.response.body.value.data.result
    ensures r.Fail? ==> RejectedAs(x, Fixed("获取房源列表失败"), r)
  {
    Classify(x, Fixed("获取房源列表失败"), (p: ListPage) => Ok(p.result))
  }

  /** `getRentalDetail`: the detail record, converted to a listing. */
  function GetRentalDetail(x: Exchange<Envelope<RentalDetailData>>): (r: Outcome<Listing>)
    ensures r.Ok? <==> Accepted(x)
    ensures r.Ok? ==> r.value == ToListing(x.response.body.value.data)
    ensures r.Fail? ==> RejectedAs(x, Fixed("获取房源详情失败"), r)
  {
    Classify(x, Fixed("获取房源详情失败"), (d: RentalDetailData) => Ok(ToListing(d)))
  }

  /** `getRecommendations`: the records converted one by one; null data is the empty list. */
  function GetRecommendations(x: Exchange<Envelope<Option<seq<RentalDetailData>>>>): (r: Outcome<seq<Listing>>)
    ensures r.Ok? <==> Accepted(x)
    ensures Accepted(x) && x.response.body.value.data.None? ==> r == Ok([])
    ensures Accepted(x) && x.response.body.value.data.Some? ==>
              r == Ok(ToListings(x.response.body.value.data.value))
    ensures r.Fail? ==> RejectedAs(x, Fixed("获取推荐房源失败"), r)
  {
    Classify(x, Fixed("获取推荐房源失败"),
      (d: Option<seq<RentalDetailData>>) => if d.Some? then Ok(ToListings(d.value)) else Ok([]))
  }

  /** Reads `isFavorite` from an accepted favorite answer; absent data or key is a format error. */
  function FavoriteFlag(data: Option<map<string, bool>>, formatError: string): (r: Outcome<bool>)
    ensures r.Ok? <==> data.Some? && "isFavorite" in data.value
    ensures r.Ok? ==> r.value == data.value["isFavorite"]
    ensures r.Fail? ==> r == Fail(Some(formatError))
  {
    if data.Some? && "isFavorite" in data.value then Ok(data.value["isFavorite"])
    else Fail(Some(formatError))
  }

  /** `toggleFavorite`: the new favorite flag the server reports. */
  function ToggleFavorite(x: Exchange<Envelope<Option<map<string, bool>>>>): (r: Outcome<bool>)
    ensures r.Ok? <==> Accepted(x) && x.response.body.value.data.Some?
                       && "isFavorite" in x.response.body.value.data.value
    ensures r.Ok? ==> r.value == x.response.body.value.data.value["isFavorite"]
    ensures Accepted(x) && r.Fail? ==> r == Fail(Some("操作失败：返回数据格式错误"))
    ensures !Accepted(x) ==> RejectedAs(x, StatusLine, r)
  {
    Classify(x, StatusLine, (d: Option<map<string, bool>>) => FavoriteFlag(d, "操作失败：返回数据格式错误"))
  }

  /** `getFavorites`: the page of favorite listings. */
  function GetFavorites(x: Exchange<Envelope<ListPage>>): (r: Outcome<seq<Listing>>)
    ensures r.Ok? <==> Accepted(x)
    ensures r.Ok? ==> r.value == x.response.body.value.data.result
    ensures r.Fail? ==> RejectedAs(x, Fixed("获取收藏列表失败"), r)
  {
    Classify(x, Fixed("获取收藏列表失败"), (p: ListPage) => Ok(p.result))
  }

  /** `checkFavorite`: whether the listing is a favorite, as the server reports. */
  function CheckFavorite(x: Exchange<Envelope<Option<map<string, bool>>>>): (r: Outcome<bool>)
    ensures r.Ok? <==> Accepted(x) && x.response.body.value.data.Some?
                       && "isFavorite" in x.response.body.value.data.value
    ensures r.Ok? ==> r.value == x.response.body.value.data.value["isFavorite"]
    ensures Accepted(x) && r.Fail? ==> r == Fail(Some("检查收藏状态失败：返回数据格式错误"))
    ensures !Accepted(x) ==> RejectedAs(x, StatusLine, r)
  {
    Classify(x, StatusLine, (d: Option<map<string, bool>>) => FavoriteFlag(d, "检查收藏状态失败：返回数据格式错误"))
  }

  /** `searchRental`: the body's data as it is. */
  function SearchRental(x: Exchange<Envelope<seq<Listing>>>): (r: Outcome<seq<Listing>>)
    ensures r.Ok? <==> Accepted(x)
    ensures r.Ok? ==> r.value == x.response.body.value.data
    ensures r.Fail? ==> RejectedAs(x, StatusLine, r)
  {
    Classify(x, StatusLine, (d: seq<Listing>) => Ok(d))
  }

  /** `toRentalHouse`: null tags, images and text become ""; every other field is copied. */
  function ToListing(d: RentalDetailData): (l: Listing)
    ensures l.tags == d.tags.GetOr("") && l.imgs == d.imgs.GetOr("") && l.detail == d.detail.GetOr("")
    ensures l.id == d.id && l.cover == d.cover && l.houseType == d.houseType && l.title == d.title
            && l.url == d.url && l.location == d.location && l.areaText == d.areaText && l.area == d.area
            && l.orientation == d.orientation && l.structure == d.structure && l.priceText == d.priceText
            && l.price == d.price && l.level == d.level && l.floor == d.floor
            && l.province == d.province && l.city == d.city
  {
    Listing(d.id, d.cover, d.houseType, d.title, d.url, d.location, d.areaText, d.area, d.orientation,
            d.structure, d.priceText, d.price, d.tags.GetOr(""), d.level, d.floor, d.province, d.city,
            d.imgs.GetOr(""), d.detail.GetOr(""))
  }

  function ToListings(ds: seq<RentalDetailData>): (r: seq<Listing>)
    ensures |r| == |ds| && forall i :: 0 <= i < |ds| ==> r[i] == ToListing(ds[i])
  {
    seq(|ds|, i requires 0 <= i < |ds| => ToListing(ds[i]))
  }

  /** The detail record a listing comes from when every nullable field is present. */
  function FromListing(l: Listing): RentalDetailData {
    RentalDetailData(l.id, l.cover, l.houseType, l.title, l.url, l.location, l.areaText, l.area, l.orientation,
                     l.structure, l.priceText, l.price, Some(l.tags), l.level, l.floor, l.province, l.city,
                     Some(l.imgs), Some(l.detail))
  }

  /**
   * The conversion loses nothing but nullness: a listing survives the trip
   * through a detail record, and two records with present fields that
   * convert alike are equal.
   */
  lemma ToListingRoundTrip(l: Listing, d1: RentalDetailData, d2: RentalDetailData)
    ensures ToListing(FromListing(l)) == l
    ensures (d1.tags.Some? && d1.imgs.Some? && d1.detail.Some? && d2.tags.Some? && d2.imgs.Some? && d2.detail.Some?
             && ToListing(d1) == ToListing(d2)) ==> d1 == d2
  {
  }

  /**
   * The favorite calls read back exactly the flag the server answers with,
   * and a code other than 200 fails with the server's message.
   */
  lemma FavoriteAnswers(b: bool, code: int, message: string)
    ensures ToggleFavorite(Answer(200, message, Some(map["isFavorite" := b]))) == Ok(b)
    ensures CheckFavorite(Answer(200, message, Some(map["isFavorite" := b]))) == Ok(b)
    ensures code != 200 ==> ToggleFavorite(Answer(code, message, Some(map["isFavorite" := b]))) == Fail(Some(message))
    ensures ToggleFavorite(Answer(200, message, Some(map[]))) == Fail(Some("操作失败：返回数据格式错误"))
    ensures CheckFavorite(Answer(200, message, Option.None)) == Fail(Some("检查收藏状态失败：返回数据格式错误"))
  {
  }
}
