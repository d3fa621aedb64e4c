/**
 * The records the core passes around. Prices, areas and budgets, which the
 * app holds as `Double` or `Float`, are whole numbers here.
 */
module Models {
  import opened Common

  /** `model/User.kt`, with its default arguments. */
  datatype User = User(
    id: int,
    username: string,
    nickname: Option<string>,
    email: string,
    phone: Option<string>,
    avatar: Option<string>,
    gender: string,
    isVerified: bool,
    budgetMin: Option<int>,
    budgetMax: Option<int>,
    preferredAreas: seq<string>,
    houseType: Option<string>,
    isLandlord: bool,
    isTenant: bool)

  /** `User(id = id, username = username)`: every other field at its default. */
  function DefaultUser(id: int, username: string): User {
    User(id, username, None, "", None, None, "未设置", false, None, None, [], None, false, true)
  }

  /** The `UserData` the user endpoints return. */
  datatype UserData = UserData(
    name: string,
    nickname: Option<string>,
    email: Option<string>,
    phone: Option<string>,
    gender: Option<string>,
    role: seq<string>,
    isSuperuser: bool,
    budgetMin: Option<int>,
    budgetMax: Option<int>,
    preferredAreas: Option<seq<string>>,
    houseType: Option<string>)

  /**
   * A listing as the network layer and the screens under `screens/` read it:
   * the record `toRentalHouse` builds (cover, type, url, ... detail). Those
   * fields are not the ones `model/RentalHouse.kt` declares; that declared
   * record is `RentalHouse` below.
   */
  datatype Listing = Listing(
    id: int,
    cover: string,
    houseType: string,
    title: string,
    url: string,
    location: string,
    areaText: string,
    area: int,
    orientation: string,
    structure: string,
    priceText: string,
    price: int,
    tags: string,
    level: Option<string>,
    floor: Option<int>,
    province: string,
    city: string,
    imgs: string,
    detail: string)

  /** The detail record of one listing, whose tags, images and text may be null. */
  datatype RentalDetailData = RentalDetailData(
    id: int,
    cover: string,
    houseType: string,
    title: string,
    url: string,
    location: string,
    areaText: string,
    area: int,
    orientation: string,
    structure: string,
    priceText: string,
    price: int,
    tags: Option<string>,
    level: Option<string>,
    floor: Option<int>,
    province: string,
    city: string,
    imgs: Option<string>,
    detail: Option<string>)

  /** `model/RentalHouse.kt`: the record of the mock screens under `ui/screens/`. */
  datatype RentalHouse = RentalHouse(
    id: int,
    title: string,
    price: int,
    location: string,
    area: int,
    rooms: int,
    imageUrl: string,
    tags: seq<string>,
    description: string,
    orientation: string,
    isFavorite: bool,
    unitPrice: int,
    listingDate: string,
    floor: string,
    buildingType: string,
    serviceStandards: seq<string>,
    riskTips: seq<string>)
}
