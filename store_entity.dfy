// Store values as the store screens hold them. Only the fields the models
// read or write are kept; `longitude` is an integer stand-in for the
// `Double` coordinate, used only for ordering.
module StoreEntities {
  import opened Wrappers

  datatype StoreInfo = StoreInfo(
    storeId: string,
    category: string,
    name: string,
    isPicchelin: bool,
    isPick: bool,
    pickCount: int,
    totalOrderCount: int,
    totalReviewCount: int,
    longitude: int)

  datatype MenuItem = MenuItem(
    menuId: string,
    storeId: string,
    category: string,
    name: string,
    price: int,
    isSoldOut: bool)

  datatype StoreDetail = StoreDetail(
    storeId: string,
    category: Option<string>,
    name: Option<string>,
    isPick: bool,
    pickCount: int,
    menuList: seq<MenuItem>)

  /** `StoreDetail.empty`: blank texts, no menu, not liked. */
  function EmptyStoreDetail(): (d: StoreDetail)
    ensures d.storeId == "" && d.name == Some("") && d.menuList == [] && !d.isPick
  {
    StoreDetail("", Some(""), Some(""), false, 0, [])
  }
}
