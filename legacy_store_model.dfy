// The earlier store model: the same dispatcher, search trigger, fetch
// fallbacks and error handling, without the cached lists.
module LegacyStoreModels {
  import opened Wrappers
  import opened NetworkTypes
  import opened StoreEntities
  import opened StoreModels
  import StoreEndpoints

  class LegacyStoreModel {
    var searchText: string
    var currentPage: int
    var nextCursor: string
    var isLoading: bool
    var error: Option<string>

    function State(): DispatchState
      reads this
    {
      DispatchState(searchText, currentPage, nextCursor, isLoading, error)
    }

    constructor()
      ensures State() == DispatchState("", 0, "", false, None)
    {
      searchText := "";
      currentPage := 0;
      nextCursor := "";
      isLoading := false;
      error := None;
    }

    method Dispatch(a: StoreAction)
      modifies this
      ensures State() == ApplyAction(old(State()), a)
    {
      match a {
        case SetLoading(b) => isLoading := b;
        case SetError(m) => error := m;
        case SetMyPickStores(_) =>
        case SetSearchText(t) => searchText := t;
        case SetNextCursor(c) => nextCursor := c;
        case ToggleStoreLike(_) =>
      }
    }

    method HandleError(f: Failure, defaultMessage: string)
      modifies this
      ensures State() == old(State()).(error := Some(StoreErrorMessage(f, defaultMessage)))
    {
      Dispatch(SetError(Some(StoreErrorMessage(f, defaultMessage))));
    }

    method UpdateSearchText(text: string) returns (searchStarted: bool)
      modifies this
      ensures State() == old(State()).(searchText := text)
      ensures searchStarted <==> |text| > 2
    {
      Dispatch(SetSearchText(text));
      searchStarted := text != [] && |text| > 2;
    }

    method SearchStores(name: string, response: Result<seq<StoreInfo>, Failure>)
      returns (sent: StoreEndpoints.StoreEndpoint)
      modifies this
      ensures sent == StoreEndpoints.SearchStores(name)
      ensures response.Ok? ==> State() == old(State()).(isLoading := false)
      ensures response.Err? ==>
        State() == old(State()).(isLoading := false, error := Some(StoreErrorMessage(response.error, "가게 검색 실패")))
    {
      Dispatch(SetLoading(true));
      sent := StoreEndpoints.SearchStores(name);
      if response.Err? {
        HandleError(response.error, "가게 검색 실패");
      }
      Dispatch(SetLoading(false));
    }

    method FetchPopularSearches(response: Result<seq<string>, Failure>)
      returns (searches: seq<string>, sent: StoreEndpoints.StoreEndpoint)
      modifies this
      ensures sent == StoreEndpoints.PopularSearches
      ensures response.Ok? ==> searches == response.value && State() == old(State())
      ensures response.Err? ==>
        searches == [] && State() == old(State()).(error := Some(StoreErrorMessage(response.error, "인기 검색어 로드 실패")))
    {
      sent := StoreEndpoints.PopularSearches;
      match response {
        case Ok(data) => searches := data;
        case Err(f) =>
          HandleError(f, "인기 검색어 로드 실패");
          searches := [];
      }
    }

    method FetchNearbyStores(latitude: string, longitude: string, maxDistance: string, next: string,
                             limit: int, orderBy: string, response: Result<(seq<StoreInfo>, string), Failure>)
      returns (stores: seq<StoreInfo>, cursor: string, sent: StoreEndpoints.StoreEndpoint)
      modifies this
      ensures sent == NearbyRequest(latitude, longitude, maxDistance, next, limit, orderBy)
      ensures response.Ok? ==> stores == response.value.0 && cursor == response.value.1 && State() == old(State())
      ensures response.Err? ==>
        stores == [] && cursor == NearbyFallbackCursor &&
        State() == old(State()).(error := Some(StoreErrorMessage(response.error, "주변 가게 로드 실패")))
    {
      sent := NearbyRequest(latitude, longitude, maxDistance, next, limit, orderBy);
      match response {
        case Ok(page) =>
          stores, cursor := page.0, page.1;
        case Err(f) =>
          HandleError(f, "주변 가게 로드 실패");
          stores, cursor := [], NearbyFallbackCursor;
      }
    }

    method FetchPopularStores(category: Option<string>, response: Result<seq<StoreInfo>, Failure>)
      returns (stores: seq<StoreInfo>, sent: StoreEndpoints.StoreEndpoint)
      modifies this
      ensures sent == StoreEndpoints.PopularStores(None)
      ensures response.Ok? ==> stores == response.value && State() == old(State())
      ensures response.Err? ==>
        stores == [] && State() == old(State()).(error := Some(StoreErrorMessage(response.error, "인기 가게 로드 실패")))
    {
      sent := StoreEndpoints.PopularStores(None);
      match response {
        case Ok(data) => stores := data;
        case Err(f) =>
          HandleError(f, "인기 가게 로드 실패");
          stores := [];
      }
    }

    method FetchDetail(storeId: string, response: Result<StoreDetail, Failure>)
      returns (detail: StoreDetail, sent: StoreEndpoints.StoreEndpoint)
      modifies this
      ensures sent == StoreEndpoints.StoreDetail(storeId)
      ensures response.Ok? ==> detail == response.value && State() == old(State())
      ensures response.Err? ==>
        detail == EmptyStoreDetail() &&
        State() == old(State()).(error := Some(StoreErrorMessage(response.error, "가게 상세 정보 로드 실패")))
    {
      sent := StoreEndpoints.StoreDetail(storeId);
      match response {
        case Ok(d) => detail := d;
        case Err(f) =>
          HandleError(f, "가게 상세 정보 로드 실패");
          detail := EmptyStoreDetail();
      }
    }
  }
}
