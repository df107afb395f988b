// The store model: the action dispatcher, the popular and nearby list
// views (category filter, flag filters and the three sort orders), the
// like-status synchronisation across the cached lists, the search trigger
// and the fetches with their error fallbacks.
module StoreModels {
  import opened Wrappers
  import opened NetworkTypes
  import opened Seqs
  import opened StoreEntities
  import StoreEndpoints

  datatype StoreAction =
    | SetLoading(isLoading: bool)
    | SetError(message: Option<string>)
    | SetMyPickStores(stores: seq<StoreInfo>)
    | SetSearchText(text: string)
    | SetNextCursor(cursor: string)
    | ToggleStoreLike(storeId: string)

  /** The fields `dispatch` can assign. */
  datatype DispatchState = DispatchState(
    searchText: string,
    currentPage: int,
    nextCursor: string,
    isLoading: bool,
    error: Option<string>)

  function ApplyAction(s: DispatchState, a: StoreAction): DispatchState
  {
    match a
    case SetLoading(b) => s.(isLoading := b)
    case SetError(m) => s.(error := m)
    case SetMyPickStores(_) => s
    case SetSearchText(t) => s.(searchText := t)
    case SetNextCursor(c) => s.(nextCursor := c)
    case ToggleStoreLike(_) => s
  }

  /** Each action assigns exactly its own field; `setMyPickStores` and
    * `toggleStoreLike` change nothing, and the page counter never moves. */
  lemma DispatchAssignsOnlyItsField(s: DispatchState, a: StoreAction)
    ensures var t := ApplyAction(s, a);
      t.currentPage == s.currentPage &&
      (a.SetMyPickStores? || a.ToggleStoreLike? ==> t == s) &&
      (a.SetLoading? ==> t == s.(isLoading := a.isLoading)) &&
      (a.SetError? ==> t == s.(error := a.message)) &&
      (a.SetSearchText? ==> t == s.(searchText := a.text)) &&
      (a.SetNextCursor? ==> t == s.(nextCursor := a.cursor))
  {
  }

  /** The message `handleError` stores: a NetworkError's description, or
    * the default text for any other error. */
  function StoreErrorMessage(f: Failure, defaultMessage: string): (m: string)
    ensures f.isNetworkError ==> m == f.description
    ensures !f.isNetworkError ==> m == defaultMessage
  {
    if f.isNetworkError then f.description else defaultMessage
  }

  /** `filteredPopularStores`. */
  function CategoryFiltered(stores: seq<StoreInfo>, selected: Option<string>): (r: seq<StoreInfo>)
    ensures selected.None? ==> r == stores
    ensures selected.Some? ==> forall x :: x in r <==> x in stores && x.category == selected.value
    ensures |r| <= |stores|
  {
    match selected
    case None => stores
    case Some(c) => Filter(stores, (x: StoreInfo) => x.category == c)
  }

  /** The nearby flag filters: with a flag set, only stores carrying it. */
  function FlagFiltered(stores: seq<StoreInfo>, picchelin: bool, myPick: bool): (r: seq<StoreInfo>)
    ensures forall x :: x in r <==> x in stores && (picchelin ==> x.isPicchelin) && (myPick ==> x.isPick)
    ensures !picchelin && !myPick ==> r == stores
  {
    if picchelin && myPick then Filter(stores, (x: StoreInfo) => x.isPicchelin && x.isPick)
    else if picchelin then Filter(stores, (x: StoreInfo) => x.isPicchelin)
    else if myPick then Filter(stores, (x: StoreInfo) => x.isPick)
    else stores
  }

  datatype NearbySort = Distance | Orders | Reviews

  function OrderCount(s: StoreInfo): int { s.totalOrderCount }
  function ReviewCount(s: StoreInfo): int { s.totalReviewCount }
  /** Negated, so that "largest key first" is "smallest longitude first". */
  function Westness(s: StoreInfo): int { -s.longitude }

  function SortKey(sort: NearbySort): StoreInfo -> int
  {
    match sort
    case Orders => OrderCount
    case Reviews => ReviewCount
    case Distance => Westness
  }

  /** `filteredAndSortedNearbyStores`. */
  function NearbyView(stores: seq<StoreInfo>, picchelin: bool, myPick: bool, sort: NearbySort): (r: seq<StoreInfo>)
    ensures multiset(r) == multiset(FlagFiltered(stores, picchelin, myPick))
  {
    SortByKey(FlagFiltered(stores, picchelin, myPick), SortKey(sort))
  }

  /** Each sort order, spelled out in the stores' own fields. */
  lemma NearbyViewOrder(stores: seq<StoreInfo>, picchelin: bool, myPick: bool, sort: NearbySort)
    ensures var r := NearbyView(stores, picchelin, myPick, sort);
      sort == Orders ==> forall i, j :: 0 <= i < j < |r| ==> r[i].totalOrderCount >= r[j].totalOrderCount
    ensures var r := NearbyView(stores, picchelin, myPick, sort);
      sort == Reviews ==> forall i, j :: 0 <= i < j < |r| ==> r[i].totalReviewCount >= r[j].totalReviewCount
    ensures var r := NearbyView(stores, picchelin, myPick, sort);
      sort == Distance ==> forall i, j :: 0 <= i < j < |r| ==> r[i].longitude <= r[j].longitude
  {
    var r := NearbyView(stores, picchelin, myPick, sort);
    assert NonIncreasing(r, SortKey(sort));
  }

  /** A store is in the nearby view exactly when it passes the flags. */
  lemma NearbyViewMembers(stores: seq<StoreInfo>, picchelin: bool, myPick: bool, sort: NearbySort, x: StoreInfo)
    ensures x in NearbyView(stores, picchelin, myPick, sort) <==>
      x in stores && (picchelin ==> x.isPicchelin) && (myPick ==> x.isPick)
  {
    var r := NearbyView(stores, picchelin, myPick, sort);
    assert x in r <==> x in multiset(r);
    assert x in FlagFiltered(stores, picchelin, myPick) <==> x in multiset(FlagFiltered(stores, picchelin, myPick));
  }

  /** `isPick` set on the first store with the id, if any. */
  function WithPickAtFirst(stores: seq<StoreInfo>, storeId: string, isPick: bool): (r: seq<StoreInfo>)
    ensures |r| == |stores|
  {
    match FirstIndexWhere(stores, (x: StoreInfo) => x.storeId == storeId)
    case None => stores
    case Some(i) => stores[i := stores[i].(isPick := isPick)]
  }

  /** Only the first store with the id changes, and only in `isPick`. */
  lemma WithPickAtFirstChangesOneEntry(stores: seq<StoreInfo>, storeId: string, isPick: bool)
    ensures var r := WithPickAtFirst(stores, storeId, isPick);
      (forall j :: 0 <= j < |stores| && stores[j].storeId != storeId ==> r[j] == stores[j]) &&
      (forall j :: 0 <= j < |stores| && stores[j].storeId == storeId ==>
         r[j] == stores[j].(isPick := isPick) ||
         (r[j] == stores[j] && exists k :: 0 <= k < j && stores[k].storeId == storeId)) &&
      ((exists j :: 0 <= j < |stores| && stores[j].storeId == storeId) ==>
         exists j :: 0 <= j < |r| && r[j].storeId == storeId && r[j].isPick == isPick)
  {
    var r := WithPickAtFirst(stores, storeId, isPick);
    match FirstIndexWhere(stores, (x: StoreInfo) => x.storeId == storeId)
    case None =>
    case Some(i) =>
      assert r[i].storeId == storeId && r[i].isPick == isPick;
      forall j | 0 <= j < |stores| && stores[j].storeId == storeId && j != i
        ensures r[j] == stores[j] && exists k :: 0 <= k < j && stores[k].storeId == storeId
      {
        assert i < j;
      }
  }

  function WithDetailPick(details: map<string, StoreDetail>, storeId: string, isPick: bool): (r: map<string, StoreDetail>)
    ensures r.Keys == details.Keys
    ensures storeId in details ==> r[storeId] == details[storeId].(isPick := isPick)
    ensures forall k :: k in details && k != storeId ==> r[k] == details[k]
  {
    if storeId in details then details[storeId := details[storeId].(isPick := isPick)] else details
  }

  /** The query `fetchNearbyStores` sends: no category, and no cursor when
    * `next` is empty. The coordinates are the rendered texts. */
  function NearbyRequest(latitude: string, longitude: string, maxDistance: string, next: string,
                         limit: int, orderBy: string): (e: StoreEndpoints.StoreEndpoint)
    ensures e.StoreList? && e.category.None?
    ensures e.next.None? <==> next == ""
  {
    StoreEndpoints.StoreList(None, Some(longitude), Some(latitude), Some(maxDistance),
                             if next == "" then None else Some(next), Some(limit), Some(orderBy))
  }

  const NearbyFallbackCursor := "0"

  class StoreModel {
    var searchText: string
    var currentPage: int
    var nextCursor: string
    var isLoading: bool
    var error: Option<string>
    var popularStores: seq<StoreInfo>
    var nearbyStores: seq<StoreInfo>
    var storeDetails: map<string, StoreDetail>
    var selectedCategory: Option<string>
    var filterPicchelin: bool
    var filterMyPick: bool
    var nearbySort: NearbySort

    function State(): DispatchState
      reads this
    {
      DispatchState(searchText, currentPage, nextCursor, isLoading, error)
    }

    /** The cached lists and the view settings, which `dispatch` never
      * touches. */
    function Lists(): (seq<StoreInfo>, seq<StoreInfo>, map<string, StoreDetail>, Option<string>, bool, bool, NearbySort)
      reads this
    {
      (popularStores, nearbyStores, storeDetails, selectedCategory, filterPicchelin, filterMyPick, nearbySort)
    }

    constructor()
      ensures State() == DispatchState("", 0, "", false, None)
      ensures popularStores == [] && nearbyStores == [] && storeDetails == map[]
      ensures selectedCategory.None? && !filterPicchelin && !filterMyPick && nearbySort == Distance
    {
      searchText := "";
      currentPage := 0;
      nextCursor := "";
      isLoading := false;
      error := None;
      popularStores := [];
      nearbyStores := [];
      storeDetails := map[];
      selectedCategory := None;
      filterPicchelin := false;
      filterMyPick := false;
      nearbySort := Distance;
    }

    function FilteredPopularStores(): (r: seq<StoreInfo>)
      reads this
      ensures r == CategoryFiltered(popularStores, selectedCategory)
    {
      CategoryFiltered(popularStores, selectedCategory)
    }

    function FilteredAndSortedNearbyStores(): (r: seq<StoreInfo>)
      reads this
      ensures r == NearbyView(nearbyStores, filterPicchelin, filterMyPick, nearbySort)
    {
      NearbyView(nearbyStores, filterPicchelin, filterMyPick, nearbySort)
    }

    method Dispatch(a: StoreAction)
      modifies this
      ensures State() == ApplyAction(old(State()), a)
      ensures Lists() == old(Lists())
    {
      match a {
        case SetLoading(b) => isLoading := b;
        case SetError(m) => error := m;
        case SetMyPickStores(_) =>
        case SetSearchText(t) => searchText := t;
        case SetNextCursor(c) => nextCursor := c;
        case ToggleStoreLike(_) =>
      }
    }

    method HandleError(f: Failure, defaultMessage: string)
      modifies this
      ensures State() == old(State()).(error := Some(StoreErrorMessage(f, defaultMessage)))
      ensures Lists() == old(Lists())
    {
      Dispatch(SetError(Some(StoreErrorMessage(f, defaultMessage))));
    }

    /** `updateStoreLikeStatus`. */
    method UpdateStoreLikeStatus(storeId: string, isPick: bool)
      modifies this
      ensures popularStores == WithPickAtFirst(old(popularStores), storeId, isPick)
      ensures nearbyStores == WithPickAtFirst(old(nearbyStores), storeId, isPick)
      ensures storeDetails == WithDetailPick(old(storeDetails), storeId, isPick)
      ensures State() == old(State())
      ensures selectedCategory == old(selectedCategory) && filterPicchelin == old(filterPicchelin)
      ensures filterMyPick == old(filterMyPick) && nearbySort == old(nearbySort)
    {
      match FirstIndexWhere(popularStores, (x: StoreInfo) => x.storeId == storeId) {
        case Some(idx) => popularStores := popularStores[idx := popularStores[idx].(isPick := isPick)];
        case None =>
      }
      match FirstIndexWhere(nearbyStores, (x: StoreInfo) => x.storeId == storeId) {
        case Some(idx) => nearbyStores := nearbyStores[idx := nearbyStores[idx].(isPick := isPick)];
        case None =>
      }
      if storeId in storeDetails {
        var detail := storeDetails[storeId];
        detail := detail.(isPick := isPick);
        storeDetails := storeDetails[storeId := detail];
      }
    }

    /** `toggleStoreLike`: sends the flipped status and, once the server
      * accepts it, synchronises the cached lists; a failure is rethrown
      * and nothing changes. */
    method ToggleStoreLikeRequest(storeId: string, currentLikeStatus: bool, response: Result<bool, ClientError>)
      returns (sent: StoreEndpoints.StoreEndpoint, thrown: Option<ClientError>)
      modifies this
      ensures sent == StoreEndpoints.StoreLike(storeId, !currentLikeStatus)
      ensures response.Err? ==> thrown == Some(response.error) && Lists() == old(Lists())
      ensures response.Ok? ==>
        thrown.None? &&
        popularStores == WithPickAtFirst(old(popularStores), storeId, !currentLikeStatus) &&
        nearbyStores == WithPickAtFirst(old(nearbyStores), storeId, !currentLikeStatus) &&
        storeDetails == WithDetailPick(old(storeDetails), storeId, !currentLikeStatus)
      ensures State() == old(State())
    {
      var newLikeStatus := !currentLikeStatus;
      sent := StoreEndpoints.StoreLike(storeId, newLikeStatus);
      if response.Err? {
        return sent, Some(response.error);
      }
      UpdateStoreLikeStatus(storeId, newLikeStatus);
      thrown := None;
    }

    /** `updateSearchText`: the text is always stored; a search starts
      * only for more than two characters. */
    method UpdateSearchText(text: string) returns (searchStarted: bool)
      modifies this
      ensures State() == old(State()).(searchText := text)
      ensures searchStarted <==> |text| > 2
      ensures Lists() == old(Lists())
    {
      Dispatch(SetSearchText(text));
      searchStarted := text != [] && |text| > 2;
    }

    /** `searchStores`: loading on, the error stored on failure, loading
      * off. */
    method SearchStores(name: string, response: Result<seq<StoreInfo>, Failure>)
      returns (sent: StoreEndpoints.StoreEndpoint)
      modifies this
      ensures sent == StoreEndpoints.SearchStores(name)
      ensures response.Ok? ==> State() == old(State()).(isLoading := false)
      ensures response.Err? ==>
        State() == old(State()).(isLoading := false, error := Some(StoreErrorMessage(response.error, "가게 검색 실패")))
      ensures Lists() == old(Lists())
    {
      Dispatch(SetLoading(true));
      sent := StoreEndpoints.SearchStores(name);
      if response.Err? {
        HandleError(response.error, "가게 검색 실패");
      }
      Dispatch(SetLoading(false));
    }

    method FetchPopularSearches(response: Result<seq<string>, Failure>)
      returns (searches: seq<string>, sent: StoreEndpoints.StoreEndpoint)
      modifies this
      ensures sent == StoreEndpoints.PopularSearches
      ensures response.Ok? ==> searches == response.value && State() == old(State())
      ensures response.Err? ==>
        searches == [] && State() == old(State()).(error := Some(StoreErrorMessage(response.error, "인기 검색어 로드 실패")))
      ensures Lists() == old(Lists())
    {
      sent := StoreEndpoints.PopularSearches;
      match response {
        case Ok(data) => searches := data;
        case Err(f) =>
          HandleError(f, "인기 검색어 로드 실패");
          searches := [];
      }
    }

    /** `fetchNearbyStores`; an error gives no stores and the cursor "0". */
    method FetchNearbyStores(latitude: string, longitude: string, maxDistance: string, next: string,
                             limit: int, orderBy: string, response: Result<(seq<StoreInfo>, string), Failure>)
      returns (stores: seq<StoreInfo>, cursor: string, sent: StoreEndpoints.StoreEndpoint)
      modifies this
      ensures sent == NearbyRequest(latitude, longitude, maxDistance, next, limit, orderBy)
      ensures response.Ok? ==> stores == response.value.0 && cursor == response.value.1 && State() == old(State())
      ensures response.Err? ==>
        stores == [] && cursor == NearbyFallbackCursor &&
        State() == old(State()).(error := Some(StoreErrorMessage(response.error, "주변 가게 로드 실패")))
      ensures Lists() == old(Lists())
    {
      sent := NearbyRequest(latitude, longitude, maxDistance, next, limit, orderBy);
      match response {
        case Ok(page) =>
          stores, cursor := page.0, page.1;
        case Err(f) =>
          HandleError(f, "주변 가게 로드 실패");
          stores, cursor := [], NearbyFallbackCursor;
      }
    }

    /** `fetchPopularStores`: the request never carries the category it is
      * given. */
    method FetchPopularStores(category: Option<string>, response: Result<seq<StoreInfo>, Failure>)
      returns (stores: seq<StoreInfo>, sent: StoreEndpoints.StoreEndpoint)
      modifies this
      ensures sent == StoreEndpoints.PopularStores(None)
      ensures response.Ok? ==> stores == response.value && State() == old(State())
      ensures response.Err? ==>
        stores == [] && State() == old(State()).(error := Some(StoreErrorMessage(response.error, "인기 가게 로드 실패")))
      ensures Lists() == old(Lists())
    {
      sent := StoreEndpoints.PopularStores(None);
      match response {
        case Ok(data) => stores := data;
        case Err(f) =>
          HandleError(f, "인기 가게 로드 실패");
          stores := [];
      }
    }

    /** `fetchDetail`; an error gives the empty detail. */
    method FetchDetail(storeId: string, response: Result<StoreDetail, Failure>)
      returns (detail: StoreDetail, sent: StoreEndpoints.StoreEndpoint)
      modifies this
      ensures sent == StoreEndpoints.StoreDetail(storeId)
      ensures response.Ok? ==> detail == response.value && State() == old(State())
      ensures response.Err? ==>
        detail == EmptyStoreDetail() &&
        State() == old(State()).(error := Some(StoreErrorMessage(response.error, "가게 상세 정보 로드 실패")))
      ensures Lists() == old(Lists())
    {
      sent := StoreEndpoints.StoreDetail(storeId);
      match response {
        case Ok(d) => detail := d;
        case Err(f) =>
          HandleError(f, "가게 상세 정보 로드 실패");
          detail := EmptyStoreDetail();
      }
    }
  }
}
