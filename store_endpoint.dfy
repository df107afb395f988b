// The store endpoint table: one enum case per store request, mapped to its
// path, method, query items, headers and body.
module StoreEndpoints {
  import opened Wrappers
  import opened NetworkTypes
  import Text

  /** The `Double` arguments of `storeList` are carried as the text that
    * `String(Double)` renders for them. */
  datatype StoreEndpoint =
    | StoreList(category: Option<string>, longitude: Option<string>, latitude: Option<string>,
                maxDistance: Option<string>, next: Option<string>, limit: Option<int>, orderBy: Option<string>)
    | StoreDetail(storeId: string)
    | StoreLike(storeId: string, likeStatus: bool)
    | SearchStores(name: string)
    | PopularStores(popularCategory: Option<string>)
    | PopularSearches
    | MyLikedStores(likedCategory: Option<string>, likedNext: Option<string>, likedLimit: Option<string>)
    | UserReviews(userId: string, reviewCategory: Option<string>, reviewNext: Option<string>, reviewLimit: Option<int>)

  function Path(e: StoreEndpoint): (p: string)
    ensures "/stores" <= p
    ensures e.StoreDetail? ==> p == "/stores/" + e.storeId
    ensures e.StoreLike? ==> p == "/stores/" + e.storeId + "/like"
    ensures e.UserReviews? ==> p == "/stores/reviews/users/" + e.userId
  {
    match e
    case StoreList(_, _, _, _, _, _, _) => "/stores"
    case StoreDetail(id) => "/stores/" + id
    case StoreLike(id, _) => "/stores/" + id + "/like"
    case SearchStores(_) => "/stores/search"
    case PopularStores(_) => "/stores/popular-stores"
    case PopularSearches => "/stores/searches-popular"
    case MyLikedStores(_, _, _) => "/stores/likes/me"
    case UserReviews(u, _, _, _) => "/stores/reviews/users/" + u
  }

  function Method(e: StoreEndpoint): (m: NetworkMethod)
    ensures m == Post <==> e.StoreLike?
    ensures m != Post ==> m == Get
  {
    if e.StoreLike? then Post else Get
  }

  /** A query item that is sent only when its argument is present. */
  datatype Candidate = Candidate(name: string, value: Option<string>)

  /** The present candidates, in the order given: the reference definition
    * of the successive `if let … { append }` blocks. */
  function PresentItems(cs: seq<Candidate>): (r: seq<QueryItem>)
    ensures |r| <= |cs|
  {
    if cs == [] then []
    else
      var rest := PresentItems(cs[1..]);
      if cs[0].value.Some? then [QueryItem(cs[0].name, cs[0].value.value)] + rest else rest
  }

  /** An item is sent exactly for each present candidate, and none are sent
    * when every argument is absent. */
  lemma {:induction false} PresentItemsExactly(cs: seq<Candidate>)
    ensures PresentItems(cs) == [] <==> forall i :: 0 <= i < |cs| ==> cs[i].value.None?
    ensures forall q :: q in PresentItems(cs) <==> Candidate(q.name, Some(q.value)) in cs
  {
    if cs != [] {
      PresentItemsExactly(cs[1..]);
      assert cs == [cs[0]] + cs[1..];
      forall i | 1 <= i < |cs| ensures cs[i] == cs[1..][i - 1] { }
    }
  }

  /** `queryItems.isEmpty ? nil : queryItems`. */
  function NilIfEmpty(items: seq<QueryItem>): (r: Option<seq<QueryItem>>)
    ensures r.None? <==> items == []
    ensures r.Some? ==> r.value == items
  {
    if items == [] then None else Some(items)
  }

  function MapOption(o: Option<int>): Option<string>
  {
    match o
    case None => None
    case Some(n) => Some(Text.DecimalString(n))
  }

  /** The candidate query items of the three list cases, in the order the
    * source appends them. */
  function Candidates(e: StoreEndpoint): seq<Candidate>
  {
    match e
    case StoreList(c, lon, lat, d, n, l, o) =>
      [Candidate("category", c), Candidate("longitude", lon), Candidate("latitude", lat),
       Candidate("maxDistance", d), Candidate("next", n), Candidate("limit", MapOption(l)),
       Candidate("order_by", o)]
    case MyLikedStores(c, n, l) =>
      [Candidate("category", c), Candidate("next", n), Candidate("limit", l)]
    case UserReviews(_, c, n, l) =>
      [Candidate("category", c), Candidate("next", n), Candidate("limit", MapOption(l))]
    case _ => []
  }

  /** The `parameters` table. */
  function Parameters(e: StoreEndpoint): (p: Option<seq<QueryItem>>)
    ensures e.SearchStores? ==> p == Some([QueryItem("name", e.name)])
    ensures e.PopularStores? ==>
      p == (if e.popularCategory.None? then None else Some([QueryItem("category", e.popularCategory.value)]))
    ensures e.StoreDetail? || e.StoreLike? || e.PopularSearches? ==> p.None?
    ensures p.Some? ==> p.value != []
  {
    match e
    case SearchStores(n) => Some([QueryItem("name", n)])
    case PopularStores(c) => if c.None? then None else Some([QueryItem("category", c.value)])
    case StoreDetail(_) => None
    case StoreLike(_, _) => None
    case PopularSearches => None
    case _ => NilIfEmpty(PresentItems(Candidates(e)))
  }

  /** One `if let … { queryItems.append(…) }` block; it handles candidate
    * `k` of the list `cs`. */
  method AppendIfPresent(items: seq<QueryItem>, name: string, value: Option<string>,
                         ghost cs: seq<Candidate>, ghost k: nat)
    returns (r: seq<QueryItem>)
    requires k < |cs| && cs[k] == Candidate(name, value)
    ensures r + PresentItems(cs[k + 1..]) == items + PresentItems(cs[k..])
  {
    assert cs[k..][0] == cs[k] && cs[k..][1..] == cs[k + 1..];
    r := items;
    if value.Some? {
      r := r + [QueryItem(name, value.value)];
    }
  }

  /** The `storeList` block of the `parameters` getter. */
  method BuildStoreListItems(e: StoreEndpoint) returns (items: seq<QueryItem>)
    requires e.StoreList?
    ensures items == PresentItems(Candidates(e))
  {
    ghost var cs := Candidates(e);
    assert cs == [Candidate("category", e.category), Candidate("longitude", e.longitude),
                  Candidate("latitude", e.latitude), Candidate("maxDistance", e.maxDistance),
                  Candidate("next", e.next), Candidate("limit", MapOption(e.limit)),
                  Candidate("order_by", e.orderBy)];
    items := [];
    assert cs[0..] == cs;
    items := AppendIfPresent(items, "category", e.category, cs, 0);
    assert items + PresentItems(cs[1..]) == PresentItems(cs);
    items := AppendIfPresent(items, "longitude", e.longitude, cs, 1);
    assert items + PresentItems(cs[2..]) == PresentItems(cs);
    items := AppendIfPresent(items, "latitude", e.latitude, cs, 2);
    assert items + PresentItems(cs[3..]) == PresentItems(cs);
    items := AppendIfPresent(items, "maxDistance", e.maxDistance, cs, 3);
    assert items + PresentItems(cs[4..]) == PresentItems(cs);
    items := AppendIfPresent(items, "next", e.next, cs, 4);
    assert items + PresentItems(cs[5..]) == PresentItems(cs);
    items := AppendIfPresent(items, "limit", MapOption(e.limit), cs, 5);
    assert items + PresentItems(cs[6..]) == PresentItems(cs);
    items := AppendIfPresent(items, "order_by", e.orderBy, cs, 6);
    assert cs[7..] == [];
    assert items + PresentItems(cs[7..]) == PresentItems(cs);
  }

  /** The `myLikedStores` and `userReviews` blocks of the getter. */
  method BuildFilterItems(e: StoreEndpoint) returns (items: seq<QueryItem>)
    requires e.MyLikedStores? || e.UserReviews?
    ensures items == PresentItems(Candidates(e))
  {
    ghost var cs := Candidates(e);
    assert |cs| == 3;
    var category := if e.MyLikedStores? then e.likedCategory else e.reviewCategory;
    var next := if e.MyLikedStores? then e.likedNext else e.reviewNext;
    var limit := if e.MyLikedStores? then e.likedLimit else MapOption(e.reviewLimit);
    items := [];
    items := AppendIfPresent(items, "category", category, cs, 0);
    items := AppendIfPresent(items, "next", next, cs, 1);
    items := AppendIfPresent(items, "limit", limit, cs, 2);
    assert cs[3..] == [] && cs[0..] == cs;
    assert items + PresentItems(cs[3..]) == PresentItems(cs);
  }

  /** The `parameters` getter as the source writes it: the list cases build
    * a local array by successive appends and send nil for an empty one. */
  method BuildParameters(e: StoreEndpoint) returns (p: Option<seq<QueryItem>>)
    ensures p == Parameters(e)
  {
    if e.StoreList? {
      var items := BuildStoreListItems(e);
      p := if items == [] then None else Some(items);
    } else if e.MyLikedStores? || e.UserReviews? {
      var items := BuildFilterItems(e);
      p := if items == [] then None else Some(items);
    } else if e.SearchStores? {
      p := Some([QueryItem("name", e.name)]);
    } else if e.PopularStores? {
      if e.popularCategory.None? {
        p := None;
      } else {
        p := Some([QueryItem("category", e.popularCategory.value)]);
      }
    } else {
      p := None;
    }
  }

  function Headers(env: Environment, e: StoreEndpoint): (h: map<string, string>)
    ensures h.Keys == {"Content-Type", "SeSACKey"}
    ensures h["Content-Type"] == "application/json" && h["SeSACKey"] == env.apiKey
  {
    JsonHeaders(env)
  }

  function BodyOf(e: StoreEndpoint): (b: Option<Body>)
    ensures b.Some? <==> e.StoreLike?
    ensures e.StoreLike? ==> b == Some(StoreLikeBody(e.likeStatus))
  {
    if e.StoreLike? then Some(StoreLikeBody(e.likeStatus)) else None
  }

  /** The descriptor the network service reads; store requests use the
    * versioned base URL. */
  function Describe(env: Environment, e: StoreEndpoint): (d: Endpoint)
    ensures d.baseUrl == env.baseUrlV1
    ensures d.path == Path(e) && d.networkMethod == Method(e) && d.parameters == Parameters(e)
    ensures d.headers == Some(Headers(env, e)) && d.body == BodyOf(e)
  {
    Endpoint(env.baseUrlV1, Path(e), Method(e), Parameters(e), Some(Headers(env, e)), BodyOf(e))
  }

  /** With no argument present a store list request sends no query at all. */
  lemma StoreListWithoutArguments()
    ensures Parameters(StoreList(None, None, None, None, None, None, None)) == None
  {
  }
}
