// The chat endpoint table: room and message requests under `/chats`.
module ChatEndpoints {
  import opened Wrappers
  import opened NetworkTypes
  import Text

  datatype ChatEndpoint =
    | CreateOrFetchRoom(opponentId: string)
    | FetchRooms
    | SendMessage(roomId: string, content: string, files: Option<seq<string>>)
    | FetchMessages(roomId: string, next: Option<string>)
    | UploadFiles(roomId: string, uploads: seq<string>)

  function Path(e: ChatEndpoint): (p: string)
    ensures "/chats" <= p
    ensures e.CreateOrFetchRoom? || e.FetchRooms? ==> p == "/chats"
    ensures e.SendMessage? || e.FetchMessages? ==> p == "/chats/" + e.roomId
    ensures e.UploadFiles? ==> p == "/chats/" + e.roomId + "/files"
  {
    match e
    case CreateOrFetchRoom(_) => "/chats"
    case FetchRooms => "/chats"
    case SendMessage(roomId, _, _) => "/chats/" + roomId
    case FetchMessages(roomId, _) => "/chats/" + roomId
    case UploadFiles(roomId, _) => "/chats/" + roomId + "/files"
  }

  function Method(e: ChatEndpoint): (m: NetworkMethod)
    ensures m == Get <==> e.FetchRooms? || e.FetchMessages?
    ensures m != Get ==> m == Post
  {
    match e
    case CreateOrFetchRoom(_) => Post
    case FetchRooms => Get
    case SendMessage(_, _, _) => Post
    case FetchMessages(_, _) => Get
    case UploadFiles(_, _) => Post
  }

  function Parameters(e: ChatEndpoint): (p: Option<seq<QueryItem>>)
    ensures p.Some? <==> e.FetchMessages? && e.next.Some?
    ensures p.Some? ==> p.value == [QueryItem("next", e.next.value)]
  {
    match e
    case FetchMessages(_, next) =>
      if next.Some? then Some([QueryItem("next", next.value)]) else None
    case _ => None
  }

  function Headers(env: Environment, e: ChatEndpoint): (h: map<string, string>)
    ensures h.Keys == {"Content-Type", "SeSACKey"} && h["SeSACKey"] == env.apiKey
    ensures h["Content-Type"] == (if e.UploadFiles? then "multipart/form-data" else "application/json")
  {
    if e.UploadFiles? then map["Content-Type" := "multipart/form-data", "SeSACKey" := env.apiKey]
    else JsonHeaders(env)
  }

  function BodyOf(e: ChatEndpoint): (b: Option<Body>)
    ensures b.Some? <==> e.CreateOrFetchRoom? || e.SendMessage? || e.UploadFiles?
    ensures e.CreateOrFetchRoom? ==> b == Some(ChatRoomCreateBody(e.opponentId))
    ensures e.SendMessage? ==> b == Some(ChatSendBody(e.content, e.files))
    ensures e.UploadFiles? ==> b == Some(ChatFilesUploadBody(e.uploads))
  {
    match e
    case CreateOrFetchRoom(opponentId) => Some(ChatRoomCreateBody(opponentId))
    case SendMessage(_, content, files) => Some(ChatSendBody(content, files))
    case UploadFiles(_, files) => Some(ChatFilesUploadBody(files))
    case _ => None
  }

  /** Chat requests use the versioned base URL. */
  function Describe(env: Environment, e: ChatEndpoint): (d: Endpoint)
    ensures d.baseUrl == env.baseUrlV1
    ensures d.path == Path(e) && d.networkMethod == Method(e) && d.parameters == Parameters(e)
    ensures d.headers == Some(Headers(env, e)) && d.body == BodyOf(e)
  {
    Endpoint(env.baseUrlV1, Path(e), Method(e), Parameters(e), Some(Headers(env, e)), BodyOf(e))
  }

  /** Two different chat requests never produce the same descriptor, even
    * the pairs that share a path (`/chats`, `/chats/{room}`). */
  lemma DescribeInjective(env: Environment, e1: ChatEndpoint, e2: ChatEndpoint)
    requires Describe(env, e1) == Describe(env, e2)
    ensures e1 == e2
  {
    var d := Describe(env, e1);
    if e1.SendMessage? || e1.FetchMessages? {
      assert e2.SendMessage? || e2.FetchMessages?;
      Text.CancelAffixes("/chats/", e1.roomId, e2.roomId, "");
    } else if e1.UploadFiles? {
      assert e2.UploadFiles?;
      Text.CancelAffixes("/chats/", e1.roomId, e2.roomId, "/files");
    }
  }
}
