// The chat model: the room list, the message list of the open room with
// cursor paging towards older messages, and optimistic sending.
module ChatModels {
  import opened Wrappers
  import opened NetworkTypes
  import opened ChatEntities
  import ChatEndpoints
  import Seqs

  /** A full page; a shorter one means there is nothing older. */
  const PageSize: nat := 20

  /** The sender shown on messages this client has just written. */
  const Me := ChatParticipant("", "나", None)

  /** The cursor for the next page: the creation time of a page's last
    * message, or none for an empty page. */
  function PageCursor(page: seq<Chat>): (r: Option<string>)
    ensures r.None? <==> page == []
    ensures r.Some? ==> r.value == page[|page| - 1].createdAt
  {
    if page == [] then None else Some(page[|page| - 1].createdAt)
  }

  /** The placeholder appended before the server has answered. */
  function TempMessage(roomId: string, content: string, tempId: string, now: string): (c: Chat)
    ensures c.chatId == tempId && c.roomId == roomId && c.content == content
    ensures c.sender == Me && c.files.None? && c.sendState == Some(Sending)
  {
    Chat(tempId, roomId, content, now, Me, None, Some(Sending))
  }

  function IndexOfChat(messages: seq<Chat>, chatId: string): Option<nat>
  {
    Seqs.FirstIndexWhere(messages, (m: Chat) => m.chatId == chatId)
  }

  /** What the answer to a send does to the list: the first message with the
    * temporary id becomes the server's message when one was delivered, or
    * is marked failed otherwise; without such a message nothing changes. */
  function Settled(messages: seq<Chat>, tempId: string, delivered: Option<Chat>): (r: seq<Chat>)
    ensures |r| == |messages|
    ensures forall j :: 0 <= j < |messages| && messages[j].chatId != tempId ==> r[j] == messages[j]
    ensures forall j :: 0 <= j < |messages| && messages[j].chatId == tempId ==>
      (forall k :: 0 <= k < j ==> messages[k].chatId != tempId) ==>
        r[j] == (if delivered.Some? then delivered.value else messages[j].(sendState := Some(Failed)))
    ensures forall j :: 0 <= j < |messages| && messages[j].chatId == tempId ==>
      (exists k :: 0 <= k < j && messages[k].chatId == tempId) ==> r[j] == messages[j]
  {
    match IndexOfChat(messages, tempId)
    case None => messages
    case Some(i) =>
      messages[i := if delivered.Some? then delivered.value else messages[i].(sendState := Some(Failed))]
  }

  function WithoutChat(messages: seq<Chat>, chatId: string): (r: seq<Chat>)
    ensures forall m :: m in r <==> m in messages && m.chatId != chatId
  {
    Seqs.Filter(messages, (m: Chat) => m.chatId != chatId)
  }

  /** Sending with a fresh temporary id and nothing in between: the
    * placeholder is the last message, and the answer settles exactly it. */
  lemma SendSettlesItsOwnPlaceholder(messages: seq<Chat>, roomId: string, content: string, tempId: string, now: string, delivered: Option<Chat>)
    requires forall m :: m in messages ==> m.chatId != tempId
    ensures delivered.Some? ==>
      Settled(messages + [TempMessage(roomId, content, tempId, now)], tempId, delivered) == messages + [delivered.value]
    ensures delivered.None? ==>
      Settled(messages + [TempMessage(roomId, content, tempId, now)], tempId, delivered)
        == messages + [TempMessage(roomId, content, tempId, now).(sendState := Some(Failed))]
  {
    var s := messages + [TempMessage(roomId, content, tempId, now)];
    assert forall k :: 0 <= k < |messages| ==> s[k] == messages[k] && s[k] in messages;
    assert s[|messages|].chatId == tempId;
    var r := IndexOfChat(s, tempId);
    assert r.Some? && r.value == |messages|;
  }

  /** Settling changes no message but the placeholder's own entry. */
  lemma SettledKeepsOthers(messages: seq<Chat>, roomId: string, content: string, tempId: string, now: string, delivered: Option<Chat>)
    requires forall m :: m in messages ==> m.chatId != tempId
    ensures var r := Settled(messages + [TempMessage(roomId, content, tempId, now)], tempId, delivered);
      |r| == |messages| + 1 && r[..|messages|] == messages
  {
    SendSettlesItsOwnPlaceholder(messages, roomId, content, tempId, now, delivered);
  }

  /** Deleting works piecewise, so the remaining messages keep their order;
    * deleting an id no message has changes nothing. */
  lemma {:induction false} DeleteKeepsOrder(xs: seq<Chat>, ys: seq<Chat>, chatId: string)
    ensures WithoutChat(xs + ys, chatId) == WithoutChat(xs, chatId) + WithoutChat(ys, chatId)
    ensures (forall j :: 0 <= j < |xs| ==> xs[j].chatId != chatId) ==> WithoutChat(xs, chatId) == xs
  {
    Seqs.FilterOfConcat(xs, ys, (m: Chat) => m.chatId != chatId);
    if forall j :: 0 <= j < |xs| ==> xs[j].chatId != chatId {
      Seqs.FilterKeepsAll(xs, (m: Chat) => m.chatId != chatId);
    }
  }

  class ChatModel {
    var rooms: seq<ChatRoom>
    var isLoadingRooms: bool
    var roomsError: Option<string>
    var messages: seq<Chat>
    var isPaging: bool
    var hasMore: bool
    var nextCursor: Option<string>

    constructor()
      ensures rooms == [] && !isLoadingRooms && roomsError.None?
      ensures messages == [] && !isPaging && hasMore && nextCursor.None?
    {
      rooms := [];
      isLoadingRooms := false;
      roomsError := None;
      messages := [];
      isPaging := false;
      hasMore := true;
      nextCursor := None;
    }

    /** The rooms request, with its answer given: the rooms on success, the
      * error's description otherwise; loading is over either way. */
    method FetchRooms(response: Result<seq<ChatRoomDto>, string>) returns (sent: ChatEndpoints.ChatEndpoint)
      modifies this
      ensures sent == ChatEndpoints.FetchRooms
      ensures !isLoadingRooms
      ensures response.Ok? ==> rooms == RoomsFromDtos(response.value) && roomsError.None?
      ensures response.Err? ==> rooms == old(rooms) && roomsError == Some(response.error)
      ensures messages == old(messages) && isPaging == old(isPaging)
      ensures hasMore == old(hasMore) && nextCursor == old(nextCursor)
    {
      sent := ChatEndpoints.FetchRooms;
      isLoadingRooms := true;
      roomsError := None;
      match response {
        case Ok(dtos) =>
          rooms := RoomsFromDtos(dtos);
        case Err(description) =>
          roomsError := Some(description);
      }
      isLoadingRooms := false;
    }

    /** The first page of a room: on success it replaces the list; a failure
      * changes nothing but the paging flag. */
    method LoadInitialMessages(roomId: string, response: Result<seq<ChatDto>, ClientError>)
      returns (sent: ChatEndpoints.ChatEndpoint)
      modifies this
      ensures sent == ChatEndpoints.FetchMessages(roomId, None)
      ensures !isPaging
      ensures response.Ok? ==>
        var page := ChatsFromDtos(response.value);
        messages == page && nextCursor == PageCursor(page) && (hasMore <==> |page| == PageSize)
      ensures response.Err? ==>
        messages == old(messages) && nextCursor == old(nextCursor) && hasMore == old(hasMore)
      ensures rooms == old(rooms) && isLoadingRooms == old(isLoadingRooms) && roomsError == old(roomsError)
    {
      sent := ChatEndpoints.FetchMessages(roomId, None);
      isPaging := true;
      match response {
        case Ok(dtos) =>
          var page := ChatsFromDtos(dtos);
          messages := page;
          nextCursor := PageCursor(page);
          hasMore := |page| == PageSize;
        case Err(_) =>
      }
      isPaging := false;
    }

    /** The next older page, asked for with the stored cursor; nothing
      * happens unless more pages exist and no load is running. */
    method LoadMoreMessages(roomId: string, response: Result<seq<ChatDto>, ClientError>)
      returns (sent: Option<ChatEndpoints.ChatEndpoint>)
      modifies this
      ensures !(old(hasMore) && !old(isPaging)) ==>
        sent.None? && messages == old(messages) && isPaging == old(isPaging)
        && hasMore == old(hasMore) && nextCursor == old(nextCursor)
      ensures old(hasMore) && !old(isPaging) ==>
        sent == Some(ChatEndpoints.FetchMessages(roomId, old(nextCursor))) && !isPaging
      ensures old(hasMore) && !old(isPaging) && response.Ok? ==>
        var page := ChatsFromDtos(response.value);
        messages == page + old(messages) && nextCursor == PageCursor(page) && (hasMore <==> |page| == PageSize)
      ensures old(hasMore) && !old(isPaging) && response.Err? ==>
        messages == old(messages) && nextCursor == old(nextCursor) && hasMore == old(hasMore)
      ensures rooms == old(rooms) && isLoadingRooms == old(isLoadingRooms) && roomsError == old(roomsError)
    {
      if !hasMore || isPaging {
        return None;
      }
      sent := Some(ChatEndpoints.FetchMessages(roomId, nextCursor));
      isPaging := true;
      match response {
        case Ok(dtos) =>
          var page := ChatsFromDtos(dtos);
          messages := page + messages;
          nextCursor := PageCursor(page);
          hasMore := |page| == PageSize;
        case Err(_) =>
      }
      isPaging := false;
    }

    /** First half of an optimistic send: the placeholder goes to the end of
      * the list and the request is sent. `tempId` and `now` stand for the
      * fresh UUID and the current time. */
    method BeginSend(roomId: string, content: string, tempId: string, now: string)
      returns (sent: ChatEndpoints.ChatEndpoint)
      modifies this
      ensures sent == ChatEndpoints.SendMessage(roomId, content, None)
      ensures messages == old(messages) + [TempMessage(roomId, content, tempId, now)]
      ensures rooms == old(rooms) && isLoadingRooms == old(isLoadingRooms) && roomsError == old(roomsError)
      ensures isPaging == old(isPaging) && hasMore == old(hasMore) && nextCursor == old(nextCursor)
    {
      messages := messages + [TempMessage(roomId, content, tempId, now)];
      sent := ChatEndpoints.SendMessage(roomId, content, None);
    }

    /** Second half, when the answer arrives: the list may have changed in
      * between, so the placeholder is looked up again by its id. */
    method FinishSend(tempId: string, response: Result<ChatDto, ClientError>)
      modifies this
      ensures messages == Settled(old(messages), tempId, if response.Ok? then Some(ChatFromDto(response.value)) else None)
      ensures rooms == old(rooms) && isLoadingRooms == old(isLoadingRooms) && roomsError == old(roomsError)
      ensures isPaging == old(isPaging) && hasMore == old(hasMore) && nextCursor == old(nextCursor)
    {
      var idx := IndexOfChat(messages, tempId);
      match idx {
        case None =>
        case Some(i) =>
          match response {
            case Ok(dto) =>
              messages := messages[i := ChatFromDto(dto)];
            case Err(_) =>
              messages := messages[i := messages[i].(sendState := Some(Failed))];
          }
      }
    }

    /** A whole send with nothing happening in between. */
    method SendMessage(roomId: string, content: string, tempId: string, now: string, response: Result<ChatDto, ClientError>)
      returns (sent: ChatEndpoints.ChatEndpoint)
      modifies this
      ensures sent == ChatEndpoints.SendMessage(roomId, content, None)
      ensures messages == Settled(old(messages) + [TempMessage(roomId, content, tempId, now)], tempId,
        if response.Ok? then Some(ChatFromDto(response.value)) else None)
      ensures rooms == old(rooms) && isLoadingRooms == old(isLoadingRooms) && roomsError == old(roomsError)
      ensures isPaging == old(isPaging) && hasMore == old(hasMore) && nextCursor == old(nextCursor)
    {
      sent := BeginSend(roomId, content, tempId, now);
      FinishSend(tempId, response);
    }

    /** Resending sends the message's text again as a new message; the
      * original entry stays where it is. */
    method ResendMessage(message: Chat, tempId: string, now: string, response: Result<ChatDto, ClientError>)
      returns (sent: ChatEndpoints.ChatEndpoint)
      modifies this
      ensures sent == ChatEndpoints.SendMessage(message.roomId, message.content, None)
      ensures (forall m :: m in old(messages) ==> m.chatId != tempId) ==>
        |messages| == |old(messages)| + 1 && messages[..|old(messages)|] == old(messages)
        && messages[|old(messages)|].chatId == (if response.Ok? then response.value.chatId else tempId)
      ensures rooms == old(rooms) && isLoadingRooms == old(isLoadingRooms) && roomsError == old(roomsError)
      ensures isPaging == old(isPaging) && hasMore == old(hasMore) && nextCursor == old(nextCursor)
    {
      ghost var before := messages;
      sent := SendMessage(message.roomId, message.content, tempId, now, response);
      if forall m :: m in before ==> m.chatId != tempId {
        SendSettlesItsOwnPlaceholder(before, message.roomId, message.content, tempId, now,
          if response.Ok? then Some(ChatFromDto(response.value)) else None);
      }
    }

    /** Removes every message with the given message's id. */
    method DeleteMessage(message: Chat)
      modifies this
      ensures messages == WithoutChat(old(messages), message.chatId)
      ensures rooms == old(rooms) && isLoadingRooms == old(isLoadingRooms) && roomsError == old(roomsError)
      ensures isPaging == old(isPaging) && hasMore == old(hasMore) && nextCursor == old(nextCursor)
    {
      messages := WithoutChat(messages, message.chatId);
    }
  }
}
