// Chat rooms, participants and messages, and the mapping from the server's
// response records to them. Dates stay in the server's text form.
module ChatEntities {
  import opened Wrappers

  datatype ChatSendState = Sending | Sent | Failed

  datatype ChatParticipant = ChatParticipant(userId: string, nick: string, profileImage: Option<string>)

  /** One message; `sendState` is only set on messages this client sent. */
  datatype Chat = Chat(
    chatId: string,
    roomId: string,
    content: string,
    createdAt: string,
    sender: ChatParticipant,
    files: Option<seq<string>>,
    sendState: Option<ChatSendState>)

  datatype ChatRoom = ChatRoom(
    roomId: string,
    participants: seq<ChatParticipant>,
    lastMessage: Option<Chat>,
    updatedAt: string,
    unreadCount: int)

  // Response records as the server sends them.
  datatype ParticipantDto = ParticipantDto(userId: string, nick: string, profileImage: Option<string>)

  datatype ChatDto = ChatDto(
    chatId: string,
    roomId: string,
    content: string,
    createdAt: string,
    sender: ParticipantDto,
    files: Option<seq<string>>)

  datatype ChatRoomDto = ChatRoomDto(
    roomId: string,
    participants: seq<ParticipantDto>,
    lastChat: Option<ChatDto>,
    updatedAt: string)

  function ParticipantFromDto(dto: ParticipantDto): (p: ChatParticipant)
    ensures p.userId == dto.userId && p.nick == dto.nick && p.profileImage == dto.profileImage
  {
    ChatParticipant(dto.userId, dto.nick, dto.profileImage)
  }

  /** A message from the server carries no send state. */
  function ChatFromDto(dto: ChatDto): (c: Chat)
    ensures c.chatId == dto.chatId && c.roomId == dto.roomId && c.content == dto.content
    ensures c.createdAt == dto.createdAt && c.files == dto.files
    ensures c.sender == ParticipantFromDto(dto.sender)
    ensures c.sendState.None?
  {
    Chat(dto.chatId, dto.roomId, dto.content, dto.createdAt, ParticipantFromDto(dto.sender), dto.files, None)
  }

  function ChatsFromDtos(dtos: seq<ChatDto>): (cs: seq<Chat>)
    ensures |cs| == |dtos|
    ensures forall i :: 0 <= i < |dtos| ==> cs[i] == ChatFromDto(dtos[i])
  {
    seq(|dtos|, i requires 0 <= i < |dtos| => ChatFromDto(dtos[i]))
  }

  /** The server sends no unread count, so every mapped room has zero. */
  function RoomFromDto(dto: ChatRoomDto): (r: ChatRoom)
    ensures r.roomId == dto.roomId && r.updatedAt == dto.updatedAt
    ensures |r.participants| == |dto.participants|
    ensures forall i :: 0 <= i < |dto.participants| ==> r.participants[i] == ParticipantFromDto(dto.participants[i])
    ensures r.lastMessage.Some? <==> dto.lastChat.Some?
    ensures dto.lastChat.Some? ==> r.lastMessage.value == ChatFromDto(dto.lastChat.value)
    ensures r.unreadCount == 0
  {
    ChatRoom(
      dto.roomId,
      seq(|dto.participants|, i requires 0 <= i < |dto.participants| => ParticipantFromDto(dto.participants[i])),
      if dto.lastChat.Some? then Some(ChatFromDto(dto.lastChat.value)) else None,
      dto.updatedAt,
      0)
  }

  function RoomsFromDtos(dtos: seq<ChatRoomDto>): (rs: seq<ChatRoom>)
    ensures |rs| == |dtos|
    ensures forall i :: 0 <= i < |dtos| ==> rs[i] == RoomFromDto(dtos[i])
  {
    seq(|dtos|, i requires 0 <= i < |dtos| => RoomFromDto(dtos[i]))
  }
}
