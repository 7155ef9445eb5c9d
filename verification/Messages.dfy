/** The identifiers, notifications and responses exchanged between a room and its clients. */
module Messages {

  type ClientId = nat
  type UserId = nat
  type BroadcastId = nat

  datatype BroadcastKind = Audio | Video

  /** A broadcast name together with what the runtime's lower-casing makes of it. */
  datatype Name = Name(text: string, lower: string)

  datatype UserEntry = UserEntry(clientId: ClientId, userId: UserId)

  datatype BroadcastEntry = BroadcastEntry(clientId: ClientId, broadcastId: BroadcastId, kind: BroadcastKind,
                                           name: string)

  datatype Notify =
    | NotifyUsers(users: seq<UserEntry>)
    | NotifyBroadcasts(broadcasts: seq<BroadcastEntry>)
    | NotifyUserJoined(user: UserEntry)
    | NotifyUserLeft(clientId: ClientId)
    | NotifyBroadcastStarted(broadcast: BroadcastEntry)
    | NotifyBroadcastEnded(broadcastId: BroadcastId)

  datatype Response =
    | Success
    | RoomNotJoined
    | InternalError
    | BroadcastAlreadySubscribed
    | BroadcastAlreadyRunning(runningId: BroadcastId)
    | BroadcastStarted(startedId: BroadcastId)
    | BroadcastUnknownId
}
