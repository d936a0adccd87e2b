/** Identifiers and records shared by the signaling server and the browser client. */
module Common {

  /** The transport-assigned id of one live socket connection (`socket.id`). */
  type SocketId = string

  /** The meeting key a client sends with its socket events. */
  type MeetingId = string

  /** A participant row id handed out by the meeting store. */
  type ParticipantId = int

  /** An offer, answer or ICE candidate; the signaling layer never looks inside one. */
  type Payload = string

  datatype Option<T> = None | Some(value: T)

  /** One element of the `room-users` list: a socket and the participant sitting on it. */
  datatype RoomUser = RoomUser(socketId: SocketId, id: ParticipantId, name: string)

  /** No element occurs twice in `s`. */
  predicate NoDup<T(==)>(s: seq<T>)
  {
    forall i, j :: 0 <= i < j < |s| ==> s[i] != s[j]
  }
}
