/**
 * The Socket.IO signaling handlers of the meeting server.
 *
 * The server keeps one live registry, `rooms`: for every meeting key a room that maps each socket
 * in it to the participant record `{id, name}` the socket joined with. The handlers `join-room`,
 * `leave-room` and `disconnect` edit that registry in place; `offer`, `answer` and `ice-candidate`
 * forward an opaque payload to one socket; `chat-message` fans a message out to the whole room.
 *
 * What the handlers send is recorded in an append-only outbox of (event, recipients, data);
 * the recipient forms are the four the handlers use. Delivery itself is the transport's business.
 */
module Signaling {
  import opened Common

  /** What `join-room` stores for a socket. */
  datatype User = User(id: ParticipantId, name: string)

  type Room = map<SocketId, User>

  type Rooms = map<MeetingId, Room>

  /** Who an emit is addressed to. */
  datatype Recipient =
    | RoomExceptSender(meeting: MeetingId, sender: SocketId)    // socket.to(`room:${meetingId}`)
    | WholeRoom(meeting: MeetingId)                             // io.to(`room:${meetingId}`)
    | SenderOnly(sender: SocketId)                              // socket.emit
    | SocketExceptSender(target: SocketId, sender: SocketId)    // socket.to(targetSocketId)

  datatype RelayKind = Offer | Answer | IceCandidate

  /** The data of each event the handlers send. */
  datatype Message =
    | UserJoined(socketId: SocketId, participantId: ParticipantId, participantName: string)
    | RoomUsers(users: seq<RoomUser>)
    | Relayed(kind: RelayKind, payload: Payload, from: SocketId)
    | ChatMessage(senderName: string, content: string, time: string)
    | UserLeft(socketId: SocketId)

  datatype Emit = Emit(event: string, to: Recipient, data: Message)

  function RelayEvent(kind: RelayKind): string
  {
    match kind
    case Offer => "offer"
    case Answer => "answer"
    case IceCandidate => "ice-candidate"
  }

  /** The registry invariant: no stored room is empty. */
  ghost predicate AllNonEmpty(rooms: Rooms)
  {
    forall m :: m in rooms ==> rooms[m] != map[]
  }

  /** `rooms.get(m) || new Map()` */
  function RoomOf(rooms: Rooms, m: MeetingId): Room
  {
    if m in rooms then rooms[m] else map[]
  }

  /** The meetings whose room holds socket `s`. */
  ghost function RoomsOf(rooms: Rooms, s: SocketId): set<MeetingId>
  {
    set m | m in rooms && s in rooms[m]
  }

  /** `users` lists every entry of `room` exactly once, as `{socketId, id, name}`. */
  ghost predicate ListsRoom(users: seq<RoomUser>, room: Room)
  {
    && |users| == |room|
    && (forall i :: 0 <= i < |users| ==>
          users[i].socketId in room && room[users[i].socketId] == User(users[i].id, users[i].name))
    && (forall s :: s in room ==> exists i :: 0 <= i < |users| && users[i].socketId == s)
    && (forall i, j :: 0 <= i < j < |users| ==> users[i].socketId != users[j].socketId)
  }

  /** One `user-left` notice to the whole room of each meeting in `ms`, in that order. */
  function UserLeftNotices(ms: seq<MeetingId>, s: SocketId): seq<Emit>
  {
    seq(|ms|, i requires 0 <= i < |ms| => Emit("user-left", WholeRoom(ms[i]), UserLeft(s)))
  }

  lemma RemoveEmpty(room: Room, s: SocketId)
    ensures room - {s} == map[] <==> room.Keys <= {s}
  {
    if room.Keys <= {s} {
      assert (room - {s}).Keys == {};
    } else {
      var t :| t in room && t != s;
      assert t in room - {s};
    }
  }

  lemma RemoveEmptyAll(rooms: Rooms, s: SocketId)
    ensures forall m :: m in rooms ==> (rooms[m] - {s} == map[] <==> rooms[m].Keys <= {s})
  {
    forall m | m in rooms ensures rooms[m] - {s} == map[] <==> rooms[m].Keys <= {s} {
      RemoveEmpty(rooms[m], s);
    }
  }

  /** The registry after `join-room` of socket `s` into meeting `m` as participant `u`. */
  function AfterJoin(rooms: Rooms, m: MeetingId, s: SocketId, u: User): (r: Rooms)
    ensures m in r && s in r[m] && r[m][s] == u
    ensures r.Keys == rooms.Keys + {m}
    ensures forall m' :: m' in rooms && m' != m ==> r[m'] == rooms[m']
    ensures r[m].Keys == RoomOf(rooms, m).Keys + {s}
    ensures forall t :: t in RoomOf(rooms, m) && t != s ==> r[m][t] == rooms[m][t]
    ensures AllNonEmpty(rooms) ==> AllNonEmpty(r)
  {
    rooms[m := RoomOf(rooms, m)[s := u]]
  }

  /** The registry after `leave-room` of socket `s` from meeting `m`. */
  function AfterLeave(rooms: Rooms, m: MeetingId, s: SocketId): (r: Rooms)
    ensures m !in rooms ==> r == rooms
    ensures r.Keys == if m in rooms && rooms[m].Keys <= {s} then rooms.Keys - {m} else rooms.Keys
    ensures m in r ==> r[m] == rooms[m] - {s}
    ensures forall m' :: m' in rooms && m' != m ==> r[m'] == rooms[m']
    ensures AllNonEmpty(rooms) ==> AllNonEmpty(r)
  {
    if m !in rooms then rooms
    else
      var room := rooms[m] - {s};
      RemoveEmpty(rooms[m], s);
      if room == map[] then rooms - {m} else rooms[m := room]
  }

  /** The registry after `disconnect` of socket `s`. */
  function AfterDisconnect(rooms: Rooms, s: SocketId): (r: Rooms)
    ensures forall m :: m in r ==> s !in r[m]
    ensures forall m :: m in rooms && s !in rooms[m] ==> m in r && r[m] == rooms[m]
    ensures forall m :: m in rooms && s in rooms[m] ==> (m in r <==> !(rooms[m].Keys <= {s}))
    ensures forall m :: m in r ==> m in rooms && r[m] == rooms[m] - {s}
    ensures AllNonEmpty(rooms) ==> AllNonEmpty(r)
  {
    RemoveEmptyAll(rooms, s);
    map m | m in rooms && (s !in rooms[m] || rooms[m] - {s} != map[]) :: rooms[m] - {s}
  }

  /** `leave-room` of socket `s` from each meeting of `ms` in turn. */
  function LeaveAll(rooms: Rooms, ms: seq<MeetingId>, s: SocketId): Rooms
  {
    if ms == [] then rooms else LeaveAll(AfterLeave(rooms, ms[0], s), ms[1..], s)
  }

  class Server {
    var rooms: Rooms
    var outbox: seq<Emit>

    ghost predicate Valid()
      reads this
    {
      AllNonEmpty(rooms)
    }

    constructor ()
      ensures rooms == map[] && outbox == [] && Valid()
    {
      rooms := map[];
      outbox := [];
    }

    /** The `room-users` list: every entry of `room` as `{socketId, id, name}`. */
    static method ListUsers(room: Room) returns (users: seq<RoomUser>)
      ensures ListsRoom(users, room)
    {
      users := [];
      var todo := room.Keys;
      while todo != {}
        invariant todo <= room.Keys
        invariant |users| + |todo| == |room|
        invariant forall i :: 0 <= i < |users| ==>
          users[i].socketId in room && users[i].socketId !in todo
          && room[users[i].socketId] == User(users[i].id, users[i].name)
        invariant forall t :: t in room && t !in todo ==> exists i :: 0 <= i < |users| && users[i].socketId == t
        invariant forall i, j :: 0 <= i < j < |users| ==> users[i].socketId != users[j].socketId
        decreases todo
      {
        var t :| t in todo;
        ghost var before := users;
        users := users + [RoomUser(t, room[t].id, room[t].name)];
        assert users[|before|].socketId == t;
        assert forall i :: 0 <= i < |before| ==> users[i] == before[i];
        todo := todo - {t};
      }
    }

    /** `join-room`: store the socket's participant, tell the others, send the joiner the room. */
    method JoinRoom(s: SocketId, m: MeetingId, participantId: ParticipantId, participantName: string)
      modifies this
      ensures rooms == AfterJoin(old(rooms), m, s, User(participantId, participantName))
      ensures old(Valid()) ==> Valid()
      ensures |outbox| == |old(outbox)| + 2 && outbox[..|old(outbox)|] == old(outbox)
      ensures outbox[|old(outbox)|]
        == Emit("user-joined", RoomExceptSender(m, s), UserJoined(s, participantId, participantName))
      ensures var e := outbox[|old(outbox)| + 1];
        e.event == "room-users" && e.to == SenderOnly(s) && e.data.RoomUsers? && ListsRoom(e.data.users, rooms[m])
    {
      var room := RoomOf(rooms, m)[s := User(participantId, participantName)];
      var users := ListUsers(room);
      rooms := rooms[m := room];
      assert rooms[m] == room;
      var joined := Emit("user-joined", RoomExceptSender(m, s), UserJoined(s, participantId, participantName));
      var listing := Emit("room-users", SenderOnly(s), RoomUsers(users));
      outbox := outbox + [joined, listing];
    }

    /** `offer`, `answer` and `ice-candidate`: forward the payload to the target socket only. */
    method Relay(kind: RelayKind, s: SocketId, m: MeetingId, payload: Payload, target: SocketId)
      modifies this`outbox
      ensures outbox == old(outbox) + [Emit(RelayEvent(kind), SocketExceptSender(target, s), Relayed(kind, payload, s))]
    {
      outbox := outbox + [Emit(RelayEvent(kind), SocketExceptSender(target, s), Relayed(kind, payload, s))];
    }

    /** `chat-message`: broadcast to the whole room, sender included; `time` is the stored row's timestamp. */
    method Chat(s: SocketId, m: MeetingId, senderName: string, content: string, time: string)
      modifies this`outbox
      ensures outbox == old(outbox) + [Emit("chat-message", WholeRoom(m), ChatMessage(senderName, content, time))]
    {
      outbox := outbox + [Emit("chat-message", WholeRoom(m), ChatMessage(senderName, content, time))];
    }

    /** `leave-room`: drop the socket from the meeting's room, drop the room once empty, tell the others. */
    method LeaveRoom(s: SocketId, m: MeetingId)
      modifies this
      ensures rooms == AfterLeave(old(rooms), m, s)
      ensures old(Valid()) ==> Valid()
      ensures outbox == old(outbox) + [Emit("user-left", RoomExceptSender(m, s), UserLeft(s))]
    {
      if m in rooms {
        var room := rooms[m] - {s};
        if room == map[] {
          rooms := rooms - {m};
        } else {
          rooms := rooms[m := room];
        }
      }
      outbox := outbox + [Emit("user-left", RoomExceptSender(m, s), UserLeft(s))];
    }

    /**
     * `disconnect`: visit every room; where the socket is present, remove it, notify that room and
     * drop the room once empty. `visited` is the order the rooms holding the socket were visited in.
     */
    method Disconnect(s: SocketId) returns (ghost visited: seq<MeetingId>)
      modifies this
      ensures rooms == AfterDisconnect(old(rooms), s)
      ensures old(Valid()) ==> Valid()
      ensures NoDup(visited) && (set m | m in visited) == RoomsOf(old(rooms), s)
      ensures outbox == old(outbox) + UserLeftNotices(visited, s)
    {
      ghost var r0 := rooms;
      visited := [];
      var pending := rooms.Keys;
      while pending != {}
        invariant pending <= r0.Keys
        invariant forall m :: m in rooms <==> m in r0 && (m in pending || s !in r0[m] || r0[m] - {s} != map[])
        invariant forall m :: m in rooms ==> rooms[m] == if m in pending then r0[m] else r0[m] - {s}
        invariant NoDup(visited)
        invariant forall m :: m in visited <==> m in r0 && m !in pending && s in r0[m]
        invariant outbox == old(outbox) + UserLeftNotices(visited, s)
        decreases pending
      {
        var m :| m in pending;
        var room := rooms[m];
        if s in room {
          room := room - {s};
          outbox := outbox + [Emit("user-left", WholeRoom(m), UserLeft(s))];
          visited := visited + [m];
          if room == map[] {
            rooms := rooms - {m};
          } else {
            rooms := rooms[m := room];
          }
        }
        pending := pending - {m};
      }
      assert rooms == AfterDisconnect(r0, s);
    }
  }

  /** A repeated `leave-room` changes nothing more. */
  lemma LeaveIdempotent(rooms: Rooms, m: MeetingId, s: SocketId)
    ensures AfterLeave(AfterLeave(rooms, m, s), m, s) == AfterLeave(rooms, m, s)
  {
    var once := AfterLeave(rooms, m, s);
    if m in once {
      assert once[m] - {s} == once[m];
    }
  }

  /** A second `disconnect` of the same socket changes nothing more. */
  lemma DisconnectIdempotent(rooms: Rooms, s: SocketId)
    ensures AfterDisconnect(AfterDisconnect(rooms, s), s) == AfterDisconnect(rooms, s)
  {
  }

  /** A socket that joins a meeting it was not in, and leaves it again, leaves the registry as it was. */
  lemma JoinThenLeave(rooms: Rooms, m: MeetingId, s: SocketId, u: User)
    requires m in rooms ==> s !in rooms[m] && rooms[m] != map[]
    ensures AfterLeave(AfterJoin(rooms, m, s, u), m, s) == rooms
  {
    var joined := AfterJoin(rooms, m, s, u);
    if m in rooms {
      assert joined[m] - {s} == rooms[m];
    }
  }

  /** A second `join-room` by the same socket replaces its own entry and nothing else. */
  lemma RejoinReplaces(rooms: Rooms, m: MeetingId, s: SocketId, u: User, v: User)
    ensures AfterJoin(AfterJoin(rooms, m, s, u), m, s, v) == AfterJoin(rooms, m, s, v)
  {
    var room := RoomOf(rooms, m);
    assert RoomOf(AfterJoin(rooms, m, s, u), m) == room[s := u];
    assert room[s := u][s := v] == room[s := v];
  }

  /** `join-room` grows the meeting's room by one exactly when the socket was not yet in it. */
  lemma JoinCount(rooms: Rooms, m: MeetingId, s: SocketId, u: User)
    ensures |AfterJoin(rooms, m, s, u)[m]| == |RoomOf(rooms, m)| + (if s in RoomOf(rooms, m) then 0 else 1)
  {
  }

  /** With no room holding the socket, `disconnect` leaves the registry as it is. */
  lemma DisconnectNowhere(rooms: Rooms, s: SocketId)
    requires RoomsOf(rooms, s) == {}
    ensures AfterDisconnect(rooms, s) == rooms
  {
    forall m | m in rooms ensures rooms[m] - {s} == rooms[m] {
      assert m !in RoomsOf(rooms, s);
    }
  }

  /** Leaving one room that holds the socket takes it off the socket's rooms and does not change what `disconnect` leaves. */
  lemma LeaveThenDisconnect(rooms: Rooms, s: SocketId, m: MeetingId)
    requires m in RoomsOf(rooms, s)
    ensures RoomsOf(AfterLeave(rooms, m, s), s) == RoomsOf(rooms, s) - {m}
    ensures AfterDisconnect(AfterLeave(rooms, m, s), s) == AfterDisconnect(rooms, s)
  {
  }

  lemma ElementsOfTail(ms: seq<MeetingId>)
    requires NoDup(ms) && ms != []
    ensures NoDup(ms[1..])
    ensures (set x | x in ms[1..]) == (set x | x in ms) - {ms[0]}
  {
    forall x | x in ms[1..] ensures x != ms[0] {
      var k :| 1 <= k < |ms| && ms[k] == x;
    }
    assert forall x :: x in ms <==> x == ms[0] || x in ms[1..];
  }

  /**
   * `disconnect` has the same effect on the registry as `leave-room` from each room that holds the
   * socket, taken in any order.
   */
  lemma {:induction false} DisconnectLeavesEveryRoom(rooms: Rooms, s: SocketId, ms: seq<MeetingId>)
    requires NoDup(ms) && (set m | m in ms) == RoomsOf(rooms, s)
    ensures AfterDisconnect(rooms, s) == LeaveAll(rooms, ms, s)
  {
    if ms == [] {
      DisconnectNowhere(rooms, s);
    } else {
      assert ms[0] in RoomsOf(rooms, s);
      LeaveThenDisconnect(rooms, s, ms[0]);
      ElementsOfTail(ms);
      DisconnectLeavesEveryRoom(AfterLeave(rooms, ms[0], s), s, ms[1..]);
    }
  }

}
