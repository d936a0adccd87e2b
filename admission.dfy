/**
 * The admission rules of the two HTTP routes `POST /api/meetings` (create a meeting) and
 * `POST /api/meetings/:id/join` (join one), over an abstract view of the meeting store.
 *
 * The store is two tables, meetings and participants. Both are created empty when the server
 * starts and rows are only ever appended, so the AUTOINCREMENT id of the row at index k is k + 1;
 * the model keeps each table as a sequence and derives ids that way.
 */
module Admission {
  import opened Common

  datatype Status = Waiting | Ongoing | Ended

  datatype Meeting = Meeting(title: string, hostName: string, meetingNo: string, password: Option<string>, status: Status)

  datatype Participant = Participant(meetingId: nat, name: string, isHost: bool)

  datatype Store = Store(meetings: seq<Meeting>, participants: seq<Participant>)

  /** The route's answer: a success body, or an HTTP error status. */
  datatype Response =
    | MeetingCreated(meetingId: nat)
    | JoinAccepted(participantId: nat, meetingNo: string)
    | Failure(code: nat)

  /** A request field that JavaScript treats as present: supplied and not the empty string. */
  predicate Given(x: Option<string>)
  {
    x.Some? && x.value != ""
  }

  /** `getMeetingById`: the row whose id is `id`, if any. */
  function MeetingById(store: Store, id: int): Option<Meeting>
  {
    if 1 <= id <= |store.meetings| then Some(store.meetings[id - 1]) else None
  }

  predicate NumberTaken(store: Store, meetingNo: string)
  {
    exists k :: 0 <= k < |store.meetings| && store.meetings[k].meetingNo == meetingNo
  }

  /** A meeting lets in a joiner who supplies `password`: it has no password, or the same one. */
  predicate Admits(meeting: Meeting, password: Option<string>)
  {
    !Given(meeting.password) || meeting.password == password
  }

  /**
   * Meeting numbers are unique, a UNIQUE constraint of the meetings table; and every participant row
   * names an existing meeting, which the participants table does not enforce (it has no foreign key)
   * but the two routes keep.
   */
  ghost predicate WellFormed(store: Store)
  {
    && (forall i, j :: 0 <= i < j < |store.meetings| ==> store.meetings[i].meetingNo != store.meetings[j].meetingNo)
    && (forall k :: 0 <= k < |store.participants| ==> MeetingById(store, store.participants[k].meetingId).Some?)
  }

  /**
   * `POST /api/meetings`. A missing title or host name is a 400. The meeting row is inserted as
   * `waiting` with an empty password stored as none; a meeting number that is already taken makes the
   * insert fail, which the route answers with 500. The host is then added as a participant.
   * `meetingNo` is the number the store drew for the new meeting.
   */
  function CreateMeeting(store: Store, title: Option<string>, hostName: Option<string>, password: Option<string>,
                         meetingNo: string): (r: (Store, Response))
    ensures !Given(title) || !Given(hostName) ==> r == (store, Failure(400))
    ensures Given(title) && Given(hostName) && NumberTaken(store, meetingNo) ==> r == (store, Failure(500))
    ensures r.1.MeetingCreated? <==> Given(title) && Given(hostName) && !NumberTaken(store, meetingNo)
    ensures r.1.MeetingCreated? ==>
      && MeetingById(r.0, r.1.meetingId)
         == Some(Meeting(title.value, hostName.value, meetingNo, if Given(password) then password else None, Waiting))
      && MeetingById(store, r.1.meetingId).None?
      && (forall id :: id != r.1.meetingId ==> MeetingById(r.0, id) == MeetingById(store, id))
      && r.0.participants == store.participants + [Participant(r.1.meetingId, hostName.value, true)]
  {
    if !Given(title) || !Given(hostName) then (store, Failure(400))
    else if NumberTaken(store, meetingNo) then (store, Failure(500))
    else
      var stored := if Given(password) then password else None;
      var id := |store.meetings| + 1;
      var meetings := store.meetings + [Meeting(title.value, hostName.value, meetingNo, stored, Waiting)];
      (Store(meetings, store.participants + [Participant(id, hostName.value, true)]), MeetingCreated(id))
  }

  /**
   * `POST /api/meetings/:id/join`. An unknown id is a 404; a meeting with a password that differs
   * from the supplied one is a 401. Otherwise the joiner is added as a non-host participant and a
   * `waiting` meeting becomes `ongoing`.
   */
  function JoinMeeting(store: Store, id: int, name: string, password: Option<string>): (r: (Store, Response))
    ensures r.1 == Failure(404) <==> MeetingById(store, id).None?
    ensures r.1 == Failure(401) <==> MeetingById(store, id).Some? && !Admits(MeetingById(store, id).value, password)
    ensures r.1.JoinAccepted? <==> MeetingById(store, id).Some? && Admits(MeetingById(store, id).value, password)
    ensures !r.1.JoinAccepted? ==> r.0 == store
    ensures r.1.JoinAccepted? ==>
      var before := MeetingById(store, id).value;
      && r.1 == JoinAccepted(|store.participants| + 1, before.meetingNo)
      && r.0.participants == store.participants + [Participant(id, name, false)]
      && MeetingById(r.0, id) == Some(before.(status := if before.status == Waiting then Ongoing else before.status))
      && (forall other :: other != id ==> MeetingById(r.0, other) == MeetingById(store, other))
  {
    match MeetingById(store, id)
    case None => (store, Failure(404))
    case Some(meeting) =>
      if Given(meeting.password) && meeting.password != password then (store, Failure(401))
      else
        var participants := store.participants + [Participant(id, name, false)];
        var meetings :=
          if meeting.status == Waiting then store.meetings[id - 1 := meeting.(status := Ongoing)] else store.meetings;
        (Store(meetings, participants), JoinAccepted(|participants|, meeting.meetingNo))
  }

  /** Creating a meeting keeps the store's constraints. */
  lemma CreatePreservesWellFormed(store: Store, title: Option<string>, hostName: Option<string>,
                                  password: Option<string>, meetingNo: string)
    requires WellFormed(store)
    ensures WellFormed(CreateMeeting(store, title, hostName, password, meetingNo).0)
  {
  }

  /** Joining a meeting keeps the store's constraints. */
  lemma JoinPreservesWellFormed(store: Store, id: int, name: string, password: Option<string>)
    requires WellFormed(store)
    ensures WellFormed(JoinMeeting(store, id, name, password).0)
  {
  }

  /**
   * A freshly created meeting admits a joiner exactly when it has no password or the joiner supplies
   * it, and the first admitted joiner moves it from waiting to ongoing.
   */
  lemma CreateThenJoin(store: Store, title: Option<string>, hostName: Option<string>, password: Option<string>,
                       meetingNo: string, name: string, supplied: Option<string>)
    requires CreateMeeting(store, title, hostName, password, meetingNo).1.MeetingCreated?
    ensures var (created, response) := CreateMeeting(store, title, hostName, password, meetingNo);
      var (joined, answer) := JoinMeeting(created, response.meetingId, name, supplied);
      && (answer.JoinAccepted? <==> !Given(password) || supplied == password)
      && (answer.JoinAccepted? ==> MeetingById(joined, response.meetingId).value.status == Ongoing)
  {
  }

  /** Once a join has been accepted the meeting is no longer waiting, and a later join leaves its status alone. */
  lemma JoinSettlesStatus(store: Store, id: int, name: string, password: Option<string>, name2: string, password2: Option<string>)
    requires JoinMeeting(store, id, name, password).1.JoinAccepted?
    ensures var once := JoinMeeting(store, id, name, password).0;
      && MeetingById(once, id).value.status != Waiting
      && (JoinMeeting(once, id, name2, password2).1.JoinAccepted? <==> Admits(MeetingById(store, id).value, password2))
      && MeetingById(JoinMeeting(once, id, name2, password2).0, id).value.status == MeetingById(once, id).value.status
  {
  }
}
