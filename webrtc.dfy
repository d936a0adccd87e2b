/**
 * The browser side's table of peer connections (the `useWebRTC` composable).
 *
 * The client keeps one peer connection and at most one received audio stream per remote socket,
 * in two maps keyed by that socket's id, plus its own microphone stream. The browser objects behind
 * them are opaque handles here: a peer connection is a target, the local tracks it was given, what
 * was applied to it (remote description, ICE candidates) and whether it has been closed; a media
 * track is its kind and its `enabled` and `stopped` flags.
 */
module WebRTC {
  import opened Common

  class MediaTrack {
    const isAudio: bool
    var enabled: bool
    var stopped: bool

    constructor (isAudio: bool)
      ensures this.isAudio == isAudio && enabled && !stopped
    {
      this.isAudio := isAudio;
      enabled := true;
      stopped := false;
    }
  }

  class MediaStream {
    const tracks: seq<MediaTrack>

    constructor (tracks: seq<MediaTrack>)
      ensures this.tracks == tracks
    {
      this.tracks := tracks;
    }
  }

  datatype ConnectionState = New | Connecting | Connected | Disconnected | Failed | Closed

  class PeerConnection {
    const target: SocketId
    const senders: seq<MediaTrack>
    var closed: bool
    var remoteDescription: Option<Payload>
    var candidates: seq<Payload>

    constructor (target: SocketId, senders: seq<MediaTrack>)
      ensures this.target == target && this.senders == senders
      ensures !closed && remoteDescription == None && candidates == []
    {
      this.target := target;
      this.senders := senders;
      closed := false;
      remoteDescription := None;
      candidates := [];
    }

    method Close()
      modifies this`closed
      ensures closed
    {
      closed := true;
    }
  }

  /** The first audio track of `tracks`, as `getAudioTracks()[0]` picks it. */
  function FirstAudio(tracks: seq<MediaTrack>): (r: Option<MediaTrack>)
    ensures r.None? <==> forall i :: 0 <= i < |tracks| ==> !tracks[i].isAudio
    ensures r.Some? ==>
      exists i :: 0 <= i < |tracks| && tracks[i] == r.value && r.value.isAudio
                  && forall j :: 0 <= j < i ==> !tracks[j].isAudio
  {
    if tracks == [] then None
    else if tracks[0].isAudio then Some(tracks[0])
    else
      var rest := FirstAudio(tracks[1..]);
      assert forall i :: 1 <= i < |tracks| ==> tracks[i] == tracks[1..][i - 1];
      rest
  }

  /** The sockets `connectToAllPeers` starts an offer to: every listed user but the local socket, in order. */
  function OfferTargets(users: seq<RoomUser>, self: Option<SocketId>): (r: seq<SocketId>)
    ensures |r| <= |users|
    ensures forall t :: t in r <==> exists i :: 0 <= i < |users| && users[i].socketId == t && self != Some(t)
  {
    if users == [] then []
    else
      var last := users[|users| - 1];
      var rest := OfferTargets(users[..|users| - 1], self);
      assert forall i :: 0 <= i < |users| - 1 ==> users[..|users| - 1][i] == users[i];
      if self != Some(last.socketId) then rest + [last.socketId] else rest
  }

  /**
   * The client's signaling socket. Its id is assigned by the transport while the socket is connected
   * and is absent otherwise; it can change after `setup` has stored the socket.
   */
  class SignalSocket {
    var id: Option<SocketId>

    constructor ()
      ensures id == None
    {
      id := None;
    }

    /** The transport (re)connected the socket under `newId`. */
    method Connected(newId: SocketId)
      modifies this`id
      ensures id == Some(newId)
    {
      id := Some(newId);
    }

    /** The transport lost the connection. */
    method Disconnected()
      modifies this`id
      ensures id == None
    {
      id := None;
    }
  }

  /** The module-level state of the composable: both maps, the local stream, and the socket it signals over. */
  class Session {
    var peerConnections: map<SocketId, PeerConnection>
    var remoteAudioStreams: map<SocketId, MediaStream?>
    var localAudioStream: MediaStream?
    var socket: SignalSocket?
    var meetingId: Option<MeetingId>
    /** The targets `createOffer` was started for, in order. */
    var offersStarted: seq<SocketId>

    /** Every stored connection is open and is the one made for the socket it is stored under. */
    ghost predicate Valid()
      reads this, peerConnections.Values
    {
      forall t :: t in peerConnections ==> peerConnections[t].target == t && !peerConnections[t].closed
    }

    constructor ()
      ensures peerConnections == map[] && remoteAudioStreams == map[] && localAudioStream == null
      ensures socket == null && meetingId == None && offersStarted == [] && Valid()
    {
      peerConnections := map[];
      remoteAudioStreams := map[];
      localAudioStream := null;
      socket := null;
      meetingId := None;
      offersStarted := [];
    }

    /** The tracks of the local stream; none without one. */
    function LocalTracks(): seq<MediaTrack>
      reads this
    {
      if localAudioStream == null then [] else localAudioStream.tracks
    }

    function LocalTrackSet(): set<MediaTrack>
      reads this
    {
      set tr | tr in LocalTracks()
    }

    /**
     * `initLocalAudio`: `granted` is what the microphone request produced, null when it failed.
     * Only a granted stream is stored; a failed request returns null and keeps the stream held before.
     */
    method InitLocalAudio(granted: MediaStream?) returns (r: MediaStream?)
      modifies this`localAudioStream
      ensures r == granted
      ensures localAudioStream == if granted == null then old(localAudioStream) else granted
    {
      if granted != null {
        localAudioStream := granted;
      }
      r := granted;
    }

    /** `setup`: store the socket to signal over and the meeting the events are about. */
    method Setup(socketRef: SignalSocket?, meeting: Option<MeetingId>)
      modifies this`socket, this`meetingId
      ensures socket == socketRef && meetingId == meeting
    {
      socket := socketRef;
      meetingId := meeting;
    }

    /** `socket.value?.id`: the local socket's id as it is now; none without a socket or while it is disconnected. */
    function SelfId(): Option<SocketId>
      reads this, socket
    {
      if socket == null then None else socket.id
    }

    /** `isMuted`: muted without a local stream or an audio track, else when the first audio track is disabled. */
    function IsMuted(): (muted: bool)
      reads this, LocalTrackSet()
      ensures localAudioStream == null || FirstAudio(localAudioStream.tracks).None? ==> muted
      ensures localAudioStream != null && FirstAudio(localAudioStream.tracks).Some? ==>
        (muted <==> !FirstAudio(localAudioStream.tracks).value.enabled)
    {
      if localAudioStream == null then true
      else match FirstAudio(localAudioStream.tracks)
        case None => true
        case Some(track) => !track.enabled
    }

    /** `createPeerConnection`: the stored connection for `target`, or a new one carrying the local tracks. */
    method CreatePeerConnection(target: SocketId) returns (pc: PeerConnection)
      modifies this`peerConnections
      ensures target in old(peerConnections) ==> pc == old(peerConnections)[target] && peerConnections == old(peerConnections)
      ensures target !in old(peerConnections) ==>
        && fresh(pc) && pc.target == target && pc.senders == LocalTracks()
        && !pc.closed && pc.remoteDescription == None && pc.candidates == []
        && peerConnections == old(peerConnections)[target := pc]
      ensures old(Valid()) ==> Valid()
    {
      if target in peerConnections {
        return peerConnections[target];
      }
      pc := new PeerConnection(target, LocalTracks());
      peerConnections := peerConnections[target := pc];
    }

    /** Close the stored connection for `id`, if any, and forget `id` in both maps. */
    method DropPeer(id: SocketId)
      modifies this`peerConnections, this`remoteAudioStreams
      modifies (if id in peerConnections then {peerConnections[id]} else {})`closed
      ensures peerConnections == old(peerConnections) - {id}
      ensures remoteAudioStreams == old(remoteAudioStreams) - {id}
      ensures id in old(peerConnections) ==> old(peerConnections)[id].closed
      ensures old(Valid()) ==> Valid()
    {
      if id in peerConnections {
        var pc := peerConnections[id];
        pc.Close();
        peerConnections := peerConnections - {id};
      }
      remoteAudioStreams := remoteAudioStreams - {id};
    }

    /** `handleConnectionFailure` */
    method HandleConnectionFailure(id: SocketId)
      modifies this`peerConnections, this`remoteAudioStreams
      modifies (if id in peerConnections then {peerConnections[id]} else {})`closed
      ensures peerConnections == old(peerConnections) - {id}
      ensures remoteAudioStreams == old(remoteAudioStreams) - {id}
      ensures id in old(peerConnections) ==> old(peerConnections)[id].closed
      ensures old(Valid()) ==> Valid()
    {
      DropPeer(id);
    }

    /** `handleUserLeft` */
    method HandleUserLeft(id: SocketId)
      modifies this`peerConnections, this`remoteAudioStreams
      modifies (if id in peerConnections then {peerConnections[id]} else {})`closed
      ensures peerConnections == old(peerConnections) - {id}
      ensures remoteAudioStreams == old(remoteAudioStreams) - {id}
      ensures id in old(peerConnections) ==> old(peerConnections)[id].closed
      ensures old(Valid()) ==> Valid()
    {
      DropPeer(id);
    }

    /** `onconnectionstatechange` of `pc`: a failed or disconnected connection is dropped. */
    method OnConnectionStateChange(pc: PeerConnection, state: ConnectionState)
      modifies this`peerConnections, this`remoteAudioStreams
      modifies (if pc.target in peerConnections then {peerConnections[pc.target]} else {})`closed
      ensures state == Failed || state == Disconnected ==>
        && peerConnections == old(peerConnections) - {pc.target}
        && remoteAudioStreams == old(remoteAudioStreams) - {pc.target}
        && (pc.target in old(peerConnections) ==> old(peerConnections)[pc.target].closed)
      ensures !(state == Failed || state == Disconnected) ==>
        peerConnections == old(peerConnections) && remoteAudioStreams == old(remoteAudioStreams)
      ensures old(Valid()) ==> Valid()
    {
      if state == Failed || state == Disconnected {
        HandleConnectionFailure(pc.target);
      }
    }

    /** `ontrack` of the connection made for `target`: keep the event's first stream (none: null). */
    method OnTrack(target: SocketId, streams: seq<MediaStream>)
      modifies this`remoteAudioStreams
      ensures remoteAudioStreams == old(remoteAudioStreams)[target := if |streams| > 0 then streams[0] else null]
    {
      var stream := if |streams| > 0 then streams[0] else null;
      remoteAudioStreams := remoteAudioStreams[target := stream];
    }

    /** `createOffer`, up to the point where the browser's asynchronous offer work begins. */
    method CreateOffer(target: SocketId)
      modifies this`peerConnections, this`offersStarted
      ensures peerConnections.Keys == old(peerConnections).Keys + {target}
      ensures forall t :: t in old(peerConnections) ==> peerConnections[t] == old(peerConnections)[t]
      ensures offersStarted == old(offersStarted) + [target]
      ensures old(Valid()) ==> Valid()
    {
      var pc := CreatePeerConnection(target);
      offersStarted := offersStarted + [target];
    }

    /**
     * `connectToAllPeers`: start an offer to every listed user except the local socket, whose id is
     * read from the socket at the time of the call.
     */
    method ConnectToAllPeers(users: seq<RoomUser>)
      modifies this`peerConnections, this`offersStarted
      ensures offersStarted == old(offersStarted) + OfferTargets(users, SelfId())
      ensures peerConnections.Keys == old(peerConnections).Keys + (set t | t in OfferTargets(users, SelfId()))
      ensures forall t :: t in old(peerConnections) ==> peerConnections[t] == old(peerConnections)[t]
      ensures old(Valid()) ==> Valid()
    {
      for i := 0 to |users|
        invariant offersStarted == old(offersStarted) + OfferTargets(users[..i], SelfId())
        invariant peerConnections.Keys == old(peerConnections).Keys + (set t | t in OfferTargets(users[..i], SelfId()))
        invariant forall t :: t in old(peerConnections) ==> peerConnections[t] == old(peerConnections)[t]
        invariant old(Valid()) ==> Valid()
      {
        assert users[..i + 1][..i] == users[..i];
        if SelfId() != Some(users[i].socketId) {
          CreateOffer(users[i].socketId);
        }
      }
      assert users[..|users|] == users;
    }

    /** `handleOffer`: get or create the connection for the sender and apply its offer. */
    method HandleOffer(from: SocketId, offer: Payload)
      modifies this`peerConnections
      modifies if from in peerConnections then {peerConnections[from]} else {}
      ensures peerConnections.Keys == old(peerConnections).Keys + {from}
      ensures forall t :: t in old(peerConnections) ==> peerConnections[t] == old(peerConnections)[t]
      ensures peerConnections[from].remoteDescription == Some(offer)
      ensures peerConnections[from].candidates == if from in old(peerConnections) then old(peerConnections[from].candidates) else []
      ensures old(Valid()) ==> Valid()
    {
      var pc := CreatePeerConnection(from);
      pc.remoteDescription := Some(offer);
    }

    /** `handleAnswer`: apply the answer to an existing connection only; never creates one. */
    method HandleAnswer(from: SocketId, answer: Payload)
      modifies if from in peerConnections then {peerConnections[from]} else {}
      ensures peerConnections == old(peerConnections)
      ensures from in peerConnections ==>
        peerConnections[from].remoteDescription == Some(answer)
        && peerConnections[from].candidates == old(peerConnections[from].candidates)
      ensures old(Valid()) ==> Valid()
    {
      if from in peerConnections {
        var pc := peerConnections[from];
        pc.remoteDescription := Some(answer);
      }
    }

    /** `handleIceCandidate`: add the candidate to an existing connection only; never creates one. */
    method HandleIceCandidate(from: SocketId, candidate: Payload)
      modifies if from in peerConnections then {peerConnections[from]} else {}
      ensures peerConnections == old(peerConnections)
      ensures from in peerConnections ==>
        peerConnections[from].candidates == old(peerConnections[from].candidates) + [candidate]
        && peerConnections[from].remoteDescription == old(peerConnections[from].remoteDescription)
      ensures old(Valid()) ==> Valid()
    {
      if from in peerConnections {
        var pc := peerConnections[from];
        pc.candidates := pc.candidates + [candidate];
      }
    }

    /** `updateLocalAudioTrack`: set `enabled` on every audio track of the local stream. */
    method UpdateLocalAudioTrack(enabled: bool)
      modifies LocalTrackSet()
      ensures forall tr :: tr in LocalTracks() && tr.isAudio ==> tr.enabled == enabled
      ensures forall tr :: tr in LocalTracks() && !tr.isAudio ==> tr.enabled == old(tr.enabled)
      ensures forall tr :: tr in LocalTracks() ==> tr.stopped == old(tr.stopped)
      ensures localAudioStream != null && FirstAudio(localAudioStream.tracks).Some? ==> IsMuted() == !enabled
    {
      var tracks := LocalTracks();
      for i := 0 to |tracks|
        invariant forall j :: 0 <= j < i && tracks[j].isAudio ==> tracks[j].enabled == enabled
        invariant forall tr :: tr in tracks && !tr.isAudio ==> tr.enabled == old(tr.enabled)
        invariant forall tr :: tr in tracks ==> tr.stopped == old(tr.stopped)
      {
        if tracks[i].isAudio {
          tracks[i].enabled := enabled;
        }
      }
    }

    /** `cleanup`: close every connection, empty both maps, stop the local tracks and drop the local stream. */
    method Cleanup()
      modifies this`peerConnections, this`remoteAudioStreams, this`localAudioStream
      modifies peerConnections.Values`closed, LocalTrackSet()`stopped
      ensures forall pc :: pc in old(peerConnections).Values ==> pc.closed
      ensures forall tr :: tr in old(LocalTracks()) ==> tr.stopped
      ensures peerConnections == map[] && remoteAudioStreams == map[] && localAudioStream == null
      ensures Valid()
    {
      var open := peerConnections.Values;
      while open != {}
        invariant open <= old(peerConnections).Values
        invariant peerConnections == old(peerConnections) && localAudioStream == old(localAudioStream)
        invariant forall pc :: pc in old(peerConnections).Values && pc !in open ==> pc.closed
        decreases open
      {
        var pc :| pc in open;
        pc.Close();
        open := open - {pc};
      }
      peerConnections := map[];
      remoteAudioStreams := map[];
      var tracks := LocalTracks();
      for i := 0 to |tracks|
        invariant forall j :: 0 <= j < i ==> tracks[j].stopped
        invariant forall pc :: pc in old(peerConnections).Values ==> pc.closed
        invariant peerConnections == map[] && remoteAudioStreams == map[]
      {
        tracks[i].stopped := true;
      }
      localAudioStream := null;
    }
  }
}
