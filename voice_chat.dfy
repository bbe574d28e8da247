/** The voice panel of a chat room: the peer lists, the incoming video
    streams, the microphone and the socket handlers of a voice session.
    Peer connections are identified by handles handed out in creation order;
    media streams carry only their identity and their track counts. */
module VoiceChat {
  import opened Common

  /** A simple-peer connection, identified by its creation order. */
  type PeerHandle = nat

  /** An entry of the rendered peer list. */
  datatype PeerEntry = PeerEntry(peerID: string, peer: PeerHandle, volume: real)
  /** An entry of the connection list kept outside rendering. */
  datatype PeerRef = PeerRef(peerID: string, peer: PeerHandle)
  datatype MediaStream = MediaStream(id: string, videoTracks: nat)
  /** A remote video stream, with the socket id of the user it comes from. */
  datatype IncomingStream = IncomingStream(id: string, stream: MediaStream)
  /** The microphone stream; `audioEnabled` is the `enabled` flag of its
      first audio track, None when it has none. */
  datatype LocalStream = LocalStream(id: string, audioEnabled: Option<bool>)

  function RefId(r: PeerRef): string { r.peerID }
  function EntryId(e: PeerEntry): string { e.peerID }
  function StreamOwner(s: IncomingStream): string { s.id }

  // ---------------------------------------------------------------------
  // List updates

  /** `list.filter(x => idOf(x) !== id)`. */
  function Without<T(!new)>(s: seq<T>, idOf: T -> string, id: string): (r: seq<T>)
    ensures |r| <= |s|
    ensures forall x :: x in r <==> x in s && idOf(x) != id
  {
    if s == [] then []
    else (if idOf(s[0]) != id then [s[0]] else []) + Without(s[1..], idOf, id)
  }

  /** Filtering keeps relative order: it distributes over concatenation. */
  lemma {:induction false} WithoutAppend<T(!new)>(a: seq<T>, b: seq<T>, idOf: T -> string, id: string)
    ensures Without(a + b, idOf, id) == Without(a, idOf, id) + Without(b, idOf, id)
    decreases |a|
  {
    if a == [] {
      assert a + b == b;
    } else {
      assert (a + b)[1..] == a[1..] + b;
      WithoutAppend(a[1..], b, idOf, id);
    }
  }

  /** A list with no entry for `id` is left as it is. */
  lemma {:induction false} WithoutAbsent<T(!new)>(s: seq<T>, idOf: T -> string, id: string)
    requires forall x :: x in s ==> idOf(x) != id
    ensures Without(s, idOf, id) == s
    decreases |s|
  {
    if s != [] {
      assert s[0] in s;
      assert forall x :: x in s[1..] ==> x in s;
      WithoutAbsent(s[1..], idOf, id);
      assert [s[0]] + s[1..] == s;
    }
  }

  /** Removing twice is removing once. */
  lemma WithoutIdempotent<T(!new)>(s: seq<T>, idOf: T -> string, id: string)
    ensures Without(Without(s, idOf, id), idOf, id) == Without(s, idOf, id)
  {
    WithoutAbsent(Without(s, idOf, id), idOf, id);
  }

  /** `peersRef.find(p => p.peerID === id)`: the index of the first entry
      for `id`, or None when there is none. */
  function FindPeer(refs: seq<PeerRef>, id: string): (r: Option<nat>)
    ensures r.None? <==> forall j :: 0 <= j < |refs| ==> refs[j].peerID != id
    ensures r.Some? ==> r.value < |refs| && refs[r.value].peerID == id
                        && forall j :: 0 <= j < r.value ==> refs[j].peerID != id
  {
    if refs == [] then None
    else if refs[0].peerID == id then Some(0)
    else match FindPeer(refs[1..], id)
      case None => None
      case Some(k) => Some(k + 1)
  }

  /** handleVolumeChange's updater: entries for `id` get the new volume. */
  function WithVolume(peers: seq<PeerEntry>, id: string, v: real): (r: seq<PeerEntry>)
    ensures |r| == |peers|
    ensures forall i :: 0 <= i < |peers| ==>
      r[i] == if peers[i].peerID == id then peers[i].(volume := v) else peers[i]
  {
    if peers == [] then []
    else [if peers[0].peerID == id then peers[0].(volume := v) else peers[0]] + WithVolume(peers[1..], id, v)
  }

  /** The last volume set for a peer is the one that counts. */
  lemma VolumeLastWriteWins(peers: seq<PeerEntry>, id: string, a: real, b: real)
    ensures WithVolume(WithVolume(peers, id, a), id, b) == WithVolume(peers, id, b)
  {
    var l := WithVolume(WithVolume(peers, id, a), id, b);
    assert forall i :: 0 <= i < |l| ==> l[i] == WithVolume(peers, id, b)[i];
  }

  /** Volume changes for different peers do not interfere. */
  lemma VolumeChangesCommute(peers: seq<PeerEntry>, id1: string, a: real, id2: string, b: real)
    requires id1 != id2
    ensures WithVolume(WithVolume(peers, id1, a), id2, b) == WithVolume(WithVolume(peers, id2, b), id1, a)
  {
    var l := WithVolume(WithVolume(peers, id1, a), id2, b);
    var r := WithVolume(WithVolume(peers, id2, b), id1, a);
    assert forall i :: 0 <= i < |l| ==> l[i] == r[i];
  }

  /** Whether the list already holds this stream from this user. */
  predicate HasStream(streams: seq<IncomingStream>, id: string, streamId: string) {
    exists s :: s in streams && s.id == id && s.stream.id == streamId
  }

  /** handleIncomingStream's updater: a stream with video is appended
      unless the same (user, stream) pair is already listed. */
  function WithIncoming(streams: seq<IncomingStream>, id: string, stream: MediaStream): (r: seq<IncomingStream>)
    ensures HasStream(r, id, stream.id) <==> stream.videoTracks > 0 || HasStream(streams, id, stream.id)
    ensures |streams| <= |r| <= |streams| + 1 && r[..|streams|] == streams
  {
    if stream.videoTracks > 0 && !HasStream(streams, id, stream.id) then
      var r := streams + [IncomingStream(id, stream)];
      assert r[|streams|] in r;
      r
    else streams
  }

  /** No (user, stream) pair is listed twice. */
  predicate UniquePairs(streams: seq<IncomingStream>) {
    forall i, j :: 0 <= i < j < |streams| ==>
      streams[i].id != streams[j].id || streams[i].stream.id != streams[j].stream.id
  }

  /** Only video streams are added, at most one entry at the end, and a
      repeated stream event changes nothing. */
  lemma IncomingOutcome(streams: seq<IncomingStream>, id: string, stream: MediaStream)
    ensures var r := WithIncoming(streams, id, stream);
      && (r == streams || (stream.videoTracks > 0 && r == streams + [IncomingStream(id, stream)]))
      && (stream.videoTracks > 0 && !HasStream(streams, id, stream.id) ==> r == streams + [IncomingStream(id, stream)])
      && (stream.videoTracks == 0 || HasStream(streams, id, stream.id) ==> r == streams)
      && WithIncoming(r, id, stream) == r
      && (UniquePairs(streams) ==> UniquePairs(r))
  {
    var r := WithIncoming(streams, id, stream);
    if r != streams {
      assert IncomingStream(id, stream) in r;
      assert HasStream(r, id, stream.id);
    }
  }

  /** Removing a user's streams keeps the remaining pairs unique. */
  lemma {:induction false} WithoutKeepsUnique(streams: seq<IncomingStream>, id: string)
    requires UniquePairs(streams)
    ensures UniquePairs(Without(streams, StreamOwner, id))
    decreases |streams|
  {
    if streams != [] {
      var rest := streams[1..];
      var tail := Without(rest, StreamOwner, id);
      UniqueSplit(streams);
      WithoutKeepsUnique(rest, id);
      if streams[0].id != id {
        assert Without(streams, StreamOwner, id) == [streams[0]] + tail;
        UniqueJoin(streams[0], tail);
      } else {
        assert Without(streams, StreamOwner, id) == tail;
      }
    }
  }

  /** A unique list is a head whose pair is not repeated in a unique rest. */
  lemma UniqueSplit(streams: seq<IncomingStream>)
    requires UniquePairs(streams) && streams != []
    ensures UniquePairs(streams[1..])
    ensures forall y :: y in streams[1..] ==> y.id != streams[0].id || y.stream.id != streams[0].stream.id
  {
    var rest := streams[1..];
    forall i, j | 0 <= i < j < |rest|
      ensures rest[i].id != rest[j].id || rest[i].stream.id != rest[j].stream.id
    {
      assert rest[i] == streams[i + 1] && rest[j] == streams[j + 1];
    }
    forall y | y in rest
      ensures y.id != streams[0].id || y.stream.id != streams[0].stream.id
    {
      var k :| 0 <= k < |rest| && rest[k] == y;
      assert streams[k + 1] == y;
    }
  }

  /** Putting a pair in front of a unique list that does not hold it keeps
      the list unique. */
  lemma UniqueJoin(x: IncomingStream, tail: seq<IncomingStream>)
    requires UniquePairs(tail)
    requires forall y :: y in tail ==> y.id != x.id || y.stream.id != x.stream.id
    ensures UniquePairs([x] + tail)
  {
    var r := [x] + tail;
    forall i, j | 0 <= i < j < |r|
      ensures r[i].id != r[j].id || r[i].stream.id != r[j].stream.id
    {
      assert r[j] == tail[j - 1];
      if i > 0 {
        assert r[i] == tail[i - 1];
      }
    }
  }

  /** all-voice-users: one entry per listed user, in order, each a new
      connection at full volume. */
  function NewEntries(users: seq<string>, first: PeerHandle): seq<PeerEntry> {
    seq(|users|, i requires 0 <= i < |users| => PeerEntry(users[i], first + i, 1.0))
  }

  function RefsOf(entries: seq<PeerEntry>): seq<PeerRef> {
    seq(|entries|, i requires 0 <= i < |entries| => PeerRef(entries[i].peerID, entries[i].peer))
  }

  function Handles(refs: seq<PeerRef>): set<PeerHandle> {
    set r | r in refs :: r.peer
  }

  // ---------------------------------------------------------------------
  // The panel's state and its handlers

  datatype Panel = Panel(
    socketPresent: bool,
    inVoice: bool,
    isMuted: bool,
    isSharingScreen: bool,
    peers: seq<PeerEntry>,
    peersRef: seq<PeerRef>,
    incomingStreams: seq<IncomingStream>,
    localStream: Option<LocalStream>,
    screenStream: Option<MediaStream>,
    /** Whether the four voice socket handlers are registered. */
    listening: bool,
    /** The handle the next connection gets. */
    nextPeer: PeerHandle,
    /** The connections destroyed so far. */
    destroyed: set<PeerHandle>)

  /** The panel's own bookkeeping: the socket handlers are registered exactly
      while in voice, and every listed connection was created earlier. */
  predicate PanelValid(p: Panel) {
    && p.listening == p.inVoice
    && p.isSharingScreen == p.screenStream.Some?
    && (forall r :: r in p.peersRef ==> r.peer < p.nextPeer)
    && (forall e :: e in p.peers ==> e.peer < p.nextPeer)
  }

  predicate HasMic(p: Panel) {
    p.localStream.Some? && p.localStream.value.audioEnabled.Some?
  }

  function MicEnabled(p: Panel): bool
    requires HasMic(p)
  {
    p.localStream.value.audioEnabled.value
  }

  /** toggleMute: without a microphone track nothing happens; otherwise the
      track is flipped and the muted flag shows the opposite of the track. */
  function MuteToggled(p: Panel): (r: Panel)
    ensures !HasMic(p) ==> r == p
    ensures HasMic(p) ==> HasMic(r) && MicEnabled(r) == !MicEnabled(p) && r.isMuted == !MicEnabled(r)
    ensures r.(localStream := p.localStream, isMuted := p.isMuted) == p
  {
    if !HasMic(p) then p
    else
      var enabled := !MicEnabled(p);
      p.(localStream := Some(p.localStream.value.(audioEnabled := Some(enabled))), isMuted := !enabled)
  }

  /** Toggling twice restores the track's flag. */
  lemma ToggleTwiceRestoresTrack(p: Panel)
    ensures MuteToggled(MuteToggled(p)).localStream == p.localStream
  {
  }

  /** joinVoice: nothing without a socket or when the microphone is refused;
      otherwise enter voice unmuted with the stream and register the voice
      handlers. */
  function VoiceJoined(p: Panel, media: Option<LocalStream>): Panel {
    if !p.socketPresent || media.None? then p
    else p.(inVoice := true, isMuted := false, localStream := media, listening := true)
  }

  /** all-voice-users: the rendered list is replaced by one new connection
      per user, while the connection list is appended to. */
  function AllVoiceUsers(p: Panel, users: seq<string>): (r: Panel)
    ensures |r.peers| == |users| && r.nextPeer == p.nextPeer + |users|
    ensures |r.peersRef| == |p.peersRef| + |users|
    ensures r.(peers := p.peers, peersRef := p.peersRef, nextPeer := p.nextPeer) == p
  {
    var entries := NewEntries(users, p.nextPeer);
    p.(peers := entries, peersRef := p.peersRef + RefsOf(entries), nextPeer := p.nextPeer + |users|)
  }

  /** user-joined-voice: one new connection appended to both lists. */
  function UserJoined(p: Panel, callerID: string): (r: Panel)
    ensures |r.peers| == |p.peers| + 1 && |r.peersRef| == |p.peersRef| + 1 && r.nextPeer == p.nextPeer + 1
    ensures r.(peers := p.peers, peersRef := p.peersRef, nextPeer := p.nextPeer) == p
  {
    p.(peersRef := p.peersRef + [PeerRef(callerID, p.nextPeer)],
       peers := p.peers + [PeerEntry(callerID, p.nextPeer, 1.0)],
       nextPeer := p.nextPeer + 1)
  }

  /** user-left-voice: destroy the first connection to that user and drop
      every entry for that user from all three lists. */
  function UserLeft(p: Panel, id: string): (r: Panel)
    ensures p.destroyed <= r.destroyed && r.destroyed - p.destroyed <= Handles(p.peersRef)
    ensures |r.peersRef| <= |p.peersRef| && |r.peers| <= |p.peers| && |r.incomingStreams| <= |p.incomingStreams|
    ensures r.(destroyed := p.destroyed, peersRef := p.peersRef, peers := p.peers,
               incomingStreams := p.incomingStreams) == p
  {
    var found := FindPeer(p.peersRef, id);
    p.(destroyed := if found.Some? then p.destroyed + {p.peersRef[found.value].peer} else p.destroyed,
       peersRef := Without(p.peersRef, RefId, id),
       peers := Without(p.peers, EntryId, id),
       incomingStreams := Without(p.incomingStreams, StreamOwner, id))
  }

  /** stopScreenShare: nothing without a screen stream; otherwise drop it. */
  function ScreenShareStopped(p: Panel): Panel {
    if p.screenStream.None? then p else p.(screenStream := None, isSharingScreen := false)
  }

  /** startScreenShare: when the display capture is granted, share it. */
  function ScreenShareStarted(p: Panel, media: Option<MediaStream>): Panel {
    if media.None? then p else p.(isSharingScreen := true, screenStream := media)
  }

  /** leaveVoice as a closure of a render in which `inVoice` read
      `renderedInVoice`: nothing when that was false; otherwise stop sharing,
      leave voice, release the microphone, destroy every connection, clear
      all three lists and unregister the handlers. */
  function VoiceLeft(p: Panel, renderedInVoice: bool): (r: Panel)
    ensures !renderedInVoice ==> r == p
    ensures renderedInVoice ==>
      && !r.inVoice && !r.listening && r.localStream == None && r.screenStream == None
      && r.peers == [] && r.peersRef == [] && r.incomingStreams == []
      && r.destroyed == p.destroyed + Handles(p.peersRef)
  {
    if !renderedInVoice then p
    else
      var q := ScreenShareStopped(p);
      q.(inVoice := false, localStream := None, destroyed := q.destroyed + Handles(q.peersRef),
         peersRef := [], peers := [], incomingStreams := [], listening := false)
  }

  function IncomingAdded(p: Panel, id: string, stream: MediaStream): Panel {
    p.(incomingStreams := WithIncoming(p.incomingStreams, id, stream))
  }

  function VolumeChanged(p: Panel, id: string, v: real): Panel {
    p.(peers := WithVolume(p.peers, id, v))
  }

  // ---------------------------------------------------------------------
  // Properties of the handlers

  /** all-voice-users gives one entry per user, in order, at full volume,
      each a connection no earlier entry uses; the connection list keeps its
      old entries in front. */
  lemma AllVoiceUsersOutcome(p: Panel, users: seq<string>)
    requires PanelValid(p)
    ensures var r := AllVoiceUsers(p, users);
      && PanelValid(r)
      && |r.peers| == |users|
      && (forall i :: 0 <= i < |users| ==>
            r.peers[i].peerID == users[i] && r.peers[i].volume == 1.0 && r.peers[i].peer >= p.nextPeer)
      && (forall i, j :: 0 <= i < j < |users| ==> r.peers[i].peer != r.peers[j].peer)
      && r.peersRef[..|p.peersRef|] == p.peersRef && |r.peersRef| == |p.peersRef| + |users|
  {
    var r := AllVoiceUsers(p, users);
    assert r.peersRef[..|p.peersRef|] == p.peersRef;
    forall x | x in r.peersRef
      ensures x.peer < r.nextPeer
    {
      if x !in p.peersRef {
        var k :| 0 <= k < |r.peersRef| && r.peersRef[k] == x;
        assert k >= |p.peersRef|;
      }
    }
  }

  /** user-joined-voice appends exactly one new connection at full volume to
      both lists. */
  lemma UserJoinedOutcome(p: Panel, callerID: string)
    requires PanelValid(p)
    ensures var r := UserJoined(p, callerID);
      && PanelValid(r)
      && r.peers[..|p.peers|] == p.peers && |r.peers| == |p.peers| + 1
      && r.peers[|p.peers|] == PeerEntry(callerID, p.nextPeer, 1.0)
      && r.peersRef[..|p.peersRef|] == p.peersRef && |r.peersRef| == |p.peersRef| + 1
      && r.peersRef[|p.peersRef|].peerID == callerID
      && (forall e :: e in p.peers ==> e.peer != p.nextPeer)
  {
    var r := UserJoined(p, callerID);
    assert r.peers[..|p.peers|] == p.peers;
    assert r.peersRef[..|p.peersRef|] == p.peersRef;
  }

  /** user-left-voice removes every entry for the user from the three lists
      and keeps every other entry; exactly the first connection to the user
      is destroyed, so any later connection to the same user is dropped from
      the list without being destroyed. */
  lemma UserLeftOutcome(p: Panel, id: string)
    requires PanelValid(p)
    ensures var r := UserLeft(p, id);
      && PanelValid(r)
      && (forall x :: x in r.peersRef <==> x in p.peersRef && x.peerID != id)
      && (forall x :: x in r.peers <==> x in p.peers && x.peerID != id)
      && (forall x :: x in r.incomingStreams <==> x in p.incomingStreams && x.id != id)
      && (FindPeer(p.peersRef, id).None? ==> r.destroyed == p.destroyed)
      && (FindPeer(p.peersRef, id).Some? ==>
            r.destroyed == p.destroyed + {p.peersRef[FindPeer(p.peersRef, id).value].peer})
  {
  }

  /** Only the first connection to a leaving user is destroyed: a later
      connection to the same user leaves the connection list undestroyed. */
  lemma UserLeftDropsLaterConnection(p: Panel, id: string, i: nat, j: nat)
    requires i < j < |p.peersRef|
    requires p.peersRef[i].peerID == id && p.peersRef[j].peerID == id
    requires forall m :: 0 <= m < i ==> p.peersRef[m].peerID != id
    requires p.peersRef[i].peer != p.peersRef[j].peer && p.peersRef[j].peer !in p.destroyed
    ensures var r := UserLeft(p, id);
      p.peersRef[j] !in r.peersRef && p.peersRef[j].peer !in r.destroyed
  {
  }

  /** A second user-left-voice for the same user changes nothing. */
  lemma UserLeftIdempotent(p: Panel, id: string)
    ensures UserLeft(UserLeft(p, id), id) == UserLeft(p, id)
  {
    var r := UserLeft(p, id);
    var r2 := UserLeft(r, id);
    WithoutIdempotent(p.peersRef, RefId, id);
    WithoutIdempotent(p.peers, EntryId, id);
    WithoutIdempotent(p.incomingStreams, StreamOwner, id);
    forall j | 0 <= j < |r.peersRef|
      ensures r.peersRef[j].peerID != id
    {
      assert r.peersRef[j] in r.peersRef;
    }
    assert r2.destroyed == r.destroyed;
    assert r2.peersRef == r.peersRef && r2.peers == r.peers && r2.incomingStreams == r.incomingStreams;
  }

  /** A volume change touches only the entries for that peer and keeps the
      list's length and order. */
  lemma VolumeChangeOutcome(p: Panel, id: string, v: real)
    requires PanelValid(p)
    ensures var r := VolumeChanged(p, id, v);
      && PanelValid(r)
      && |r.peers| == |p.peers|
      && (forall i :: 0 <= i < |p.peers| && p.peers[i].peerID == id ==> r.peers[i] == p.peers[i].(volume := v))
      && (forall i :: 0 <= i < |p.peers| && p.peers[i].peerID != id ==> r.peers[i] == p.peers[i])
  {
    var r := VolumeChanged(p, id, v);
    forall e | e in r.peers
      ensures e.peer < r.nextPeer
    {
      var k :| 0 <= k < |r.peers| && r.peers[k] == e;
      assert p.peers[k] in p.peers;
    }
  }

  /** Leaving when not in voice changes nothing; leaving from voice keeps
      the panel's bookkeeping valid and destroys every connection. */
  lemma LeaveVoiceOutcome(p: Panel)
    requires PanelValid(p)
    ensures !p.inVoice ==> VoiceLeft(p, p.inVoice) == p
    ensures PanelValid(VoiceLeft(p, p.inVoice))
    ensures p.inVoice ==> !VoiceLeft(p, p.inVoice).isSharingScreen
    ensures p.inVoice ==> forall r :: r in p.peersRef ==> r.peer in VoiceLeft(p, p.inVoice).destroyed
  {
  }

  // ---------------------------------------------------------------------
  // The defect of the unmount cleanup, and its correction

  /** The unmount cleanup as written: registered once, on the first render,
      it runs that render's leaveVoice, which read `inVoice` as false. */
  function Unmounted(p: Panel): Panel {
    VoiceLeft(p, false)
  }

  /** The unmount cleanup as evidently intended: leave voice according to
      the current state. */
  function UnmountedIntended(p: Panel): Panel {
    VoiceLeft(p, p.inVoice)
  }

  /** As written, unmounting during a voice session keeps the microphone,
      every connection and the socket handlers alive. */
  lemma UnmountLeavesSessionOpen(p: Panel)
    requires p.inVoice && p.listening && p.localStream.Some? && p.peersRef != []
    ensures var r := Unmounted(p);
      && r == p
      && r.inVoice && r.listening && r.localStream == p.localStream
      && r.destroyed == p.destroyed
  {
  }

  /** With the correction, unmounting releases the microphone, destroys
      every connection and unregisters the handlers. */
  lemma UnmountIntendedReleasesSession(p: Panel)
    requires PanelValid(p) && p.inVoice
    ensures var r := UnmountedIntended(p);
      && PanelValid(r) && !r.listening && r.localStream == None
      && r.peersRef == [] && r.peers == [] && r.incomingStreams == []
      && forall x :: x in p.peersRef ==> x.peer in r.destroyed
  {
  }

  // ---------------------------------------------------------------------
  // The component

  class VoicePanel {
    const socketPresent: bool
    var inVoice: bool
    var isMuted: bool
    var isSharingScreen: bool
    var peers: seq<PeerEntry>
    var peersRef: seq<PeerRef>
    var incomingStreams: seq<IncomingStream>
    var localStream: Option<LocalStream>
    var screenStream: Option<MediaStream>
    var listening: bool
    var nextPeer: PeerHandle
    var destroyed: set<PeerHandle>

    ghost function View(): Panel
      reads this
    {
      Panel(socketPresent, inVoice, isMuted, isSharingScreen, peers, peersRef, incomingStreams,
            localStream, screenStream, listening, nextPeer, destroyed)
    }

    ghost predicate Valid()
      reads this
    {
      PanelValid(View())
    }

    constructor (socket: bool)
      ensures Valid()
      ensures View() == Panel(socket, false, false, false, [], [], [], None, None, false, 0, {})
    {
      socketPresent := socket;
      inVoice := false;
      isMuted := false;
      isSharingScreen := false;
      peers := [];
      peersRef := [];
      incomingStreams := [];
      localStream := None;
      screenStream := None;
      listening := false;
      nextPeer := 0;
      destroyed := {};
    }

    method ToggleMute()
      requires Valid()
      modifies this
      ensures Valid() && View() == MuteToggled(old(View()))
    {
      if localStream.Some? {
        var audioTrack := localStream.value.audioEnabled;
        if audioTrack.Some? {
          var enabled := !audioTrack.value;
          localStream := Some(localStream.value.(audioEnabled := Some(enabled)));
          isMuted := !enabled;
        }
      }
    }

    /** joinVoice, with `media` the outcome of the microphone request. */
    method JoinVoice(media: Option<LocalStream>)
      requires Valid()
      modifies this
      ensures Valid() && View() == VoiceJoined(old(View()), media)
    {
      if !socketPresent {
        return;
      }
      if media.None? {
        return;
      }
      inVoice := true;
      isMuted := false;
      localStream := media;
      listening := true;
    }

    /** The all-voice-users handler: create a connection per user, push each
        onto the connection list and collect the new rendered list. */
    method OnAllVoiceUsers(users: seq<string>)
      requires Valid() && listening
      modifies this
      ensures Valid() && View() == AllVoiceUsers(old(View()), users)
    {
      AllVoiceUsersOutcome(View(), users);
      ghost var first := nextPeer;
      ghost var refs0 := peersRef;
      var peersArr: seq<PeerEntry> := [];
      var i := 0;
      while i < |users|
        invariant 0 <= i <= |users|
        decreases |users| - i
        invariant nextPeer == first + i
        invariant peersArr == NewEntries(users[..i], first)
        invariant peersRef == refs0 + RefsOf(peersArr)
        invariant View() == old(View()).(peersRef := peersRef, nextPeer := nextPeer)
      {
        var peer := nextPeer;
        nextPeer := nextPeer + 1;
        peersRef := peersRef + [PeerRef(users[i], peer)];
        peersArr := peersArr + [PeerEntry(users[i], peer, 1.0)];
        assert NewEntries(users[..i + 1], first) == NewEntries(users[..i], first) + [PeerEntry(users[i], peer, 1.0)];
        assert RefsOf(peersArr) == RefsOf(peersArr[..i]) + [PeerRef(users[i], peer)];
        i := i + 1;
      }
      assert users[..i] == users;
      peers := peersArr;
    }

    method OnUserJoined(callerID: string)
      requires Valid() && listening
      modifies this
      ensures Valid() && View() == UserJoined(old(View()), callerID)
    {
      UserJoinedOutcome(View(), callerID);
      var peer := nextPeer;
      nextPeer := nextPeer + 1;
      peersRef := peersRef + [PeerRef(callerID, peer)];
      peers := peers + [PeerEntry(callerID, peer, 1.0)];
    }

    /** The receiving-returned-signal handler: the connection that gets the
        signal, the first one to that user, or None. */
    method OnReturnedSignal(id: string) returns (signalled: Option<PeerHandle>)
      ensures signalled.None? <==> forall j :: 0 <= j < |peersRef| ==> peersRef[j].peerID != id
      ensures signalled.Some? ==>
        exists k :: 0 <= k < |peersRef| && peersRef[k].peerID == id && peersRef[k].peer == signalled.value
                    && forall j :: 0 <= j < k ==> peersRef[j].peerID != id
    {
      var item := FindPeer(peersRef, id);
      if item.Some? {
        signalled := Some(peersRef[item.value].peer);
      } else {
        signalled := None;
      }
    }

    method OnUserLeft(id: string)
      requires Valid() && listening
      modifies this
      ensures Valid() && View() == UserLeft(old(View()), id)
    {
      UserLeftOutcome(View(), id);
      var peerObj := FindPeer(peersRef, id);
      if peerObj.Some? {
        destroyed := destroyed + {peersRef[peerObj.value].peer};
      }
      peersRef := Without(peersRef, RefId, id);
      peers := Without(peers, EntryId, id);
      incomingStreams := Without(incomingStreams, StreamOwner, id);
    }

    method StopScreenShare()
      requires Valid()
      modifies this
      ensures Valid() && View() == ScreenShareStopped(old(View()))
    {
      if screenStream.None? {
        return;
      }
      screenStream := None;
      isSharingScreen := false;
    }

    /** startScreenShare, with `media` the outcome of the display request. */
    method StartScreenShare(media: Option<MediaStream>)
      requires Valid()
      modifies this
      ensures Valid() && View() == ScreenShareStarted(old(View()), media)
    {
      if media.Some? {
        isSharingScreen := true;
        screenStream := media;
      }
    }

    /** The leaveVoice closure of a render in which `inVoice` read
        `renderedInVoice`. */
    method LeaveVoiceFromRender(renderedInVoice: bool)
      requires Valid()
      modifies this
      ensures Valid() && View() == VoiceLeft(old(View()), renderedInVoice)
    {
      if !renderedInVoice {
        return;
      }
      StopScreenShare();
      inVoice := false;
      localStream := None;
      destroyed := destroyed + Handles(peersRef);
      peersRef := [];
      peers := [];
      incomingStreams := [];
      listening := false;
    }

    /** leaveVoice as the current render's handlers call it. */
    method LeaveVoice()
      requires Valid()
      modifies this
      ensures Valid() && View() == VoiceLeft(old(View()), old(inVoice))
    {
      LeaveVoiceOutcome(View());
      LeaveVoiceFromRender(inVoice);
    }

    method HandleIncomingStream(id: string, stream: MediaStream)
      requires Valid()
      modifies this
      ensures Valid() && View() == IncomingAdded(old(View()), id, stream)
    {
      if stream.videoTracks > 0 {
        if !HasStream(incomingStreams, id, stream.id) {
          incomingStreams := incomingStreams + [IncomingStream(id, stream)];
        }
      }
    }

    method HandleVolumeChange(peerId: string, newVolume: real)
      requires Valid()
      modifies this
      ensures Valid() && View() == VolumeChanged(old(View()), peerId, newVolume)
    {
      VolumeChangeOutcome(View(), peerId, newVolume);
      peers := WithVolume(peers, peerId, newVolume);
    }

    /** The unmount cleanup as written. */
    method Unmount()
      requires Valid()
      modifies this
      ensures Valid() && View() == Unmounted(old(View()))
    {
      LeaveVoiceFromRender(false);
    }

    /** The unmount cleanup as evidently intended. */
    method UnmountIntended()
      requires Valid()
      modifies this
      ensures Valid() && View() == UnmountedIntended(old(View()))
    {
      LeaveVoice();
    }
  }
}
