/** Model of the music bot of server/musicBot.js: a service participant that
    joins one voice room, keeps a queue of tracks whose head is the track now
    playing, re-frames the decoder's PCM output into fixed-size audio frames,
    and keeps one peer connection per listening socket.

    Calls the bot makes into code outside this model are parameters:
    the track search is `found: Option<Track>`, the YouTube link rewrite is
    `stripped`, and whether a track's audio stream can be opened is
    `ok: Track -> bool`. Messages the bot posts to its text room are
    recorded in the `sent` log. */
module Music {
  import opened Common

  /** Bytes in one frame handed to RTCAudioSource: 10 ms of 48 kHz,
      two-channel, 16-bit audio (48000 * 2 * 2 / 100). */
  const FRAME_SIZE: nat := 1920

  datatype Track = Track(title: string, url: string, duration: nat)

  /** Which side of the peer handshake the bot took for a socket. */
  datatype PeerRole = Initiator | Responder

  /** The fields of a MusicBot as one value. The booleans `audioSource`,
      `ffmpegProcess` and `currentStream` say whether those object fields
      are non-null; `audioBuffer` is the pending bytes of the running
      decoder's output; `sent` is every message posted to the text room. */
  datatype BotState = BotState(
    peers: map<string, PeerRole>,
    currentRoom: Option<string>,
    audioSource: bool,
    ffmpegProcess: bool,
    isPlaying: bool,
    queue: seq<Track>,
    currentTrack: Option<Track>,
    textRoomId: Option<string>,
    currentStream: bool,
    streamReady: bool,
    audioBuffer: seq<byte>,
    sent: seq<string>)

  /** The state the constructor leaves. */
  const Fresh: BotState :=
    BotState(map[], None, false, false, false, [], None, None, false, false, [], [])

  /** What every handler keeps: the two playback flags agree, playback
      implies a decoder, an audio source, a stream and a current track, and
      the re-framer never holds a whole frame back. */
  predicate Consistent(s: BotState) {
    && s.streamReady == s.isPlaying
    && (s.isPlaying ==> s.audioSource && s.ffmpegProcess && s.currentStream && s.currentTrack.Some?)
    && |s.audioBuffer| < FRAME_SIZE
  }

  // ---------------------------------------------------------------------
  // Messages

  /** What reaches the text room: nothing while `textRoomId` is falsy. */
  function Say(textRoom: Option<string>, msgs: seq<string>): seq<string> {
    if Truthy(textRoom) then msgs else []
  }

  function Said(s: BotState, msgs: seq<string>): BotState {
    s.(sent := s.sent + Say(s.textRoomId, msgs))
  }

  /** The title a failure message shows: an empty title reads "Unknown". */
  function ShownTitle(t: Track): string {
    if t.title == "" then "Unknown" else t.title
  }

  /** One "could not play" message per track that failed, in order. */
  function FailureNotes(failed: seq<Track>): (notes: seq<string>)
    ensures |notes| == |failed|
    ensures "Sira bitti." !in notes
  {
    if failed == [] then []
    else
      var note := "Calinamadi: " + ShownTitle(failed[0]);
      assert note[0] == 'C';
      [note] + FailureNotes(failed[1..])
  }

  // ---------------------------------------------------------------------
  // Room membership and stopping

  /** stopMusic: kill the decoder, drop the audio source and the stream,
      clear both playback flags. */
  function Stopped(s: BotState): (r: BotState)
    ensures !r.isPlaying && !r.streamReady && !r.ffmpegProcess && !r.audioSource && !r.currentStream
    ensures r.queue == s.queue && r.currentTrack == s.currentTrack && r.peers == s.peers
    ensures r.currentRoom == s.currentRoom && r.textRoomId == s.textRoomId
    ensures r.sent == s.sent && r.audioBuffer == s.audioBuffer
  {
    s.(ffmpegProcess := false, audioSource := false, isPlaying := false,
       streamReady := false, currentStream := false)
  }

  /** leave: nothing without a room; otherwise stop, empty the queue, forget
      the current track and every peer, and leave the room. */
  function Left(s: BotState): (r: BotState)
    ensures !Truthy(s.currentRoom) ==> r == s
    ensures Truthy(s.currentRoom) ==>
      && r.queue == [] && r.currentTrack == None && r.peers == map[] && r.currentRoom == None
      && !r.isPlaying && !r.streamReady && !r.ffmpegProcess && !r.audioSource && !r.currentStream
    ensures r.textRoomId == s.textRoomId && r.sent == s.sent && r.audioBuffer == s.audioBuffer
    ensures Consistent(s) ==> Consistent(r)
  {
    if !Truthy(s.currentRoom) then s
    else Stopped(s).(queue := [], currentTrack := None, peers := map[], currentRoom := None)
  }

  /** join: nothing when already in `room`; otherwise leave the current
      room (if any) and enter `room`. */
  function Joined(s: BotState, room: Option<string>): (r: BotState)
    ensures r.currentRoom == room
    ensures s.currentRoom == room ==> r == s
    ensures s.currentRoom != room && Truthy(s.currentRoom) ==> r == Left(s).(currentRoom := room)
    ensures s.currentRoom != room && !Truthy(s.currentRoom) ==> r == s.(currentRoom := room)
    ensures Consistent(s) ==> Consistent(r)
  {
    if s.currentRoom == room then s
    else if Truthy(s.currentRoom) then Left(s).(currentRoom := room)
    else s.(currentRoom := room)
  }

  /** Joining the room the bot is already in changes nothing. */
  lemma JoinIdempotent(s: BotState, room: Option<string>)
    ensures Joined(Joined(s, room), room) == Joined(s, room)
  {
  }

  // ---------------------------------------------------------------------
  // Playback

  /** The head's stream opened: start a decoder with an empty re-framing
      buffer, and mark playback as running. The head stays in the queue. */
  function Started(s: BotState): BotState
    requires s.queue != []
  {
    s.(currentTrack := Some(s.queue[0]), audioSource := true, currentStream := true,
       ffmpegProcess := true, audioBuffer := [], isPlaying := true, streamReady := true)
  }

  /** The head's stream failed: report it and shift exactly the head. */
  function HeadFailed(s: BotState): BotState
    requires s.queue != []
  {
    Said(s.(currentTrack := Some(s.queue[0])), ["Calinamadi: " + ShownTitle(s.queue[0])])
      .(queue := s.queue[1..])
  }

  /** The empty-queue branch of playNext: report the end and clear both
      playback flags. */
  function QueueEnded(s: BotState): BotState {
    Said(s, ["Sira bitti."]).(isPlaying := false, streamReady := false)
  }

  /** playNext: on an empty queue report the end and stop; otherwise try
      the head, and when its stream fails report it, shift it, and try again
      only while tracks remain. Peers and rooms are untouched and the queue
      never grows; when a non-empty queue runs out, the playback flags are
      left as they were. */
  function PlayedNext(s: BotState, ok: Track -> bool): (r: BotState)
    ensures r.peers == s.peers && r.currentRoom == s.currentRoom && r.textRoomId == s.textRoomId
    ensures |r.queue| <= |s.queue|
    ensures s.queue != [] && r.queue == [] ==> r.isPlaying == s.isPlaying && r.streamReady == s.streamReady
    decreases |s.queue|
  {
    if s.queue == [] then QueueEnded(s)
    else if ok(s.queue[0]) then Started(s)
    else if |s.queue| == 1 then HeadFailed(s)
    else PlayedNext(HeadFailed(s), ok)
  }

  /** The index of the first track whose stream opens, or |q| if none does. */
  function FirstPlayable(q: seq<Track>, ok: Track -> bool): (k: nat)
    ensures k <= |q|
    ensures forall i :: 0 <= i < k ==> !ok(q[i])
    ensures k < |q| ==> ok(q[k])
  {
    if q == [] then 0
    else if ok(q[0]) then 0
    else 1 + FirstPlayable(q[1..], ok)
  }

  /** The state after the first `n` tracks of the queue failed to stream:
      they are shifted off, one message each. */
  function AfterFailures(s: BotState, n: nat): BotState
    requires n <= |s.queue|
  {
    s.(queue := s.queue[n..], sent := s.sent + Say(s.textRoomId, FailureNotes(s.queue[..n])))
  }

  lemma SayAppend(room: Option<string>, a: seq<string>, b: seq<string>)
    ensures Say(room, a + b) == Say(room, a) + Say(room, b)
  {
  }

  /** Shifting one failed head and then `n` more is shifting `n + 1`. */
  lemma AfterFailuresStep(s: BotState, n: nat)
    requires n + 1 <= |s.queue|
    ensures AfterFailures(HeadFailed(s), n) == AfterFailures(s, n + 1).(currentTrack := Some(s.queue[0]))
  {
    var h := HeadFailed(s);
    var note := "Calinamadi: " + ShownTitle(s.queue[0]);
    var notes := FailureNotes(h.queue[..n]);
    var L := AfterFailures(h, n);
    var R := AfterFailures(s, n + 1).(currentTrack := Some(s.queue[0]));
    assert FailureNotes(s.queue[..n + 1]) == [note] + notes by {
      assert s.queue[..n + 1] == [s.queue[0]] + h.queue[..n];
    }
    assert L.sent == R.sent by {
      SayAppend(s.textRoomId, [note], notes);
      assert s.sent + Say(s.textRoomId, [note]) + Say(s.textRoomId, notes)
          == s.sent + (Say(s.textRoomId, [note]) + Say(s.textRoomId, notes));
    }
    assert L.queue == R.queue by {
      assert h.queue[n..] == s.queue[n + 1..];
    }
  }

  /** When some track streams, playNext shifts off exactly the tracks before
      the first playable one and starts that one, leaving it at the head. */
  lemma {:induction false} PlayedNextFindsPlayable(s: BotState, ok: Track -> bool)
    requires FirstPlayable(s.queue, ok) < |s.queue|
    ensures PlayedNext(s, ok) == Started(AfterFailures(s, FirstPlayable(s.queue, ok)))
    decreases |s.queue|
  {
    var k := FirstPlayable(s.queue, ok);
    if k == 0 {
      StartsPlayableHead(s, ok);
    } else {
      RetryAfterFailedHead(s, ok);
      PlayedNextFindsPlayable(HeadFailed(s), ok);
      StartedAfterStep(s, k - 1);
    }
  }

  /** A head whose stream opens is started at once. */
  lemma StartsPlayableHead(s: BotState, ok: Track -> bool)
    requires s.queue != [] && ok(s.queue[0])
    ensures PlayedNext(s, ok) == Started(AfterFailures(s, 0))
  {
    assert FailureNotes(s.queue[..0]) == [];
    assert s.sent + Say(s.textRoomId, []) == s.sent;
    assert s.queue[0..] == s.queue;
  }

  /** A failed head with tracks behind it is shifted and playNext retried. */
  lemma RetryAfterFailedHead(s: BotState, ok: Track -> bool)
    requires |s.queue| > 1 && !ok(s.queue[0])
    ensures PlayedNext(s, ok) == PlayedNext(HeadFailed(s), ok)
    ensures FirstPlayable(HeadFailed(s).queue, ok) + 1 == FirstPlayable(s.queue, ok)
  {
  }

  /** Starting after one failed head and `n` more failures is starting
      after `n + 1` failures: the failed head's currentTrack is overwritten. */
  lemma StartedAfterStep(s: BotState, n: nat)
    requires n + 1 < |s.queue|
    ensures Started(AfterFailures(HeadFailed(s), n)) == Started(AfterFailures(s, n + 1))
  {
    AfterFailuresStep(s, n);
  }

  /** When no track streams, playNext shifts every track off with one
      message each and the last one stays current; the retry stops before
      the empty-queue branch, so the playback flags keep their values. */
  lemma {:induction false} PlayedNextExhausts(s: BotState, ok: Track -> bool)
    requires s.queue != [] && FirstPlayable(s.queue, ok) == |s.queue|
    ensures PlayedNext(s, ok) ==
      AfterFailures(s, |s.queue|).(currentTrack := Some(s.queue[|s.queue| - 1]))
    decreases |s.queue|
  {
    var h := HeadFailed(s);
    var n := |s.queue| - 1;
    AfterFailuresStep(s, n);
    if n == 0 {
      assert AfterFailures(h, 0) == h;
    } else {
      assert FirstPlayable(h.queue, ok) == |h.queue|;
      PlayedNextExhausts(h, ok);
      assert h.queue[n - 1] == s.queue[n];
    }
  }

  /** What playNext leaves, field by field: the first playable track (if
      any) is current, at the head of the queue, and playing. If none is
      playable the queue is empty, the last track is current, the playback
      flags are as before, and the only messages are the failure notices. */
  lemma PlayedNextOutcome(s: BotState, ok: Track -> bool)
    requires s.queue != []
    ensures var r := PlayedNext(s, ok); var k := FirstPlayable(s.queue, ok);
      && (k < |s.queue| ==>
            r.queue == s.queue[k..] && r.currentTrack == Some(s.queue[k]) && r.isPlaying && r.streamReady)
      && (k == |s.queue| ==>
            && r.queue == [] && r.currentTrack == Some(s.queue[|s.queue| - 1])
            && r.isPlaying == s.isPlaying && r.streamReady == s.streamReady
            && r.sent == s.sent + Say(s.textRoomId, FailureNotes(s.queue))
            && "Sira bitti." !in r.sent[|s.sent|..])
  {
    if FirstPlayable(s.queue, ok) < |s.queue| {
      PlayedNextFindsPlayable(s, ok);
    } else {
      PlayedNextExhausts(s, ok);
      assert s.queue[..|s.queue|] == s.queue;
      var r := PlayedNext(s, ok);
      assert r.sent[|s.sent|..] == Say(s.textRoomId, FailureNotes(s.queue));
    }
  }

  /** skip: with an empty queue only report it; otherwise shift exactly the
      head, stop the music and play the next track. */
  function Skipped(s: BotState, ok: Track -> bool): (r: BotState)
    ensures r.peers == s.peers && r.currentRoom == s.currentRoom && r.textRoomId == s.textRoomId
    ensures s.queue == [] ==> r.queue == [] && r.isPlaying == s.isPlaying && r.currentTrack == s.currentTrack
    ensures s.queue != [] ==> |r.queue| < |s.queue|
  {
    if s.queue == [] then Said(s, ["Sirada sarki yok."])
    else PlayedNext(Stopped(Said(s.(queue := s.queue[1..]), ["Atlandi: " + s.queue[0].title])), ok)
  }

  /** The decoder's 'close' handler: while playing, the finished head is
      shifted and the next track played; otherwise nothing happens. */
  function FFmpegClosed(s: BotState, ok: Track -> bool): (r: BotState)
    ensures !(s.isPlaying && |s.queue| > 0) ==> r == s
    ensures r.peers == s.peers && r.currentRoom == s.currentRoom && r.textRoomId == s.textRoomId
    ensures s.isPlaying && |s.queue| > 0 ==> |r.queue| < |s.queue|
  {
    if s.isPlaying && |s.queue| > 0 then PlayedNext(s.(queue := s.queue[1..]), ok) else s
  }

  /** stopMusic clears isPlaying, so a close event from the killed decoder
      that arrives right after it shifts nothing. */
  lemma CloseAfterStopIsIgnored(s: BotState, ok: Track -> bool)
    ensures FFmpegClosed(Stopped(s), ok) == Stopped(s)
  {
  }

  /** Skipping an empty queue only reports it. Otherwise exactly the head is
      shifted before the next track is tried; the track that then plays (if
      any) is the first playable one after it, and if none plays, playback
      is off, since skip stopped it first. */
  lemma SkipRemovesExactlyHead(s: BotState, ok: Track -> bool)
    ensures s.queue == [] ==> Skipped(s, ok) == s.(sent := s.sent + Say(s.textRoomId, ["Sirada sarki yok."]))
    ensures s.queue != [] ==>
      var r := Skipped(s, ok); var rest := s.queue[1..]; var k := FirstPlayable(rest, ok);
      && (k < |rest| ==> r.queue == rest[k..] && r.currentTrack == Some(rest[k]) && r.isPlaying)
      && (k == |rest| ==> r.queue == [] && !r.isPlaying && !r.streamReady)
  {
    if s.queue != [] {
      var t := Stopped(Said(s.(queue := s.queue[1..]), ["Atlandi: " + s.queue[0].title]));
      if t.queue != [] {
        PlayedNextOutcome(t, ok);
      }
    }
  }

  // ---------------------------------------------------------------------
  // addToQueue

  /** The query sent to the search: for a YouTube link, the rewritten text,
      unless that is shorter than 3 characters, in which case the original. */
  function SearchQuery(query: string, stripped: string): (q: string)
    ensures q == query || q == stripped
    ensures q != query ==>
      (Contains(query, "youtube.com") || Contains(query, "youtu.be")) && |q| >= 3
  {
    if Contains(query, "youtube.com") || Contains(query, "youtu.be") then
      (if |stripped| < 3 then query else stripped)
    else query
  }

  datatype Enqueue = Enqueue(state: BotState, added: bool)

  /** The first steps of addToQueue, whatever the search finds: remember the
      text room, join the voice room, announce the search. */
  function Searching(s: BotState, query: string, stripped: string,
                     textRoom: Option<string>, voiceRoom: Option<string>): (r: BotState)
    ensures r.textRoomId == textRoom && r.currentRoom == voiceRoom
  {
    Said(Joined(s.(textRoomId := textRoom), voiceRoom), ["Araniyor: " + SearchQuery(query, stripped)])
  }

  /** A found track is pushed at the end; playback starts only when it is
      alone in the queue and nothing is playing, otherwise its position is
      reported. An idle bot starts the track when its stream opens, and
      otherwise reports the failure and stays idle with an empty queue. */
  function Appended(s: BotState, t: Track, ok: Track -> bool): (r: BotState)
    ensures r.textRoomId == s.textRoomId && r.currentRoom == s.currentRoom
    ensures s.queue == [] && !s.isPlaying && ok(t) ==>
      r.queue == [t] && r.currentTrack == Some(t) && r.isPlaying && r.streamReady
    ensures s.queue == [] && !s.isPlaying && !ok(t) ==>
      && r.queue == [] && r.currentTrack == Some(t) && !r.isPlaying && r.streamReady == s.streamReady
      && r.sent == s.sent + Say(s.textRoomId, ["Kanal: " + t.title, "Calinamadi: " + ShownTitle(t)])
    ensures s.queue != [] || s.isPlaying ==>
      r.queue == s.queue + [t] && r.isPlaying == s.isPlaying && r.currentTrack == s.currentTrack
  {
    var pushed := s.(queue := s.queue + [t]);
    if |pushed.queue| == 1 && !pushed.isPlaying then
      SayAppend(s.textRoomId, ["Kanal: " + t.title], ["Calinamadi: " + ShownTitle(t)]);
      PlayedNext(Said(pushed, ["Kanal: " + t.title]), ok)
    else Said(pushed, ["Siraya eklendi (#" + NatToString(|pushed.queue|) + "): " + t.title])
  }

  /** addToQueue: remember the text room, join the voice room, search, and
      either report "not found" or append the track. */
  function Enqueued(s: BotState, query: string, stripped: string, textRoom: Option<string>,
                    voiceRoom: Option<string>, found: Option<Track>, ok: Track -> bool): (e: Enqueue)
    ensures e.state.textRoomId == textRoom && e.state.currentRoom == voiceRoom
    ensures e.added == found.Some?
  {
    var searching := Searching(s, query, stripped, textRoom, voiceRoom);
    match found
    case None => Enqueue(Said(searching, ["Bulunamadi: " + SearchQuery(query, stripped)]), false)
    case Some(t) => Enqueue(Appended(searching, t, ok), true)
  }

  /** When nothing is found the queue is the one the join left: unchanged
      in the same room, empty after switching from another room. */
  lemma EnqueueNotFoundKeepsQueue(s: BotState, query: string, stripped: string,
                                  textRoom: Option<string>, voiceRoom: Option<string>, ok: Track -> bool)
    ensures var e := Enqueued(s, query, stripped, textRoom, voiceRoom, None, ok);
      && !e.added
      && e.state.queue == (if s.currentRoom != voiceRoom && Truthy(s.currentRoom) then [] else s.queue)
  {
  }

  /** A found track that does not start playback is appended at the end,
      the queue grows by exactly one, and the reported position is the new
      length. */
  lemma EnqueueAppends(s: BotState, query: string, stripped: string, textRoom: Option<string>,
                       voiceRoom: Option<string>, t: Track, ok: Track -> bool)
    requires s.currentRoom == voiceRoom
    requires s.queue != [] || s.isPlaying
    ensures var e := Enqueued(s, query, stripped, textRoom, voiceRoom, Some(t), ok);
      && e.added
      && e.state.queue == s.queue + [t]
      && e.state.isPlaying == s.isPlaying && e.state.currentTrack == s.currentTrack
      && (Truthy(textRoom) ==>
            e.state.sent[|e.state.sent| - 1] ==
              "Siraya eklendi (#" + NatToString(|s.queue| + 1) + "): " + t.title)
  {
    var searching := Searching(s, query, stripped, textRoom, voiceRoom);
    assert searching.queue == s.queue && searching.isPlaying == s.isPlaying;
  }

  /** When the bot is idle once it is in the requested room (a fresh bot,
      an idle bot already there, or a bot that leaves another room and so
      empties its queue), a found track whose stream opens starts playing at
      once, and one whose stream fails leaves the bot idle. */
  lemma EnqueueWhenIdlePlays(s: BotState, query: string, stripped: string, textRoom: Option<string>,
                             voiceRoom: Option<string>, t: Track, ok: Track -> bool)
    requires (Truthy(s.currentRoom) && s.currentRoom != voiceRoom) || (s.queue == [] && !s.isPlaying)
    ensures var e := Enqueued(s, query, stripped, textRoom, voiceRoom, Some(t), ok);
      && e.added && e.state.currentRoom == voiceRoom && e.state.currentTrack == Some(t)
      && (ok(t) ==> e.state.queue == [t] && e.state.isPlaying && e.state.streamReady)
      && (!ok(t) ==> e.state.queue == [] && !e.state.isPlaying)
  {
    var searching := Searching(s, query, stripped, textRoom, voiceRoom);
    assert searching.queue == [] && !searching.isPlaying;
  }

  // ---------------------------------------------------------------------
  // Re-framing the decoder output

  function Flatten(frames: seq<seq<byte>>): seq<byte> {
    if frames == [] then [] else frames[0] + Flatten(frames[1..])
  }

  lemma {:induction false} FlattenAppend(a: seq<seq<byte>>, b: seq<seq<byte>>)
    ensures Flatten(a + b) == Flatten(a) + Flatten(b)
  {
    if a == [] {
      assert a + b == b;
    } else {
      assert (a + b)[1..] == a[1..] + b;
      FlattenAppend(a[1..], b);
    }
  }

  predicate AllWhole(frames: seq<seq<byte>>) {
    forall i :: 0 <= i < |frames| ==> |frames[i]| == FRAME_SIZE
  }

  /** The stdout 'data' handler's loop: append the chunk to the pending
      bytes and cut whole frames off the front while at least one remains. */
  method CutFrames(buffer: seq<byte>, chunk: seq<byte>) returns (frames: seq<seq<byte>>, rest: seq<byte>)
    ensures AllWhole(frames)
    ensures |rest| < FRAME_SIZE
    ensures Flatten(frames) + rest == buffer + chunk
    ensures |frames| == (|buffer| + |chunk|) / FRAME_SIZE
  {
    rest := buffer + chunk;
    frames := [];
    while |rest| >= FRAME_SIZE
      invariant AllWhole(frames)
      invariant Flatten(frames) + rest == buffer + chunk
      invariant |frames| * FRAME_SIZE + |rest| == |buffer| + |chunk|
      decreases |rest|
    {
      var frame := rest[..FRAME_SIZE];
      FlattenAppend(frames, [frame]);
      assert Flatten([frame]) == frame;
      assert frame + rest[FRAME_SIZE..] == rest;
      frames := frames + [frame];
      rest := rest[FRAME_SIZE..];
    }
  }

  /** Whole frames followed by a short remainder are determined by the
      bytes alone: any two such cuttings of the same bytes agree. */
  lemma {:induction false} FramingUnique(f1: seq<seq<byte>>, r1: seq<byte>, f2: seq<seq<byte>>, r2: seq<byte>)
    requires AllWhole(f1) && |r1| < FRAME_SIZE
    requires AllWhole(f2) && |r2| < FRAME_SIZE
    requires Flatten(f1) + r1 == Flatten(f2) + r2
    ensures f1 == f2 && r1 == r2
    decreases |f1|
  {
    if f1 == [] && f2 == [] {
      assert Flatten(f1) + r1 == r1 && Flatten(f2) + r2 == r2;
    } else if f1 == [] || f2 == [] {
      // one side has a whole frame, the other only a short remainder
      assert false;
    } else {
      var d := Flatten(f1) + r1;
      assert d == f1[0] + (Flatten(f1[1..]) + r1);
      assert d == f2[0] + (Flatten(f2[1..]) + r2);
      assert f1[0] == d[..FRAME_SIZE] == f2[0];
      assert Flatten(f1[1..]) + r1 == d[FRAME_SIZE..] == Flatten(f2[1..]) + r2;
      FramingUnique(f1[1..], r1, f2[1..], r2);
      assert f1 == [f1[0]] + f1[1..];
      assert f2 == [f2[0]] + f2[1..];
    }
  }

  // ---------------------------------------------------------------------
  // The queue listing

  const QueueHeader: string := "Siradaki sarkilar:\n"

  /** One line of the listing: the head is marked "(Simdi)", the others by
      their one-based position. */
  function QueueLine(index: nat, t: Track): string {
    (if index == 0 then "(Simdi)" else "#" + NatToString(index + 1)) + " " + t.title + "\n"
  }

  function QueueLines(ts: seq<Track>, from: nat): string
    decreases |ts|
  {
    if ts == [] then "" else QueueLine(from, ts[0]) + QueueLines(ts[1..], from + 1)
  }

  function QueueListing(q: seq<Track>): (r: string)
    ensures q == [] <==> r == "Sira bos."
    ensures q != [] ==> |r| > |QueueHeader| && r[..|QueueHeader|] == QueueHeader
  {
    if q == [] then "Sira bos."
    else
      var lines := QueueLines(q, 0);
      assert lines == QueueLine(0, q[0]) + QueueLines(q[1..], 1);
      assert (QueueHeader + lines)[4] == 'd';
      QueueHeader + lines
  }

  lemma {:induction false} QueueLinesAppend(a: seq<Track>, b: seq<Track>, from: nat)
    ensures QueueLines(a + b, from) == QueueLines(a, from) + QueueLines(b, from + |a|)
    decreases |a|
  {
    if a == [] {
      assert a + b == b;
    } else {
      assert (a + b)[1..] == a[1..] + b;
      QueueLinesAppend(a[1..], b, from + 1);
    }
  }

  /** One more track adds its line at the end. */
  lemma QueueLinesSnoc(ts: seq<Track>, t: Track, from: nat)
    ensures QueueLines(ts + [t], from) == QueueLines(ts, from) + QueueLine(from + |ts|, t)
  {
    assert QueueLines([t], from + |ts|) == QueueLine(from + |ts|, t) by {
      assert [t][1..] == [];
    }
    QueueLinesAppend(ts, [t], from);
  }

  /** Appending a track to a non-empty queue appends exactly one line to
      the listing, the line QueueLine gives the track's position. */
  lemma ListingGrowsByOneLine(q: seq<Track>, t: Track)
    requires q != []
    ensures QueueListing(q + [t]) == QueueListing(q) + QueueLine(|q|, t)
  {
    QueueLinesSnoc(q, t, 0);
    assert QueueHeader + (QueueLines(q, 0) + QueueLine(|q|, t)) == (QueueHeader + QueueLines(q, 0)) + QueueLine(|q|, t);
  }

  /** A non-empty listing starts with the header and the playing track. */
  lemma ListingStartsWithHead(q: seq<Track>)
    requires q != []
    ensures QueueListing(q) == QueueHeader + "(Simdi) " + q[0].title + "\n" + QueueLines(q[1..], 1)
  {
  }

  // ---------------------------------------------------------------------
  // The defect of the close handler, and its correction

  /** The head of the queue is the track being played whenever playback runs. */
  predicate PlaybackCoherent(s: BotState) {
    s.isPlaying ==> s.queue != [] && s.currentTrack == Some(s.queue[0])
  }

  /** As written, the close handler breaks the link between the playing
      track and the head of the queue exactly when the finished track had
      successors and none of them streams. */
  lemma CloseStrandsIff(s: BotState, ok: Track -> bool)
    requires PlaybackCoherent(s) && s.isPlaying
    ensures !PlaybackCoherent(FFmpegClosed(s, ok)) <==>
      |s.queue| >= 2 && FirstPlayable(s.queue[1..], ok) == |s.queue| - 1
  {
    var rest := s.queue[1..];
    if rest != [] {
      PlayedNextOutcome(s.(queue := rest), ok);
    }
  }

  /** As written, when the close handler's advance finds no playable track
      the queue ends empty while isPlaying stays true; a track added later
      is then only reported as queued and never started, and the last failed
      track stays current. */
  lemma StrandedAfterFailedAdvance(s: BotState, c: Track, ok: Track -> bool,
                                   query: string, stripped: string)
    requires Consistent(s) && PlaybackCoherent(s) && s.isPlaying
    requires |s.queue| >= 2 && FirstPlayable(s.queue[1..], ok) == |s.queue| - 1
    ensures var closed := FFmpegClosed(s, ok);
      && closed.isPlaying && closed.queue == [] && !PlaybackCoherent(closed)
      && var e := Enqueued(closed, query, stripped, s.textRoomId, s.currentRoom, Some(c), ok);
         && e.added && e.state.queue == [c] && e.state.isPlaying
         && e.state.currentTrack == Some(s.queue[|s.queue| - 1])
  {
    PlayedNextOutcome(s.(queue := s.queue[1..]), ok);
  }

  /** playNext with the retry made unconditional: a failure on the last
      track falls through to the empty-queue branch, which reports the end
      and clears the playback flags. With it the playing track is always the
      head of the queue, and the handlers' invariant is kept. */
  function PlayedNextFixed(s: BotState, ok: Track -> bool): (r: BotState)
    ensures r.peers == s.peers && r.currentRoom == s.currentRoom && r.textRoomId == s.textRoomId
    ensures PlaybackCoherent(r)
    ensures Consistent(s) ==> Consistent(r)
    decreases |s.queue|
  {
    if s.queue == [] then QueueEnded(s)
    else if ok(s.queue[0]) then Started(s)
    else PlayedNextFixed(HeadFailed(s), ok)
  }

  /** The correction changes playNext only when no track streams: then it
      adds the end-of-queue report and the cleared flags to what playNext as
      written leaves; in every other case the two agree. */
  lemma {:induction false} FixDiffersOnlyWhenNoneStreams(s: BotState, ok: Track -> bool)
    ensures s.queue == [] || FirstPlayable(s.queue, ok) < |s.queue| ==>
      PlayedNextFixed(s, ok) == PlayedNext(s, ok)
    ensures s.queue != [] && FirstPlayable(s.queue, ok) == |s.queue| ==>
      PlayedNextFixed(s, ok) == QueueEnded(PlayedNext(s, ok))
    decreases |s.queue|
  {
    if s.queue != [] && !ok(s.queue[0]) && |s.queue| > 1 {
      assert FirstPlayable(HeadFailed(s).queue, ok) == FirstPlayable(s.queue, ok) - 1;
      FixDiffersOnlyWhenNoneStreams(HeadFailed(s), ok);
    }
  }

  /** The close handler with the corrected playNext. */
  function FFmpegClosedFixed(s: BotState, ok: Track -> bool): BotState {
    if s.isPlaying && |s.queue| > 0 then PlayedNextFixed(s.(queue := s.queue[1..]), ok) else s
  }

  /** With the correction, the close handler keeps the head of the queue
      equal to the playing track. */
  lemma CloseFixedKeepsCoherent(s: BotState, ok: Track -> bool)
    requires PlaybackCoherent(s)
    ensures PlaybackCoherent(FFmpegClosedFixed(s, ok))
  {
  }

  /** Skipping keeps the head of the queue equal to the playing track. */
  lemma SkipKeepsCoherent(s: BotState, ok: Track -> bool)
    requires PlaybackCoherent(s)
    ensures PlaybackCoherent(Skipped(s, ok))
  {
    if |s.queue| > 1 {
      var t := Stopped(Said(s.(queue := s.queue[1..]), ["Atlandi: " + s.queue[0].title]));
      PlayedNextOutcome(t, ok);
    }
  }

  /** addToQueue keeps the head of the queue equal to the playing track:
      it only starts playback from an idle bot. */
  lemma EnqueueKeepsCoherent(s: BotState, query: string, stripped: string, textRoom: Option<string>,
                             voiceRoom: Option<string>, found: Option<Track>, ok: Track -> bool)
    requires PlaybackCoherent(s)
    ensures PlaybackCoherent(Enqueued(s, query, stripped, textRoom, voiceRoom, found, ok).state)
  {
    var searching := Searching(s, query, stripped, textRoom, voiceRoom);
    assert PlaybackCoherent(searching) by {
      assert PlaybackCoherent(Joined(s.(textRoomId := textRoom), voiceRoom));
    }
  }

  // ---------------------------------------------------------------------
  // The bot object

  class MusicBot {
    var peers: map<string, PeerRole>
    var currentRoom: Option<string>
    var audioSource: bool
    var ffmpegProcess: bool
    var isPlaying: bool
    var queue: seq<Track>
    var currentTrack: Option<Track>
    var textRoomId: Option<string>
    var currentStream: bool
    var streamReady: bool
    /** The running decoder's pending output bytes (a closure variable of
        startFFmpeg in the source). */
    var audioBuffer: seq<byte>
    /** Every message sendMessage emitted to the text room. */
    var sent: seq<string>

    ghost function View(): BotState
      reads this
    {
      BotState(peers, currentRoom, audioSource, ffmpegProcess, isPlaying, queue, currentTrack,
               textRoomId, currentStream, streamReady, audioBuffer, sent)
    }

    ghost predicate Valid()
      reads this
    {
      Consistent(View())
    }

    constructor ()
      ensures Valid() && View() == Fresh
    {
      peers := map[];
      currentRoom := None;
      audioSource := false;
      ffmpegProcess := false;
      isPlaying := false;
      queue := [];
      currentTrack := None;
      textRoomId := None;
      currentStream := false;
      streamReady := false;
      audioBuffer := [];
      sent := [];
    }

    method Join(roomId: Option<string>)
      requires Valid()
      modifies this
      ensures Valid() && View() == Joined(old(View()), roomId)
    {
      if currentRoom == roomId {
        return;
      }
      if Truthy(currentRoom) {
        Leave();
      }
      currentRoom := roomId;
    }

    method Leave()
      requires Valid()
      modifies this
      ensures Valid() && View() == Left(old(View()))
    {
      if !Truthy(currentRoom) {
        return;
      }
      StopMusic();
      queue := [];
      currentTrack := None;
      streamReady := false;
      peers := map[];
      currentRoom := None;
    }

    method SendMessage(content: string)
      modifies this
      ensures View() == Said(old(View()), [content])
    {
      if Truthy(textRoomId) {
        sent := sent + [content];
      }
    }

    method AddToQueue(query: string, stripped: string, textRoom: Option<string>, voiceRoom: Option<string>,
                      found: Option<Track>, ok: Track -> bool) returns (added: bool)
      requires Valid()
      modifies this
      ensures Valid()
      ensures Enqueue(View(), added) == Enqueued(old(View()), query, stripped, textRoom, voiceRoom, found, ok)
    {
      var searchQuery := BeginSearch(query, stripped, textRoom, voiceRoom);
      if found.None? {
        SendMessage("Bulunamadi: " + searchQuery);
        return false;
      }
      PushTrack(found.value, ok);
      return true;
    }

    /** The part of addToQueue before the search resolves. */
    method BeginSearch(query: string, stripped: string, textRoom: Option<string>, voiceRoom: Option<string>)
      returns (searchQuery: string)
      requires Valid()
      modifies this
      ensures Valid() && View() == Searching(old(View()), query, stripped, textRoom, voiceRoom)
      ensures searchQuery == SearchQuery(query, stripped)
    {
      textRoomId := textRoom;
      Join(voiceRoom);
      searchQuery := SearchQuery(query, stripped);
      SendMessage("Araniyor: " + searchQuery);
    }

    /** The part of addToQueue after a track was found. */
    method PushTrack(track: Track, ok: Track -> bool)
      requires Valid()
      modifies this
      ensures Valid() && View() == Appended(old(View()), track, ok)
    {
      queue := queue + [track];
      if |queue| == 1 && !isPlaying {
        SendMessage("Kanal: " + track.title);
        PlayNext(ok);
      } else {
        SendMessage("Siraya eklendi (#" + NatToString(|queue|) + "): " + track.title);
      }
    }

    method PlayNext(ok: Track -> bool)
      requires Valid()
      modifies this
      ensures Valid() && View() == PlayedNext(old(View()), ok)
      decreases |queue|
    {
      if |queue| == 0 {
        SendMessage("Sira bitti.");
        isPlaying := false;
        streamReady := false;
        return;
      }
      currentTrack := Some(queue[0]);
      if ok(queue[0]) {
        audioSource := true;
        currentStream := true;
        StartFFmpeg();
        isPlaying := true;
        streamReady := true;
      } else {
        SendMessage("Calinamadi: " + ShownTitle(queue[0]));
        queue := queue[1..];
        assert View() == HeadFailed(old(View()));
        if |queue| > 0 {
          PlayNext(ok);
        }
      }
    }

    method Skip(ok: Track -> bool)
      requires Valid()
      modifies this
      ensures Valid() && View() == Skipped(old(View()), ok)
    {
      if |queue| == 0 {
        SendMessage("Sirada sarki yok.");
        return;
      }
      var skipped := queue[0];
      queue := queue[1..];
      SendMessage("Atlandi: " + skipped.title);
      StopMusic();
      PlayNext(ok);
    }

    method GetQueueList() returns (list: string)
      ensures list == QueueListing(queue)
    {
      if |queue| == 0 {
        return "Sira bos.";
      }
      list := QueueHeader;
      var i := 0;
      while i < |queue|
        invariant 0 <= i <= |queue|
        invariant list == QueueHeader + QueueLines(queue[..i], 0)
      {
        QueueLinesSnoc(queue[..i], queue[i], 0);
        assert queue[..i + 1] == queue[..i] + [queue[i]];
        assert QueueHeader + QueueLines(queue[..i], 0) + QueueLine(i, queue[i])
            == QueueHeader + (QueueLines(queue[..i], 0) + QueueLine(i, queue[i]));
        list := list + QueueLine(i, queue[i]);
        i := i + 1;
      }
      assert queue[..i] == queue;
    }

    method StopMusic()
      modifies this
      ensures View() == Stopped(old(View()))
    {
      ffmpegProcess := false;
      audioSource := false;
      isPlaying := false;
      streamReady := false;
      currentStream := false;
    }

    /** Spawning the decoder: a new process with an empty pending buffer. */
    method StartFFmpeg()
      modifies this
      ensures View() == old(View()).(ffmpegProcess := true, audioBuffer := [])
    {
      ffmpegProcess := true;
      audioBuffer := [];
    }

    /** The decoder's stdout 'data' handler; `frames` are the frames handed
        to the audio source, in order. */
    method OnDecoderData(chunk: seq<byte>) returns (frames: seq<seq<byte>>)
      requires Valid()
      modifies this
      ensures Valid()
      ensures !old(audioSource) ==> frames == [] && View() == old(View())
      ensures old(audioSource) ==>
        && AllWhole(frames) && |audioBuffer| < FRAME_SIZE
        && Flatten(frames) + audioBuffer == old(audioBuffer) + chunk
        && View() == old(View()).(audioBuffer := audioBuffer)
    {
      if !audioSource {
        return [];
      }
      frames, audioBuffer := CutFrames(audioBuffer, chunk);
    }

    /** The decoder's 'close' handler. */
    method OnDecoderClose(ok: Track -> bool)
      requires Valid()
      modifies this
      ensures Valid() && View() == FFmpegClosed(old(View()), ok)
    {
      if isPlaying && |queue| > 0 {
        queue := queue[1..];
        PlayNext(ok);
      }
    }

    method InitiateConnection(userSocketId: string)
      requires Valid()
      modifies this
      ensures Valid()
      ensures !Truthy(old(currentRoom)) || userSocketId in old(peers) ==> View() == old(View())
      ensures Truthy(old(currentRoom)) && userSocketId !in old(peers) ==>
        View() == old(View()).(peers := old(peers)[userSocketId := Initiator])
    {
      if !Truthy(currentRoom) {
        return;
      }
      if userSocketId in peers {
        return;
      }
      peers := peers[userSocketId := Initiator];
    }

    /** A signal from a socket: forwarded to its peer when there is one,
        otherwise answered by a new responder peer. */
    method HandleSignal(userSocketId: string)
      requires Valid()
      modifies this
      ensures Valid()
      ensures !Truthy(old(currentRoom)) || userSocketId in old(peers) ==> View() == old(View())
      ensures Truthy(old(currentRoom)) && userSocketId !in old(peers) ==>
        View() == old(View()).(peers := old(peers)[userSocketId := Responder])
    {
      if !Truthy(currentRoom) {
        return;
      }
      if userSocketId !in peers {
        peers := peers[userSocketId := Responder];
      }
    }

    method RemovePeer(socketId: string)
      requires Valid()
      modifies this
      ensures Valid()
      ensures View() == old(View()).(peers := old(peers) - {socketId})
      ensures socketId !in old(peers) ==> peers == old(peers)
    {
      if socketId in peers {
        peers := peers - {socketId};
      }
    }
  }
}
