# Music bot, noise suppressor and voice panel of a self-hosted chat

This project models three stateful parts of a small group chat and voice application:

- **The music bot** (`music_bot.dfy`, module `Music`). A service participant joins one voice room at a time. It keeps a queue of tracks whose head is the track now playing and posts status messages to a text room. It cuts the decoder's PCM output into fixed 1920-byte frames (10 ms of 48 kHz stereo 16-bit audio) and keeps one peer connection per listening socket. The class `MusicBot` has the source's fields. Each method is proved against a function on a `BotState` snapshot. The properties are proved about those functions: which track plays, what the queue becomes, that framing loses no byte, what the listing says. The class runs playNext as the source writes it; the corrected retry of the first finding below is the separate function `PlayedNextFixed`, related to it by `FixDiffersOnlyWhenNoneStreams`.
- **The noise suppressor** (`noise_suppression.dfy`, module `NoiseSuppression`). A sample accumulator of four RNNoise frames is fed by the audio callback. The callback cuts whole frames from its front and writes their denoised samples to the output, then fills the rest of the output from the input. The suppressor also has an initialize/process/stop/destroy lifecycle and an app-wide singleton. The accumulator is an `array<real>` shifted in place, as in the source. The callback's frame loop is proved against recursive functions (`Consumed`, `DenoisedOutput`) whose properties are proved separately.
- **The voice panel** (`voice_chat.dfy`, module `VoiceChat`). It holds the rendered peer list, the connection list kept outside rendering, the incoming video streams, the microphone stream and the four voice socket handlers. The class `VoicePanel` has those as fields. Each handler is proved against a function on a `Panel` snapshot, and the list updates are pure functions with their own lemmas.

`common.dfy` (module `Common`) holds the shared pieces:

- JavaScript truthiness of nullable strings;
- the `Option` type;
- bytes;
- the decimal rendering of counters used in the bot's messages, with its parse-back round trip.

Everything outside these three components is a parameter. Each such value says what the outside call returned:

- the track search and the YouTube link rewrite;
- whether a track's audio stream opens;
- whether the RNNoise module loads, and the frame size it reports;
- whether the audio graph can be built;
- the denoiser;
- what the browser returns for the microphone and display capture.

The bot's text-room messages (the "message-received" emits of sendMessage) are modelled as the `sent` log. Log output, sounds and the other socket emits (the signals, join-voice and leave-voice, and the panel's own emits) are not modelled.

## Model

| member | source | states |
|---|---|---|
| Common.NatToStringRoundTrip | server/musicBot.js:161 | the queue position printed in "Siraya eklendi (#n)" reads back as n |
| Common.NatToStringInjective | server/musicBot.js:161 | different queue positions give different messages |
| Music.Left | server/musicBot.js:53-66 | without a room, leave changes nothing; otherwise queue, current track, peers and room are cleared and playback stops; the handlers' invariant is kept |
| Music.Joined | server/musicBot.js:46-51 | afterwards the bot is in the requested room; the same room changes nothing; a different truthy room is left first (queue and peers dropped) |
| Music.JoinIdempotent | server/musicBot.js:46-51 | joining the same room twice is joining once |
| Music.PlayedNext | server/musicBot.js:171-222 | playNext as written, retrying only while tracks remain: it never changes the peers or the rooms and never lengthens the queue, and when a non-empty queue runs out the playback flags keep their old values |
| Music.FirstPlayable | server/musicBot.js:171-222 | the index of the first track whose stream opens: every earlier track fails |
| Music.AfterFailuresStep | server/musicBot.js:214-220 | shifting one failed head and then n more equals shifting n+1, with one message per failed track |
| Music.PlayedNextFindsPlayable | server/musicBot.js:171-222 | when some track streams, playNext shifts exactly the tracks before the first playable one, with one message each, and starts it |
| Music.RetryAfterFailedHead | server/musicBot.js:214-221 | a failed head with tracks behind it is shifted and playNext is retried on the rest |
| Music.PlayedNextExhausts | server/musicBot.js:171-222 | when no track streams, every track is shifted off with one message each and the last one stays current; nothing else changes, so "Sira bitti." is not sent and the playback flags keep their values |
| Music.PlayedNextOutcome | server/musicBot.js:171-222 | the first playable track is current, at the head of the queue and playing; with none, the queue is empty, the last track is current, the flags are as before, and the only new messages are the failure notices (no "Sira bitti.") |
| Music.Stopped | server/musicBot.js:246-264 | stopMusic kills the decoder, drops the audio source and the stream and clears both playback flags; the queue, current track, peers, rooms, messages and audio buffer stay as they were |
| Music.Skipped | server/musicBot.js:225-234 | skip keeps the peers and both rooms; on an empty queue the queue stays empty and playback and current track are untouched; otherwise the queue gets strictly shorter |
| Music.FFmpegClosed | server/musicBot.js:319-325 | a decoder close changes nothing unless the bot is playing with a non-empty queue; when it fires, the queue gets strictly shorter and the peers and rooms are kept |
| Music.CloseAfterStopIsIgnored | server/musicBot.js:246-264 | a decoder close that follows stopMusic shifts nothing and plays nothing |
| Music.SkipRemovesExactlyHead | server/musicBot.js:225-234 | on an empty queue skip only posts "Sirada sarki yok."; otherwise it removes exactly the head, then plays the first playable track after it, or ends with an empty queue and no playback |
| Music.SearchQuery | server/musicBot.js:87-95 | the query searched is the original, or a rewrite of a YouTube link that is at least 3 characters long |
| Music.Searching | server/musicBot.js:82-98 | addToQueue records the text room and is in the requested voice room before searching |
| Music.Appended | server/musicBot.js:155-163 | an idle bot with an empty queue starts the track when its stream opens, and otherwise posts "Kanal" and "Calinamadi" and stays idle with an empty queue; a busy bot or a non-empty queue gets the track appended at the end, with playback and current track unchanged; the rooms are kept |
| Music.Enqueued | server/musicBot.js:82-169 | addToQueue reports success exactly when a track was found, in the requested rooms |
| Music.EnqueueNotFoundKeepsQueue | server/musicBot.js:148-151 | a failed search leaves the queue as the join left it |
| Music.EnqueueAppends | server/musicBot.js:155-163 | a found track that does not start playback is appended at the end; the message reports the new length as its position |
| Music.EnqueueWhenIdlePlays | server/musicBot.js:82-163 | when the bot is idle once in the requested room (a fresh bot, an idle bot already there, or one that leaves another room and so empties its queue), a streamable track starts at once, and an unstreamable one leaves the bot idle |
| Music.CutFrames | server/musicBot.js:285-296 | the frames handed on are all whole; concatenated with the short remainder they are exactly the old pending bytes plus the chunk; their number is the total divided by 1920 |
| Music.FramingUnique | server/musicBot.js:292-296 | whole frames followed by a short remainder are determined by the bytes alone |
| Music.ListingGrowsByOneLine | server/musicBot.js:236-244 | queueing one more track adds exactly its "#n title" line to the listing |
| Music.QueueListing | server/musicBot.js:236-244 | the listing is "Sira bos." exactly when the queue is empty; otherwise it starts with the header "Siradaki sarkilar:\n" and goes on past it |
| Music.ListingStartsWithHead | server/musicBot.js:236-244 | a non-empty listing is the header, then "(Simdi)" and the playing track, then the rest |
| Music.CloseStrandsIff | server/musicBot.js:319-325 | as written, the close handler of a playing, coherent bot leaves the playing track off the head of the queue exactly when the finished track had successors and none of them streams |
| Music.StrandedAfterFailedAdvance | server/musicBot.js:214-221 | as written, a close whose advance finds no playable track leaves isPlaying true with an empty queue, and a later track is only queued, never started, while the last failed track stays current |
| Music.PlayedNextFixed | server/musicBot.js:171-222 | with the correction (unconditional retry), after playNext the playing track is the head of the queue, and the handlers' invariant is kept |
| Music.FixDiffersOnlyWhenNoneStreams | server/musicBot.js:214-221 | the correction agrees with playNext as written except when no track of a non-empty queue streams; then it adds "Sira bitti." and clears the playback flags |
| Music.CloseFixedKeepsCoherent | server/musicBot.js:319-325 | with the correction, the decoder close handler keeps the playing track at the head of the queue |
| Music.SkipKeepsCoherent | server/musicBot.js:225-234 | skip, as written, keeps the playing track at the head of the queue, since it stops playback before the retry |
| Music.EnqueueKeepsCoherent | server/musicBot.js:82-169 | addToQueue, as written, keeps the playing track at the head of the queue, since it only starts playback from an idle bot |
| Music.MusicBot.constructor | server/musicBot.js:28-44 | a new bot has no room, no peers, an empty queue and no playback |
| Music.MusicBot.Join | server/musicBot.js:46-51 | the new state is Joined of the old, and the invariant holds |
| Music.MusicBot.Leave | server/musicBot.js:53-66 | the new state is Left of the old |
| Music.MusicBot.SendMessage | server/musicBot.js:68-80 | the message is recorded only when the text room is truthy |
| Music.MusicBot.AddToQueue | server/musicBot.js:82-169 | result and new state are Enqueued of the old state and the search result |
| Music.MusicBot.BeginSearch | server/musicBot.js:83-98 | the state before the search is Searching of the old, and the returned query is SearchQuery |
| Music.MusicBot.PushTrack | server/musicBot.js:155-163 | the state after a found track is Appended of the old |
| Music.MusicBot.PlayNext | server/musicBot.js:171-222 | the new state is PlayedNext of the old (the retry as written), and the invariant holds |
| Music.MusicBot.Skip | server/musicBot.js:225-234 | the new state is Skipped of the old |
| Music.MusicBot.GetQueueList | server/musicBot.js:236-244 | the loop builds exactly QueueListing of the queue |
| Music.MusicBot.StopMusic | server/musicBot.js:246-264 | decoder, audio source, stream and both playback flags are cleared; nothing else changes |
| Music.MusicBot.StartFFmpeg | server/musicBot.js:266-283 | a decoder runs with an empty pending buffer; nothing else changes |
| Music.MusicBot.OnDecoderData | server/musicBot.js:285-296 | without an audio source nothing happens; otherwise the frames are whole, lose no byte, and leave less than a frame pending |
| Music.MusicBot.OnDecoderClose | server/musicBot.js:319-325 | the new state is FFmpegClosed of the old, and the invariant holds |
| Music.MusicBot.InitiateConnection | server/musicBot.js:332-387 | outside a room, or for a known socket, nothing changes; otherwise the socket gets an initiator peer |
| Music.MusicBot.HandleSignal | server/musicBot.js:389-451 | outside a room nothing changes; a known socket's peer is reused; an unknown socket gets a responder peer |
| Music.MusicBot.RemovePeer | server/musicBot.js:453-458 | exactly that socket's peer is removed |
| NoiseSuppression.Retained | client/lib/noiseSuppression.ts:169-179 | the kept samples are a suffix of the window; on overflow they are the last min(count, 2*frameSize); otherwise the whole window |
| NoiseSuppression.AccumulateFitsIff | client/lib/noiseSuppression.ts:169-184 | adding n samples to a four-frame buffer succeeds exactly when they fit, or the buffer held more than two frames and n is at most two frames |
| NoiseSuppression.SmallCallbacksAlwaysFit | client/lib/noiseSuppression.ts:169-184 | a callback of at most two frames' worth never overflows |
| NoiseSuppression.ProcessFrame | client/lib/noiseSuppression.ts:191-214 | a processed frame is exactly one frame long |
| NoiseSuppression.Consumed | client/lib/noiseSuppression.ts:119-137 | the frame loop never consumes more samples than are buffered |
| NoiseSuppression.DenoisedOutput | client/lib/noiseSuppression.ts:119-137 | the frame loop never writes past the output |
| NoiseSuppression.ConsumesWholeFrames | client/lib/noiseSuppression.ts:119-137 | the samples consumed are a whole number of frames |
| NoiseSuppression.WritesWhatItConsumes | client/lib/noiseSuppression.ts:119-137 | the samples written are the samples consumed, capped by the output length |
| NoiseSuppression.StopsWhenFrameOrRoomRunsOut | client/lib/noiseSuppression.ts:119 | the loop ends only when less than a frame is buffered or the output is full |
| NoiseSuppression.SecondFrameCutShort | client/lib/noiseSuppression.ts:119-134 | with room for more than one frame but less than two, and two frames buffered, both frames are consumed but only the first room - frameSize denoised samples of the second are written; the rest of that frame is discarded |
| NoiseSuppression.Filler | client/lib/noiseSuppression.ts:139-142 | the fill covers exactly the positions the frame loop left |
| NoiseSuppression.OutputFullyWritten | client/lib/noiseSuppression.ts:119-142 | denoised prefix plus fill is exactly as long as the output |
| NoiseSuppression.Stopped | client/lib/noiseSuppression.ts:219-251 | after stopProcessing nothing is processing, there is no denoise state and the buffer is empty; frame size and initialization are kept |
| NoiseSuppression.Destroyed | client/lib/noiseSuppression.ts:256-261 | after destroy the suppressor is neither ready nor processing, and its buffer is empty |
| NoiseSuppression.StopIdempotent | client/lib/noiseSuppression.ts:219-251 | stopping twice is stopping once |
| NoiseSuppression.DestroyIdempotent | client/lib/noiseSuppression.ts:256-261 | destroying twice is destroying once, and stop then destroy is destroy |
| NoiseSuppression.CopyWithinFront | client/lib/noiseSuppression.ts:176 | the moved range is at the front, in order, and the rest of the array is untouched |
| NoiseSuppression.SetAt | client/lib/noiseSuppression.ts:182 | the samples are written at the offset, and the rest of the array is untouched |
| NoiseSuppression.FillFrom | client/lib/noiseSuppression.ts:139-142 | from the given index on, the output is the input at the same position, or 0 past the input; the prefix is kept |
| NoiseSuppression.FrameLoop | client/lib/noiseSuppression.ts:119-137 | the buffer becomes the buffered samples minus the consumed frames, and the output prefix is the denoised frames, in order |
| NoiseSuppression.TakeFrame | client/lib/noiseSuppression.ts:120-135 | one round denoises the front frame, appends as much as fits, and drops exactly that frame from the buffer |
| NoiseSuppression.NoiseSuppressor.constructor | client/lib/noiseSuppression.ts:25-33 | a new suppressor has a 2048-sample buffer, frame size 480, and is neither initialized nor processing |
| NoiseSuppression.NoiseSuppressor.Init | client/lib/noiseSuppression.ts:39-56 | a second init changes nothing; a failed load changes nothing and fails; a successful one takes the frame size and allocates four frames |
| NoiseSuppression.NoiseSuppressor.CreateDenoisedStream | client/lib/noiseSuppression.ts:62-164 | refused before init; a failed graph leaves everything stopped; otherwise processing starts with an empty buffer |
| NoiseSuppression.NoiseSuppressor.AccumulateSamples | client/lib/noiseSuppression.ts:169-184 | the buffer becomes the retained suffix plus the samples, or only the suffix when the write overflows (it throws) |
| NoiseSuppression.NoiseSuppressor.OnAudioProcess | client/lib/noiseSuppression.ts:108-143 | when processing, the output is the denoised whole frames followed by the input fill; the buffer keeps what was not consumed |
| NoiseSuppression.NoiseSuppressor.ProcessFrames | client/lib/noiseSuppression.ts:118-137 | the frame loop on the suppressor's own buffer, as FrameLoop states it |
| NoiseSuppression.NoiseSuppressor.StopProcessing | client/lib/noiseSuppression.ts:219-251 | the lifecycle becomes Stopped of the old |
| NoiseSuppression.NoiseSuppressor.Destroy | client/lib/noiseSuppression.ts:256-261 | the lifecycle becomes Destroyed of the old |
| NoiseSuppression.SuppressorRegistry.constructor | client/lib/noiseSuppression.ts:279 | no suppressor is registered at first |
| NoiseSuppression.SuppressorRegistry.GetNoiseSuppressor | client/lib/noiseSuppression.ts:284-290 | later calls return the same registered instance; the first one registers a new instance, initialized exactly when the load succeeds |
| NoiseSuppression.SuppressorRegistry.DestroyNoiseSuppressor | client/lib/noiseSuppression.ts:295-300 | the registered instance, if any, is destroyed and forgotten |
| VoiceChat.Without | client/components/VoiceChat.tsx:116-119 | the filtered list holds exactly the entries not for that user, and is no longer |
| VoiceChat.WithoutAppend | client/components/VoiceChat.tsx:116-119 | filtering distributes over concatenation, so remaining entries keep their relative order |
| VoiceChat.WithoutAbsent | client/components/VoiceChat.tsx:116-119 | a list with no entry for the user is returned unchanged |
| VoiceChat.WithoutIdempotent | client/components/VoiceChat.tsx:116-119 | filtering twice is filtering once |
| VoiceChat.FindPeer | client/components/VoiceChat.tsx:105 | the index of the first connection to the user; None exactly when there is none |
| VoiceChat.WithVolume | client/components/VoiceChat.tsx:231-235 | same length and order; entries for the peer get the new volume, all others are unchanged |
| VoiceChat.VolumeLastWriteWins | client/components/VoiceChat.tsx:231-235 | of two volume changes for one peer, the later one counts |
| VoiceChat.VolumeChangesCommute | client/components/VoiceChat.tsx:231-235 | volume changes for different peers commute |
| VoiceChat.WithIncoming | client/components/VoiceChat.tsx:188-197 | afterwards the (user, stream) pair is listed exactly when the stream has video or was listed before; the old list is kept as a prefix and at most one entry is added |
| VoiceChat.IncomingOutcome | client/components/VoiceChat.tsx:188-197 | a video stream whose (user, stream) pair is not yet listed is appended at the end; a stream without video or an already listed pair leaves the list unchanged; a repeated event changes nothing; (user, stream) pairs stay unique |
| VoiceChat.WithoutKeepsUnique | client/components/VoiceChat.tsx:119 | removing a user's streams keeps the (user, stream) pairs unique |
| VoiceChat.MuteToggled | client/components/VoiceChat.tsx:64-72 | without a microphone track nothing changes; otherwise the track flips and the muted flag is its negation |
| VoiceChat.ToggleTwiceRestoresTrack | client/components/VoiceChat.tsx:64-72 | toggling twice restores the track |
| VoiceChat.VoiceLeft | client/components/VoiceChat.tsx:128-148 | a closure that saw inVoice false does nothing; otherwise voice, microphone and screen share end, all three lists are empty, and every listed connection is destroyed |
| VoiceChat.AllVoiceUsers | client/components/VoiceChat.tsx:87-95 | all-voice-users replaces the rendered list by one entry per user, grows the connection list and the handle counter by the number of users, and changes nothing else |
| VoiceChat.AllVoiceUsersOutcome | client/components/VoiceChat.tsx:87-95 | the rendered list is one new, distinct connection per user, in order, at volume 1.0; the connection list keeps its old entries and grows by one per user |
| VoiceChat.UserJoined | client/components/VoiceChat.tsx:97-102 | user-joined-voice grows both lists and the handle counter by one and changes nothing else |
| VoiceChat.UserJoinedOutcome | client/components/VoiceChat.tsx:97-102 | exactly one new connection at volume 1.0 is appended to both lists |
| VoiceChat.UserLeft | client/components/VoiceChat.tsx:111-120 | user-left-voice destroys only connections from the connection list and undestroys none, never lengthens the three lists, and changes nothing else |
| VoiceChat.UserLeftOutcome | client/components/VoiceChat.tsx:111-120 | no entry for the user remains in any of the three lists, every other entry remains; exactly the connection of the user's first entry is destroyed, and nothing when there is none |
| VoiceChat.UserLeftDropsLaterConnection | client/components/VoiceChat.tsx:111-117 | a later connection to the same user, with its own handle, is removed from the connection list without being destroyed |
| VoiceChat.UserLeftIdempotent | client/components/VoiceChat.tsx:111-120 | a repeated user-left event changes nothing |
| VoiceChat.VolumeChangeOutcome | client/components/VoiceChat.tsx:231-235 | the panel stays valid; only the peer's entries change, and only their volume |
| VoiceChat.LeaveVoiceOutcome | client/components/VoiceChat.tsx:128-148 | leaving while not in voice changes nothing; leaving from voice destroys every connection and keeps the panel valid |
| VoiceChat.UnmountLeavesSessionOpen | client/components/VoiceChat.tsx:58-62 | as written, unmounting during a session returns the panel unchanged: it stays in voice with its microphone and handlers, and destroys no connection |
| VoiceChat.UnmountIntendedReleasesSession | client/components/VoiceChat.tsx:58-62 | with the correction, unmounting during a session releases the microphone, destroys every connection and unregisters the handlers |
| VoiceChat.VoicePanel.constructor | client/components/VoiceChat.tsx:27-36 | a new panel is out of voice, with empty lists and no streams |
| VoiceChat.VoicePanel.ToggleMute | client/components/VoiceChat.tsx:64-72 | the new state is MuteToggled of the old |
| VoiceChat.VoicePanel.JoinVoice | client/components/VoiceChat.tsx:74-85 | without a socket, or when the microphone is refused, nothing changes; otherwise the panel is in voice, unmuted, holds the stream and listens |
| VoiceChat.VoicePanel.OnAllVoiceUsers | client/components/VoiceChat.tsx:87-95 | the loop leaves the new state AllVoiceUsers of the old, and the panel stays valid |
| VoiceChat.VoicePanel.OnUserJoined | client/components/VoiceChat.tsx:97-102 | the new state is UserJoined of the old, and the panel stays valid |
| VoiceChat.VoicePanel.OnReturnedSignal | client/components/VoiceChat.tsx:104-109 | the signalled connection is the first one to that user; nothing is signalled exactly when there is none |
| VoiceChat.VoicePanel.OnUserLeft | client/components/VoiceChat.tsx:111-120 | the new state is UserLeft of the old |
| VoiceChat.VoicePanel.StopScreenShare | client/components/VoiceChat.tsx:219-229 | the screen stream, if any, is dropped and sharing ends |
| VoiceChat.VoicePanel.StartScreenShare | client/components/VoiceChat.tsx:199-217 | a granted capture becomes the shared screen stream |
| VoiceChat.VoicePanel.LeaveVoiceFromRender | client/components/VoiceChat.tsx:128-148 | the new state is VoiceLeft of the old, for the inVoice the closure saw, and the panel stays valid |
| VoiceChat.VoicePanel.LeaveVoice | client/components/VoiceChat.tsx:128-148 | leaveVoice with the current inVoice, keeping the panel valid |
| VoiceChat.VoicePanel.HandleIncomingStream | client/components/VoiceChat.tsx:188-197 | the new stream list is WithIncoming of the old |
| VoiceChat.VoicePanel.HandleVolumeChange | client/components/VoiceChat.tsx:231-235 | the new peer list is WithVolume of the old |
| VoiceChat.VoicePanel.Unmount | client/components/VoiceChat.tsx:58-62 | as written: leaveVoice as the first render saw it, which does nothing |
| VoiceChat.VoicePanel.UnmountIntended | client/components/VoiceChat.tsx:58-62 | corrected: leaveVoice with the current state |

## Left out

- The bot's outside calls are parameters: the play-dl search and stream, the ffmpeg process, RTCAudioSource, simple-peer, and the socket.io emits other than the bot's text-room messages (those are the `sent` log). Peers are modelled only by which socket has one and in which role. Stream attach/detach on peers and the peers' own close/error handlers are not modelled.
- The bot's SoundCloud-then-YouTube search cascade is a single `found: Option<Track>`. The regular-expression rewrite of YouTube links is the parameter `stripped`. The "Hata:" message of the catch-all in addToQueue is not modelled, because no modelled step throws.
- Asynchrony: every handler runs to completion, with awaited calls included. Interleavings at await points, for example a close event arriving while playNext awaits a stream, are not modelled.
- The decoder's Int16 sample view and the audio source's onData call are not modelled: frames are handed on as bytes.
- NoiseSuppression.ProcessFrame: RNNoise's Int16 scaling, clamping and floating-point arithmetic are abstracted by the parameter `denoise`. A shorter denoiser result reads as 0, as a fresh Float32Array would. RNNoise's denoise state carries over from frame to frame (client/lib/noiseSuppression.ts:86, 205); the model treats `denoise` as a pure function of one frame.
- Samples are `real`, not 32-bit floats. `inputData[i] || 0` is modelled as the input sample, so NaN is not modelled.
- The AudioContext graph (source, script processor, destination and silent gain nodes) is one success flag. The stream createDenoisedStream returns is not modelled.
- NoiseSuppression.NoiseSuppressor.Init requires the reported frame size to be positive. The source trusts RNNoise for that; with a frame size of 0 the source's frame loop would not terminate.
- NoiseSuppression.NoiseSuppressor.OnAudioProcess does not say that the callback throws when the accumulator overflows. It reports `completed == false` and leaves the output untouched.
- NoiseSuppression.SuppressorRegistry.GetNoiseSuppressor returns `ok` for the init outcome rather than rejecting its promise.
- The voice panel's keyboard shortcuts, sounds, audio elements and rendering are not modelled. Neither are the peers' signal/stream/close events inside createPeer and addPeer, nor the emits of join-voice, leave-voice and signals.
- VoiceChat.VoicePanel.StartScreenShare does not model adding the screen stream to each peer, or the track's onended hook.
- React state setters are applied immediately, in call order.
- The connections the voice handlers create are identified by a counter, and media streams by an id and a video-track count.

## Findings

| source | as written | input that shows it | evidently intended | confidence | as-written member | corrected member |
|---|---|---|---|---|---|---|
| server/musicBot.js:214-221 | after a failed stream, playNext retries only while the queue is non-empty, so the empty-queue branch that clears isPlaying is skipped; when the decoder's close handler (319-325) advances into a failing last track, isPlaying stays true with an empty queue | queue [a, b] with a playing, b's stream fails, a's decoder closes; then addToQueue(c) only reports "Siraya eklendi (#1)" and never plays c | the failure path falls through to the empty-queue branch ("Sira bitti.", isPlaying false), so the next track added starts | high; not executed | Music.StrandedAfterFailedAdvance | Music.CloseFixedKeepsCoherent |
| client/components/VoiceChat.tsx:58-62 | the unmount cleanup is registered once with an empty dependency list, so it runs the first render's leaveVoice, whose inVoice is false, and returns at once (line 129) | join voice, then unmount the panel: the microphone stays captured, the peer connections stay open and the socket handlers stay registered | leave voice on unmount according to the current state | high; not executed | VoiceChat.UnmountLeavesSessionOpen | VoiceChat.UnmountIntendedReleasesSession |
