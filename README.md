# Ambience-inator 5.0 bot — a verified model of its core

The bot plays a music playlist and a looping ambience track together in a Discord
voice channel, and a web dashboard controls it over a websocket. This project models
the logic behind it in Dafny and proves what that logic promises:

- the two playlist queues: `QueueManager`, the current one, and `MusicQueue`, the
  older draft. They cover next with wrap or clamp, previous through a history
  stack, shuffle keeping the current track first, unshuffle realigning by URL, and
  the loop toggle.
- the dual-stream PCM mixer `MixedAudio`. It holds two decoder handles, pause flags
  and volumes, and `read()` pads, silences, scales, sums and clips each frame.
  `MixedAudioSource` wraps it.
- the queue embed renderer: the Markdown escaper, the index clamp, the "Now Playing"
  box, the recent and paged up-next windows, and the footer.
- the two playback orchestrators: `PlaybackManager` (current) and the module-level
  functions of `playback.py` (older). Each drives the queue, the mixer and the
  shared bot state.
- the bot side of the dashboard websocket, `IPCBridge`. It covers the readiness
  gate, frame classification, `safe_send` gating, the connect/heartbeat
  bookkeeping and close.
- the command dispatcher's routing table and its `success`/`fail`/`state_response`
  envelopes.
- the bot status and playback records and their dashboard projection, the
  configuration manager's value parsing and key map, `BotConfig`'s defaults and
  setup merge, the playlist and ambience libraries, and the queue display's paging.

Python values are modelled in `values.dfy` as a `Value` datatype. A dict is an
ordered list of pairs, with `Get`/`Put`/`Remove` matching `d.get`, `d[k] = v` and
`d.pop`. An exception is a `PyError` (class name, message), and a call that may
raise returns an `Outcome` or a `Result`. Files, the network, decoder processes and
the stream resolver are parameters: a file's contents, whether a send fails, and
what a decoder writes.

Each source file is modelled as written. Where two drafts disagree, each keeps its
own behaviour:

- `playback.py` imports the bridge while it is still `None`, so every publish there
  raises an AttributeError (`Playback.Published`).
- It also calls `set_tracks` with two arguments on a queue that takes one
  (`Playback.SetTracksArity`).
- `PlaybackManager.send_state` passes a payload to a bridge method that takes none,
  so it raises a TypeError whenever the bridge is connected (`SendStateArity`).
- The display refresh calls a `get_state` the queue manager does not have, so it
  raises once the bot is ready (`DisplayManager.NoQueueState`).
- The bridge's allow-list before readiness names `SAVE_PLAYLISTS`, while the
  dashboard command is `SAVE_PLAYLIST`. `IpcBridge.NotReadyGate` proves that a
  `SAVE_PLAYLIST` sent early gets `BOT_NOT_READY`.

`core.state`'s class and its `reset_voice_state` are not defined in the repository.
The model takes the reset to clear the voice client and the in-VC flag, and nothing
else.

## Model

| member | source | states |
|---|---|---|
| QueueManager.QueueManager.constructor | bot/queue_manager.py:9-22 | An empty queue named "None" at index 0 with no history, playlist looping on and track looping off. |
| QueueManager.QueueManager.SetTracks | bot/queue_manager.py:28-43 | Both orders become the list (the shown one shuffled around position 0 when asked), the index is 0, the history is empty, and the loop flags are kept. Loading without shuffling leaves the snapshot out of shuffle mode. |
| QueueManager.QueueManager.GetCurrent | bot/queue_manager.py:45-58 | None for an empty queue. Otherwise an index past the end is clamped to the last track, and the track at the index is returned. |
| QueueManager.QueueManager.Shuffle | bot/queue_manager.py:60-74 | The new order is the current track followed by a permutation of the others (unchanged for at most one track), and the index does not move. From the saved order, with distinct URLs and a current track past the first, the snapshot then reports shuffle mode. |
| QueueManager.QueueManager.Unshuffle | bot/queue_manager.py:76-89 | A no-op with no saved order. Otherwise it restores the saved order exactly, moves the index to the first track with the previous current track's URL, and the snapshot leaves shuffle mode. |
| QueueManager.QueueManager.ToggleLoopCurrent | bot/queue_manager.py:97-106 | Flips track looping, sets playlist looping to the opposite, and reports "current track" exactly when the track loops. |
| QueueManager.ToggleLoopTwice | bot/queue_manager.py:97-106 | Two toggles restore both flags and report two different modes. |
| QueueManager.QueueManager.NextTrack | bot/queue_manager.py:108-128 | None on an empty queue; a looping track is returned again with no index or history change. Otherwise the old index is pushed and the index steps to `NextIndex` (wrap or clamp), staying in range. |
| QueueManager.QueueManager.PreviousTrack | bot/queue_manager.py:130-136 | With no history, None and nothing changes; otherwise the last pushed index is popped into the index and its track returned. |
| QueueManager.QueueManager.Export | bot/queue_manager.py:91-154 | Shuffle mode holds exactly when the shown order differs from the saved one, and without it the reported tracks are the saved order. For a consistent queue the reported tracks are a permutation of the saved order, the index is a position in them (0 when empty) and every history entry is a position in them. |
| Queue.MusicQueue.constructor | bot/queue.py:5-12 | The older queue starts empty at index 0 with no history, playlist looping on and track looping off. |
| Queue.MusicQueue.SetTracks | bot/queue.py:14-18 | Both orders become the list unshuffled, the index is 0, the history is empty, and the snapshot is not in shuffle mode. |
| Queue.MusicQueue.GetCurrent | bot/queue.py:20-23 | None exactly when empty; otherwise the track at the index, which stays in range with no clamping. |
| Queue.MusicQueue.Shuffle | bot/queue.py:25-33 | The current track goes first, the rest are permuted, and the index stays. From the saved order, with distinct URLs and a current track past the first, the snapshot then reports shuffle mode. |
| Queue.MusicQueue.Unshuffle | bot/queue.py:35-45 | Restores the saved order, realigns the index by URL and leaves shuffle mode; a no-op with no saved order. |
| Queue.MusicQueue.NextTrack | bot/queue.py:47-64 | The same loop-current / push-history / wrap-or-clamp stepping as the current queue. |
| Queue.MusicQueue.PreviousTrack | bot/queue.py:66-70 | Pops the history into the index, or returns None and changes nothing. |
| Queue.MusicQueue.ToggleLoopCurrent | bot/queue.py:72-77 | Flips track looping, sets playlist looping to its complement, and names the mode. |
| Queue.MusicQueue.GetQueue | bot/queue.py:79-86 | Shuffle mode holds exactly when the shown order differs from the saved one, and without it the reported tracks are the saved order. For a consistent queue the tracks are a permutation of the saved order and the index and history entries are positions in them. |
| QueueSpec.NextIndex | bot/queue_manager.py:118-128 | One step on, wrapping to 0 when the playlist loops and otherwise clamping to the last track; always in range. |
| QueueSpec.NextIndexN | bot/queue_manager.py:118-128 | Any number of steps stays in range. |
| QueueSpec.NextIndexNBelow | bot/queue_manager.py:118-128 | Steps that stay before the end just count up. |
| QueueSpec.NextIndexNAdd | bot/queue_manager.py:118-128 | `a` steps followed by `b` steps are `a + b` steps. |
| QueueSpec.NextIndexCycle | bot/queue_manager.py:118-124 | With playlist looping, `len` steps come back to the starting track. |
| QueueSpec.NextIndexNClamp | bot/queue_manager.py:125-128 | Without looping, `k` steps go `k` places on and stop at the last track. |
| QueueSpec.FirstUrlIndex | bot/queue_manager.py:80-87 | The first position whose track has the URL, or None when no track has it. |
| QueueSpec.ShufflePermutes | bot/queue_manager.py:60-74 | A shuffle keeps exactly the same multiset of tracks and the length. |
| QueueSpec.ShuffleMovesCurrent | bot/queue_manager.py:66-74 | With distinct URLs and a current index above 0, the shuffle changes the track at the index, since the current track moved to the front. |
| QueueSpec.UnshuffleFinds | bot/queue_manager.py:76-89 | A current track of a permutation of the saved order is always found in the saved order by URL. |
| QueueSpec.ShuffleChangesOrder | bot/queue_manager.py:60-74 | Shuffling around a current track past the first, over tracks with distinct URLs, always changes the order. |
| AudioMixer.FfmpegArgsShape | bot/audiomixer.py:20-34 | The output options `-f s16le -ar 48000 -ac 2 pipe:1` always follow `-i url`, and `-stream_loop -1` comes right before it exactly when looping. |
| AudioMixer.Zeros | bot/audiomixer.py:79-91 | A silent chunk of `n` zero bytes. |
| AudioMixer.Pad | bot/audiomixer.py:88-91 | A short chunk is extended to the chunk size with zero bytes after its own bytes; a full one is kept. |
| AudioMixer.DecodeSample | bot/audiomixer.py:93-94 | A little-endian int16 sample lies in [-32768, 32767]. |
| AudioMixer.EncodeSample | bot/audiomixer.py:97 | A sample is two bytes. |
| AudioMixer.Decode | bot/audiomixer.py:93-94 | `np.frombuffer` gives half as many samples as bytes, each in range. |
| AudioMixer.Encode | bot/audiomixer.py:97 | `tobytes` gives two bytes per sample. |
| AudioMixer.DecodeEncode | bot/audiomixer.py:93-97 | Decoding encoded in-range samples gives them back. |
| AudioMixer.MixSample | bot/audiomixer.py:93-96 | Every mixed sample lies in [-32768, 32767]. |
| AudioMixer.Truncate | bot/audiomixer.py:96 | `astype(np.int16)` truncates toward zero: the result is the integer between the value and 0 within distance 1. |
| AudioMixer.MixedSamples | bot/audiomixer.py:76-96 | A frame has 1920 samples, each in range, whatever the reads returned. |
| AudioMixer.MixFrameShape | bot/audiomixer.py:76-97 | The frame is exactly 3840 bytes and decodes to the mixed samples. |
| AudioMixer.MixSampleSaturates | bot/audiomixer.py:93-96 | Two full-scale inputs of the same sign clip to the range end instead of wrapping. |
| AudioMixer.MixSampleIdentity | bot/audiomixer.py:93-96 | One stream at full volume against silence passes through unchanged. |
| AudioMixer.SilenceMixesToSilence | bot/audiomixer.py:76-97 | Two empty reads give a silent frame at any volumes. |
| AudioMixer.ZerosDecode | bot/audiomixer.py:79-94 | Silence decodes to zero samples. |
| AudioMixer.EncodeZeros | bot/audiomixer.py:97 | Zero samples encode to silence. |
| AudioMixer.ClampVolume | bot/audiomixer.py:14-18 | The stored volume is the request clamped to [0, 1]. |
| AudioMixer.StreamChunk | bot/audiomixer.py:76-84 | A stream contributes at most one chunk to a frame. |
| AudioMixer.MixedAudio.constructor | bot/audiomixer.py:5-12 | No decoders, music at 1.0, ambience at 0.25, neither paused. |
| AudioMixer.MixedAudio.SetMusicVolume | bot/audiomixer.py:14-15 | The music volume becomes the clamped request. |
| AudioMixer.MixedAudio.SetAmbienceVolume | bot/audiomixer.py:17-18 | The ambience volume becomes the clamped request. |
| AudioMixer.MixedAudio.StartFfmpeg | bot/audiomixer.py:20-34 | A running decoder on the argument list. |
| AudioMixer.MixedAudio.StartAmbience | bot/audiomixer.py:38-40 | The old ambience decoder is replaced by a fresh one; pause flags and volumes are untouched. |
| AudioMixer.MixedAudio.PauseAmbience | bot/audiomixer.py:42-44 | Pauses only while a decoder exists and runs; otherwise nothing changes. |
| AudioMixer.MixedAudio.ResumeAmbience | bot/audiomixer.py:46-48 | Resumes only while a decoder exists and runs; otherwise nothing changes. |
| AudioMixer.MixedAudio.StopAmbience | bot/audiomixer.py:50-53 | The handle is cleared (a no-op without one); pause flags and volumes are untouched. |
| AudioMixer.MixedAudio.StartMusic | bot/audiomixer.py:55-57 | The old music decoder is replaced by a fresh one; pause flags and volumes are untouched. |
| AudioMixer.MixedAudio.PauseMusic | bot/audiomixer.py:59-61 | Pauses only while a decoder exists and runs. |
| AudioMixer.MixedAudio.ResumeMusic | bot/audiomixer.py:63-65 | Resumes only while a decoder exists and runs. |
| AudioMixer.MixedAudio.StopMusic | bot/audiomixer.py:67-70 | The handle is cleared; pause flags and volumes are untouched. |
| AudioMixer.MixedAudio.Read | bot/audiomixer.py:73-97 | The frame mixes each stream's chunk (silence when paused or absent) at the current volumes, is 3840 bytes, and consumes what was read from each decoder. |
| AudioMixer.MixedAudioSource.constructor | bot/audiomixer.py:101-102 | The source holds the mixer. |
| AudioMixer.MixedAudioSource.Read | bot/audiomixer.py:104-105 | Returns exactly the mixer's frame. |
| AudioMixer.MixedAudioSource.IsOpus | bot/audiomixer.py:107-108 | Always false. |
| QueueRenderer.MdEscapeIsReplaceAll | utils/queue_renderer.py:13-25 | The escaper is the nine replacements applied in order, backslash first. |
| QueueRenderer.ReplaceAllChar | utils/queue_renderer.py:13-25 | On one character the chain gives a backslash plus the character exactly for the nine specials, and the character otherwise, so inserted escapes are never doubled. |
| QueueRenderer.ReplaceAllAbsent | utils/queue_renderer.py:13-25 | A text with none of the specials is unchanged. |
| QueueRenderer.MdEscapeIsEscapeEach | utils/queue_renderer.py:13-25 | The chain equals the per-character escaper that puts one backslash before each special. |
| QueueRenderer.UnescapeMdEscape | utils/queue_renderer.py:13-25 | An escaped title reads back as the original name. |
| QueueRenderer.EscapeEachRoundTrip | utils/queue_renderer.py:13-25 | Reading back the per-character escape gives the original. |
| QueueRenderer.Repeat | utils/queue_renderer.py:63-67 | `c * n` is `n` copies of `c`. |
| QueueRenderer.Center | utils/queue_renderer.py:59-68 | `str.center`: the text in the middle, padded with spaces to the width, or unchanged when it is already that wide. |
| QueueRenderer.CenterLeft | utils/queue_renderer.py:59-68 | The left margin `str.center` leaves: the two sides differ by at most one space, and in an even width the left is exactly half, any odd space going right. |
| QueueRenderer.RightAlign | utils/queue_renderer.py:84-87 | Right alignment pads to the width. |
| QueueRenderer.NowLinesAligned | utils/queue_renderer.py:53-77 | Every box line is the same width whatever the title's length, because titles are clipped to 46 characters. |
| QueueRenderer.Escaped | utils/queue_renderer.py:13-25 | Escaping succeeds exactly for a string name. |
| QueueRenderer.ListingFailsFrom | utils/queue_renderer.py:80-100 | Once a position's line raises, the whole listing raises that error. |
| QueueRenderer.ListingOfNames | utils/queue_renderer.py:80-100 | With string names and positions in range, there is one line per position, in order, each with the escaped name. |
| QueueRenderer.ClampCurrent | utils/queue_renderer.py:43-50 | 0 for an empty queue, otherwise in range, and an in-range index is kept. |
| QueueRenderer.PageEndPlusRemaining | utils/queue_renderer.py:93-101 | The tracks before a page's end plus the "+N more" count add up to the queue length. |
| QueueRenderer.PagesAdjoin | utils/queue_renderer.py:93-101 | A page holds at most `per_page` lines, and the next page starts where this one ends. |
| QueueRenderer.RecentStart | utils/queue_renderer.py:80-87 | The recent window starts at or before the current position and holds the up-to-three positions right before it, none at position 0. |
| QueueRenderer.UpNextMore | utils/queue_renderer.py:125-131 | A page's panel starts with its listing and has the "+N more" line exactly when tracks remain after the page. |
| QueueRenderer.FooterFlags | utils/queue_renderer.py:139-141 | The footer says "Loop: On" exactly when the current track loops, and two footers agree only when the loop flag, the shuffle flag and the track total all do. |
| QueueRenderer.PanelNames | utils/queue_renderer.py:104-141 | The embed's panels come in the order the renderer adds them. |
| QueueRenderer.RenderPanels | utils/queue_renderer.py:27-143 | With string names and page at least 1, rendering succeeds. "Recently Played" appears exactly when the current track is not the first, the paged "Up Next" exactly when the page starts inside the queue, and the empty notice exactly when the queue is empty. |
| QueueRenderer.ListLines | utils/queue_renderer.py:80-100 | The listing loop produces the specified listing. |
| QueueRenderer.RenderQueueEmbed | utils/queue_renderer.py:27-143 | The embed built with loops is the specified rendering. |
| PlaybackManager.ClampPercent | bot/playback_manager.py:182-186 | The percent lies in [0, 100], and an in-range request is kept. |
| PlaybackManager.KindOf | bot/playback_manager.py:148-191 | A request names music exactly for "music" and ambience exactly for "ambience". |
| PlaybackManager.PlaybackManager.constructor | bot/playback_manager.py:16-19 | Default status and playback info, and no song monitor. |
| PlaybackManager.PlaybackManager.SendState | bot/playback_manager.py:314-319 | Skipped while the bridge is disconnected; while connected it raises the arity TypeError. |
| PlaybackManager.PlaybackManager.PublishAndRefresh | bot/playback_manager.py:314-319 | Publishing raises when connected; otherwise the display refresh ends quietly unless the bot is ready. |
| PlaybackManager.PlaybackManager.Refresh | bot/playback_manager.py:314-319 | Runs the publish and refresh; the display page is kept. |
| PlaybackManager.PlaybackManager.ThenRefresh | bot/playback_manager.py:114-121 | A step that raised propagates; otherwise the display refresh raises exactly when the bot is ready. |
| PlaybackManager.PlaybackManager.RefreshAfter | bot/playback_manager.py:121 | Runs the display refresh after a step unless the step raised; the page is kept and the outcome is `ThenRefresh` of the step. |
| PlaybackManager.PlaybackManager.PlayReply | bot/playback_manager.py:223-243 | Raises exactly when a track started (voice client and non-empty stream) and the bridge is connected. |
| PlaybackManager.PlaybackManager.LoadPlaylist | bot/playback_manager.py:87-108 | An unknown name raises ValueError and changes nothing, and a non-dict entry raises on `.items`. Otherwise the playlist is installed. |
| PlaybackManager.PlaybackManager.InstallPlaylist | bot/playback_manager.py:93-108 | The queue holds the tracks, shuffled around the first. Name and playlist are set, the current track is the queue's current track (or the placeholder when empty), and music-playing and shuffle mode are both false. |
| PlaybackManager.PlaybackManager.StartMonitor | bot/playback_manager.py:237-241 | The running monitor is cancelled and exactly one fresh one runs. |
| PlaybackManager.PlaybackManager.PlayMusic | bot/playback_manager.py:200-243 | With no voice client or no current track nothing changes and it completes. Otherwise an unresolved stream only stops the old music; a resolved one starts a decoder on that URL, records the current track, sets playing and streaming, and leaves one fresh monitor as the only one running. The reply is the publish's outcome once a track started, and the index never moves. |
| PlaybackManager.PlaybackManager.StartTrack | bot/playback_manager.py:223-243 | The decoder runs on the stream, the state records the track as playing, one fresh monitor runs, and the state is published. |
| PlaybackManager.PlaybackManager.PlayAmbience | bot/playback_manager.py:245-271 | Without a voice client nothing happens; an unresolved stream returns after stopping the ambience; otherwise the ambience starts. |
| PlaybackManager.PlaybackManager.StartAmbienceTrack | bot/playback_manager.py:259-271 | A looping decoder runs on the stream, and the name, URL and playing flag are recorded and published. |
| PlaybackManager.PlaybackManager.Skip | bot/playback_manager.py:114-121 | An empty queue only marks the music stopped, then publishes and refreshes. Otherwise the index advances as `next_track` does (or stays when looping the track), the next track is played with the full `play_music` post-state, and the display refresh runs unless that raised. The page never moves. |
| PlaybackManager.PlaybackManager.Previous | bot/playback_manager.py:123-127 | Without history nothing changes and the state is published. Otherwise the last history entry is popped into the index and played, with the full `play_music` post-state and reply. |
| PlaybackManager.PlaybackManager.ToggleShuffle | bot/playback_manager.py:129-138 | Unshuffles exactly when shuffle mode was on, shuffles otherwise, then flips shuffle mode. |
| PlaybackManager.PlaybackManager.ToggleLoop | bot/playback_manager.py:140-146 | Loop mode is on exactly when the queue now loops the current track. |
| PlaybackManager.PlaybackManager.Pause | bot/playback_manager.py:148-158 | The named stream is paused (when its decoder runs) and marked stopped; any other type changes nothing and returns before publishing. |
| PlaybackManager.PlaybackManager.AttachSource | bot/playback_manager.py:171-174 | A voice client that is not streaming is given the mixed source. |
| PlaybackManager.PlaybackManager.Resume | bot/playback_manager.py:160-176 | The named stream resumes (when its decoder runs), the source is attached, and the stream is marked playing; any other type changes nothing and returns before publishing. |
| PlaybackManager.PlaybackManager.SetVolume | bot/playback_manager.py:182-194 | The clamped percent goes to the named stream in the mixer and the state; an unknown type changes neither; the state is published either way. |
| PlaybackManager.PlaybackManager.LeaveVc | bot/playback_manager.py:60-81 | No voice client: nothing happens. Otherwise both streams are stopped, then the voice state is reset. |
| Playback.Playback.constructor | bot/playback.py:6-13 | Default status and playback info, and no song monitor. |
| Playback.Playback.LeaveVc | bot/playback.py:53-82 | Without a voice client only a publish. Otherwise running streams stop, and the voice client, in-VC and both playing flags are cleared. The publish always raises. |
| Playback.Playback.ToggleShuffle | bot/playback.py:96-105 | Unshuffles exactly when shuffle mode was on, shuffles otherwise, and flips shuffle mode. |
| Playback.Playback.ToggleLoop | bot/playback.py:107-112 | Loop mode becomes whether the queue now loops the current track. |
| Playback.Playback.LoadPlaylist | bot/playback.py:114-135 | FileNotFoundError for an empty library, then ValueError for a missing name. Otherwise the track list is the entries in order as url/name pairs, and the two-argument `set_tracks` raises TypeError. |
| Playback.Playback.SetVolume | bot/playback.py:137-155 | The clamped percent goes to the named stream; an unknown type changes neither mixer nor state. |
| Playback.Playback.PauseTrack | bot/playback.py:157-172 | The named stream is paused (when running) and marked stopped; an unknown type changes nothing but still publishes. |
| Playback.Playback.ResumeTrack | bot/playback.py:174-189 | The named stream resumes (when running) and is marked playing; an unknown type changes nothing but still publishes. |
| Playback.Playback.AttachSource | bot/playback.py:255-260 | A voice client that is not streaming is given the mixed source. |
| Playback.Playback.PlayAmbience | bot/playback.py:191-223 | Without a voice client nothing happens. An unresolved stream stops the ambience and leaves the state; otherwise a looping decoder starts and the ambience is recorded. |
| Playback.Playback.StartMonitor | bot/playback.py:267-270 | The running monitor is cancelled and exactly one fresh one runs. |
| Playback.Playback.StartTrack | bot/playback.py:236-265 | An unresolved stream leaves the music stopped and the state unchanged; otherwise the decoder starts and the track is recorded as playing. |
| Playback.Playback.PlayMusic | bot/playback.py:225-272 | Returns without changes when there is no voice client, no loaded playlist or no queued tracks. Otherwise one fresh monitor is the only one running, and either the old music stops (unresolved stream) or the current track plays from a fresh decoder on its URL with the track recorded and the voice client streaming; the publish then raises. |
| Playback.Playback.PlayReply | bot/playback.py:225-272 | Returns the failing publish exactly when the voice-client and playlist guards were passed, and completes otherwise. |
| Playback.Playback.Skip | bot/playback.py:84-89 | An empty queue changes nothing. Otherwise the index advances as `next_track` does (or stays when looping the track) and the track is played with the full `play_music` post-state and reply. |
| Playback.Playback.Previous | bot/playback.py:91-94 | Without history nothing changes. Otherwise the last history entry is popped into the index and played with the full `play_music` post-state and reply. |
| Playback.Playback.MonitorSongEnd | bot/playback.py:297-319 | Exits without advancing when no music decoder exists or it never exits. When it exits, the queue steps as `next_track` does (the history grows and the index moves by `NextIndex`, or stays when looping the track); a found track gets the full `play_music` post-state and reply, and is marked playing unless the publish raised; at the end of the queue only music-playing becomes false. |
| Playback.Playback.Advance | bot/playback.py:309-317 | The step taken once the decoder exited: the queue steps as `next_track` does; a found track is played with the full `play_music` post-state and reply and, unless that raised, marked playing; otherwise only music-playing becomes false. |
| IpcBridge.IpcBridge.constructor | bot/ipc_bridge.py:15-28 | Starts not connected and not closing, with no socket, session or heartbeat. |
| IpcBridge.IpcBridge.HeartbeatFinished | bot/ipc_bridge.py:154-168 | The held heartbeat is marked done. |
| IpcBridge.IpcBridge.Connect | bot/ipc_bridge.py:54-73 | On success: connected, exactly one hello carrying the auth key, and a heartbeat started only when none is live, so at most one runs. A failure stops at the step that failed. |
| IpcBridge.IpcBridge.CleanupWs | bot/ipc_bridge.py:75-84 | Not connected and no socket. |
| IpcBridge.IpcBridge.SafeSend | bot/ipc_bridge.py:185-198 | Sends exactly when connected with a socket; a failing send disconnects and reports false. |
| IpcBridge.IpcBridge.HandleMessageFrame | bot/ipc_bridge.py:90-148 | Sends exactly the response the frame calls for. Close and error frames disconnect, and only a non-dict JSON payload raises. |
| IpcBridge.IpcBridge.SendState | bot/ipc_bridge.py:170-179 | The state goes out as one state_update frame through the send gate; a failing state read raises before sending. |
| IpcBridge.IpcBridge.HeartbeatLoop | bot/ipc_bridge.py:154-168 | Unless closing, the frames appended and the final connected flag are exactly what `HeartbeatRun` gives for the rounds. Nothing is sent once closing or disconnected, only state updates are sent, and what was sent before is kept. |
| IpcBridge.IpcBridge.HeartbeatRound | bot/ipc_bridge.py:159-164 | A connected bridge with a payload sends one state update when the socket is held and the send succeeds; a raising fetch or a failed send disconnects it; a disconnected bridge does nothing. |
| IpcBridge.HeartbeatStep | bot/ipc_bridge.py:158-166 | One round followed by the run of the remaining rounds is the run from that round. |
| IpcBridge.HeartbeatSendsPerRound | bot/ipc_bridge.py:154-168 | From a connected bridge holding a socket, one state update is sent per round with that round's payload, in order, up to the first failing round; the bridge stays connected exactly when no round fails. |
| IpcBridge.HeartbeatSendsStateOnly | bot/ipc_bridge.py:154-168 | At most one frame per round, each a state update; a disconnected bridge sends nothing and stays disconnected; without a socket nothing is sent. |
| IpcBridge.IpcBridge.Close | bot/ipc_bridge.py:204-221 | Closing and disconnected, the session is closed, and no heartbeat runs. |
| IpcBridge.NotReadyGate | bot/ipc_bridge.py:103-114 | Before readiness, a command off the eight-name list gets exactly the BOT_NOT_READY reply echoing it, including a frame with no command. SAVE_PLAYLIST is off the list and SAVE_AMBIENCE is on it. |
| IpcBridge.ReadyFrames | bot/ipc_bridge.py:119-138 | Once ready, heartbeat_check gets one heartbeat_ack, server_ack and broadcast get nothing, and a command gets its dispatch result once. |
| IpcBridge.NoResponseFrames | bot/ipc_bridge.py:94-148 | Invalid JSON, close, error and other frames never get a reply. |
| IpcBridge.Classify | bot/ipc_bridge.py:100-138 | Non-dict data raises; before readiness exactly the commands off the allow-list are rejected; a dispatched command is truthy; built-in types and commands are reached only when ready or allowed. |
| IpcBridge.Response | bot/ipc_bridge.py:93-138 | A frame is answered only when it is a text frame holding a JSON dict, and the answer is the dispatcher's reply, the heartbeat ack or the BOT_NOT_READY reply naming its command. |
| CommandDispatcher.SuccessFields | bot/command_dispatcher.py:191-194 | ok is true, with the command, and the data or `{}` when the data is falsy. |
| CommandDispatcher.FailFields | bot/command_dispatcher.py:196-198 | ok is false, with the command and the error text. |
| CommandDispatcher.StateResponseFields | bot/command_dispatcher.py:201-203 | ok is true, with the command and the playback state. |
| CommandDispatcher.EncodeEnvelope | bot/command_dispatcher.py:191-203 | Every reply is a dict with a command and a boolean ok. |
| CommandDispatcher.LibraryNamesRoute | bot/command_dispatcher.py:27-135 | The setup, library and message names select their own branches. |
| CommandDispatcher.PlaybackNamesRoute | bot/command_dispatcher.py:51-93 | The music, ambience and pause/resume names select their own branches. |
| CommandDispatcher.ControlNamesRoute | bot/command_dispatcher.py:95-128 | The voice and lifecycle names select their own branches. |
| CommandDispatcher.LibraryBranchName | bot/command_dispatcher.py:27-135 | Only the branch's own name takes a setup, library or message branch. |
| CommandDispatcher.PlaybackBranchName | bot/command_dispatcher.py:51-93 | Only the branch's own name takes a music or ambience branch. |
| CommandDispatcher.ControlBranchName | bot/command_dispatcher.py:95-128 | Only the branch's own name takes a voice or lifecycle branch. |
| CommandDispatcher.SetupBranchName | bot/command_dispatcher.py:27-50 | A value that takes a setup or library branch is that branch's command name. |
| CommandDispatcher.MessageBranchName | bot/command_dispatcher.py:131-135 | A value that takes a message-update branch is that branch's command name. |
| CommandDispatcher.NamesRoute | bot/command_dispatcher.py:27-140 | A value takes a routed branch if and only if it is that branch's name string. |
| CommandDispatcher.ReplyEnvelope | bot/command_dispatcher.py:17-145 | A dict request always gets a dict reply with a command and a boolean ok that is false exactly when an error is present. |
| CommandDispatcher.UnknownCommandFails | bot/command_dispatcher.py:137-140 | An unknown command gets `fail(command, "Unknown command")` echoing it, with the status unchanged. |
| CommandDispatcher.HandlerErrorsAreCaught | bot/command_dispatcher.py:142-144 | A routed call that raises gives `fail(command, str(e))` and never propagates; so does a non-dict args. |
| CommandDispatcher.LibraryReadsFile | bot/command_dispatcher.py:35-45 | GET_PLAYLISTS and GET_AMBIENCE answer with the library file as loaded, whatever JSON value it holds, and a file that fails to load gives `fail(command, str(e))`; the running status is kept. |
| CommandDispatcher.MissingArgsAreEmpty | bot/command_dispatcher.py:20-21 | A missing args field, a null one and `{}` dispatch alike. |
| CommandDispatcher.JoinWithoutChannel | bot/command_dispatcher.py:96-102 | JOINVC without a configured channel fails with "Voice channel ID missing", whatever joining would do; with a channel it answers JOINEDVC. |
| CommandDispatcher.RunningTransitions | bot/command_dispatcher.py:109-128 | For every request and every outcome of the routed call, the dispatcher answers, and the running status after it is "booting" for REBOOT and START_BOT, "offline" for STOP_BOT (even when stopping raises), and unchanged for every other command. |
| CommandDispatcher.StatusReplies | bot/command_dispatcher.py:109-128 | The lifecycle and status commands reply BOT_STATUS carrying the status after the command. |
| CommandDispatcher.ReplyNames | bot/command_dispatcher.py:27-204 | With dict args and a completed call every routed command answers ok under its reply name (PLAYBACK_STATE, PLAYLISTS_DATA, AMBIENCE_DATA, JOINEDVC, LEFTVC, BOT_STATUS, else its own name); exactly the music and ambience commands answer with the playback state. |
| StateManager.InitialBotStatus | bot/state_manager.py:10-20 | Nothing playing, shuffle on, loop off, not in VC, "offline", no message ids. |
| StateManager.InitialPlaybackInfo | bot/state_manager.py:23-31 | Playlist "None", the placeholder track, no ambience, volumes 100 and 25. |
| StateManager.MusicGroupFields | bot/state_manager.py:40-47 | The music group reads back each status and info field it projects. |
| StateManager.AmbienceGroupFields | bot/state_manager.py:48-52 | The ambience group reads back its fields. |
| StateManager.PlaybackStateFields | bot/state_manager.py:37-55 | The projection is a truthy one-element tuple around the dict, and every field reads back its source. |
| StateManager.InitialPlaybackState | bot/state_manager.py:10-55 | Before anything happens the dashboard sees the idle, offline bot. |
| ConfigManager.Lower | bot/config_manager.py:76-77 | ASCII lower-casing, character by character. |
| ConfigManager.ParseValueKinds | bot/config_manager.py:59-84 | None and "" become None, digit strings and non-negative ints become ints, true/yes/on and false/no/off (any case) become bools, and everything else becomes `str(raw)`. |
| ConfigManager.ParseValue | bot/config_manager.py:59-84 | None and "" exactly become None; the result is None, an int, a bool or a string; a string stays itself unless it becomes an int or a bool, and only a string becomes a bool. |
| ConfigManager.NegativeNotDigits | bot/config_manager.py:72-73 | A negative number's text is not all digits, so "-5" stays a string. |
| ConfigManager.ContainerNotDigits | bot/config_manager.py:72-73 | A container's text starts with a bracket, so it is never a number. |
| ConfigManager.ParseNatString | bot/config_manager.py:72-73 | A saved number reads back as the number. |
| ConfigManager.NotAWord | bot/config_manager.py:76-81 | A signed or bracketed text is none of the boolean words. |
| ConfigManager.SaveReloadAgrees | bot/config_manager.py:59-109 | Apart from None and bools, what `save` writes parses after a reload to what it parsed to in memory. |
| ConfigManager.SavedBoolChangesOnReload | bot/config_manager.py:59-109 | A saved bool is the string "True"/"False" in memory but the bool itself after a reload. |
| ConfigManager.ConfigManager.constructor | bot/config_manager.py:20-32 | The runtime copy holds the three known keys, all None. |
| ConfigManager.ConfigManager.Load | bot/config_manager.py:46-57 | Each known key becomes the parsed file value, and no key is added. |
| ConfigManager.ConfigManager.Save | bot/config_manager.py:89-109 | None pops the key from the file, any other value is stored as `str(value)`; the runtime entry becomes the parsed value; other keys are untouched. |
| ConfigManager.ConfigManager.Set | bot/config_manager.py:114-118 | `set` has the effect of `save`. |
| ConfigManager.ConfigManager.Get | bot/config_manager.py:111-112 | The stored value for a known key, the default for an unknown one. |
| ConfigManager.ConfigManager.GetInt | bot/config_manager.py:120-122 | The stored value when it is an int or a bool (Python counts a bool as an int), else the default. |
| ConfigManager.ConfigManager.GetBool | bot/config_manager.py:124-129 | The value when it is a bool, else the default. |
| Instance.BotConfig.constructor | bot/instance.py:18-21 | The trailing commas leave both channel ids as the truthy tuple `(None,)`, and the message id None. |
| Instance.BotConfig.SaveBotConfig | bot/instance.py:55-67 | Only the four setup keys are written. "" and None leave entries alone, keys outside the update are kept, keys stay unique, and a non-dict request raises on `.get`. |
| Instance.SetupValueWrites | bot/instance.py:60-63 | Keys outside the four are never written, "" or None never overwrites, and any other value is stored as `str(value)`. |
| ContentManager.Tracklist | bot/content_manager.py:32-36 | One url/name pair per entry, in the map's order. |
| ContentManager.ContentManager.constructor | bot/content_manager.py:14-24 | A missing library file starts as `{}`. |
| ContentManager.ContentManager.PlaylistToTracklist | bot/content_manager.py:32-36 | Same length and order as the map; a non-dict raises on `.items`. |
| ContentManager.ContentManager.GetPlaylists | bot/content_manager.py:38-46 | The library as stored, with one entry per name, and the dict `get_playlist` looks each name up in. |
| ContentManager.ContentManager.GetPlaylist | bot/content_manager.py:43-46 | The named playlist, or None exactly when absent. |
| ContentManager.ContentManager.SavePlaylist | bot/content_manager.py:48-60 | The name is bound to the data and every other playlist is unchanged. |
| ContentManager.ContentManager.SaveAmbience | bot/content_manager.py:66-72 | A dict replaces the whole ambience store; anything else changes nothing. |
| ContentManager.SavedPlaylistTracks | bot/content_manager.py:32-60 | A saved playlist reads back as its tracks in order. |
| Playlists.PlaylistLibrary.constructor | bot/playlists.py:10-14 | The library holds the file's contents. |
| Playlists.PlaylistLibrary.SendPlaylists | bot/playlists.py:10-14 | The stored map is returned unchanged. |
| Playlists.PlaylistLibrary.SavePlaylist | bot/playlists.py:16-27 | A non-dict request raises on `.get`. A missing name or non-dict data gets an ERROR reply and no change. An unhashable name raises TypeError with the file unchanged. Otherwise the name is bound under the key JSON writes for it, every other entry is kept, and the reply is the count of the library as written: a string name gives the new size, and a non-string one always adds an entry. |
| Playlists.JsonKey | bot/playlists.py:24-26 | The key `json.dump` writes: a string as itself, an int in decimal, a bool as a word other than its `str`; lists, tuples and dicts raise TypeError. |
| Playlists.Unhashable | bot/playlists.py:24 | Lists and dicts are unhashable, scalars are hashable, and a tuple is refused for the first unhashable element. |
| Playlists.SaveRequestCases | bot/playlists.py:16-27 | Saving under a new name adds one playlist; saving under an existing name keeps the count. |
| Ambience.SendAmbience | bot/ambience.py:10-13 | The stored map is returned unchanged. |
| Ambience.SaveAmbience | bot/ambience.py:15-21 | A non-dict "data" gets an ERROR reply and no change; a valid save replaces the store and reports the number of entries. |
| Ambience.SaveAmbienceIdempotent | bot/ambience.py:15-21 | Saving the same request twice is one save. |
| Ambience.SaveAmbienceReplaces | bot/ambience.py:20 | The library after a valid save does not depend on what was stored before. |
| DisplayManager.DisplayManager.constructor | bot/display_manager.py:16-23 | Page 1, ten per page. |
| DisplayManager.DisplayManager.UpdateQueueDisplay | bot/display_manager.py:85-138 | Only a truthy page changes the page, clamped to at least 1. A bot that is not ready returns quietly; a ready one reaches the missing `get_state`. |
| DisplayManager.DisplayManager.SetPage | bot/display_manager.py:140-143 | The page becomes `max(1, page)`. |
| DisplayManager.DisplayManager.NextPage | bot/display_manager.py:145-148 | One page on, with no upper bound. |
| DisplayManager.DisplayManager.PreviousPage | bot/display_manager.py:150-153 | One page back, never below 1. |

## Left out

- File I/O (`load_json`/`save_json`, the config file, the library files): the files' contents are parameters and fields.
- Discord itself (voice connect, `vc.play`, message fetch/edit/send, embed objects): foreign client calls. A voice client is reduced to whether it streams.
- `join_vc` in bot/playback_manager.py and bot/playback.py: entirely Discord voice-channel lookups and connects.
- `get_stream` and `get_youtube_stream` (yt_dlp): the resolved stream is a parameter, None when resolution fails.
- `subprocess.Popen`, `kill` and `poll`: a decoder is an abstract handle with an alive flag and the bytes it will write.
- `_monitor_end` in bot/playback_manager.py: its `self.skip()` is never awaited, so it never advances the queue.
- `listen_loop` in bot/ipc_bridge.py: its reconnect loop and sleeps, over the modelled connect, frame handling and cleanup.
- The `CommandDispatcher` import at bot/ipc_bridge.py:16 fails in the source; the bridge takes the dispatcher's reply as a parameter.
- The dispatcher's collaborators (`save_bot_config`, the library handlers, playback, Discord control): each routed call's outcome is a parameter.
- `handle_queue_message_update` and `handle_ui_link_update` in bot/command_dispatcher.py: Discord message handling.
- asyncio tasks, cancellation, the display lock, and the 1 s, 5 s and 60 s timings: the concurrency and timing are not modelled. Tasks are recorded as running flags.
- Timestamps (`ts` fields): clock readings.
- Floating point: volumes are `real` and samples exact integers, not bit-exact float32 arithmetic.
- PlaybackManager.PlaybackManager.SetVolume: stores the clamped percent, not the float round-trip `int((p / 100) * 100)`, which turns 29 into 28.
- Playback.Playback.SetVolume: stores the clamped percent, not the float round-trip `int((p / 100) * 100)`.
- PlaybackManager.PlaybackManager.PlayMusic: the `except Exception` at bot/playback_manager.py:234-235 is not exercised. `start_music` (Popen) and `vc.play` are taken to succeed, so the half-updated state a failing launch leaves before the monitor and the publish is not modelled.
- PlaybackManager.PlaybackManager.StartTrack: takes the launch and `vc.play` to succeed, for the same reason as PlayMusic.
- PlaybackManager.PlaybackManager.PlayAmbience: the `except Exception` at bot/playback_manager.py:268-269 is not exercised; `start_ambience` and `vc.play` are taken to succeed.
- PlaybackManager.PlaybackManager.StartAmbienceTrack: takes the launch and `vc.play` to succeed, for the same reason as PlayAmbience.
- Playback.Playback.PlayMusic: the Popen TypeError for a None stream is modelled, but any other failing launch or `vc.play` caught at bot/playback.py:264-265 is not.
- Playback.Playback.StartTrack: takes the launch of a resolved stream and `vc.play` to succeed, for the same reason as PlayMusic.
- Playback.Playback.PlayAmbience: the None-stream TypeError is modelled, but any other failing launch or `vc.play` caught at bot/playback.py:219-220 is not.
- `random.shuffle`'s distribution: a shuffle is any permutation that keeps the current track first.
- `restore_message_refs` in bot/config_manager.py: Discord fetches.
- `load_bot_config` and `get_bot_instance` in bot/instance.py: Discord lookups and singleton construction.
- `broadcast_state` in bot/state_manager.py: a call into the bridge.
- `core.state` and its `reset_voice_state` are not defined in the repository; the reset is taken to clear the voice client and the in-VC flag.
- PlaybackManager.PlaybackManager.constructor: the shared state is taken to start at the defaults of bot/state_manager.py (`BotStatus()` and `PlaybackInfo()`), since the class behind `core.state` is not in the repository.
- PlaybackManager.PlaybackManager.SendState: `core.state.to_dict()` is taken to succeed; the class that defines it is not in the repository.
- Queue.MusicQueue.SetTracks: the shown list is the caller's own list object in the source, so a caller that later mutates it would change the queue; values have no identity here. Its only caller (bot/playback.py:127) raises a TypeError before the call takes effect.
- Playlists.PlaylistLibrary.SavePlaylist: a tuple name makes `json.dump` raise after the file was opened and partly written; the model keeps the old library. Names from the dashboard are parsed JSON, which has no tuples.
- Unicode: `str.isdigit` and `str.lower` are modelled on ASCII only.
- `repr` of strings does not escape quotes inside them.
- `load_playlist` in bot/playback_manager.py and bot/playback.py: names are strings, as the dashboard sends them.
- bot/ipc_server.py, bot/control.py, bot/control_manager.py, bot/bot_core.py, bot_runner.py, config/json_helper.py and bot/__init__.py are not part of this model.
