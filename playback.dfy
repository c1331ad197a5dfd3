/** The older, module-level playback orchestrator (bot/playback.py). Its globals
    (the status and playback records, the draft queue and the song monitor) are the
    fields of one object. Every publish looks up `send_state` on a bridge name that
    was bound to None at import, so every operation that reaches a publish ends
    with an AttributeError after its state changes. Loading a playlist calls the
    draft queue's `set_tracks` with one argument too many, so it always raises
    before it changes anything. */
module Playback {
  import opened Values
  import opened QueueSpec
  import opened StateManager
  import Q = Queue
  import AM = AudioMixer
  import CM = ContentManager
  import PM = PlaybackManager

  /** Every publish: the bridge name holds None. */
  const Published: Outcome := Raised(NoAttribute(VNone, "send_state"))

  /** What `set_tracks(track_list, name)` raises on the draft queue. */
  const SetTracksArity: PyError :=
    PyError("TypeError", "MusicQueue.set_tracks() takes 2 positional arguments but 3 were given")

  /** How a run of the song monitor ended. */
  datatype MonitorEnd =
    | NoProcess
    | Advanced(found: bool, outcome: Outcome)
    | StillWaiting

  /** `if not playbackInfo.playlist`: no list, or an empty one. */
  predicate HasPlaylist(info: PlaybackInfo)
  {
    info.playlist.Some? && info.playlist.value != []
  }

  class Playback {
    const queue: Q.MusicQueue
    const mixer: AM.MixedAudio
    /** `botStatus`. */
    var status: BotStatus
    /** `playbackInfo`. */
    var info: PlaybackInfo
    /** Every song monitor ever started: true while it still runs. */
    var monitors: seq<bool>
    /** `song_monitor_task`, as a position in `monitors`. */
    var monitorTask: Option<nat>

    ghost predicate Valid()
      reads this`monitors, this`monitorTask, queue, mixer
    {
      && queue.Valid() && mixer.Valid()
      && (monitorTask.Some? ==> monitorTask.value < |monitors|)
      && (forall i :: 0 <= i < |monitors| && monitors[i] ==> monitorTask == Some(i))
    }

    constructor (q: Q.MusicQueue, m: AM.MixedAudio)
      requires q.Valid() && m.Valid()
      ensures Valid()
      ensures queue == q && mixer == m
      ensures status == InitialBotStatus() && info == InitialPlaybackInfo()
      ensures monitors == [] && monitorTask.None?
    {
      queue := q;
      mixer := m;
      status := InitialBotStatus();
      info := InitialPlaybackInfo();
      monitors := [];
      monitorTask := None;
    }

    /** `leave_vc`: with a voice client, the running streams are stopped and the
        voice state cleared whatever the disconnect does; then the publish raises. */
    method LeaveVc() returns (o: Outcome)
      requires Valid()
      modifies this`status, mixer`procMusic, mixer`procAmb
      ensures Valid()
      ensures o == Published
      ensures old(status.voiceClient).None? ==>
        status == old(status) && mixer.procMusic == old(mixer.procMusic) && mixer.procAmb == old(mixer.procAmb)
      ensures old(status.voiceClient).Some? ==>
        && mixer.procMusic.None? && mixer.procAmb.None?
        && status == old(status).(voiceClient := None, inVc := false, isMusicPlaying := false, isAmbiencePlaying := false)
    {
      if status.voiceClient.Some? {
        if mixer.procMusic.Some? {
          mixer.StopMusic();
        }
        if mixer.procAmb.Some? {
          mixer.StopAmbience();
        }
        status := status.(voiceClient := None, inVc := false, isMusicPlaying := false, isAmbiencePlaying := false);
      }
      o := Published;
    }

    /** `toggle_shuffle`: unshuffle when shuffle mode was on, shuffle otherwise, flip
        the mode; then the publish raises. */
    method ToggleShuffle() returns (o: Outcome)
      requires Valid()
      modifies this`status, queue`tracks, queue`currentIndex
      ensures Valid()
      ensures o == Published
      ensures status == old(status).(shuffleMode := !old(status.shuffleMode))
      ensures old(status.shuffleMode) && queue.originalOrder != [] ==>
        queue.tracks == queue.originalOrder
        && Some(queue.currentIndex) == FirstUrlIndex(queue.originalOrder, old(queue.tracks[queue.currentIndex]).url)
      ensures old(status.shuffleMode) && queue.originalOrder == [] ==>
        queue.tracks == old(queue.tracks) && queue.currentIndex == old(queue.currentIndex)
      ensures !old(status.shuffleMode) ==>
        ShuffledAround(old(queue.tracks), queue.currentIndex, queue.tracks) && queue.currentIndex == old(queue.currentIndex)
    {
      if status.shuffleMode {
        queue.Unshuffle();
      } else {
        queue.Shuffle();
      }
      status := status.(shuffleMode := !status.shuffleMode);
      o := Published;
    }

    /** `toggle_loop`: loop mode is on exactly when the queue now loops the current
        track; then the publish raises. */
    method ToggleLoop() returns (o: Outcome)
      requires Valid()
      modifies this`status, queue`loopCurrent, queue`loopPlaylist
      ensures Valid()
      ensures o == Published
      ensures queue.loopCurrent == !old(queue.loopCurrent) && queue.loopPlaylist == !queue.loopCurrent
      ensures status == old(status).(loopMode := queue.loopCurrent)
    {
      var mode := queue.ToggleLoopCurrent();
      status := status.(loopMode := mode == "current track");
      o := Published;
    }

    /** `load_playlist(name)`: an empty library raises FileNotFoundError, then an
        unknown name ValueError, then a playlist that is not a dict has no `.items`;
        a listed playlist reaches `set_tracks`, which rejects the extra argument.
        Nothing is changed on any path. */
    method LoadPlaylist(library: seq<(string, Value)>, name: string) returns (o: Outcome, trackList: seq<Track>)
      requires Valid()
      ensures library == [] ==> o == Raised(PyError("FileNotFoundError", "No playlists found or file missing"))
      ensures library != [] && !HasKey(library, name) ==>
        o == Raised(PyError("ValueError", "Playlist '" + name + "' not found"))
      ensures library != [] && HasKey(library, name) && !GetOr(library, name, VNone).VDict? ==>
        o == Raised(NoAttribute(GetOr(library, name, VNone), "items"))
      ensures library != [] && HasKey(library, name) && GetOr(library, name, VNone).VDict? ==>
        && o == Raised(SetTracksArity)
        && |trackList| == |GetOr(library, name, VNone).entries|
        && (forall i :: 0 <= i < |trackList| ==>
              trackList[i] == Track(GetOr(library, name, VNone).entries[i].0, GetOr(library, name, VNone).entries[i].1))
    {
      trackList := [];
      if library == [] {
        return Raised(PyError("FileNotFoundError", "No playlists found or file missing")), trackList;
      }
      if !HasKey(library, name) {
        return Raised(PyError("ValueError", "Playlist '" + name + "' not found")), trackList;
      }
      var entries := GetOr(library, name, VNone);
      var listed := CM.ContentManager.PlaylistToTracklist(entries);
      if listed.Err? {
        return Raised(listed.error), trackList;
      }
      trackList := listed.value;
      o := Raised(SetTracksArity);
    }

    /** `set_volume(track_type, volume)`: the percent is clamped to [0, 100]; the named
        stream's mixer volume becomes that fraction and the record keeps the percent;
        any other type changes neither; then the publish raises. */
    method SetVolume(trackType: string, volume: int) returns (o: Outcome)
      requires Valid()
      modifies this`info, mixer`musicVolume, mixer`ambienceVolume
      ensures Valid()
      ensures o == Published
      ensures PM.KindOf(trackType) == PM.Music ==>
        info == old(info).(musicVolume := PM.ClampPercent(volume))
        && mixer.musicVolume == PM.ClampPercent(volume) as real / 100.0 && mixer.ambienceVolume == old(mixer.ambienceVolume)
      ensures PM.KindOf(trackType) == PM.AmbienceStream ==>
        info == old(info).(ambienceVolume := PM.ClampPercent(volume))
        && mixer.ambienceVolume == PM.ClampPercent(volume) as real / 100.0 && mixer.musicVolume == old(mixer.musicVolume)
      ensures PM.KindOf(trackType) == PM.OtherStream ==>
        info == old(info) && mixer.musicVolume == old(mixer.musicVolume) && mixer.ambienceVolume == old(mixer.ambienceVolume)
    {
      var percent := PM.ClampPercent(volume);
      var fraction := percent as real / 100.0;
      match PM.KindOf(trackType) {
        case Music =>
          mixer.SetMusicVolume(fraction);
          info := info.(musicVolume := percent);
        case AmbienceStream =>
          mixer.SetAmbienceVolume(fraction);
          info := info.(ambienceVolume := percent);
        case OtherStream =>
      }
      o := Published;
    }

    /** `pause_track(track_type)`: the named stream is paused (when its decoder runs)
        and marked stopped; any other type changes nothing; the publish raises in
        every case. */
    method PauseTrack(trackType: string) returns (o: Outcome)
      requires Valid()
      modifies this`status, mixer`musicPaused, mixer`ambiencePaused
      ensures Valid()
      ensures o == Published
      ensures PM.KindOf(trackType) == PM.Music ==>
        status == old(status).(isMusicPlaying := false) && mixer.ambiencePaused == old(mixer.ambiencePaused)
        && mixer.musicPaused == (if mixer.procMusic.Some? && mixer.procMusic.value.alive then true else old(mixer.musicPaused))
      ensures PM.KindOf(trackType) == PM.AmbienceStream ==>
        status == old(status).(isAmbiencePlaying := false) && mixer.musicPaused == old(mixer.musicPaused)
        && mixer.ambiencePaused == (if mixer.procAmb.Some? && mixer.procAmb.value.alive then true else old(mixer.ambiencePaused))
      ensures PM.KindOf(trackType) == PM.OtherStream ==>
        status == old(status) && mixer.musicPaused == old(mixer.musicPaused) && mixer.ambiencePaused == old(mixer.ambiencePaused)
    {
      match PM.KindOf(trackType) {
        case Music =>
          mixer.PauseMusic();
          status := status.(isMusicPlaying := false);
        case AmbienceStream =>
          mixer.PauseAmbience();
          status := status.(isAmbiencePlaying := false);
        case OtherStream =>
      }
      o := Published;
    }

    /** `resume_track(track_type)`: the named stream resumes (when its decoder runs)
        and is marked playing; any other type changes nothing; the publish raises in
        every case. The voice client is not touched. */
    method ResumeTrack(trackType: string) returns (o: Outcome)
      requires Valid()
      modifies this`status, mixer`musicPaused, mixer`ambiencePaused
      ensures Valid()
      ensures o == Published
      ensures PM.KindOf(trackType) == PM.Music ==>
        status == old(status).(isMusicPlaying := true) && mixer.ambiencePaused == old(mixer.ambiencePaused)
        && mixer.musicPaused == (if mixer.procMusic.Some? && mixer.procMusic.value.alive then false else old(mixer.musicPaused))
      ensures PM.KindOf(trackType) == PM.AmbienceStream ==>
        status == old(status).(isAmbiencePlaying := true) && mixer.musicPaused == old(mixer.musicPaused)
        && mixer.ambiencePaused == (if mixer.procAmb.Some? && mixer.procAmb.value.alive then false else old(mixer.ambiencePaused))
      ensures PM.KindOf(trackType) == PM.OtherStream ==>
        status == old(status) && mixer.musicPaused == old(mixer.musicPaused) && mixer.ambiencePaused == old(mixer.ambiencePaused)
    {
      match PM.KindOf(trackType) {
        case Music =>
          mixer.ResumeMusic();
          status := status.(isMusicPlaying := true);
        case AmbienceStream =>
          mixer.ResumeAmbience();
          status := status.(isAmbiencePlaying := true);
        case OtherStream =>
      }
      o := Published;
    }

    /** Hands the mixed source to a voice client that is not streaming. */
    method AttachSource()
      modifies this`status
      ensures status == old(status).(voiceClient := PM.Attached(old(status.voiceClient)))
    {
      var vc := status.voiceClient;
      if vc.Some? && !vc.value.playing {
        status := status.(voiceClient := Some(VoiceClient(true)));
      }
    }

    /** `play_ambience(url, title)`: without a voice client nothing happens. Otherwise
        the old ambience stops; an unresolved stream (None) makes the decoder start
        fail, which is caught, so no ambience runs and the records stay; a resolved
        one starts looping and the records name it. The publish then raises. */
    method PlayAmbience(url: string, title: Value, streamUrl: Option<string>, decoderOutput: seq<AM.byte>) returns (o: Outcome)
      requires Valid()
      modifies this`info, this`status, mixer`procAmb
      ensures Valid()
      ensures old(status.voiceClient).None? ==>
        o == Completed && info == old(info) && status == old(status) && mixer.procAmb == old(mixer.procAmb)
      ensures old(status.voiceClient).Some? && streamUrl.None? ==>
        o == Published && info == old(info) && status == old(status) && mixer.procAmb.None?
      ensures old(status.voiceClient).Some? && streamUrl.Some? ==>
        && o == Published
        && mixer.procAmb == Some(AM.Proc(AM.FfmpegArgs(streamUrl.value, true), true, decoderOutput))
        && info == old(info).(ambienceName := title, ambienceUrl := VStr(url))
        && status == old(status).(isAmbiencePlaying := true, voiceClient := Some(VoiceClient(true)))
    {
      if status.voiceClient.None? {
        return Completed;
      }
      mixer.StopAmbience();
      if streamUrl.Some? {
        mixer.StartAmbience(streamUrl.value, true, decoderOutput);
        info := info.(ambienceName := title, ambienceUrl := VStr(url));
        status := status.(isAmbiencePlaying := true);
        AttachSource();
      }
      o := Published;
    }

    /** Cancels the running song monitor, if any, and starts a fresh one, which is
        then the only one running. */
    method StartMonitor()
      requires Valid()
      modifies this`monitors, this`monitorTask
      ensures Valid()
      ensures |monitors| == |old(monitors)| + 1 && monitorTask == Some(|old(monitors)|)
      ensures forall i :: 0 <= i < |monitors| ==> (monitors[i] <==> i == |old(monitors)|)
    {
      if monitorTask.Some? && monitors[monitorTask.value] {
        monitors := monitors[monitorTask.value := false];
      }
      monitors := monitors + [true];
      monitorTask := Some(|monitors| - 1);
    }

    /** The body of `play_music`'s `try` for the current track: an unresolved stream
        (None) makes the decoder start fail after the old music stopped, which is
        caught; a resolved one starts and the records show the track playing. */
    method StartTrack(track: Track, streamUrl: Option<string>, decoderOutput: seq<AM.byte>)
      requires Valid() && status.voiceClient.Some?
      modifies this`info, this`status, mixer`procMusic
      ensures Valid()
      ensures streamUrl.None? ==> mixer.procMusic.None? && info == old(info) && status == old(status)
      ensures streamUrl.Some? ==>
        && mixer.procMusic == Some(AM.Proc(AM.FfmpegArgs(streamUrl.value, false), true, decoderOutput))
        && info == old(info).(playlistCurrent := TrackAsCurrent(track))
        && status == old(status).(isMusicPlaying := true, voiceClient := Some(VoiceClient(true)))
    {
      if streamUrl.None? {
        mixer.StopMusic();
        return;
      }
      mixer.StartMusic(streamUrl.value, false, decoderOutput);
      info := info.(playlistCurrent := TrackAsCurrent(track));
      status := status.(isMusicPlaying := true);
      AttachSource();
    }

    /** The state `play_music` leaves when the queue has tracks, given the records,
        music decoder and monitors it started from: without a voice client or a
        loaded playlist nothing changed; otherwise one fresh monitor is the only
        one running, and either the old music stopped (an unresolved stream) or
        the current track plays from a fresh decoder while the voice client
        streams. */
    ghost predicate Played(oldInfo: PlaybackInfo, oldStatus: BotStatus, oldProc: Option<AM.Proc>,
                           oldMonitors: seq<bool>, oldTask: Option<nat>, streamUrl: Option<string>, decoderOutput: seq<AM.byte>)
      reads this, queue, mixer
    {
      if oldStatus.voiceClient.None? || !HasPlaylist(oldInfo) then
        info == oldInfo && status == oldStatus && mixer.procMusic == oldProc
        && monitors == oldMonitors && monitorTask == oldTask
      else
        && |monitors| == |oldMonitors| + 1 && monitorTask == Some(|oldMonitors|)
        && (forall i :: 0 <= i < |monitors| ==> (monitors[i] <==> i == |oldMonitors|))
        && (streamUrl.None? ==> mixer.procMusic.None? && info == oldInfo && status == oldStatus)
        && (streamUrl.Some? ==>
              && queue.currentIndex < |queue.tracks|
              && mixer.procMusic == Some(AM.Proc(AM.FfmpegArgs(streamUrl.value, false), true, decoderOutput))
              && info == oldInfo.(playlistCurrent := TrackAsCurrent(queue.tracks[queue.currentIndex]))
              && status == oldStatus.(isMusicPlaying := true, voiceClient := Some(VoiceClient(true))))
    }

    /** What `play_music` returns when the queue has tracks: the failing publish once
        it got past its guards, and nothing otherwise. */
    function PlayReply(oldInfo: PlaybackInfo, oldStatus: BotStatus): (o: Outcome)
      ensures o == Published <==> oldStatus.voiceClient.Some? && HasPlaylist(oldInfo)
      ensures o != Published ==> o == Completed
    {
      if oldStatus.voiceClient.Some? && HasPlaylist(oldInfo) then Published else Completed
    }

    /** `play_music`: without a voice client, a loaded playlist or queued tracks
        nothing happens; otherwise the current track is started (see `StartTrack`),
        one fresh monitor replaces any running one, and the publish raises. */
    method PlayMusic(streamUrl: Option<string>, decoderOutput: seq<AM.byte>) returns (o: Outcome)
      requires Valid()
      modifies this`info, this`status, this`monitors, this`monitorTask, mixer`procMusic
      ensures Valid()
      ensures old(status.voiceClient).None? || !HasPlaylist(old(info)) || queue.tracks == [] ==>
        o == Completed && info == old(info) && status == old(status) && mixer.procMusic == old(mixer.procMusic)
        && monitors == old(monitors) && monitorTask == old(monitorTask)
      ensures queue.tracks != [] ==>
        && Played(old(info), old(status), old(mixer.procMusic), old(monitors), old(monitorTask), streamUrl, decoderOutput)
        && o == PlayReply(old(info), old(status))
    {
      if status.voiceClient.None? {
        return Completed;
      }
      if !HasPlaylist(info) || queue.tracks == [] {
        return Completed;
      }
      var current := queue.GetCurrent();
      StartTrack(current.value, streamUrl, decoderOutput);
      StartMonitor();
      o := Published;
    }

    /** `skip`: a next track is played; at the end of the playlist nothing else
        happens. */
    method Skip(streamUrl: Option<string>, decoderOutput: seq<AM.byte>) returns (o: Outcome)
      requires Valid()
      modifies this`info, this`status, this`monitors, this`monitorTask, queue`currentIndex, queue`previousStack,
        mixer`procMusic
      ensures Valid()
      ensures queue.tracks == [] ==>
        o == Completed && info == old(info) && status == old(status) && mixer.procMusic == old(mixer.procMusic)
        && queue.currentIndex == old(queue.currentIndex) && queue.previousStack == old(queue.previousStack)
        && monitors == old(monitors) && monitorTask == old(monitorTask)
      ensures queue.tracks != [] && queue.loopCurrent ==>
        queue.currentIndex == old(queue.currentIndex) && queue.previousStack == old(queue.previousStack)
      ensures queue.tracks != [] && !queue.loopCurrent ==>
        && queue.previousStack == old(queue.previousStack) + [old(queue.currentIndex)]
        && queue.currentIndex == NextIndex(old(queue.currentIndex), |queue.tracks|, queue.loopPlaylist)
      ensures queue.tracks != [] ==>
        && Played(old(info), old(status), old(mixer.procMusic), old(monitors), old(monitorTask), streamUrl, decoderOutput)
        && o == PlayReply(old(info), old(status))
    {
      var next := queue.NextTrack();
      o := Completed;
      if next.Some? {
        o := PlayMusic(streamUrl, decoderOutput);
      }
    }

    /** `previous`: a remembered track is played; without history nothing happens. */
    method Previous(streamUrl: Option<string>, decoderOutput: seq<AM.byte>) returns (o: Outcome)
      requires Valid()
      modifies this`info, this`status, this`monitors, this`monitorTask, queue`currentIndex, queue`previousStack,
        mixer`procMusic
      ensures Valid()
      ensures old(queue.previousStack) == [] ==>
        o == Completed && info == old(info) && status == old(status) && mixer.procMusic == old(mixer.procMusic)
        && queue.currentIndex == old(queue.currentIndex) && queue.previousStack == []
        && monitors == old(monitors) && monitorTask == old(monitorTask)
      ensures old(queue.previousStack) != [] ==>
        && queue.previousStack == old(queue.previousStack)[..|old(queue.previousStack)| - 1]
        && queue.currentIndex == old(queue.previousStack)[|old(queue.previousStack)| - 1]
        && Played(old(info), old(status), old(mixer.procMusic), old(monitors), old(monitorTask), streamUrl, decoderOutput)
        && o == PlayReply(old(info), old(status))
    {
      var prev := queue.PreviousTrack();
      o := Completed;
      if prev.Some? {
        o := PlayMusic(streamUrl, decoderOutput);
      }
    }

    /** The monitor's reaction to a finished track: the queue steps on; a next track
        is played and, unless that raised, marked playing; at the end of the queue
        the music is marked stopped. */
    method Advance(streamUrl: Option<string>, decoderOutput: seq<AM.byte>) returns (e: MonitorEnd)
      requires Valid()
      modifies this`info, this`status, this`monitors, this`monitorTask, queue`currentIndex, queue`previousStack,
        mixer`procMusic
      ensures Valid()
      ensures e.Advanced? && (e.found <==> queue.tracks != [])
      ensures queue.tracks != [] && !queue.loopCurrent ==>
        && queue.previousStack == old(queue.previousStack) + [old(queue.currentIndex)]
        && queue.currentIndex == NextIndex(old(queue.currentIndex), |queue.tracks|, queue.loopPlaylist)
      ensures queue.tracks == [] || queue.loopCurrent ==>
        queue.currentIndex == old(queue.currentIndex) && queue.previousStack == old(queue.previousStack)
      ensures !e.found ==>
        info == old(info) && status == old(status).(isMusicPlaying := false) && e.outcome == Completed
        && mixer.procMusic == old(mixer.procMusic) && monitors == old(monitors) && monitorTask == old(monitorTask)
      ensures e.found ==> e.outcome == PlayReply(old(info), old(status))
      ensures e.found ==>
        Played(old(info), if e.outcome.Completed? then old(status).(isMusicPlaying := true) else old(status),
               old(mixer.procMusic), old(monitors), old(monitorTask), streamUrl, decoderOutput)
    {
      var track := queue.NextTrack();
      if track.None? {
        status := status.(isMusicPlaying := false);
        return Advanced(false, Completed);
      }
      var o := PlayMusic(streamUrl, decoderOutput);
      if o.Raised? {
        return Advanced(true, o);
      }
      status := status.(isMusicPlaying := true);
      return Advanced(true, Completed);
    }

    /** `monitor_song_end`, one loop round per entry of `exited` (whether the music
        decoder had exited at that poll): with no decoder it returns at once; at the
        first poll that finds it exited, the queue advances once and the music is
        marked playing exactly when a next track was found (unless starting it
        raised first); if no poll finds it exited, it is still waiting. */
    method MonitorSongEnd(exited: seq<bool>, streamUrl: Option<string>, decoderOutput: seq<AM.byte>) returns (e: MonitorEnd)
      requires Valid()
      modifies this`info, this`status, this`monitors, this`monitorTask, queue`currentIndex, queue`previousStack,
        mixer`procMusic
      ensures Valid()
      ensures old(mixer.procMusic).None? || (forall k :: 0 <= k < |exited| ==> !exited[k]) ==>
        (old(mixer.procMusic).None? ==> e == NoProcess) && (old(mixer.procMusic).Some? ==> e == StillWaiting)
        && info == old(info) && status == old(status) && mixer.procMusic == old(mixer.procMusic)
        && queue.currentIndex == old(queue.currentIndex) && queue.previousStack == old(queue.previousStack)
      ensures e.Advanced? ==> old(mixer.procMusic).Some? && (exists k :: 0 <= k < |exited| && exited[k])
      ensures e.Advanced? ==> (e.found <==> queue.tracks != [])
      ensures e.Advanced? && queue.tracks != [] && !queue.loopCurrent ==>
        && queue.previousStack == old(queue.previousStack) + [old(queue.currentIndex)]
        && queue.currentIndex == NextIndex(old(queue.currentIndex), |queue.tracks|, queue.loopPlaylist)
      ensures e.Advanced? && (queue.tracks == [] || queue.loopCurrent) ==>
        queue.currentIndex == old(queue.currentIndex) && queue.previousStack == old(queue.previousStack)
      ensures e.Advanced? && !e.found ==>
        info == old(info) && status == old(status).(isMusicPlaying := false) && e.outcome == Completed
        && mixer.procMusic == old(mixer.procMusic) && monitors == old(monitors) && monitorTask == old(monitorTask)
      ensures e.Advanced? && e.found ==> e.outcome == PlayReply(old(info), old(status))
      ensures e.Advanced? && e.found ==>
        Played(old(info), if e.outcome.Completed? then old(status).(isMusicPlaying := true) else old(status),
               old(mixer.procMusic), old(monitors), old(monitorTask), streamUrl, decoderOutput)
      ensures e.Advanced? && e.found && e.outcome == Completed ==> status.isMusicPlaying
    {
      var i := 0;
      while i < |exited|
        invariant 0 <= i <= |exited|
        invariant forall k :: 0 <= k < i ==> !exited[k]
        invariant i > 0 ==> mixer.procMusic.Some?
        invariant info == old(info) && status == old(status) && mixer.procMusic == old(mixer.procMusic)
        invariant queue.currentIndex == old(queue.currentIndex) && queue.previousStack == old(queue.previousStack)
        invariant monitors == old(monitors) && monitorTask == old(monitorTask)
      {
        if mixer.procMusic.None? {
          return NoProcess;
        }
        if exited[i] {
          e := Advance(streamUrl, decoderOutput);
          return;
        }
        i := i + 1;
      }
      return if mixer.procMusic.None? then NoProcess else StillWaiting;
    }
  }
}
