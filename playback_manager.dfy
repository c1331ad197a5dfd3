/** The current playback orchestrator (bot/playback_manager.py). It drives the queue
    manager, the mixer and the queue display, and keeps the shared status and
    playback records. The voice client is reduced to whether it is streaming, and
    the stream resolver's answer is a parameter. Publishing state passes the
    state to a bridge method that takes none, so it raises once the bridge is
    connected. */
module PlaybackManager {
  import opened Values
  import opened QueueSpec
  import opened StateManager
  import QM = QueueManager
  import AM = AudioMixer
  import DM = DisplayManager
  import CM = ContentManager

  /** What `send_state` raises: `IPCBridge.send_state` takes no payload. */
  const SendStateArity: PyError :=
    PyError("TypeError", "IPCBridge.send_state() takes 1 positional argument but 2 were given")

  function Max(a: int, b: int): int
  {
    if a >= b then a else b
  }

  function Min(a: int, b: int): int
  {
    if a <= b then a else b
  }

  /** The volume percent `set_volume` works with: the request clamped to [0, 100]. */
  function ClampPercent(volume: int): (p: int)
    ensures 0 <= p <= 100
    ensures 0 <= volume <= 100 ==> p == volume
    ensures volume < 0 ==> p == 0
    ensures volume > 100 ==> p == 100
  {
    Max(0, Min(volume, 100))
  }

  /** A voice client is attached and it is streaming. */
  function Attached(vc: Option<VoiceClient>): Option<VoiceClient>
  {
    if vc.Some? then Some(VoiceClient(true)) else None
  }

  /** The stream a pause, resume or volume request names. */
  datatype StreamKind = Music | AmbienceStream | OtherStream

  function KindOf(trackType: string): (k: StreamKind)
    ensures k == Music <==> trackType == "music"
    ensures k == AmbienceStream <==> trackType == "ambience"
  {
    if trackType == "music" then Music
    else if trackType == "ambience" then AmbienceStream
    else OtherStream
  }

  class PlaybackManager {
    const queue: QM.QueueManager
    const mixer: AM.MixedAudio
    const display: DM.DisplayManager
    /** The status half of `core.state`. */
    var status: BotStatus
    /** The playlist, ambience and volume half of `core.state`. */
    var info: PlaybackInfo
    /** `core.ipc.connected`. */
    var ipcConnected: bool
    /** Every song monitor ever started: true while it still runs. */
    var monitors: seq<bool>
    /** `self.monitor_task`, as a position in `monitors`. */
    var monitorTask: Option<nat>

    ghost predicate Valid()
      reads this`monitors, this`monitorTask, queue, mixer, display
    {
      && queue.Valid() && mixer.Valid() && display.Valid()
      && (monitorTask.Some? ==> monitorTask.value < |monitors|)
      && (forall i :: 0 <= i < |monitors| && monitors[i] ==> monitorTask == Some(i))
    }

    constructor (q: QM.QueueManager, m: AM.MixedAudio, d: DM.DisplayManager, connected: bool)
      requires q.Valid() && m.Valid() && d.Valid()
      ensures Valid()
      ensures queue == q && mixer == m && display == d && ipcConnected == connected
      ensures status == InitialBotStatus() && info == InitialPlaybackInfo()
      ensures monitors == [] && monitorTask.None?
    {
      queue := q;
      mixer := m;
      display := d;
      status := InitialBotStatus();
      info := InitialPlaybackInfo();
      ipcConnected := connected;
      monitors := [];
      monitorTask := None;
    }

    /** `send_state`: skipped while the bridge is disconnected, raises otherwise. */
    function SendState(): (o: Outcome)
      reads this
      ensures o.Raised? <==> ipcConnected
      ensures o.Raised? ==> o.error == SendStateArity
    {
      if !ipcConnected then Completed else Raised(SendStateArity)
    }

    /** Publishing then refreshing the display: the refresh runs only when the
        publish did not raise. */
    function PublishAndRefresh(): (o: Outcome)
      reads this, display
      ensures ipcConnected ==> o == Raised(SendStateArity)
      ensures !ipcConnected && !display.botReady ==> o == Completed
      ensures !ipcConnected && display.botReady ==> o == Raised(DM.NoQueueState)
    {
      ThenRefresh(SendState())
    }

    /** A display refresh after a step that ended with `o`: it runs only when the
        step did not raise, and it raises exactly when the bot is ready. */
    function ThenRefresh(o: Outcome): (r: Outcome)
      reads display
      ensures o.Raised? ==> r == o
      ensures o.Completed? ==> (r.Raised? <==> display.botReady)
      ensures r.Raised? && o.Completed? ==> r.error == DM.NoQueueState
    {
      if o.Raised? then o
      else if display.botReady then Raised(DM.NoQueueState)
      else Completed
    }

    method Refresh() returns (o: Outcome)
      requires Valid()
      modifies display`page
      ensures Valid() && display.page == old(display.page)
      ensures o == PublishAndRefresh()
    {
      o := RefreshAfter(SendState());
    }

    /** The display refresh that follows a step ending with `step`. */
    method RefreshAfter(step: Outcome) returns (o: Outcome)
      requires Valid()
      modifies display`page
      ensures Valid() && display.page == old(display.page)
      ensures o == ThenRefresh(step)
    {
      o := step;
      if o.Completed? {
        o := display.UpdateQueueDisplay(None);
      }
    }

    /** `load_playlist(name)`: an unknown name raises ValueError and changes nothing;
        a playlist that is not a dict fails when listed; otherwise its tracks are
        installed. */
    method LoadPlaylist(library: seq<(string, Value)>, name: string) returns (o: Outcome)
      requires Valid()
      modifies this`info, this`status, queue, display`page
      ensures Valid()
      ensures !HasKey(library, name) ==>
        o == Raised(PyError("ValueError", "Playlist '" + name + "' not found"))
        && info == old(info) && status == old(status) && unchanged(queue)
      ensures HasKey(library, name) && !GetOr(library, name, VNone).VDict? ==>
        o == Raised(NoAttribute(GetOr(library, name, VNone), "items"))
        && info == old(info) && status == old(status) && unchanged(queue)
      ensures HasKey(library, name) && GetOr(library, name, VNone).VDict? ==>
        Installed(old(info), old(status), name, CM.ContentManager.PlaylistToTracklist(GetOr(library, name, VNone)).value)
        && o == PublishAndRefresh()
    {
      if !HasKey(library, name) {
        return Raised(PyError("ValueError", "Playlist '" + name + "' not found"));
      }
      var entries := GetOr(library, name, VNone);
      var listed := CM.ContentManager.PlaylistToTracklist(entries);
      if listed.Err? {
        return Raised(listed.error);
      }
      o := InstallPlaylist(name, listed.value);
    }

    /** The queue holds `tracks` (shuffled around the first, as `set_tracks` does by
        default) with a fresh history, and the state names the playlist, shows its
        first track, and has music stopped and shuffle off. */
    ghost predicate Installed(oldInfo: PlaybackInfo, oldStatus: BotStatus, name: string, tracks: seq<Track>)
      reads this, queue
    {
      && ShuffledAround(tracks, 0, queue.tracks)
      && queue.originalOrder == tracks && queue.currentIndex == 0 && queue.previousStack == []
      && queue.playlistName == name
      && info == oldInfo.(playlistName := VStr(name), playlist := Some(tracks),
                          playlistCurrent := if tracks != [] then TrackAsCurrent(tracks[0]) else NoTrack)
      && status == oldStatus.(isMusicPlaying := false, shuffleMode := false)
    }

    /** The body of `load_playlist` once the tracks are listed; afterwards the state's
        current track is the queue's current track. */
    method InstallPlaylist(name: string, tracks: seq<Track>) returns (o: Outcome)
      requires Valid()
      modifies this`info, this`status, queue, display`page
      ensures Valid()
      ensures Installed(old(info), old(status), name, tracks)
      ensures queue.tracks != [] ==> info.playlistCurrent == TrackAsCurrent(queue.tracks[queue.currentIndex])
      ensures queue.tracks == [] ==> info.playlistCurrent == NoTrack
      ensures o == PublishAndRefresh()
    {
      queue.SetTracks(tracks, name, true);
      ShufflePermutes(tracks, 0, queue.tracks);
      info := info.(playlistName := VStr(name), playlist := Some(tracks),
                    playlistCurrent := if tracks != [] then TrackAsCurrent(tracks[0]) else NoTrack);
      status := status.(isMusicPlaying := false, shuffleMode := false);
      o := Refresh();
    }

    /** Cancels the running song monitor, if any, and starts a fresh one, which is
        then the only one running. */
    method StartMonitor()
      requires Valid()
      modifies this`monitors, this`monitorTask
      ensures Valid()
      ensures |monitors| == |old(monitors)| + 1 && monitorTask == Some(|old(monitors)|)
      ensures forall i :: 0 <= i < |monitors| ==> (monitors[i] <==> i == |old(monitors)|)
    {
      if monitorTask.Some? && monitors[monitorTask.value] {
        monitors := monitors[monitorTask.value := false];
      }
      monitors := monitors + [true];
      monitorTask := Some(|monitors| - 1);
    }

    /** `play_music`: without a voice client or a current track nothing happens; an
        unresolved stream returns after stopping the music, before the monitor and
        the publish; otherwise the track starts, the state shows it playing, the
        voice client streams, and one fresh monitor replaces any running one. */
    method PlayMusic(streamUrl: Option<string>, decoderOutput: seq<AM.byte>) returns (o: Outcome)
      requires Valid()
      modifies this`info, this`status, this`monitors, this`monitorTask, queue`currentIndex, mixer`procMusic
      ensures Valid()
      ensures queue.currentIndex == old(queue.currentIndex)
      ensures old(status.voiceClient).None? || old(queue.tracks) == [] ==>
        o == Completed && info == old(info) && status == old(status) && mixer.procMusic == old(mixer.procMusic)
        && monitors == old(monitors) && monitorTask == old(monitorTask)
      ensures old(queue.tracks) != [] ==>
        && Played(old(info), old(status), old(mixer.procMusic), old(monitors), old(monitorTask), streamUrl, decoderOutput)
        && o == PlayReply(old(status), streamUrl)
    {
      var vc := status.voiceClient;
      if vc.None? {
        return Completed;
      }
      var track := queue.GetCurrent();
      if track.None? {
        return Completed;
      }
      mixer.StopMusic();
      if streamUrl.None? || streamUrl.value == "" {
        return Completed;
      }
      o := StartTrack(track.value, streamUrl.value, decoderOutput);
    }

    /** The part of `play_music` after the stream resolved: the decoder starts on it,
        the state shows the track playing, an idle voice client starts streaming,
        one fresh monitor runs, and the state is published. */
    method StartTrack(track: Track, stream: string, decoderOutput: seq<AM.byte>) returns (o: Outcome)
      requires Valid() && status.voiceClient.Some?
      modifies this`info, this`status, this`monitors, this`monitorTask, mixer`procMusic
      ensures Valid()
      ensures mixer.procMusic == Some(AM.Proc(AM.FfmpegArgs(stream, false), true, decoderOutput))
      ensures info == old(info).(playlistCurrent := TrackAsCurrent(track))
      ensures status == old(status).(isMusicPlaying := true, voiceClient := Some(VoiceClient(true)))
      ensures |monitors| == |old(monitors)| + 1 && monitorTask == Some(|old(monitors)|)
      ensures forall i :: 0 <= i < |monitors| ==> (monitors[i] <==> i == |old(monitors)|)
      ensures o == SendState()
    {
      mixer.StartMusic(stream, false, decoderOutput);
      info := info.(playlistCurrent := TrackAsCurrent(track));
      status := status.(isMusicPlaying := true);
      if !status.voiceClient.value.playing {
        status := status.(voiceClient := Some(VoiceClient(true)));
      }
      StartMonitor();
      o := SendState();
    }

    /** `play_ambience(url, title)`: without a voice client nothing happens; an
        unresolved stream returns after stopping the ambience; otherwise the looping
        ambience starts and the state names it. */
    method PlayAmbience(url: string, title: Value, streamUrl: Option<string>, decoderOutput: seq<AM.byte>) returns (o: Outcome)
      requires Valid()
      modifies this`info, this`status, mixer`procAmb
      ensures Valid()
      ensures old(status.voiceClient).None? ==>
        o == Completed && info == old(info) && status == old(status) && mixer.procAmb == old(mixer.procAmb)
      ensures old(status.voiceClient).Some? && (streamUrl.None? || streamUrl.value == "") ==>
        o == Completed && info == old(info) && status == old(status) && mixer.procAmb.None?
      ensures old(status.voiceClient).Some? && streamUrl.Some? && streamUrl.value != "" ==>
        && mixer.procAmb == Some(AM.Proc(AM.FfmpegArgs(streamUrl.value, true), true, decoderOutput))
        && info == old(info).(ambienceName := title, ambienceUrl := VStr(url))
        && status == old(status).(isAmbiencePlaying := true, voiceClient := Some(VoiceClient(true)))
        && o == SendState()
    {
      var vc := status.voiceClient;
      if vc.None? {
        return Completed;
      }
      mixer.StopAmbience();
      if streamUrl.None? || streamUrl.value == "" {
        return Completed;
      }
      o := StartAmbienceTrack(url, title, streamUrl.value, decoderOutput);
    }

    /** The part of `play_ambience` after the stream resolved: a looping decoder starts
        on it, the state names the ambience as playing, an idle voice client starts
        streaming, and the state is published. */
    method StartAmbienceTrack(url: string, title: Value, stream: string, decoderOutput: seq<AM.byte>) returns (o: Outcome)
      requires Valid() && status.voiceClient.Some?
      modifies this`info, this`status, mixer`procAmb
      ensures Valid()
      ensures mixer.procAmb == Some(AM.Proc(AM.FfmpegArgs(stream, true), true, decoderOutput))
      ensures info == old(info).(ambienceName := title, ambienceUrl := VStr(url))
      ensures status == old(status).(isAmbiencePlaying := true, voiceClient := Some(VoiceClient(true)))
      ensures o == SendState()
    {
      mixer.StartAmbience(stream, true, decoderOutput);
      info := info.(ambienceName := title, ambienceUrl := VStr(url));
      status := status.(isAmbiencePlaying := true);
      AttachSource();
      o := SendState();
    }

    /** The state `play_music` leaves when the queue has a current track, given the
        records, music decoder and monitors it started from: without a voice
        client nothing changed; with an unresolved stream only the old music
        stopped; otherwise the current track plays from a fresh decoder, the voice
        client streams, and one fresh monitor is the only one running. */
    ghost predicate Played(oldInfo: PlaybackInfo, oldStatus: BotStatus, oldProc: Option<AM.Proc>,
                           oldMonitors: seq<bool>, oldTask: Option<nat>, streamUrl: Option<string>, decoderOutput: seq<AM.byte>)
      reads this, queue, mixer
    {
      if oldStatus.voiceClient.None? then
        info == oldInfo && status == oldStatus && mixer.procMusic == oldProc
        && monitors == oldMonitors && monitorTask == oldTask
      else if streamUrl.None? || streamUrl.value == "" then
        info == oldInfo && status == oldStatus && mixer.procMusic.None?
        && monitors == oldMonitors && monitorTask == oldTask
      else
        && queue.currentIndex < |queue.tracks|
        && mixer.procMusic == Some(AM.Proc(AM.FfmpegArgs(streamUrl.value, false), true, decoderOutput))
        && info == oldInfo.(playlistCurrent := TrackAsCurrent(queue.tracks[queue.currentIndex]))
        && status == oldStatus.(isMusicPlaying := true, voiceClient := Some(VoiceClient(true)))
        && |monitors| == |oldMonitors| + 1 && monitorTask == Some(|oldMonitors|)
        && (forall i :: 0 <= i < |monitors| ==> (monitors[i] <==> i == |oldMonitors|))
    }

    /** What `play_music` returns when the queue has a current track: the publish's
        outcome once a track started, and nothing otherwise. */
    function PlayReply(oldStatus: BotStatus, streamUrl: Option<string>): (o: Outcome)
      reads this
      ensures o.Raised? <==> ipcConnected && oldStatus.voiceClient.Some? && streamUrl.Some? && streamUrl.value != ""
    {
      if oldStatus.voiceClient.Some? && streamUrl.Some? && streamUrl.value != "" then SendState() else Completed
    }

    /** `skip`: a next track is played; without one the music is marked stopped and
        the state published; either way the display is refreshed unless something
        raised first. */
    method Skip(streamUrl: Option<string>, decoderOutput: seq<AM.byte>) returns (o: Outcome)
      requires Valid()
      modifies this`info, this`status, this`monitors, this`monitorTask, queue`currentIndex, queue`previousStack,
        mixer`procMusic, display`page
      ensures Valid()
      ensures display.page == old(display.page)
      ensures old(queue.tracks) == [] ==>
        info == old(info) && status == old(status).(isMusicPlaying := false)
        && queue.currentIndex == old(queue.currentIndex) && queue.previousStack == old(queue.previousStack)
        && mixer.procMusic == old(mixer.procMusic) && monitors == old(monitors) && monitorTask == old(monitorTask)
        && o == PublishAndRefresh()
      ensures old(queue.tracks) != [] && queue.loopCurrent ==>
        queue.currentIndex == old(queue.currentIndex) && queue.previousStack == old(queue.previousStack)
      ensures old(queue.tracks) != [] && !queue.loopCurrent ==>
        && queue.previousStack == old(queue.previousStack) + [old(queue.currentIndex)]
        && queue.currentIndex == NextIndex(old(queue.currentIndex), |queue.tracks|, queue.loopPlaylist)
      ensures old(queue.tracks) != [] ==>
        && Played(old(info), old(status), old(mixer.procMusic), old(monitors), old(monitorTask), streamUrl, decoderOutput)
        && o == ThenRefresh(PlayReply(old(status), streamUrl))
    {
      var next := queue.NextTrack();
      if next.None? {
        status := status.(isMusicPlaying := false);
        o := Refresh();
        return;
      }
      o := PlayMusic(streamUrl, decoderOutput);
      o := RefreshAfter(o);
    }

    /** `previous`: a remembered track is played; without history only the state is
        published. */
    method Previous(streamUrl: Option<string>, decoderOutput: seq<AM.byte>) returns (o: Outcome)
      requires Valid()
      modifies this`info, this`status, this`monitors, this`monitorTask, queue`currentIndex, queue`previousStack,
        mixer`procMusic
      ensures Valid()
      ensures old(queue.previousStack) == [] ==>
        info == old(info) && status == old(status) && queue.currentIndex == old(queue.currentIndex)
        && queue.previousStack == [] && mixer.procMusic == old(mixer.procMusic)
        && monitors == old(monitors) && monitorTask == old(monitorTask) && o == SendState()
      ensures old(queue.previousStack) != [] ==>
        && queue.previousStack == old(queue.previousStack)[..|old(queue.previousStack)| - 1]
        && queue.currentIndex == old(queue.previousStack)[|old(queue.previousStack)| - 1]
        && Played(old(info), old(status), old(mixer.procMusic), old(monitors), old(monitorTask), streamUrl, decoderOutput)
        && o == PlayReply(old(status), streamUrl)
    {
      var prev := queue.PreviousTrack();
      if prev.Some? {
        o := PlayMusic(streamUrl, decoderOutput);
      } else {
        o := SendState();
      }
    }

    /** `toggle_shuffle`: unshuffle when shuffle mode was on, shuffle otherwise,
        then flip the mode. */
    method ToggleShuffle() returns (o: Outcome)
      requires Valid()
      modifies this`status, queue`tracks, queue`currentIndex, display`page
      ensures Valid()
      ensures status == old(status).(shuffleMode := !old(status.shuffleMode))
      ensures old(status.shuffleMode) && queue.originalOrder != [] ==>
        queue.tracks == queue.originalOrder
        && Some(queue.currentIndex) == FirstUrlIndex(queue.originalOrder, old(queue.tracks[queue.currentIndex]).url)
      ensures old(status.shuffleMode) && queue.originalOrder == [] ==>
        queue.tracks == old(queue.tracks) && queue.currentIndex == old(queue.currentIndex)
      ensures !old(status.shuffleMode) ==>
        ShuffledAround(old(queue.tracks), queue.currentIndex, queue.tracks) && queue.currentIndex == old(queue.currentIndex)
      ensures o == PublishAndRefresh()
    {
      if status.shuffleMode {
        queue.Unshuffle();
      } else {
        queue.Shuffle();
      }
      status := status.(shuffleMode := !status.shuffleMode);
      o := Refresh();
    }

    /** `toggle_loop`: loop mode is on exactly when the queue now loops the current
        track. */
    method ToggleLoop() returns (o: Outcome)
      requires Valid()
      modifies this`status, queue`loopCurrent, queue`loopPlaylist, display`page
      ensures Valid()
      ensures queue.loopCurrent == !old(queue.loopCurrent) && queue.loopPlaylist == !queue.loopCurrent
      ensures status == old(status).(loopMode := queue.loopCurrent)
      ensures o == PublishAndRefresh()
    {
      var mode := queue.ToggleLoopCurrent();
      status := status.(loopMode := mode == "current track");
      o := Refresh();
    }

    /** `pause(track_type)`: the named stream is paused (when its decoder runs) and
        marked stopped; any other type returns at once, unpublished. */
    method Pause(trackType: string) returns (o: Outcome)
      requires Valid()
      modifies this`status, mixer`musicPaused, mixer`ambiencePaused
      ensures Valid()
      ensures KindOf(trackType) == Music ==>
        status == old(status).(isMusicPlaying := false) && mixer.ambiencePaused == old(mixer.ambiencePaused)
        && mixer.musicPaused == (if mixer.procMusic.Some? && mixer.procMusic.value.alive then true else old(mixer.musicPaused))
        && o == SendState()
      ensures KindOf(trackType) == AmbienceStream ==>
        status == old(status).(isAmbiencePlaying := false) && mixer.musicPaused == old(mixer.musicPaused)
        && mixer.ambiencePaused == (if mixer.procAmb.Some? && mixer.procAmb.value.alive then true else old(mixer.ambiencePaused))
        && o == SendState()
      ensures KindOf(trackType) == OtherStream ==>
        status == old(status) && mixer.musicPaused == old(mixer.musicPaused)
        && mixer.ambiencePaused == old(mixer.ambiencePaused) && o == Completed
    {
      match KindOf(trackType)
      case Music =>
        mixer.PauseMusic();
        status := status.(isMusicPlaying := false);
        o := SendState();
      case AmbienceStream =>
        mixer.PauseAmbience();
        status := status.(isAmbiencePlaying := false);
        o := SendState();
      case OtherStream =>
        o := Completed;
    }

    /** Hands the mixed source to a voice client that is not streaming. */
    method AttachSource()
      modifies this`status
      ensures status == old(status).(voiceClient := Attached(old(status.voiceClient)))
    {
      var vc := status.voiceClient;
      if vc.Some? && !vc.value.playing {
        status := status.(voiceClient := Some(VoiceClient(true)));
      }
    }

    /** `resume(track_type)`: the named stream resumes (when its decoder runs) and is
        marked playing, and an idle voice client is handed the mixed source again;
        any other type returns at once, unpublished. */
    method Resume(trackType: string) returns (o: Outcome)
      requires Valid()
      modifies this`status, mixer`musicPaused, mixer`ambiencePaused
      ensures Valid()
      ensures KindOf(trackType) == Music ==>
        status == old(status).(isMusicPlaying := true, voiceClient := Attached(old(status.voiceClient)))
        && mixer.ambiencePaused == old(mixer.ambiencePaused)
        && mixer.musicPaused == (if mixer.procMusic.Some? && mixer.procMusic.value.alive then false else old(mixer.musicPaused))
        && o == SendState()
      ensures KindOf(trackType) == AmbienceStream ==>
        status == old(status).(isAmbiencePlaying := true, voiceClient := Attached(old(status.voiceClient)))
        && mixer.musicPaused == old(mixer.musicPaused)
        && mixer.ambiencePaused == (if mixer.procAmb.Some? && mixer.procAmb.value.alive then false else old(mixer.ambiencePaused))
        && o == SendState()
      ensures KindOf(trackType) == OtherStream ==>
        status == old(status) && mixer.musicPaused == old(mixer.musicPaused)
        && mixer.ambiencePaused == old(mixer.ambiencePaused) && o == Completed
    {
      match KindOf(trackType)
      case Music =>
        mixer.ResumeMusic();
        status := status.(isMusicPlaying := true);
        AttachSource();
        o := SendState();
      case AmbienceStream =>
        mixer.ResumeAmbience();
        status := status.(isAmbiencePlaying := true);
        AttachSource();
        o := SendState();
      case OtherStream =>
        o := Completed;
    }

    /** `set_volume(track_type, volume)`: the percent is clamped to [0, 100]; the named
        stream's mixer volume becomes that fraction and the state keeps the percent;
        any other type changes neither, and the state is published in every case. */
    method SetVolume(trackType: string, volume: int) returns (o: Outcome)
      requires Valid()
      modifies this`info, mixer`musicVolume, mixer`ambienceVolume
      ensures Valid()
      ensures KindOf(trackType) == Music ==>
        info == old(info).(musicVolume := ClampPercent(volume))
        && mixer.musicVolume == ClampPercent(volume) as real / 100.0 && mixer.ambienceVolume == old(mixer.ambienceVolume)
      ensures KindOf(trackType) == AmbienceStream ==>
        info == old(info).(ambienceVolume := ClampPercent(volume))
        && mixer.ambienceVolume == ClampPercent(volume) as real / 100.0 && mixer.musicVolume == old(mixer.musicVolume)
      ensures KindOf(trackType) == OtherStream ==>
        info == old(info) && mixer.musicVolume == old(mixer.musicVolume) && mixer.ambienceVolume == old(mixer.ambienceVolume)
      ensures o == SendState()
    {
      var percent := ClampPercent(volume);
      var fraction := percent as real / 100.0;
      match KindOf(trackType) {
        case Music =>
          mixer.SetMusicVolume(fraction);
          info := info.(musicVolume := percent);
        case AmbienceStream =>
          mixer.SetAmbienceVolume(fraction);
          info := info.(ambienceVolume := percent);
        case OtherStream =>
      }
      o := SendState();
    }

    /** `leave_vc`: without a voice client nothing happens; otherwise both streams are
        stopped, the voice state is reset, and the state published and shown. */
    method LeaveVc() returns (o: Outcome)
      requires Valid()
      modifies this`status, mixer`procMusic, mixer`procAmb, display`page
      ensures Valid()
      ensures old(status.voiceClient).None? ==>
        o == Completed && status == old(status)
        && mixer.procMusic == old(mixer.procMusic) && mixer.procAmb == old(mixer.procAmb)
      ensures old(status.voiceClient).Some? ==>
        mixer.procMusic.None? && mixer.procAmb.None?
        && status == old(status).(voiceClient := None, inVc := false)
        && o == PublishAndRefresh()
    {
      if status.voiceClient.None? {
        return Completed;
      }
      mixer.StopMusic();
      mixer.StopAmbience();
      status := status.(voiceClient := None, inVc := false);
      o := Refresh();
    }
  }
}
