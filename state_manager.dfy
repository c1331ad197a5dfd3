/** The shared bot status and playback records (bot/state_manager.py) and the
    state projection sent to the web dashboard. */
module StateManager {
  import opened Values

  /** The Discord voice connection, reduced to whether it is currently streaming. */
  datatype VoiceClient = VoiceClient(playing: bool)

  /** `{"url": ..., "name": ...}` describing the track on air. */
  datatype CurrentTrack = CurrentTrack(url: Value, name: Value)

  function TrackAsCurrent(t: Track): CurrentTrack
  {
    CurrentTrack(VStr(t.url), t.name)
  }

  /** The placeholder used while nothing has been picked. */
  const NoTrack: CurrentTrack := CurrentTrack(VNone, VStr("None"))

  datatype BotStatus = BotStatus(
    voiceClient: Option<VoiceClient>,
    isMusicPlaying: bool,
    isAmbiencePlaying: bool,
    shuffleMode: bool,
    loopMode: bool,
    inVc: bool,
    isRunning: string,
    queueMessageId: Value,
    ngrokMessageId: Value)

  datatype PlaybackInfo = PlaybackInfo(
    playlistName: Value,
    playlist: Option<seq<Track>>,
    playlistCurrent: CurrentTrack,
    ambienceName: Value,
    ambienceUrl: Value,
    musicVolume: int,
    ambienceVolume: int)

  /** `BotStatus()`: nothing playing, shuffle on, loop off, not in a voice channel,
      offline, no remembered messages. */
  function InitialBotStatus(): (s: BotStatus)
    ensures s.voiceClient.None? && !s.inVc && s.isRunning == "offline"
    ensures !s.isMusicPlaying && !s.isAmbiencePlaying && s.shuffleMode && !s.loopMode
    ensures s.queueMessageId == VNone && s.ngrokMessageId == VNone
  {
    BotStatus(None, false, false, true, false, false, "offline", VNone, VNone)
  }

  /** `PlaybackInfo()`: no playlist, the placeholder track, no ambience, music at 100
      and ambience at 25 percent. */
  function InitialPlaybackInfo(): (p: PlaybackInfo)
    ensures p.playlistName == VStr("None") && p.playlist.None? && p.playlistCurrent == NoTrack
    ensures p.ambienceName == VStr("None") && p.ambienceUrl == VNone
    ensures p.musicVolume == 100 && p.ambienceVolume == 25
  {
    PlaybackInfo(VStr("None"), None, NoTrack, VStr("None"), VNone, 100, 25)
  }

  /** The "music" group of the dashboard state. */
  function MusicGroup(status: BotStatus, info: PlaybackInfo): seq<(string, Value)>
  {
    [("playlist_name", info.playlistName),
     ("track_name", info.playlistCurrent.name),
     ("playing", VBool(status.isMusicPlaying)),
     ("volume", VInt(info.musicVolume)),
     ("shuffle", VBool(status.shuffleMode)),
     ("loop", VBool(status.loopMode))]
  }

  /** The "ambience" group of the dashboard state. */
  function AmbienceGroup(status: BotStatus, info: PlaybackInfo): seq<(string, Value)>
  {
    [("name", info.ambienceName),
     ("playing", VBool(status.isAmbiencePlaying)),
     ("volume", VInt(info.ambienceVolume))]
  }

  /** `get_playback_state()`: the frontend dict, wrapped in a one-element tuple by
      the trailing comma after it. */
  function PlaybackState(status: BotStatus, info: PlaybackInfo): Value
  {
    VTuple([VDict([
      ("music", VDict(MusicGroup(status, info))),
      ("ambience", VDict(AmbienceGroup(status, info))),
      ("in_vc", VBool(status.inVc)),
      ("bot_online", VStr(status.isRunning))])])
  }

  /** Looks a field up in the dict inside the one-element tuple. */
  function StateField(state: Value, key: string): Option<Value>
  {
    if state.VTuple? && |state.elems| == 1 && state.elems[0].VDict? then Get(state.elems[0].entries, key) else None
  }

  function SubField(state: Value, group: string, key: string): Option<Value>
  {
    match StateField(state, group)
    case Some(VDict(entries)) => Get(entries, key)
    case _ => None
  }

  lemma MusicGroupFields(status: BotStatus, info: PlaybackInfo)
    ensures var g := MusicGroup(status, info);
      && Get(g, "playlist_name") == Some(info.playlistName)
      && Get(g, "track_name") == Some(info.playlistCurrent.name)
      && Get(g, "playing") == Some(VBool(status.isMusicPlaying))
      && Get(g, "volume") == Some(VInt(info.musicVolume))
      && Get(g, "shuffle") == Some(VBool(status.shuffleMode))
      && Get(g, "loop") == Some(VBool(status.loopMode))
  {
    var g := MusicGroup(status, info);
    GetFirst(g, "playlist_name", 0);
    GetFirst(g, "track_name", 1);
    GetFirst(g, "playing", 2);
    GetFirst(g, "volume", 3);
    GetFirst(g, "shuffle", 4);
    GetFirst(g, "loop", 5);
  }

  lemma AmbienceGroupFields(status: BotStatus, info: PlaybackInfo)
    ensures var g := AmbienceGroup(status, info);
      && Get(g, "name") == Some(info.ambienceName)
      && Get(g, "playing") == Some(VBool(status.isAmbiencePlaying))
      && Get(g, "volume") == Some(VInt(info.ambienceVolume))
  {
    var g := AmbienceGroup(status, info);
    GetFirst(g, "name", 0);
    GetFirst(g, "playing", 1);
    GetFirst(g, "volume", 2);
  }

  /** The projection is a truthy one-element tuple, and every field reads back the
      status or info field it comes from. */
  lemma PlaybackStateFields(status: BotStatus, info: PlaybackInfo)
    ensures var v := PlaybackState(status, info);
      && v.VTuple? && |v.elems| == 1 && Truthy(v)
      && SubField(v, "music", "playlist_name") == Some(info.playlistName)
      && SubField(v, "music", "track_name") == Some(info.playlistCurrent.name)
      && SubField(v, "music", "playing") == Some(VBool(status.isMusicPlaying))
      && SubField(v, "music", "volume") == Some(VInt(info.musicVolume))
      && SubField(v, "music", "shuffle") == Some(VBool(status.shuffleMode))
      && SubField(v, "music", "loop") == Some(VBool(status.loopMode))
      && SubField(v, "ambience", "name") == Some(info.ambienceName)
      && SubField(v, "ambience", "playing") == Some(VBool(status.isAmbiencePlaying))
      && SubField(v, "ambience", "volume") == Some(VInt(info.ambienceVolume))
      && StateField(v, "in_vc") == Some(VBool(status.inVc))
      && StateField(v, "bot_online") == Some(VStr(status.isRunning))
  {
    var top := PlaybackState(status, info).elems[0].entries;
    GetFirst(top, "music", 0);
    GetFirst(top, "ambience", 1);
    GetFirst(top, "in_vc", 2);
    GetFirst(top, "bot_online", 3);
    MusicGroupFields(status, info);
    AmbienceGroupFields(status, info);
  }

  /** Before anything happens the dashboard sees the idle, offline bot. */
  lemma InitialPlaybackState()
    ensures var v := PlaybackState(InitialBotStatus(), InitialPlaybackInfo());
      && SubField(v, "music", "track_name") == Some(VStr("None"))
      && SubField(v, "music", "playing") == Some(VBool(false))
      && SubField(v, "music", "volume") == Some(VInt(100))
      && SubField(v, "music", "shuffle") == Some(VBool(true))
      && SubField(v, "ambience", "volume") == Some(VInt(25))
      && StateField(v, "bot_online") == Some(VStr("offline"))
  {
    PlaybackStateFields(InitialBotStatus(), InitialPlaybackInfo());
  }
}
