/** The command router (bot/command_dispatcher.py): a command name picks a
    handler, handlers are wrapped in the uniform success/fail envelopes, any
    exception becomes a fail reply, and the lifecycle commands set the bot's
    running status. The handlers it routes to are collaborators: what the routed
    call did is a parameter, and the data it reports back is part of `Env`. */
module CommandDispatcher {
  import opened Values

  /** The setup, library and message-reference commands. */
  datatype DataCmd =
    | SetupSave | GetPlaybackState | GetPlaylists | SavePlaylist | GetAmbience | SaveAmbience
    | UpdateQueueMessage | UpdateUiLink

  /** The music and ambience controls, each answered with the playback state. */
  datatype MusicCmd =
    | PlayPlaylist | NextSong | PreviousSong | SetShuffle | SetLoop | SetVolumeMusic
    | PlayAmbience | SetVolumeAmbience | Pause | Resume

  /** The voice and lifecycle commands. */
  datatype ControlCmd = JoinVc | LeaveVc | Reboot | StartBot | StopBot | GetBotStatus

  /** The branch of the if-chain a command takes; `Unknown` is the final else. */
  datatype Cmd = Data(d: DataCmd) | Music(m: MusicCmd) | Control(k: ControlCmd) | Unknown

  function DataName(d: DataCmd): string
  {
    match d
    case SetupSave => "SETUP_SAVE"
    case GetPlaybackState => "GET_PLAYBACK_STATE"
    case GetPlaylists => "GET_PLAYLISTS"
    case SavePlaylist => "SAVE_PLAYLIST"
    case GetAmbience => "GET_AMBIENCE"
    case SaveAmbience => "SAVE_AMBIENCE"
    case UpdateQueueMessage => "UPDATE_QUEUE_MESSAGE"
    case UpdateUiLink => "UPDATE_UI_LINK"
  }

  function MusicName(m: MusicCmd): string
  {
    match m
    case PlayPlaylist => "PLAY_PLAYLIST"
    case NextSong => "NEXT_SONG"
    case PreviousSong => "PREVIOUS_SONG"
    case SetShuffle => "SET_SHUFFLE"
    case SetLoop => "SET_LOOP"
    case SetVolumeMusic => "SET_VOLUME_MUSIC"
    case PlayAmbience => "PLAY_AMBIENCE"
    case SetVolumeAmbience => "SET_VOLUME_AMBIENCE"
    case Pause => "PAUSE"
    case Resume => "RESUME"
  }

  function ControlName(k: ControlCmd): string
  {
    match k
    case JoinVc => "JOINVC"
    case LeaveVc => "LEAVEVC"
    case Reboot => "REBOOT"
    case StartBot => "START_BOT"
    case StopBot => "STOP_BOT"
    case GetBotStatus => "GET_BOT_STATUS"
  }

  /** The wire name of each routed command. */
  function Name(c: Cmd): string
    requires !c.Unknown?
  {
    match c
    case Data(d) => DataName(d)
    case Music(m) => MusicName(m)
    case Control(k) => ControlName(k)
  }

  /** The if-chain's test: which branch a `command` value takes. */
  function CommandOf(command: Value): Cmd
  {
    if !command.VStr? then Unknown
    else
      var s := command.s;
      if s == "SETUP_SAVE" then Data(SetupSave)
      else if s == "GET_PLAYBACK_STATE" then Data(GetPlaybackState)
      else if s == "GET_PLAYLISTS" then Data(GetPlaylists)
      else if s == "SAVE_PLAYLIST" then Data(SavePlaylist)
      else if s == "GET_AMBIENCE" then Data(GetAmbience)
      else if s == "SAVE_AMBIENCE" then Data(SaveAmbience)
      else if s == "PLAY_PLAYLIST" then Music(PlayPlaylist)
      else if s == "NEXT_SONG" then Music(NextSong)
      else if s == "PREVIOUS_SONG" then Music(PreviousSong)
      else if s == "SET_SHUFFLE" then Music(SetShuffle)
      else if s == "SET_LOOP" then Music(SetLoop)
      else if s == "SET_VOLUME_MUSIC" then Music(SetVolumeMusic)
      else if s == "PLAY_AMBIENCE" then Music(PlayAmbience)
      else if s == "SET_VOLUME_AMBIENCE" then Music(SetVolumeAmbience)
      else if s == "PAUSE" then Music(Pause)
      else if s == "RESUME" then Music(Resume)
      else if s == "JOINVC" then Control(JoinVc)
      else if s == "LEAVEVC" then Control(LeaveVc)
      else if s == "REBOOT" then Control(Reboot)
      else if s == "START_BOT" then Control(StartBot)
      else if s == "STOP_BOT" then Control(StopBot)
      else if s == "GET_BOT_STATUS" then Control(GetBotStatus)
      else if s == "UPDATE_QUEUE_MESSAGE" then Data(UpdateQueueMessage)
      else if s == "UPDATE_UI_LINK" then Data(UpdateUiLink)
      else Unknown
  }

  // ---------------------------------------------------------------------------
  // Envelopes
  // ---------------------------------------------------------------------------

  /** `success(command, data)`: ok, the reply name, and the data or `{}`. */
  function Success(command: string, data: Value): Value
  {
    VDict([("ok", VBool(true)), ("command", VStr(command)), ("data", if Truthy(data) then data else VDict([]))])
  }

  /** `fail(command, error)`: not ok, the command as received, and the error text. */
  function Fail(command: Value, error: string): Value
  {
    VDict([("ok", VBool(false)), ("command", command), ("error", VStr(error))])
  }

  /** `state_response(command)`: ok, the command, and the playback state. */
  function StateResponse(command: string, state: Value): Value
  {
    VDict([("ok", VBool(true)), ("command", VStr(command)), ("state", state)])
  }

  lemma SuccessFields(command: string, data: Value)
    ensures var r := Success(command, data).entries;
      && Values.Get(r, "ok") == Some(VBool(true)) && Values.Get(r, "command") == Some(VStr(command))
      && Values.Get(r, "data") == Some(if Truthy(data) then data else VDict([]))
      && Values.Get(r, "error").None?
  {
    var r := Success(command, data).entries;
    GetFirst(r, "ok", 0);
    GetFirst(r, "command", 1);
    GetFirst(r, "data", 2);
    GetHasKey(r, "error");
  }

  lemma FailFields(command: Value, error: string)
    ensures var r := Fail(command, error).entries;
      && Values.Get(r, "ok") == Some(VBool(false)) && Values.Get(r, "command") == Some(command)
      && Values.Get(r, "error") == Some(VStr(error))
  {
    var r := Fail(command, error).entries;
    GetFirst(r, "ok", 0);
    GetFirst(r, "command", 1);
    GetFirst(r, "error", 2);
  }

  lemma StateResponseFields(command: string, state: Value)
    ensures var r := StateResponse(command, state).entries;
      && Values.Get(r, "ok") == Some(VBool(true)) && Values.Get(r, "command") == Some(VStr(command))
      && Values.Get(r, "state") == Some(state) && Values.Get(r, "error").None?
  {
    var r := StateResponse(command, state).entries;
    GetFirst(r, "ok", 0);
    GetFirst(r, "command", 1);
    GetFirst(r, "state", 2);
    GetHasKey(r, "error");
  }

  // ---------------------------------------------------------------------------
  // Routing
  // ---------------------------------------------------------------------------

  /** The three reply shapes a branch can produce. */
  datatype Reply =
    | Succeeded(name: string, data: Value)
    | Failed(command: Value, error: string)
    | StateReply(name: string, state: Value)

  /** The reply as the dict the dispatcher returns. */
  function Encode(r: Reply): Value
  {
    match r
    case Succeeded(name, data) => Success(name, data)
    case Failed(command, error) => Fail(command, error)
    case StateReply(name, state) => StateResponse(name, state)
  }

  /** Every encoded reply is a dict with a "command", and its "ok" is a bool that is
      false exactly when an "error" is present. */
  lemma EncodeEnvelope(r: Reply)
    ensures var e := Encode(r);
      && e.VDict?
      && Values.Get(e.entries, "command") == Some(if r.Failed? then r.command else VStr(r.name))
      && Values.Get(e.entries, "ok") == Some(VBool(!r.Failed?))
      && (Values.Get(e.entries, "error").Some? <==> r.Failed?)
  {
    match r
    case Succeeded(name, data) => SuccessFields(name, data);
    case Failed(command, error) => FailFields(command, error);
    case StateReply(name, state) => StateResponseFields(name, state);
  }

  /** What the dispatcher reads besides the request: the bot's running status, the
      configured voice channel id, the playback state at reply time and the two
      library files as `json.load` parses them (any JSON value, not only a dict).
      For GET_PLAYLISTS and GET_AMBIENCE, `call` is that load, which raises on a
      malformed file. */
  datatype Env = Env(
    isRunning: string,
    voiceChannelId: Value,
    state: Value,
    playlists: Value,
    ambience: Value)

  datatype Dispatched = Dispatched(reply: Reply, isRunning: string)

  /** The first failure of two calls made in order. */
  function AndThen(first: Outcome, second: Outcome): Outcome
  {
    if first.Raised? then first else second
  }

  /** `args.get(...)` on the arguments, which raises when they are not a dict. */
  function ArgsGet(args: Value): Outcome
  {
    if args.VDict? then Completed else Raised(NoAttribute(args, "get"))
  }

  function ArgValue(args: Value, key: string): Value
  {
    if args.VDict? then GetOr(args.entries, key, VNone) else VNone
  }

  /** A handler's reply, or `fail(command, str(e))` when the call raised. */
  function Guarded(command: Value, call: Outcome, reply: Reply): Reply
  {
    if call.Raised? then Failed(command, call.error.message) else reply
  }

  /** The reply of a setup, library or message branch. */
  function DataReply(d: DataCmd, command: Value, args: Value, env: Env, call: Outcome): Reply
  {
    var withArgs := AndThen(ArgsGet(args), call);
    match d
    case SetupSave => Guarded(command, withArgs, Succeeded(DataName(d), VNone))
    case GetPlaybackState => Succeeded("PLAYBACK_STATE", VDict([("state", env.state)]))
    case GetPlaylists => Guarded(command, call, Succeeded("PLAYLISTS_DATA", VDict([("playlists", env.playlists)])))
    case SavePlaylist =>
      Guarded(command, withArgs, Succeeded(DataName(d), VDict([("name", ArgValue(args, "name"))])))
    case GetAmbience => Guarded(command, call, Succeeded("AMBIENCE_DATA", VDict([("ambience", env.ambience)])))
    case SaveAmbience =>
      Guarded(command, withArgs, Succeeded(DataName(d), VDict([("name", VStr("Ambience"))])))
    case UpdateQueueMessage => Guarded(command, withArgs, Succeeded(DataName(d), VNone))
    case UpdateUiLink => Guarded(command, withArgs, Succeeded(DataName(d), VNone))
  }

  /** The music controls that read their arguments before the call; next, previous,
      shuffle and loop take none. */
  predicate ReadsArgs(m: MusicCmd)
  {
    !(m.NextSong? || m.PreviousSong? || m.SetShuffle? || m.SetLoop?)
  }

  /** The reply of a music or ambience branch: the playback state under the
      command's own name. */
  function MusicReply(m: MusicCmd, command: Value, args: Value, env: Env, call: Outcome): Reply
  {
    Guarded(command, if ReadsArgs(m) then AndThen(ArgsGet(args), call) else call,
      StateReply(MusicName(m), env.state))
  }

  /** The reply of a voice or lifecycle branch. */
  function ControlReply(k: ControlCmd, command: Value, args: Value, env: Env, call: Outcome): Reply
  {
    match k
    case JoinVc =>
      if !Truthy(env.voiceChannelId) then Failed(VStr("JOINVC"), "Voice channel ID missing")
      else Guarded(command, AndThen(ArgsGet(args), call), Succeeded("JOINEDVC", VNone))
    case LeaveVc => Guarded(command, call, Succeeded("LEFTVC", VNone))
    case Reboot => Succeeded("BOT_STATUS", VDict([("online", VStr("booting"))]))
    case StartBot => Succeeded("BOT_STATUS", VDict([("online", VStr("booting"))]))
    case StopBot => Guarded(command, call, Succeeded("BOT_STATUS", VDict([("online", VStr("offline"))])))
    case GetBotStatus => Succeeded("BOT_STATUS", VDict([("online", VStr(env.isRunning))]))
  }

  /** The reply of one branch of the if-chain. `call` is what the routed collaborator
      did; the lookups in `args` come first where the source makes them first. */
  function RouteReply(c: Cmd, command: Value, args: Value, env: Env, call: Outcome): Reply
  {
    match c
    case Data(d) => DataReply(d, command, args, env, call)
    case Music(m) => MusicReply(m, command, args, env, call)
    case Control(k) => ControlReply(k, command, args, env, call)
    case Unknown => Failed(command, "Unknown command")
  }

  /** `botStatus.is_running` after a branch: the lifecycle commands assign it before
      their call is made, every other command leaves it. */
  function Running(c: Cmd, current: string): string
  {
    match c
    case Control(Reboot) => "booting"
    case Control(StartBot) => "booting"
    case Control(StopBot) => "offline"
    case _ => current
  }

  /** One branch of the if-chain: its reply and the running status after it. */
  function Route(c: Cmd, command: Value, args: Value, env: Env, call: Outcome): Dispatched
  {
    Dispatched(RouteReply(c, command, args, env, call), Running(c, env.isRunning))
  }

  /** `args = data.get("args", {}) or {}`: a missing or falsy `args` is `{}`. */
  function ArgsOf(request: seq<(string, Value)>): Value
  {
    var args := GetOr(request, "args", VDict([]));
    if Truthy(args) then args else VDict([])
  }

  /** `dispatch_command(data)`. Reading "command" and "args" happens before the
      try block, so a request that is not a dict raises out of the dispatcher. */
  function Dispatch(request: Value, env: Env, call: Outcome): Result<Dispatched>
  {
    if !request.VDict? then Err(NoAttribute(request, "get"))
    else
      var command := GetOr(request.entries, "command", VNone);
      Ok(Route(CommandOf(command), command, ArgsOf(request.entries), env, call))
  }

  // ---------------------------------------------------------------------------
  // Properties
  // ---------------------------------------------------------------------------

  /** The setup, library and message names select their own branches. */
  lemma LibraryNamesRoute(d: DataCmd)
    ensures CommandOf(VStr(DataName(d))) == Data(d)
  {
  }

  /** The music and ambience control names select their own branches. */
  lemma PlaybackNamesRoute(m: MusicCmd)
    ensures CommandOf(VStr(MusicName(m))) == Music(m)
  {
  }

  /** The voice and lifecycle names select their own branches. */
  lemma ControlNamesRoute(k: ControlCmd)
    ensures CommandOf(VStr(ControlName(k))) == Control(k)
  {
  }

  /** Every routed name selects its own branch, and no other string or value
      selects it. */
  lemma NamesRoute(c: Cmd, command: Value)
    requires !c.Unknown?
    ensures CommandOf(VStr(Name(c))) == c
    ensures CommandOf(command) == c ==> command == VStr(Name(c))
  {
    match c
    case Data(d) =>
      LibraryNamesRoute(d);
      if CommandOf(command) == c { LibraryBranchName(command); }
    case Music(m) =>
      PlaybackNamesRoute(m);
      if CommandOf(command) == c { PlaybackBranchName(command); }
    case Control(k) =>
      ControlNamesRoute(k);
      if CommandOf(command) == c { ControlBranchName(command); }
  }

  /** A value that takes a setup, library or message branch is that branch's name. */
  lemma LibraryBranchName(command: Value)
    requires CommandOf(command).Data?
    ensures command == VStr(DataName(CommandOf(command).d))
  {
    var d := CommandOf(command).d;
    if d.UpdateQueueMessage? || d.UpdateUiLink? {
      MessageBranchName(command);
    } else {
      SetupBranchName(command);
    }
  }

  /** A value that takes a setup or library branch is that branch's name. */
  lemma SetupBranchName(command: Value)
    requires CommandOf(command).Data?
    requires var d := CommandOf(command).d; !(d.UpdateQueueMessage? || d.UpdateUiLink?)
    ensures command == VStr(DataName(CommandOf(command).d))
  {
  }

  /** A value that takes a message-update branch is that branch's name. */
  lemma MessageBranchName(command: Value)
    requires CommandOf(command) == Data(UpdateQueueMessage) || CommandOf(command) == Data(UpdateUiLink)
    ensures command == VStr(DataName(CommandOf(command).d))
  {
  }

  /** A value that takes a music or ambience branch is that branch's name. */
  lemma PlaybackBranchName(command: Value)
    requires CommandOf(command).Music?
    ensures command == VStr(MusicName(CommandOf(command).m))
  {
  }

  /** A value that takes a voice or lifecycle branch is that branch's name. */
  lemma ControlBranchName(command: Value)
    requires CommandOf(command).Control?
    ensures command == VStr(ControlName(CommandOf(command).k))
  {
  }

  /** Whatever the request, a dict request gets a reply: a dict whose "ok" is a bool
      that is false exactly when the reply carries an "error". */
  lemma ReplyEnvelope(request: Value, env: Env, call: Outcome)
    requires request.VDict?
    ensures Dispatch(request, env, call).Ok?
    ensures var e := Encode(Dispatch(request, env, call).value.reply);
      && e.VDict?
      && Values.Get(e.entries, "command").Some?
      && (Values.Get(e.entries, "ok") == Some(VBool(true)) || Values.Get(e.entries, "ok") == Some(VBool(false)))
      && (Values.Get(e.entries, "ok") == Some(VBool(false)) <==> Values.Get(e.entries, "error").Some?)
  {
    EncodeEnvelope(Dispatch(request, env, call).value.reply);
  }

  /** A command outside the table gets `fail(command, "Unknown command")` echoing it
      as received, and the running status is left alone. */
  lemma UnknownCommandFails(request: seq<(string, Value)>, env: Env, call: Outcome)
    requires CommandOf(GetOr(request, "command", VNone)) == Unknown
    ensures Dispatch(VDict(request), env, call) ==
      Ok(Dispatched(Failed(GetOr(request, "command", VNone), "Unknown command"), env.isRunning))
  {
  }

  /** The commands whose branch calls a collaborator that may raise. */
  predicate CallsHandler(c: Cmd)
  {
    match c
    case Data(d) => !d.GetPlaybackState?
    case Music(_) => true
    case Control(k) => !(k.Reboot? || k.StartBot? || k.GetBotStatus?)
    case Unknown => false
  }

  /** An exception from a routed call never leaves the dispatcher: it becomes
      `fail(command, str(e))`. */
  lemma HandlerErrorsAreCaught(request: seq<(string, Value)>, env: Env, e: PyError)
    requires CallsHandler(CommandOf(GetOr(request, "command", VNone)))
    requires CommandOf(GetOr(request, "command", VNone)) == Control(JoinVc) ==> Truthy(env.voiceChannelId)
    ensures Dispatch(VDict(request), env, Raised(e)).Ok?
    ensures var d := Dispatch(VDict(request), env, Raised(e)).value;
      var command := GetOr(request, "command", VNone);
      && (ArgsOf(request).VDict? ==> d.reply == Failed(command, e.message))
      && (d.reply == Failed(command, e.message) || d.reply == Failed(command, NoAttribute(ArgsOf(request), "get").message))
  {
  }

  /** GET_PLAYLISTS and GET_AMBIENCE hand back the library file as it was loaded,
      whatever JSON value it holds, and a file that fails to load becomes
      `fail(command, str(e))`. */
  lemma LibraryReadsFile(request: seq<(string, Value)>, env: Env, call: Outcome)
    requires GetOr(request, "command", VNone) in {VStr("GET_PLAYLISTS"), VStr("GET_AMBIENCE")}
    ensures var command := GetOr(request, "command", VNone);
      var playlists := command == VStr("GET_PLAYLISTS");
      Dispatch(VDict(request), env, call) == Ok(Dispatched(
        if call.Raised? then Failed(command, call.error.message)
        else if playlists then Succeeded("PLAYLISTS_DATA", VDict([("playlists", env.playlists)]))
        else Succeeded("AMBIENCE_DATA", VDict([("ambience", env.ambience)])),
        env.isRunning))
  {
  }

  /** A request without "args", with `"args": None` and with `"args": {}` are the
      same request. */
  lemma MissingArgsAreEmpty(command: Value, env: Env, call: Outcome)
    ensures Dispatch(VDict([("command", command)]), env, call)
         == Dispatch(VDict([("command", command), ("args", VNone)]), env, call)
    ensures Dispatch(VDict([("command", command)]), env, call)
         == Dispatch(VDict([("command", command), ("args", VDict([]))]), env, call)
  {
    GetFirst([("command", command)], "command", 0);
    GetHasKey([("command", command)], "args");
    GetFirst([("command", command), ("args", VNone)], "command", 0);
    GetFirst([("command", command), ("args", VNone)], "args", 1);
    GetFirst([("command", command), ("args", VDict([]))], "command", 0);
    GetFirst([("command", command), ("args", VDict([]))], "args", 1);
  }

  /** JOINVC without a configured voice channel fails at once, whatever joining
      would have done; with the constructor's `(None,)` default it goes on to join. */
  lemma JoinWithoutChannel(request: seq<(string, Value)>, env: Env, call1: Outcome, call2: Outcome)
    requires GetOr(request, "command", VNone) == VStr("JOINVC")
    ensures !Truthy(env.voiceChannelId) ==>
      Dispatch(VDict(request), env, call1) == Ok(Dispatched(Failed(VStr("JOINVC"), "Voice channel ID missing"), env.isRunning))
      && Dispatch(VDict(request), env, call1) == Dispatch(VDict(request), env, call2)
    ensures env.voiceChannelId == VTuple([VNone]) && ArgsOf(request).VDict? ==>
      Dispatch(VDict(request), env, Completed) == Ok(Dispatched(Succeeded("JOINEDVC", VNone), env.isRunning))
  {
    ControlNamesRoute(JoinVc);
  }

  /** REBOOT and START_BOT leave the bot "booting" and STOP_BOT leaves it
      "offline", whatever their call then does (the status is assigned first);
      every other request, a raising or an unknown one included, leaves the
      running status as it was. */
  lemma RunningTransitions(request: seq<(string, Value)>, env: Env, call: Outcome)
    ensures Dispatch(VDict(request), env, call).Ok?
    ensures var command := GetOr(request, "command", VNone);
      var running := Dispatch(VDict(request), env, call).value.isRunning;
      && (command == VStr("REBOOT") || command == VStr("START_BOT") ==> running == "booting")
      && (command == VStr("STOP_BOT") ==> running == "offline")
      && (command != VStr("REBOOT") && command != VStr("START_BOT") && command != VStr("STOP_BOT") ==>
            running == env.isRunning)
  {
    var command := GetOr(request, "command", VNone);
    if CommandOf(command).Control? {
      ControlBranchName(command);
    }
  }

  /** The lifecycle and status commands report the status after the command (for
      STOP_BOT, when stopping completed). */
  lemma StatusReplies(k: ControlCmd, command: Value, args: Value, env: Env, call: Outcome)
    requires k == Reboot || k == StartBot || k == GetBotStatus || (k == StopBot && call.Completed?)
    ensures var d := Route(Control(k), command, args, env, call);
      d.reply == Succeeded("BOT_STATUS", VDict([("online", VStr(d.isRunning))]))
  {
  }

  /** The name a branch replies under when its call completes: data queries and
      the voice and lifecycle branches use their own reply names, every other
      command echoes itself. */
  function ReplyName(c: Cmd): string
    requires !c.Unknown?
  {
    match c
    case Data(GetPlaybackState) => "PLAYBACK_STATE"
    case Data(GetPlaylists) => "PLAYLISTS_DATA"
    case Data(GetAmbience) => "AMBIENCE_DATA"
    case Control(JoinVc) => "JOINEDVC"
    case Control(LeaveVc) => "LEFTVC"
    case Control(_) => "BOT_STATUS"
    case _ => Name(c)
  }

  /** With a dict of arguments, a completed call and (for JOINVC) a configured
      channel, every routed command is answered ok under its reply name; exactly
      the music and ambience commands carry the playback state. */
  lemma ReplyNames(c: Cmd, command: Value, args: Value, env: Env)
    requires !c.Unknown? && args.VDict?
    requires c == Control(JoinVc) ==> Truthy(env.voiceChannelId)
    ensures var r := Route(c, command, args, env, Completed).reply;
      && !r.Failed? && r.name == ReplyName(c)
      && (r.StateReply? <==> c.Music?)
      && (r.StateReply? ==> r.state == env.state)
  {
    match c
    case Data(d) => assert Route(c, command, args, env, Completed).reply == DataReply(d, command, args, env, Completed);
    case Music(m) => assert Route(c, command, args, env, Completed).reply == MusicReply(m, command, args, env, Completed);
    case Control(k) => assert Route(c, command, args, env, Completed).reply == ControlReply(k, command, args, env, Completed);
  }
}
