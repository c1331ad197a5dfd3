/** The bot side of the dashboard's websocket (bot/ipc_bridge.py): connection
    flags, the hello frame, the single heartbeat task, the readiness gate and the
    classification of incoming frames, and `safe_send`. The socket is modelled by
    whether it is open and by the log of frames sent on it; timestamps are
    dropped from every frame. */
module IpcBridge {
  import opened Values

  /** The commands accepted before the bot is ready, as the source spells them. */
  const AllowedBeforeReady: seq<string> := [
    "SETUP_SAVE", "GET_PLAYBACK_STATE", "GET_PLAYLISTS", "SAVE_PLAYLISTS",
    "GET_AMBIENCE", "SAVE_AMBIENCE", "GET_BOT_STATUS", "START_BOT"]

  /** `cmd in (...)`: only a string can equal one of the names. */
  predicate IsAllowed(cmd: Value)
  {
    cmd.VStr? && cmd.s in AllowedBeforeReady
  }

  /** An incoming websocket message: a text frame whose payload parsed as JSON (or
      did not), a close, an error, or any other kind. */
  datatype Frame = Text(json: Option<Value>) | Closed | Error | OtherKind

  /** What a parsed text frame calls for. */
  datatype Action =
    | Rejected(command: Value)
    | ServerAck
    | Broadcast
    | HeartbeatCheck
    | Command
    | Unrecognized
    | Crashed(error: PyError)

  /** The decision in `_handle_message_frame` for parsed JSON `data`: a non-dict
      has no `.get`; when the bot is not ready anything whose command is not on the
      list is rejected; then the built-in types; then a truthy command. */
  function Classify(ready: bool, data: Value): (a: Action)
    ensures a.Crashed? <==> !data.VDict?
    ensures a.Rejected? <==> data.VDict? && !ready && !IsAllowed(GetOr(data.entries, "command", VNone))
    ensures a.Command? ==> data.VDict? && Truthy(GetOr(data.entries, "command", VNone))
    ensures a.Command? || a.ServerAck? || a.Broadcast? || a.HeartbeatCheck? ==>
      ready || IsAllowed(GetOr(data.entries, "command", VNone))
  {
    if !data.VDict? then Crashed(NoAttribute(data, "get"))
    else
      var msgType := GetOr(data.entries, "type", VNone);
      var cmd := GetOr(data.entries, "command", VNone);
      if !ready && !IsAllowed(cmd) then Rejected(cmd)
      else if msgType == VStr("server_ack") then ServerAck
      else if msgType == VStr("broadcast") then Broadcast
      else if msgType == VStr("heartbeat_check") then HeartbeatCheck
      else if Truthy(cmd) then Command
      else Unrecognized
  }

  /** A frame whose first entry marks it a state update. */
  predicate IsStateUpdate(v: Value)
  {
    v.VDict? && |v.entries| > 0 && v.entries[0] == ("type", VStr("state_update"))
  }

  function NotReadyReply(cmd: Value): Value
  {
    VDict([("ok", VBool(false)), ("command", cmd), ("error", VStr("BOT_NOT_READY"))])
  }

  const HeartbeatAck: Value := VDict([("type", VStr("heartbeat_ack"))])

  function Hello(auth: Value): Value
  {
    VDict([("type", VStr("bot_hello")), ("auth", auth)])
  }

  function StateUpdate(payload: Value): Value
  {
    VDict([("type", VStr("state_update")), ("payload", payload)])
  }

  /** What heartbeat rounds do from a bridge that is `connected`, with the socket
      held or not: the frames sent, and whether the bridge is still connected.
      Each round fetches the state payload and sends it as a state update; a
      fetch that raises, or a send that fails on a held socket, disconnects the
      bridge, and a disconnected bridge sends nothing in the rounds after. */
  function HeartbeatRun(rounds: seq<(Result<Value>, bool)>, connected: bool, wsOpen: bool): (seq<Value>, bool)
  {
    if rounds == [] || !connected then ([], connected)
    else if rounds[0].0.Err? || (wsOpen && rounds[0].1) then ([], false)
    else
      var rest := HeartbeatRun(rounds[1..], connected, wsOpen);
      ((if wsOpen then [StateUpdate(rounds[0].0.value)] else []) + rest.0, rest.1)
  }

  /** One heartbeat round followed by the rest is the whole run from that round on. */
  lemma HeartbeatStep(rounds: seq<(Result<Value>, bool)>, i: nat, connected: bool, wsOpen: bool)
    requires i < |rounds|
    ensures var round := rounds[i];
      var sends := connected && round.0.Ok? && wsOpen && !round.1;
      var stays := connected && round.0.Ok? && !(wsOpen && round.1);
      var rest := HeartbeatRun(rounds[i + 1..], stays, wsOpen);
      HeartbeatRun(rounds[i..], connected, wsOpen)
        == ((if sends then [StateUpdate(round.0.value)] else []) + rest.0, rest.1)
  {
    assert rounds[i..][0] == rounds[i] && rounds[i..][1..] == rounds[i + 1..];
    var round := rounds[i];
    var stays := connected && round.0.Ok? && !(wsOpen && round.1);
    if !stays {
      var rest := HeartbeatRun(rounds[i + 1..], stays, wsOpen);
      var frames: seq<Value> := [];
      assert rest == ([], false) && frames + rest.0 == [];
    }
  }

  /** A round that fetches its payload and sends it without failure. */
  predicate GoodRound(round: (Result<Value>, bool))
  {
    round.0.Ok? && !round.1
  }

  /** From a connected bridge with a socket, heartbeat rounds send exactly one state
      update per round, carrying that round's payload and in round order, up to the
      first round whose fetch raises or whose send fails; that round disconnects the
      bridge and nothing is sent after it. If no round fails, the bridge stays
      connected. */
  lemma {:induction false} HeartbeatSendsPerRound(rounds: seq<(Result<Value>, bool)>, n: nat)
    requires n <= |rounds|
    requires forall k :: 0 <= k < n ==> GoodRound(rounds[k])
    requires n < |rounds| ==> !GoodRound(rounds[n])
    ensures var run := HeartbeatRun(rounds, true, true);
      && |run.0| == n
      && (forall k :: 0 <= k < n ==> GoodRound(rounds[k]) && run.0[k] == StateUpdate(rounds[k].0.value))
      && (run.1 <==> n == |rounds|)
  {
    if rounds != [] && n > 0 {
      HeartbeatSendsPerRound(rounds[1..], n - 1);
      var rest := HeartbeatRun(rounds[1..], true, true);
      assert HeartbeatRun(rounds, true, true).0 == [StateUpdate(rounds[0].0.value)] + rest.0;
    }
  }

  /** Heartbeat rounds only ever send state updates, at most one per round, and a
      disconnected bridge neither sends nor reconnects. */
  lemma {:induction false} HeartbeatSendsStateOnly(rounds: seq<(Result<Value>, bool)>, connected: bool, wsOpen: bool)
    ensures var run := HeartbeatRun(rounds, connected, wsOpen);
      && |run.0| <= |rounds|
      && (forall k :: 0 <= k < |run.0| ==> IsStateUpdate(run.0[k]))
      && (!connected ==> run == ([], false))
      && (!wsOpen ==> run.0 == [])
  {
    if rounds != [] && connected && rounds[0].0.Ok? && !(wsOpen && rounds[0].1) {
      HeartbeatSendsStateOnly(rounds[1..], connected, wsOpen);
    }
  }

  /** The one frame the handler hands to `safe_send` for an incoming frame, if any;
      `reply` is what the dispatcher answers a command with. */
  function Response(frame: Frame, ready: bool, reply: Value): (r: Option<Value>)
    ensures r.Some? ==> frame.Text? && frame.json.Some? && frame.json.value.VDict?
    ensures r.Some? ==>
      r.value == reply || r.value == HeartbeatAck
      || r.value == NotReadyReply(GetOr(frame.json.value.entries, "command", VNone))
  {
    if !frame.Text? || frame.json.None? then None
    else
      match Classify(ready, frame.json.value)
      case Rejected(cmd) => Some(NotReadyReply(cmd))
      case HeartbeatCheck => Some(HeartbeatAck)
      case Command => Some(reply)
      case _ => None
  }

  class IpcBridge {
    const authKey: Value
    var connected: bool
    var closing: bool
    var sessionOpen: bool
    /** Whether `self.ws` holds a socket. */
    var wsOpen: bool
    /** Every frame sent on the socket, oldest first. */
    var sent: seq<Value>
    /** The heartbeat tasks ever started: true while one still runs. */
    var heartbeats: seq<bool>
    /** `self.heartbeat_task`, as a position in `heartbeats`. */
    var heartbeatTask: Option<nat>

    /** At most one heartbeat runs, and it is the one the bridge holds. */
    ghost predicate Valid()
      reads this
    {
      && (heartbeatTask.Some? ==> heartbeatTask.value < |heartbeats|)
      && (forall i :: 0 <= i < |heartbeats| && heartbeats[i] ==> heartbeatTask == Some(i))
    }

    /** `AUTH_KEY` comes from the environment and may be missing (None). */
    constructor (auth: Value)
      ensures Valid()
      ensures authKey == auth && !connected && !closing && !sessionOpen && !wsOpen
      ensures sent == [] && heartbeats == [] && heartbeatTask.None?
    {
      authKey := auth;
      connected := false;
      closing := false;
      sessionOpen := false;
      wsOpen := false;
      sent := [];
      heartbeats := [];
      heartbeatTask := None;
    }

    /** The heartbeat the bridge holds has finished (the loop returned or the task
        was cancelled). */
    method HeartbeatFinished()
      requires Valid()
      modifies this`heartbeats
      ensures Valid()
      ensures heartbeatTask.Some? ==> heartbeats == old(heartbeats)[heartbeatTask.value := false]
      ensures heartbeatTask.None? ==> heartbeats == old(heartbeats)
    {
      if heartbeatTask.Some? {
        heartbeats := heartbeats[heartbeatTask.value := false];
      }
    }

    /** `_connect`: open the session if needed and the socket, mark connected, send
        the hello frame straight on the socket, and start a heartbeat unless one
        is still running. A failed connect or hello raises out at that point. */
    method Connect(connectFails: bool, helloFails: bool) returns (o: Outcome)
      requires Valid()
      modifies this`sessionOpen, this`wsOpen, this`connected, this`sent, this`heartbeats, this`heartbeatTask
      ensures Valid()
      ensures sessionOpen
      ensures connectFails ==> o.Raised? && wsOpen == old(wsOpen) && connected == old(connected)
      ensures connectFails ==> sent == old(sent) && heartbeats == old(heartbeats) && heartbeatTask == old(heartbeatTask)
      ensures !connectFails ==> wsOpen && connected
      ensures !connectFails && helloFails ==> o.Raised? && sent == old(sent)
      ensures !connectFails && helloFails ==> heartbeats == old(heartbeats) && heartbeatTask == old(heartbeatTask)
      ensures !connectFails && !helloFails ==> o == Completed && sent == old(sent) + [Hello(authKey)]
      ensures !connectFails && !helloFails ==> heartbeatTask.Some? && heartbeats[heartbeatTask.value]
      ensures !connectFails && !helloFails && old(heartbeatTask).Some? && old(heartbeats)[old(heartbeatTask).value] ==>
        heartbeats == old(heartbeats) && heartbeatTask == old(heartbeatTask)
      ensures !connectFails && !helloFails && !(old(heartbeatTask).Some? && old(heartbeats)[old(heartbeatTask).value]) ==>
        heartbeats == old(heartbeats) + [true] && heartbeatTask == Some(|old(heartbeats)|)
    {
      if !sessionOpen {
        sessionOpen := true;
      }
      if connectFails {
        return Raised(PyError("ClientError", "websocket connect failed"));
      }
      wsOpen := true;
      connected := true;
      if helloFails {
        return Raised(PyError("ClientError", "send failed"));
      }
      sent := sent + [Hello(authKey)];
      if heartbeatTask.None? || !heartbeats[heartbeatTask.value] {
        heartbeats := heartbeats + [true];
        heartbeatTask := Some(|heartbeats| - 1);
      }
      return Completed;
    }

    /** `_cleanup_ws`: disconnected, socket closed (errors ignored) and dropped. */
    method CleanupWs()
      modifies this`connected, this`wsOpen
      ensures !connected && !wsOpen
    {
      connected := false;
      wsOpen := false;
    }

    /** `safe_send`: nothing is sent unless connected with a socket; a failing send
        marks the bridge disconnected. */
    method SafeSend(payload: Value, sendFails: bool) returns (ok: bool)
      modifies this`sent, this`connected
      ensures ok <==> old(connected) && wsOpen && !sendFails
      ensures ok ==> sent == old(sent) + [payload] && connected
      ensures !ok ==> sent == old(sent)
      ensures connected == (old(connected) && !(wsOpen && sendFails))
    {
      if !connected || !wsOpen {
        return false;
      }
      if sendFails {
        connected := false;
        return false;
      }
      sent := sent + [payload];
      return true;
    }

    /** `_handle_message_frame`: the response `Response` names is handed to
        `safe_send`; close and error frames mark the bridge disconnected; parsed
        JSON that is not an object raises. */
    method HandleMessageFrame(frame: Frame, ready: bool, reply: Value, sendFails: bool) returns (o: Outcome)
      modifies this`sent, this`connected
      ensures var r := Response(frame, ready, reply);
        && (r.Some? && old(connected) && wsOpen && !sendFails ==> sent == old(sent) + [r.value])
        && (r.None? || !old(connected) || !wsOpen || sendFails ==> sent == old(sent))
        && (connected == (old(connected) && !frame.Closed? && !frame.Error? && !(r.Some? && wsOpen && sendFails)))
      ensures o.Raised? <==> frame.Text? && frame.json.Some? && !frame.json.value.VDict?
    {
      o := Completed;
      match frame {
        case Text(json) =>
          if json.Some? {
            match Classify(ready, json.value) {
              case Crashed(e) =>
                o := Raised(e);
              case Rejected(cmd) =>
                var _ := SafeSend(NotReadyReply(cmd), sendFails);
              case HeartbeatCheck =>
                var _ := SafeSend(HeartbeatAck, sendFails);
              case Command =>
                var _ := SafeSend(reply, sendFails);
              case _ =>
            }
          }
        case Closed =>
          connected := false;
        case Error =>
          connected := false;
        case OtherKind =>
      }
    }

    /** `send_state`: the state payload goes out as a state_update frame through
        `safe_send`; fetching the payload may raise before anything is sent. */
    method SendState(payload: Result<Value>, sendFails: bool) returns (o: Outcome)
      modifies this`sent, this`connected
      ensures payload.Err? ==> o == Raised(payload.error) && sent == old(sent) && connected == old(connected)
      ensures payload.Ok? ==> o == Completed
      ensures payload.Ok? && old(connected) && wsOpen && !sendFails ==> sent == old(sent) + [StateUpdate(payload.value)]
      ensures payload.Ok? && !(old(connected) && wsOpen && !sendFails) ==> sent == old(sent)
      ensures connected == (old(connected) && !(payload.Ok? && wsOpen && sendFails))
    {
      if payload.Err? {
        return Raised(payload.error);
      }
      var _ := SafeSend(StateUpdate(payload.value), sendFails);
      return Completed;
    }

    /** `_heartbeat_loop`, one round per entry of `rounds` (the state payload and
        whether the send fails): while not closing, a connected bridge pushes the
        state, and a failure to get it marks the bridge disconnected. Nothing in
        the loop reconnects, and it sends exactly the frames `HeartbeatRun` names. */
    method HeartbeatLoop(rounds: seq<(Result<Value>, bool)>)
      modifies this`sent, this`connected
      ensures closing ==> sent == old(sent) && connected == old(connected)
      ensures !old(connected) ==> sent == old(sent) && !connected
      ensures |sent| >= |old(sent)| && sent[..|old(sent)|] == old(sent)
      ensures forall k :: |old(sent)| <= k < |sent| ==> IsStateUpdate(sent[k])
      ensures !closing ==> (sent[|old(sent)|..], connected) == HeartbeatRun(rounds, old(connected), wsOpen)
    {
      if closing {
        return;
      }
      ghost var run := HeartbeatRun(rounds, connected, wsOpen);
      ghost var before := sent;
      var i := 0;
      while i < |rounds|
        invariant 0 <= i <= |rounds|
        invariant sent + HeartbeatRun(rounds[i..], connected, wsOpen).0 == before + run.0
        invariant HeartbeatRun(rounds[i..], connected, wsOpen).1 == run.1
      {
        ghost var sentBefore := sent;
        ghost var wasConnected := connected;
        HeartbeatRound(rounds[i]);
        HeartbeatStep(rounds, i, wasConnected, wsOpen);
        assert sent + HeartbeatRun(rounds[i + 1..], connected, wsOpen).0
          == sentBefore + HeartbeatRun(rounds[i..], wasConnected, wsOpen).0;
        i := i + 1;
      }
      assert rounds[i..] == [];
      assert sent == before + run.0;
      assert sent[|before|..] == run.0;
      HeartbeatSendsStateOnly(rounds, old(connected), wsOpen);
    }

    /** The body of one heartbeat round: a connected bridge pushes the state, and a
        failure to get it disconnects the bridge. */
    method HeartbeatRound(round: (Result<Value>, bool))
      modifies this`sent, this`connected
      ensures var sends := old(connected) && round.0.Ok? && wsOpen && !round.1;
        sent == old(sent) + (if sends then [StateUpdate(round.0.value)] else [])
      ensures connected == (old(connected) && round.0.Ok? && !(wsOpen && round.1))
    {
      if connected {
        var o := SendState(round.0, round.1);
        if o.Raised? {
          connected := false;
        }
      }
    }

    /** `close`: closing and disconnected, which ends both loops; the heartbeat is
        cancelled and the session closed; the socket is closed but still held. */
    method Close()
      requires Valid()
      modifies this`closing, this`connected, this`heartbeats, this`sessionOpen
      ensures Valid()
      ensures closing && !connected && !sessionOpen
      ensures forall i :: 0 <= i < |heartbeats| ==> !heartbeats[i]
      ensures |heartbeats| == |old(heartbeats)|
    {
      closing := true;
      connected := false;
      HeartbeatFinished();
      sessionOpen := false;
    }
  }

  /** Before the bot is ready, a command off the list gets exactly the not-ready
      reply echoing it, and this covers typed frames with no command at all; in
      particular the dashboard's "SAVE_PLAYLIST" is turned away, since the list
      spells it "SAVE_PLAYLISTS", while "SAVE_AMBIENCE" gets through. */
  lemma NotReadyGate(data: seq<(string, Value)>, reply: Value)
    ensures var cmd := GetOr(data, "command", VNone);
      !IsAllowed(cmd) ==> Response(Text(Some(VDict(data))), false, reply) == Some(NotReadyReply(cmd))
    ensures !IsAllowed(VNone) && !IsAllowed(VStr("SAVE_PLAYLIST")) && IsAllowed(VStr("SAVE_AMBIENCE"))
  {
    assert AllowedBeforeReady[5] == "SAVE_AMBIENCE";
  }

  /** Once ready, the built-in types come before commands: a heartbeat check gets
      one acknowledgement, acknowledgements and broadcasts get nothing, and a frame
      with a truthy command and no built-in type gets the dispatcher's reply. */
  lemma ReadyFrames(data: seq<(string, Value)>, reply: Value)
    ensures var t := GetOr(data, "type", VNone);
      var cmd := GetOr(data, "command", VNone);
      var r := Response(Text(Some(VDict(data))), true, reply);
      && (t == VStr("heartbeat_check") ==> r == Some(HeartbeatAck))
      && (t == VStr("server_ack") || t == VStr("broadcast") ==> r.None?)
      && (t !in [VStr("server_ack"), VStr("broadcast"), VStr("heartbeat_check")] ==>
            (Truthy(cmd) ==> r == Some(reply)) && (!Truthy(cmd) ==> r.None?))
  {
  }

  /** Frames that are not valid JSON, close and error frames, and other kinds never
      get a response. */
  lemma NoResponseFrames(ready: bool, reply: Value)
    ensures Response(Text(None), ready, reply).None?
    ensures Response(Closed, ready, reply).None?
    ensures Response(Error, ready, reply).None?
    ensures Response(OtherKind, ready, reply).None?
  {
  }

  /** A connect after a heartbeat has stopped starts a fresh one; a second connect
      while it runs does not start another; close leaves none running. */
  method HeartbeatScenario()
  {
    var b := new IpcBridge(VStr("key"));
    var o := b.Connect(false, false);
    assert b.heartbeats == [true] && b.sent == [Hello(VStr("key"))];
    b.CleanupWs();
    o := b.Connect(false, false);
    assert b.heartbeats == [true];
    b.HeartbeatFinished();
    o := b.Connect(false, false);
    assert b.heartbeats == [false, true] && b.heartbeatTask == Some(1);
    b.Close();
    assert !b.heartbeats[0] && !b.heartbeats[1] && b.closing;
  }
}
