/**
 * The toggle state machine: the daemon's visibility state, the terminal it
 * tracks, and how toggles, compositor events, process exits and
 * configuration changes move it.
 *
 * QuakeTerminal's methods are proved against step functions over a value
 * snapshot (AppModel); the properties are lemmas about those functions.
 * kill and waitpid are not performed, they are recorded in an OsCall log.
 */
module App {
  import opened Wrappers
  import Process
  import Wayland

  type i32 = x: int | -0x8000_0000 <= x < 0x8000_0000

  /** The command-line / D-Bus action. */
  datatype QuakeAction = Toggle

  function ActionToString(a: QuakeAction): (s: string)
    ensures ParseAction(s) == Ok(a)
  {
    match a
    case Toggle => "Toggle"
  }

  function ParseAction(s: string): (r: Result<QuakeAction, string>)
    ensures r.Ok? <==> s == "Toggle"
    ensures r.Err? ==> r.error == "Unknown action: " + s
  {
    if s == "Toggle" then Ok(QuakeAction.Toggle) else Err("Unknown action: " + s)
  }

  /** Printing an action and parsing it back gives the action; parsing then printing gives the text. */
  lemma ActionRoundTrip(a: QuakeAction, s: string)
    ensures ParseAction(ActionToString(a)) == Ok(a)
    ensures ParseAction(s).Ok? ==> ActionToString(ParseAction(s).value) == s
  {
  }

  datatype ToggleState = Idle | WaitingForWindow | Visible | Hidden

  /** The configuration fields the core reads. */
  datatype QuakeConfig = QuakeConfig(terminalCommand: string, terminalArgs: seq<string>)

  /** cosmic-term is tracked by the quake app-id. */
  lemma CosmicTermTracksQuakeAppId()
    ensures Process.GetAppId("cosmic-term") == Process.QuakeAppId
  {
    Process.BasenameWithoutSlash("cosmic-term");
  }

  /** The configuration used when none is stored: cosmic-term without extra arguments. */
  function DefaultConfig(): (c: QuakeConfig)
    ensures c.terminalArgs == []
    ensures Process.GetAppId(c.terminalCommand) == Process.QuakeAppId
  {
    CosmicTermTracksQuakeAppId();
    QuakeConfig("cosmic-term", [])
  }

  datatype Message =
    | Toggle
    | ToplevelEvent(event: Wayland.ToplevelEvent)
    | TerminalExited
    | ConfigChanged(config: QuakeConfig)

  /** The D-Bus activation requests the application receives. */
  datatype ActivationDetails = Activate | ActivateAction(action: string) | Open(urls: seq<string>)

  function DbusActivation(d: ActivationDetails): (m: Option<Message>)
    ensures m.Some? ==> m.value == Message.Toggle
    ensures m.Some? <==> d.Activate? || (d.ActivateAction? && ParseAction(d.action) == Ok(QuakeAction.Toggle))
  {
    match d
    case Activate => Some(Message.Toggle)
    case ActivateAction(action) =>
      (match ParseAction(action)
       case Ok(Toggle) => Some(Message.Toggle)
       case Err(_) => None)
    case Open(_) => None
  }

  lemma DbusActivationCases(d: ActivationDetails)
    ensures d == Activate ==> DbusActivation(d) == Some(Message.Toggle)
    ensures d == ActivateAction("Toggle") ==> DbusActivation(d) == Some(Message.Toggle)
    ensures d.ActivateAction? && d.action != "Toggle" ==> DbusActivation(d) == None
    ensures d.Open? ==> DbusActivation(d) == None
  {
  }

  /** The pid as the nix calls receive it: the source converts the u32 with `as i32`. */
  function RawPid(pid: Process.u32): (raw: i32)
    ensures raw % 0x1_0000_0000 == pid
    ensures raw < 0 <==> pid >= 0x8000_0000
  {
    if pid < 0x8000_0000 then pid else pid - 0x1_0000_0000
  }

  /** The operating-system calls the state machine makes, in order. */
  datatype OsCall =
    | Spawn(program: string, argv: seq<string>)
    | KillSigterm(pid: i32)
    | WaitPidNoHang(pid: i32)

  /** A snapshot of QuakeTerminal's state. */
  datatype AppModel = AppModel(
    config: QuakeConfig,
    state: ToggleState,
    terminalPid: Option<Process.u32>,
    terminalAppId: string,
    controller: Option<Wayland.WaylandController>)

  /** One step: the new snapshot, the OS calls made and the commands sent to the bridge. */
  datatype Transition = Transition(next: AppModel, os: seq<OsCall>, sent: seq<Wayland.WaylandCommand>)

  /**
   * A terminal is tracked exactly when the state is not Idle, and the
   * tracked app-id is always the one of the configured terminal.
   */
  predicate Consistent(m: AppModel)
  {
    && (m.state == Idle <==> m.terminalPid.None?)
    && m.terminalAppId == Process.GetAppId(m.config.terminalCommand)
  }

  function AfterToggle(m: AppModel, spawn: Process.SpawnOutcome): (t: Transition)
    ensures t.sent != [] ==> m.controller.Some?
    ensures t.next.config == m.config && t.next.controller == m.controller
  {
    match m.state
    case Idle =>
      var command := m.config.terminalCommand;
      var call := Spawn(command, Process.SpawnArgv(command, m.config.terminalArgs));
      (match spawn
       case Spawned(pid) =>
         Transition(m.(terminalPid := Some(pid), terminalAppId := Process.GetAppId(command), state := WaitingForWindow), [call], [])
       case SpawnFailed(_) =>
         Transition(m, [call], []))
    case WaitingForWindow =>
      Transition(m, [], [])
    case Visible =>
      Transition(m.(state := Hidden), [], if m.controller.Some? then [Wayland.WaylandCommand.Minimize] else [])
    case Hidden =>
      Transition(m.(state := Visible), [], if m.controller.Some? then [Wayland.WaylandCommand.Activate] else [])
  }

  /** SIGTERM then a non-blocking reap of the tracked pid, if any. */
  function TerminateAndReap(pid: Option<Process.u32>): (calls: seq<OsCall>)
    ensures pid.None? ==> calls == []
    ensures pid.Some? ==> |calls| == 2 && calls[0].KillSigterm? && calls[1].WaitPidNoHang? &&
                          calls[0].pid == calls[1].pid == RawPid(pid.value)
  {
    match pid
    case Some(p) => [KillSigterm(RawPid(p)), WaitPidNoHang(RawPid(p))]
    case None => []
  }

  /** A non-blocking reap of the tracked pid, if any; nothing is killed. */
  function Reap(pid: Option<Process.u32>): (calls: seq<OsCall>)
    ensures pid.None? ==> calls == []
    ensures pid.Some? ==> |calls| == 1 && calls[0].WaitPidNoHang? && calls[0].pid == RawPid(pid.value)
  {
    match pid
    case Some(p) => [WaitPidNoHang(RawPid(p))]
    case None => []
  }

  function AfterToplevelEvent(m: AppModel, event: Wayland.ToplevelEvent): (t: Transition)
    ensures t.sent == []
    ensures t.next.config == m.config && t.next.terminalAppId == m.terminalAppId
  {
    match event
    case Ready(controller) =>
      Transition(m.(controller := Some(controller)), [], [])
    case Found =>
      Transition(if m.state == WaitingForWindow then m.(state := Visible) else m, [], [])
    case Minimized =>
      Transition(if m.terminalPid.Some? then m.(state := Hidden) else m, [], [])
    case Activated =>
      Transition(if m.terminalPid.Some? then m.(state := Visible) else m, [], [])
    case Closed =>
      Transition(m.(state := Idle, terminalPid := None), TerminateAndReap(m.terminalPid), [])
  }

  /** Ready hands over the controller; nothing else changes and nothing is done. */
  lemma ReadyStoresController(m: AppModel, c: Wayland.WaylandController)
    ensures AfterToplevelEvent(m, Wayland.Ready(c)) == Transition(m.(controller := Some(c)), [], [])
  {
  }

  function AfterUpdate(m: AppModel, msg: Message, spawn: Process.SpawnOutcome): (t: Transition)
    ensures t.sent != [] ==> msg == Message.Toggle && m.controller.Some?
  {
    match msg
    case Toggle => AfterToggle(m, spawn)
    case ToplevelEvent(event) => AfterToplevelEvent(m, event)
    case TerminalExited =>
      Transition(m.(terminalPid := None, state := Idle), Reap(m.terminalPid), [])
    case ConfigChanged(config) =>
      Transition(m.(terminalAppId := Process.GetAppId(config.terminalCommand), config := config), [], [])
  }

  /** One message delivered to the application, with what the OS would do if it spawned. */
  datatype Input = Input(msg: Message, spawn: Process.SpawnOutcome)

  /** Messages handled one after another. */
  function Run(m: AppModel, inputs: seq<Input>): (t: Transition)
    decreases |inputs|
  {
    if inputs == [] then Transition(m, [], [])
    else
      var first := AfterUpdate(m, inputs[0].msg, inputs[0].spawn);
      var rest := Run(first.next, inputs[1..]);
      Transition(rest.next, first.os + rest.os, first.sent + rest.sent)
  }

  /** The pending commands of a controller's channel. */
  ghost function Pending(c: Option<Wayland.WaylandController>): seq<Wayland.WaylandCommand>
    reads if c.Some? then {c.value.cmdTx} else {}
  {
    if c.Some? then c.value.cmdTx.pending else []
  }

  /** The model `init` builds from the loaded configuration: Idle, nothing tracked, no controller. */
  function InitialModel(config: QuakeConfig): (m: AppModel)
    ensures Consistent(m)
    ensures m.config == config && m.state == Idle && m.controller.None?
  {
    AppModel(config, Idle, None, Process.GetAppId(config.terminalCommand), None)
  }

  /** Started without a stored configuration, the application tracks the quake app-id. */
  lemma DefaultInitTracksQuakeAppId()
    ensures InitialModel(DefaultConfig()).terminalAppId == Process.QuakeAppId
    ensures InitialModel(DefaultConfig()).config.terminalArgs == []
  {
  }

  class QuakeTerminal {
    var config: QuakeConfig
    var state: ToggleState
    var terminalPid: Option<Process.u32>
    var terminalAppId: string
    var waylandController: Option<Wayland.WaylandController>
    /** Every operating-system call made so far, oldest first. */
    var osLog: seq<OsCall>

    function Model(): AppModel
      reads this
    {
      AppModel(config, state, terminalPid, terminalAppId, waylandController)
    }

    ghost predicate Valid()
      reads this
    {
      Consistent(Model())
    }

    /** The channel the current controller sends on, if there is one. */
    ghost function Channels(): set<object>
      reads this
    {
      if waylandController.Some? then {waylandController.value.cmdTx} else {}
    }

    /** `config` is the stored configuration, or the default when none could be read. */
    constructor (config: QuakeConfig)
      ensures Model() == InitialModel(config)
      ensures osLog == []
      ensures Valid()
    {
      this.config := config;
      state := Idle;
      terminalPid := None;
      terminalAppId := Process.GetAppId(config.terminalCommand);
      waylandController := None;
      osLog := [];
    }

    method HandleToggle(spawn: Process.SpawnOutcome)
      requires Valid()
      modifies this, Channels()
      ensures Valid()
      ensures Model() == AfterToggle(old(Model()), spawn).next
      ensures osLog == old(osLog) + AfterToggle(old(Model()), spawn).os
      ensures Pending(old(waylandController)) == old(Pending(waylandController)) + AfterToggle(old(Model()), spawn).sent
    {
      match state {
        case Idle =>
          var result, argv := Process.SpawnTerminal(config.terminalCommand, config.terminalArgs, spawn);
          osLog := osLog + [Spawn(config.terminalCommand, argv)];
          if result.Some? {
            terminalPid := Some(result.value.pid);
            terminalAppId := result.value.appId;
            state := WaitingForWindow;
          }
        case WaitingForWindow =>
        case Visible =>
          if waylandController.Some? {
            waylandController.value.Minimize();
          }
          state := Hidden;
        case Hidden =>
          if waylandController.Some? {
            waylandController.value.Activate();
          }
          state := Visible;
      }
    }

    method HandleToplevelEvent(event: Wayland.ToplevelEvent)
      requires Valid()
      modifies this
      ensures Valid()
      ensures Model() == AfterToplevelEvent(old(Model()), event).next
      ensures osLog == old(osLog) + AfterToplevelEvent(old(Model()), event).os
    {
      match event {
        case Ready(controller) =>
          waylandController := Some(controller);
        case Found =>
          if state == WaitingForWindow {
            state := Visible;
          }
        case Minimized =>
          if terminalPid.Some? {
            state := Hidden;
          }
        case Activated =>
          if terminalPid.Some? {
            state := Visible;
          }
        case Closed =>
          state := Idle;
          if terminalPid.Some? {
            var raw := RawPid(terminalPid.value);
            terminalPid := None;
            osLog := osLog + [KillSigterm(raw)];
            osLog := osLog + [WaitPidNoHang(raw)];
          }
      }
    }

    /** `spawn` is what the operating system does if this message spawns the terminal. */
    method Update(msg: Message, spawn: Process.SpawnOutcome)
      requires Valid()
      modifies this, Channels()
      ensures Valid()
      ensures Model() == AfterUpdate(old(Model()), msg, spawn).next
      ensures osLog == old(osLog) + AfterUpdate(old(Model()), msg, spawn).os
      ensures Pending(old(waylandController)) == old(Pending(waylandController)) + AfterUpdate(old(Model()), msg, spawn).sent
    {
      match msg {
        case Toggle =>
          HandleToggle(spawn);
        case ToplevelEvent(event) =>
          HandleToplevelEvent(event);
        case TerminalExited =>
          if terminalPid.Some? {
            var raw := RawPid(terminalPid.value);
            terminalPid := None;
            osLog := osLog + [WaitPidNoHang(raw)];
          }
          state := Idle;
        case ConfigChanged(config) =>
          terminalAppId := Process.GetAppId(config.terminalCommand);
          this.config := config;
      }
    }
  }

  /** Every message keeps the snapshot consistent. */
  lemma UpdateKeepsConsistent(m: AppModel, msg: Message, spawn: Process.SpawnOutcome)
    requires Consistent(m)
    ensures Consistent(AfterUpdate(m, msg, spawn).next)
  {
    match msg
    case Toggle =>
      if m.state == Idle && spawn.Spawned? {
        assert AfterUpdate(m, msg, spawn).next.terminalPid == Some(spawn.pid);
      }
    case ToplevelEvent(event) =>
    case TerminalExited =>
    case ConfigChanged(config) =>
  }

  lemma {:induction false} RunKeepsConsistent(m: AppModel, inputs: seq<Input>)
    requires Consistent(m)
    ensures Consistent(Run(m, inputs).next)
    decreases |inputs|
  {
    if inputs != [] {
      UpdateKeepsConsistent(m, inputs[0].msg, inputs[0].spawn);
      RunKeepsConsistent(AfterUpdate(m, inputs[0].msg, inputs[0].spawn).next, inputs[1..]);
    }
  }

  /** Visible and Hidden never outlive the tracked terminal. */
  lemma ShownOrHiddenTracksTerminal(m: AppModel, inputs: seq<Input>)
    requires Consistent(m)
    ensures Run(m, inputs).next.state in {Visible, Hidden, WaitingForWindow} ==> Run(m, inputs).next.terminalPid.Some?
  {
    RunKeepsConsistent(m, inputs);
  }

  lemma ToggleFromIdle(m: AppModel, spawn: Process.SpawnOutcome)
    requires m.state == Idle
    ensures var t := AfterToggle(m, spawn);
      && t.os == [Spawn(m.config.terminalCommand, Process.SpawnArgv(m.config.terminalCommand, m.config.terminalArgs))]
      && t.sent == []
      && (spawn.Spawned? ==>
            t.next == m.(state := WaitingForWindow, terminalPid := Some(spawn.pid),
                         terminalAppId := Process.GetAppId(m.config.terminalCommand)))
      && (spawn.SpawnFailed? ==> t.next == m)
  {
  }

  /** Toggles whose spawns all fail leave an idle application idle and send no command. */
  lemma {:induction false} FailedSpawnsStayIdle(m: AppModel, inputs: seq<Input>)
    requires m.state == Idle
    requires forall i :: 0 <= i < |inputs| ==> inputs[i].msg == Message.Toggle && inputs[i].spawn.SpawnFailed?
    ensures Run(m, inputs).next == m
    ensures Run(m, inputs).sent == []
    ensures |Run(m, inputs).os| == |inputs|
    ensures forall i :: 0 <= i < |Run(m, inputs).os| ==>
              Run(m, inputs).os[i] ==
                Spawn(m.config.terminalCommand, Process.SpawnArgv(m.config.terminalCommand, m.config.terminalArgs))
    decreases |inputs|
  {
    if inputs != [] {
      FailedSpawnsStayIdle(m, inputs[1..]);
    }
  }

  lemma ToggleWhileWaiting(m: AppModel, spawn: Process.SpawnOutcome)
    requires m.state == WaitingForWindow
    ensures AfterToggle(m, spawn) == Transition(m, [], [])
  {
  }

  /** Hiding sends Minimize, showing sends Activate (when a controller is known); two toggles cancel out. */
  lemma ToggleVisibleHidden(m: AppModel, s1: Process.SpawnOutcome, s2: Process.SpawnOutcome)
    requires m.state == Visible
    ensures var t1 := AfterToggle(m, s1);
      var t2 := AfterToggle(t1.next, s2);
      && t1.next == m.(state := Hidden)
      && t1.sent == (if m.controller.Some? then [Wayland.WaylandCommand.Minimize] else [])
      && t2.next == m
      && t2.sent == (if m.controller.Some? then [Wayland.WaylandCommand.Activate] else [])
      && t1.os == [] && t2.os == []
  {
  }

  lemma FoundShowsWaitingWindow(m: AppModel)
    ensures m.state == WaitingForWindow ==> AfterToplevelEvent(m, Wayland.Found).next == m.(state := Visible)
    ensures m.state != WaitingForWindow ==> AfterToplevelEvent(m, Wayland.Found).next == m
  {
  }

  /** Minimized and Activated act only while a terminal is tracked, and repeating either changes nothing more. */
  lemma MinimizedActivatedIdempotent(m: AppModel)
    ensures var once := AfterToplevelEvent(m, Wayland.ToplevelEvent.Minimized).next;
      && once == (if m.terminalPid.Some? then m.(state := Hidden) else m)
      && AfterToplevelEvent(once, Wayland.ToplevelEvent.Minimized).next == once
    ensures var once := AfterToplevelEvent(m, Wayland.ToplevelEvent.Activated).next;
      && once == (if m.terminalPid.Some? then m.(state := Visible) else m)
      && AfterToplevelEvent(once, Wayland.ToplevelEvent.Activated).next == once
  {
  }

  /** A closed window returns the application to Idle from any state, terminating and reaping the tracked pid. */
  lemma ClosedResets(m: AppModel)
    ensures var t := AfterToplevelEvent(m, Wayland.Closed);
      && t.next == m.(state := Idle, terminalPid := None)
      && (m.terminalPid.Some? ==>
            t.os == [KillSigterm(RawPid(m.terminalPid.value)), WaitPidNoHang(RawPid(m.terminalPid.value))])
      && (m.terminalPid.None? ==> t.os == [])
      && t.sent == []
  {
  }

  /** A process exit clears the pid, reaps it without blocking and returns to Idle. */
  lemma TerminalExitedResets(m: AppModel, spawn: Process.SpawnOutcome)
    ensures var t := AfterUpdate(m, Message.TerminalExited, spawn);
      && t.next == m.(state := Idle, terminalPid := None)
      && t.os == (if m.terminalPid.Some? then [WaitPidNoHang(RawPid(m.terminalPid.value))] else [])
      && t.sent == []
  {
  }

  lemma ConfigChangedRetargets(m: AppModel, config: QuakeConfig, spawn: Process.SpawnOutcome)
    ensures var t := AfterUpdate(m, ConfigChanged(config), spawn);
      && t.next == m.(config := config, terminalAppId := Process.GetAppId(config.terminalCommand))
      && t.os == [] && t.sent == []
  {
  }

  /** A successful spawn followed by the window's discovery shows the terminal. */
  lemma SpawnThenFound(m: AppModel, pid: Process.u32)
    requires m.state == Idle
    ensures var t1 := AfterToggle(m, Process.Spawned(pid));
      var t2 := AfterToplevelEvent(t1.next, Wayland.Found);
      t1.next.state == WaitingForWindow && t1.next.terminalPid == Some(pid) &&
      t2.next.state == Visible && t2.next.terminalPid == Some(pid)
  {
  }

  /**
   * A process exit while the window is shown returns to Idle at once; the
   * Closed that follows then has no pid left to terminate.
   */
  lemma ExitThenClosed(m: AppModel, spawn: Process.SpawnOutcome)
    requires m.state == Visible && m.terminalPid.Some?
    ensures var inputs := [Input(Message.TerminalExited, spawn), Input(ToplevelEvent(Wayland.Closed), spawn)];
      var t := Run(m, inputs);
      && t.next == m.(state := Idle, terminalPid := None)
      && t.os == [WaitPidNoHang(RawPid(m.terminalPid.value))]
  {
    var inputs := [Input(Message.TerminalExited, spawn), Input(ToplevelEvent(Wayland.Closed), spawn)];
    var exited := AfterUpdate(m, Message.TerminalExited, spawn);
    var closed := AfterUpdate(exited.next, ToplevelEvent(Wayland.Closed), spawn);
    assert inputs[1..][1..] == [];
    assert Run(exited.next, inputs[1..]) == Transition(closed.next, closed.os, closed.sent);
  }
}
