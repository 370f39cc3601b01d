# Quake-style drop-down terminal: a Dafny model of its core

This project models the core of `cosmic-ext-quake-terminal`. This is a daemon for the COSMIC desktop that shows and hides one terminal window on demand. It has three parts, each in its own module:

- **Process** (`process.dfy`) decides which arguments each terminal needs so that its window carries a recognisable app-id. The choice is made on the command's basename. The module also states which app-id the daemon tracks and how the argument vector of the spawned terminal is built. The operating system's spawn is a parameter (`SpawnOutcome`): either the pid it assigned or a failure.
- **Wayland** (`wayland.dfy`) models the compositor bridge. `WaylandState` is a class with the bridge thread's fields. Its handlers are `NewSeat`, `NewToplevel`, `UpdateToplevel` and `ToplevelClosed`. The events sent to the application are the `events` sequence. The toolkit's per-toplevel information is the map `toplevelInfo`. The manager requests written to the connection are the `requests` sequence. `CommandChannel` is the command channel and `WaylandController` is the handle that sends on it. `DrainCommands` is the loop that empties the channel in send order.
- **App** (`app.dfy`) models the toggle state machine. `QuakeTerminal` is a class with the state, the tracked pid, the tracked app-id, the controller and a log of operating-system calls. The log records spawn, `kill(SIGTERM)` and `waitpid(WNOHANG)`. The module also models `QuakeAction` printing and parsing, and the D-Bus activation mapping.

Each class method is proved against a step function over a value snapshot: `Bridge` for the bridge and `AppModel` for the application. Properties that span several calls are lemmas about those step functions. `App.Consistent` is the application's invariant, and every method keeps it. It says two things. A pid is tracked exactly when the state is not `Idle`. The tracked app-id is always the one for the configured terminal command.

Four behaviours of the code are easy to misread; the model follows the code as written:

- `TerminalExited` clears the pid **and sets the state to `Idle`** (`src/app.rs:128-139`). A process exit is therefore not state-neutral. A `Visible` window whose launcher process exits puts the daemon back in `Idle` (`App.ExitThenClosed`).
- `new_toplevel` adopts any toplevel with the target app-id without checking whether one is already adopted. A later match therefore replaces the earlier one, whose updates are then ignored (`Wayland.LaterMatchReplacesAdopted`).
- `toplevel_closed` reports `Closed` only for the adopted toplevel. A `Closed` event is not sent for every closure.
- Only `new_toplevel` adopts. `update_toplevel` never adopts a toplevel, even when its app-id matches.

## Model

| member | source | states |
|---|---|---|
| Process.GetClassArgs | src/process.rs:43-69 | the tracked app-id is either the quake app-id or ghostty's; whenever it is the quake app-id, the injected arguments carry it (`--class` id or `--app-id=`id) |
| Process.Basename | src/process.rs:44 | the basename is never longer than the command; what it is (the text after the last '/') is stated by the four lemmas below |
| Process.BasenameHasNoSlash | src/process.rs:44 | the basename contains no '/' |
| Process.BasenameIsSuffix | src/process.rs:44 | the basename is a suffix of the command |
| Process.BasenameFollowsSlash | src/process.rs:44 | when the command holds a '/', the basename starts right after one, so it is the text after the last '/' |
| Process.BasenameWithoutSlash | src/process.rs:44 | a command without '/' is its own basename |
| Process.BasenameOfPath | src/process.rs:44 | the basename of dir + "/" + b is b whenever b has no '/' |
| Process.ClassArgsUseBasename | src/process.rs:43-46 | only the text after the last '/' decides the arguments and the app-id |
| Process.TrailingSlashGetsClassFlag | src/process.rs:44-67 | a trailing '/' leaves an empty basename, which gets `--class` and the quake app-id |
| Process.GhosttyClassArgs | src/process.rs:47-52 | ghostty gets exactly `--gtk-single-instance=false` and is tracked as `com.mitchellh.ghostty` |
| Process.FootClassArgs | src/process.rs:53-57 | foot gets exactly `--app-id=cosmic-ext-quake-terminal` and is tracked by the quake app-id |
| Process.ClassFlagForOtherTerminals | src/process.rs:58-67 | cosmic-term, alacritty, kitty, wezterm and every other basename get `--class cosmic-ext-quake-terminal` and the quake app-id |
| Process.GetAppId | src/process.rs:38-41 | the app-id is the quake app-id or ghostty's |
| Process.AppIdByBasename | src/process.rs:38-41 | the app-id is ghostty's exactly when the basename is `ghostty`, and the quake app-id otherwise |
| Process.SpawnArgv | src/process.rs:14-16 | the argument vector is the injected arguments followed by the user's, in order |
| Process.SpawnTerminal | src/process.rs:11-36 | builds argv as SpawnArgv (class args then user args); returns a result exactly when the spawn succeeded, carrying the spawned pid and the command's app-id |
| Wayland.CommandChannel.constructor | src/wayland.rs:318 | a new channel holds no commands |
| Wayland.CommandChannel.Send | src/wayland.rs:41 | a sent command is appended at the back of the channel |
| Wayland.CommandChannel.TryRecv | src/wayland.rs:259 | receives the oldest pending command, or nothing when the channel is empty |
| Wayland.WaylandController.constructor | src/wayland.rs:320 | the controller sends on the channel it is given |
| Wayland.WaylandController.Minimize | src/wayland.rs:40-42 | enqueues exactly one Minimize command |
| Wayland.WaylandController.Activate | src/wayland.rs:44-46 | enqueues exactly one Activate command |
| Wayland.WaylandState.constructor | src/wayland.rs:241-252 | the bridge starts with no seat, nothing adopted, no remembered flag, and no events or requests |
| Wayland.WaylandState.NewSeat | src/wayland.rs:92-96 | the new state is AfterNewSeat of the old one; keeps Tracking |
| Wayland.WaylandState.NewToplevel | src/wayland.rs:124-139 | the new state is AfterNewToplevel of the old one; no request is issued; keeps Tracking |
| Wayland.WaylandState.UpdateToplevel | src/wayland.rs:141-176 | the new state is AfterUpdateToplevel of the old one; no request is issued; keeps Tracking |
| Wayland.WaylandState.ToplevelClosed | src/wayland.rs:178-195 | the new state is AfterToplevelClosed of the old one; no request is issued; keeps Tracking |
| Wayland.WaylandState.HandleCommandInner | src/wayland.rs:284-307 | appends exactly the requests CommandRequests gives for the command and changes nothing else |
| Wayland.WaylandState.DrainCommands | src/wayland.rs:257-262 | empties the channel and appends the requests for every pending command, in send order |
| Wayland.ControllerCommandsInOrder | src/wayland.rs:39-47 | a Minimize then an Activate sent through a controller are handled by the bridge after whatever was already queued, in send order, and the channel ends empty |
| Wayland.AfterNewSeat | src/wayland.rs:92-96 | a seat is always known afterwards; an already known seat is kept, otherwise the new one is stored |
| Wayland.NewSeatKeepsFirst | src/wayland.rs:92-96 | the first seat announced stays the seat after later ones |
| Wayland.AfterNewToplevel | src/wayland.rs:124-139 | appends nothing or exactly one Found; when it appends, the toplevel is adopted with no remembered flag; seat, toplevel map, target and manager are never changed (the exact cases are NewToplevelAdopts) |
| Wayland.NewToplevelAdopts | src/wayland.rs:124-139 | a toplevel with the target app-id is adopted: foreign and cosmic handle stored, remembered flag reset, exactly one Found appended; any other toplevel changes nothing |
| Wayland.LaterMatchReplacesAdopted | src/wayland.rs:130-136 | a second matching toplevel replaces the adopted one (two Found events), and updates to the first are then ignored |
| Wayland.EdgeEvents | src/wayland.rs:166-173 | at most one event: Minimized iff the Minimized flag is set, Activated iff it is not set and the Activated flag is, and no event when neither flag is set |
| Wayland.AfterUpdateToplevel | src/wayland.rs:141-176 | an update appends at most one event and keeps the earlier events |
| Wayland.UpdateIgnoresOtherToplevels | src/wayland.rs:147-154 | an update of anything but the adopted toplevel, also when nothing is adopted, changes nothing |
| Wayland.UpdateWithoutInfoIsIgnored | src/wayland.rs:156 | an update of the adopted toplevel for which the toolkit has no info changes nothing |
| Wayland.UpdateReportsEdges | src/wayland.rs:156-175 | after an update of the adopted toplevel the remembered flag is the current minimized flag and the cosmic handle is refreshed; Minimized is reported iff it newly became minimized, Activated iff it newly became unminimized while activated; nothing when the flag is unchanged; no other event is ever appended and no other field changes |
| Wayland.RepeatedUpdateIsSilent | src/wayland.rs:163-174 | repeating an update with the same flags changes nothing more |
| Wayland.AfterToplevelClosed | src/wayland.rs:178-195 | appends nothing or exactly one Closed; when it appends, both handles and the remembered flag are cleared and every other field is kept; otherwise nothing changes (the exact cases are ClosedReleasesAdopted) |
| Wayland.ClosedReleasesAdopted | src/wayland.rs:178-195 | closing the adopted toplevel clears both handles and the remembered flag and appends exactly one Closed, keeping the seat, the toplevel map, the target app-id and the manager; closing any other changes nothing |
| Wayland.HandlersKeepTracking | src/wayland.rs:92-195 | every handler keeps Tracking: with no foreign handle adopted there is no cosmic handle and no remembered flag |
| Wayland.CommandRequests | src/wayland.rs:284-307 | a command yields at most two requests, and none without an adopted cosmic handle and a manager |
| Wayland.CommandRequestsCases | src/wayland.rs:284-307 | no requests without a handle or a manager; otherwise Minimize gives one set_minimized, and Activate gives unset_minimized followed by activate exactly when a seat is known |
| Wayland.DrainRequests | src/wayland.rs:259-262 | at most two requests per drained command, and none without an adopted cosmic handle and a manager (its order is DrainRequestsAppend) |
| Wayland.DrainRequestsAppend | src/wayland.rs:259-262 | draining two runs of commands one after the other gives the requests of their concatenation |
| Wayland.DrainWithoutHandleIsSilent | src/wayland.rs:284-292 | without an adopted handle or a manager, no drained command reaches the compositor |
| Wayland.DrainMinimizes | src/wayland.rs:296-299 | with a handle and a manager, n Minimize commands give exactly n set_minimized requests on that handle |
| Wayland.CommandsAfterCloseAreSilent | src/wayland.rs:188-193 | once the adopted toplevel has closed, no command produces a request |
| App.ActionToString | src/app.rs:32-38 | the printed action parses back to the same action |
| App.ParseAction | src/app.rs:40-49 | parsing succeeds exactly for "Toggle"; any other text fails with "Unknown action: " followed by the text |
| App.ActionRoundTrip | src/app.rs:32-49 | parsing a printed action gives the action back, and a successful parse prints back to its input |
| App.CosmicTermTracksQuakeAppId | src/config.rs:40 | cosmic-term is tracked by the quake app-id |
| App.DefaultConfig | src/config.rs:37-47 | the default configuration has no extra arguments and a terminal tracked by the quake app-id |
| App.InitialModel | src/app.rs:100-110 | the initial model is Idle with no pid and no controller, holds the given configuration, and satisfies the invariant |
| App.DefaultInitTracksQuakeAppId | src/app.rs:93-101 | started without a stored configuration, the application tracks the quake app-id and passes no extra arguments |
| App.DbusActivation | src/app.rs:202-221 | the only message produced is Toggle, and it is produced exactly for Activate and for an ActivateAction whose action parses to Toggle |
| App.DbusActivationCases | src/app.rs:202-221 | Activate and ActivateAction("Toggle") give Toggle; any other action and Open give nothing |
| App.RawPid | src/app.rs:132 | the pid handed to kill and waitpid is the u32 pid reinterpreted as i32: it agrees modulo 2^32 and is negative exactly for pids of 2^31 and above |
| App.TerminateAndReap | src/app.rs:285-293 | nothing without a tracked pid; otherwise SIGTERM then a non-blocking waitpid, both on the tracked pid cast to i32 |
| App.Reap | src/app.rs:131-137 | nothing without a tracked pid; otherwise exactly one non-blocking waitpid on the pid cast to i32, and no kill |
| App.AfterToggle | src/app.rs:225-258 | a toggle sends a command only when a controller is present, and never changes the configuration or the controller |
| App.AfterToplevelEvent | src/app.rs:260-296 | a compositor event sends no command and never changes the configuration or the tracked app-id |
| App.ReadyStoresController | src/app.rs:262-265 | Ready stores the controller and changes nothing else: no OS call, no command |
| App.AfterUpdate | src/app.rs:124-147 | only a Toggle with a controller present sends a command |
| App.QuakeTerminal.constructor | src/app.rs:93-114 | the model is InitialModel of the configuration: Idle with no pid and no controller, tracking the app-id of the configured command, with the invariant established; no OS call yet |
| App.QuakeTerminal.HandleToggle | src/app.rs:225-258 | the new state, the OS calls and the commands sent on the controller's channel are those of AfterToggle, and the invariant is kept |
| App.QuakeTerminal.HandleToplevelEvent | src/app.rs:260-296 | the new state and the OS calls are those of AfterToplevelEvent, and the invariant is kept |
| App.QuakeTerminal.Update | src/app.rs:124-147 | the new state, the OS calls and the commands sent are those of AfterUpdate, and the invariant is kept |
| App.UpdateKeepsConsistent | src/app.rs:124-147 | every message keeps the invariant: a pid is tracked iff the state is not Idle, and the tracked app-id is the configured terminal's |
| App.RunKeepsConsistent | src/app.rs:124-147 | any sequence of messages keeps the invariant |
| App.ShownOrHiddenTracksTerminal | src/app.rs:124-147 | after any sequence of messages, WaitingForWindow, Visible and Hidden always come with a tracked pid |
| App.ToggleFromIdle | src/app.rs:227-239 | a toggle in Idle issues one spawn of the configured command with the class arguments then the user's; on success the state becomes WaitingForWindow with the spawned pid and app-id; on failure nothing changes |
| App.FailedSpawnsStayIdle | src/app.rs:227-239 | any number of toggles whose spawns fail leave an idle application unchanged, send no command, and issue exactly one spawn per toggle, each of the configured command with its class arguments then the user's |
| App.ToggleWhileWaiting | src/app.rs:240-242 | a toggle while waiting for the window changes nothing and does nothing |
| App.ToggleVisibleHidden | src/app.rs:243-256 | Visible to Hidden sends Minimize and Hidden to Visible sends Activate, each exactly when a controller is present; two toggles from Visible return the same model |
| App.FoundShowsWaitingWindow | src/app.rs:266-271 | Found moves WaitingForWindow to Visible and leaves every other state unchanged |
| App.MinimizedActivatedIdempotent | src/app.rs:272-281 | Minimized sets Hidden and Activated sets Visible only while a pid is tracked; applying either twice equals applying it once |
| App.ClosedResets | src/app.rs:282-294 | Closed gives Idle with no pid from any state; a tracked pid gets SIGTERM and then a non-blocking waitpid, in that order |
| App.TerminalExitedResets | src/app.rs:128-139 | a process exit clears the pid, reaps it without blocking if one was tracked, and sets the state to Idle |
| App.ConfigChangedRetargets | src/app.rs:140-144 | a configuration change replaces the configuration and retargets the app-id, leaving state and pid alone |
| App.SpawnThenFound | src/app.rs:227-271 | a successful spawn followed by Found shows the terminal with the spawned pid |
| App.ExitThenClosed | src/app.rs:128-139 | a process exit while Visible returns to Idle at once, so the later Closed finds no pid to terminate: the only OS call is one waitpid |

## Left out

- The Wayland connection, registry set-up, initial roundtrip, `poll` with its 100 ms timeout, the read guard and the flushes of `run_wayland_loop` (`src/wayland.rs:223-282`) are blocking I/O. Only the command-draining loop is modelled.
- `toplevel_subscription` and `ToplevelSubState` (`src/wayland.rs:309-345`) are left out: the bridge thread, the async stream and the tokio channels. Creating the controller and sending `Ready` happen there. In the model, `Ready(controller)` arrives as an ordinary message.
- The toolkit fills `toplevelInfo` before it calls a handler. The model reads that map but does not model how the toolkit maintains it.
- A send on a channel whose bridge thread has died is dropped in the source. In the model the command stays pending and is never drained, which has the same effect.
- `ToplevelState` lists four of the protocol's state flags. Only Minimized and Activated are read.
- The process-monitor subscription (`src/app.rs:158-180`), with its one-second sleep and `kill(pid, 0)` probe, is modelled only through its output, the `TerminalExited` message.
- `kill`, `waitpid` and `Command::spawn` have no operating-system semantics here. They are recorded as `OsCall` entries, and their results are ignored, as in the source. The spawn result is the `SpawnOutcome` parameter.
- The pid is `Option<u32>` instead of `Arc<AtomicU32>`. Sharing it with the monitor task is concurrency and is not modelled.
- Logging, `view`, `run`, the clap `Args`, the configuration subscription and `src/main.rs` are left out. So are the `delegate_*` macros, the registry and seat boilerplate, and the no-op `capabilities` handler.
- `QuakeConfig` keeps only `terminal_command` and `terminal_args`. Its height, width, monitor and position fields are never read by the core. Reading the stored configuration is the constructor's `config` parameter; the fallback when none is stored is `DefaultConfig`.
- The subscription keys the bridge by type, so the target app-id given to the bridge thread is the one it started with. That re-targeting behaviour of `ConfigChanged` belongs to the subscription machinery and is not modelled. The model records only the new `terminal_app_id`.
