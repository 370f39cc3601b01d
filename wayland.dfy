/**
 * The compositor bridge: the state kept by the bridge thread while it tracks
 * the one toplevel whose app-id is the target, the events it reports to the
 * toggle state machine, and the manager requests it issues for the commands
 * it receives.
 *
 * Each handler of WaylandState is proved against a step function over a
 * value snapshot (Bridge); the properties are lemmas about those functions.
 */
module Wayland {
  import opened Wrappers

  /** An ext_foreign_toplevel_handle_v1 object, compared by identity. */
  datatype ForeignHandle = ForeignHandle(id: nat)

  /** A zcosmic_toplevel_handle_v1 object, the one the manager acts on. */
  datatype CosmicHandle = CosmicHandle(id: nat)

  /** A wl_seat object. */
  datatype Seat = Seat(id: nat)

  /** The state flags a cosmic toplevel reports. */
  datatype ToplevelState = Maximized | Minimized | Activated | Fullscreen

  /** What the toolkit knows about one toplevel. */
  datatype ToplevelInfo = ToplevelInfo(appId: string, state: set<ToplevelState>, cosmicToplevel: Option<CosmicHandle>)

  datatype WaylandCommand = Minimize | Activate

  /** The requests the toplevel manager sends to the compositor. */
  datatype ManagerRequest =
    | SetMinimized(handle: CosmicHandle)
    | UnsetMinimized(handle: CosmicHandle)
    | ActivateOn(handle: CosmicHandle, seat: Seat)

  /** The receiving end of the command channel: commands not yet received, oldest first. */
  class CommandChannel {
    var pending: seq<WaylandCommand>

    constructor ()
      ensures pending == []
    {
      pending := [];
    }

    method Send(cmd: WaylandCommand)
      modifies this
      ensures pending == old(pending) + [cmd]
    {
      pending := pending + [cmd];
    }

    /** Receives the oldest pending command without blocking. */
    method TryRecv() returns (cmd: Option<WaylandCommand>)
      modifies this
      ensures old(pending) == [] ==> cmd == None && pending == []
      ensures old(pending) != [] ==> cmd == Some(old(pending)[0]) && pending == old(pending)[1..]
    {
      if pending == [] {
        cmd := None;
      } else {
        cmd := Some(pending[0]);
        pending := pending[1..];
      }
    }
  }

  /** A handle on the sending end of the command channel; copies share the channel. */
  class WaylandController {
    const cmdTx: CommandChannel

    constructor (cmdTx: CommandChannel)
      ensures this.cmdTx == cmdTx
    {
      this.cmdTx := cmdTx;
    }

    method Minimize()
      modifies cmdTx
      ensures cmdTx.pending == old(cmdTx.pending) + [WaylandCommand.Minimize]
    {
      cmdTx.Send(WaylandCommand.Minimize);
    }

    method Activate()
      modifies cmdTx
      ensures cmdTx.pending == old(cmdTx.pending) + [WaylandCommand.Activate]
    {
      cmdTx.Send(WaylandCommand.Activate);
    }
  }

  datatype ToplevelEvent =
    | Ready(controller: WaylandController)
    | Found
    | Minimized
    | Activated
    | Closed

  /** A snapshot of the bridge's state, including the events sent so far. */
  datatype Bridge = Bridge(
    targetAppId: string,
    managerAvailable: bool,
    seat: Option<Seat>,
    toplevelInfo: map<ForeignHandle, ToplevelInfo>,
    ourHandle: Option<CosmicHandle>,
    ourForeignHandle: Option<ForeignHandle>,
    lastMinimized: Option<bool>,
    events: seq<ToplevelEvent>)

  /** The first seat announced is the one used for activation. */
  function AfterNewSeat(b: Bridge, seat: Seat): (r: Bridge)
    ensures r.seat.Some?
    ensures b.seat.Some? ==> r == b
    ensures b.seat.None? ==> r == b.(seat := Some(seat))
  {
    if b.seat.None? then b.(seat := Some(seat)) else b
  }

  /** True when the info for `h` is known and carries the target app-id. */
  predicate IsTarget(b: Bridge, h: ForeignHandle)
  {
    h in b.toplevelInfo && b.toplevelInfo[h].appId == b.targetAppId
  }

  predicate IsOurs(b: Bridge, h: ForeignHandle)
  {
    b.ourForeignHandle == Some(h)
  }

  function AfterNewToplevel(b: Bridge, h: ForeignHandle): (r: Bridge)
    ensures r.events == b.events || r.events == b.events + [Found]
    ensures r.events != b.events ==> r.ourForeignHandle == Some(h) && r.lastMinimized == None
    ensures r.(ourHandle := b.ourHandle, ourForeignHandle := b.ourForeignHandle,
               lastMinimized := b.lastMinimized, events := b.events) == b
  {
    if IsTarget(b, h) then
      b.(ourHandle := b.toplevelInfo[h].cosmicToplevel,
         ourForeignHandle := Some(h),
         lastMinimized := None,
         events := b.events + [Found])
    else b
  }

  /** The event an update reports when the minimized flag changed. */
  function EdgeEvents(state: set<ToplevelState>): (es: seq<ToplevelEvent>)
    ensures |es| <= 1
    ensures es == [ToplevelEvent.Minimized] <==> ToplevelState.Minimized in state
    ensures es == [ToplevelEvent.Activated] <==>
              ToplevelState.Minimized !in state && ToplevelState.Activated in state
    ensures ToplevelState.Minimized !in state && ToplevelState.Activated !in state ==> es == []
  {
    if ToplevelState.Minimized in state then [ToplevelEvent.Minimized]
    else if ToplevelState.Activated in state then [ToplevelEvent.Activated]
    else []
  }

  function AfterUpdateToplevel(b: Bridge, h: ForeignHandle): (r: Bridge)
    ensures |b.events| <= |r.events| <= |b.events| + 1
    ensures r.events[..|b.events|] == b.events
  {
    if !IsOurs(b, h) || h !in b.toplevelInfo then b
    else
      var info := b.toplevelInfo[h];
      var isMinimized := ToplevelState.Minimized in info.state;
      if b.lastMinimized != Some(isMinimized) then
        b.(ourHandle := info.cosmicToplevel,
           lastMinimized := Some(isMinimized),
           events := b.events + EdgeEvents(info.state))
      else
        b.(ourHandle := info.cosmicToplevel)
  }

  function AfterToplevelClosed(b: Bridge, h: ForeignHandle): (r: Bridge)
    ensures r.events == b.events || r.events == b.events + [Closed]
    ensures r.events != b.events ==> r.ourHandle == None && r.ourForeignHandle == None && r.lastMinimized == None
    ensures r.events == b.events ==> r == b
    ensures r.(ourHandle := b.ourHandle, ourForeignHandle := b.ourForeignHandle,
               lastMinimized := b.lastMinimized, events := b.events) == b
  {
    if IsOurs(b, h) then
      b.(ourHandle := None, ourForeignHandle := None, lastMinimized := None, events := b.events + [Closed])
    else b
  }

  /** The manager requests one command turns into. */
  function CommandRequests(b: Bridge, cmd: WaylandCommand): (rs: seq<ManagerRequest>)
    ensures |rs| <= 2
    ensures rs != [] ==> b.ourHandle.Some? && b.managerAvailable
  {
    if b.ourHandle.None? || !b.managerAvailable then []
    else
      var handle := b.ourHandle.value;
      match cmd
      case Minimize => [SetMinimized(handle)]
      case Activate => [UnsetMinimized(handle)] + (if b.seat.Some? then [ActivateOn(handle, b.seat.value)] else [])
  }

  /** The manager requests a run of commands turns into, handled in order. */
  function DrainRequests(b: Bridge, cmds: seq<WaylandCommand>): (rs: seq<ManagerRequest>)
    ensures |rs| <= 2 * |cmds|
    ensures rs != [] ==> b.ourHandle.Some? && b.managerAvailable
    decreases |cmds|
  {
    if cmds == [] then [] else CommandRequests(b, cmds[0]) + DrainRequests(b, cmds[1..])
  }

  /**
   * Whatever is tracked belongs to an adopted toplevel: with no foreign handle
   * adopted there is no cosmic handle and no remembered minimized flag.
   */
  predicate Tracking(b: Bridge)
  {
    b.ourForeignHandle.None? ==> b.ourHandle.None? && b.lastMinimized.None?
  }

  /** The bridge thread's state; the handlers are called by the protocol dispatcher. */
  class WaylandState {
    var targetAppId: string
    /** Whether the toplevel manager global was advertised and bound. */
    var managerAvailable: bool
    var seat: Option<Seat>
    /** The toolkit's per-toplevel information, read by the handlers. */
    var toplevelInfo: map<ForeignHandle, ToplevelInfo>
    var ourHandle: Option<CosmicHandle>
    var ourForeignHandle: Option<ForeignHandle>
    var lastMinimized: Option<bool>
    /** Everything sent on the event channel, oldest first. */
    var events: seq<ToplevelEvent>
    /** Every manager request written to the connection, oldest first. */
    var requests: seq<ManagerRequest>

    function Snapshot(): Bridge
      reads this
    {
      Bridge(targetAppId, managerAvailable, seat, toplevelInfo, ourHandle, ourForeignHandle, lastMinimized, events)
    }

    constructor (targetAppId: string, managerAvailable: bool)
      ensures Snapshot() == Bridge(targetAppId, managerAvailable, None, map[], None, None, None, [])
      ensures requests == []
      ensures Tracking(Snapshot())
    {
      this.targetAppId := targetAppId;
      this.managerAvailable := managerAvailable;
      seat := None;
      toplevelInfo := map[];
      ourHandle := None;
      ourForeignHandle := None;
      lastMinimized := None;
      events := [];
      requests := [];
    }

    method NewSeat(seat: Seat)
      modifies this
      ensures Snapshot() == AfterNewSeat(old(Snapshot()), seat)
      ensures Tracking(old(Snapshot())) ==> Tracking(Snapshot())
      ensures requests == old(requests)
    {
      if this.seat.None? {
        this.seat := Some(seat);
      }
    }

    method NewToplevel(toplevel: ForeignHandle)
      modifies this
      ensures Snapshot() == AfterNewToplevel(old(Snapshot()), toplevel)
      ensures Tracking(old(Snapshot())) ==> Tracking(Snapshot())
      ensures requests == old(requests)
    {
      if toplevel in toplevelInfo {
        var info := toplevelInfo[toplevel];
        if info.appId == targetAppId {
          ourHandle := info.cosmicToplevel;
          ourForeignHandle := Some(toplevel);
          lastMinimized := None;
          events := events + [Found];
        }
      }
    }

    method UpdateToplevel(toplevel: ForeignHandle)
      modifies this
      ensures Snapshot() == AfterUpdateToplevel(old(Snapshot()), toplevel)
      ensures Tracking(old(Snapshot())) ==> Tracking(Snapshot())
      ensures requests == old(requests)
    {
      var isOurWindow := ourForeignHandle.Some? && ourForeignHandle.value == toplevel;
      if !isOurWindow {
        return;
      }
      if toplevel in toplevelInfo {
        var info := toplevelInfo[toplevel];
        ourHandle := info.cosmicToplevel;
        var isMinimized := ToplevelState.Minimized in info.state;
        if lastMinimized != Some(isMinimized) {
          lastMinimized := Some(isMinimized);
          if isMinimized {
            events := events + [ToplevelEvent.Minimized];
          } else if ToplevelState.Activated in info.state {
            events := events + [ToplevelEvent.Activated];
          }
        }
      }
    }

    method ToplevelClosed(toplevel: ForeignHandle)
      modifies this
      ensures Snapshot() == AfterToplevelClosed(old(Snapshot()), toplevel)
      ensures Tracking(old(Snapshot())) ==> Tracking(Snapshot())
      ensures requests == old(requests)
    {
      var isOurWindow := ourForeignHandle.Some? && ourForeignHandle.value == toplevel;
      if isOurWindow {
        ourHandle := None;
        ourForeignHandle := None;
        lastMinimized := None;
        events := events + [Closed];
      }
    }

    /** Issues the manager requests for one command; the tracked state is only read. */
    method HandleCommandInner(cmd: WaylandCommand)
      modifies this`requests
      ensures requests == old(requests) + CommandRequests(Snapshot(), cmd)
    {
      if ourHandle.None? {
        return;
      }
      if !managerAvailable {
        return;
      }
      var handle := ourHandle.value;
      match cmd {
        case Minimize =>
          requests := requests + [SetMinimized(handle)];
        case Activate =>
          requests := requests + [UnsetMinimized(handle)];
          if seat.Some? {
            requests := requests + [ActivateOn(handle, seat.value)];
          }
      }
    }

    /** Receives every pending command and handles each, in the order they were sent. */
    method DrainCommands(rx: CommandChannel)
      modifies this`requests, rx
      ensures rx.pending == []
      ensures requests == old(requests) + DrainRequests(Snapshot(), old(rx.pending))
    {
      ghost var queued := rx.pending;
      ghost var n := 0;
      while true
        invariant 0 <= n <= |queued|
        invariant rx.pending == queued[n..]
        invariant requests == old(requests) + DrainRequests(Snapshot(), queued[..n])
        decreases |rx.pending|
      {
        var cmd := rx.TryRecv();
        if cmd.None? {
          break;
        }
        HandleCommandInner(cmd.value);
        DrainRequestsAppend(Snapshot(), queued[..n], [cmd.value]);
        assert queued[..n + 1] == queued[..n] + [cmd.value];
        n := n + 1;
      }
      assert queued[..n] == queued;
    }
  }

  /** Handling two runs of commands one after the other is handling their concatenation. */
  lemma {:induction false} DrainRequestsAppend(b: Bridge, xs: seq<WaylandCommand>, ys: seq<WaylandCommand>)
    ensures DrainRequests(b, xs + ys) == DrainRequests(b, xs) + DrainRequests(b, ys)
    decreases |xs|
  {
    if xs == [] {
      assert xs + ys == ys;
    } else {
      assert (xs + ys)[1..] == xs[1..] + ys;
      DrainRequestsAppend(b, xs[1..], ys);
    }
  }

  /** Without an adopted cosmic handle or a manager, no command reaches the compositor. */
  lemma {:induction false} DrainWithoutHandleIsSilent(b: Bridge, cmds: seq<WaylandCommand>)
    requires b.ourHandle.None? || !b.managerAvailable
    ensures DrainRequests(b, cmds) == []
    decreases |cmds|
  {
    if cmds != [] {
      DrainWithoutHandleIsSilent(b, cmds[1..]);
    }
  }

  /** With a handle and a manager, every Minimize command yields exactly one set_minimized. */
  lemma {:induction false} DrainMinimizes(b: Bridge, cmds: seq<WaylandCommand>)
    requires b.ourHandle.Some? && b.managerAvailable
    requires forall i :: 0 <= i < |cmds| ==> cmds[i] == WaylandCommand.Minimize
    ensures |DrainRequests(b, cmds)| == |cmds|
    ensures forall i :: 0 <= i < |cmds| ==> DrainRequests(b, cmds)[i] == SetMinimized(b.ourHandle.value)
    decreases |cmds|
  {
    if cmds != [] {
      DrainMinimizes(b, cmds[1..]);
    }
  }

  lemma CommandRequestsCases(b: Bridge, cmd: WaylandCommand)
    ensures b.ourHandle.None? || !b.managerAvailable ==> CommandRequests(b, cmd) == []
    ensures b.ourHandle.Some? && b.managerAvailable && cmd == WaylandCommand.Minimize ==>
              CommandRequests(b, cmd) == [SetMinimized(b.ourHandle.value)]
    ensures b.ourHandle.Some? && b.managerAvailable && cmd == WaylandCommand.Activate ==>
              CommandRequests(b, cmd) ==
                if b.seat.Some? then [UnsetMinimized(b.ourHandle.value), ActivateOn(b.ourHandle.value, b.seat.value)]
                else [UnsetMinimized(b.ourHandle.value)]
  {
  }

  /** Controller commands arrive at the bridge in the order they were sent. */
  method ControllerCommandsInOrder(bridge: WaylandState, controller: WaylandController)
    modifies bridge`requests, controller.cmdTx
    ensures controller.cmdTx.pending == []
    ensures bridge.requests ==
              old(bridge.requests) +
              DrainRequests(bridge.Snapshot(), old(controller.cmdTx.pending) + [WaylandCommand.Minimize, WaylandCommand.Activate])
  {
    ghost var queued := controller.cmdTx.pending;
    controller.Minimize();
    controller.Activate();
    assert controller.cmdTx.pending == queued + [WaylandCommand.Minimize, WaylandCommand.Activate];
    bridge.DrainCommands(controller.cmdTx);
  }

  lemma NewSeatKeepsFirst(b: Bridge, first: Seat, later: Seat)
    requires b.seat.None?
    ensures AfterNewSeat(AfterNewSeat(b, first), later).seat == Some(first)
  {
  }

  /** A toplevel with the target app-id is adopted; any other leaves everything as it was. */
  lemma NewToplevelAdopts(b: Bridge, h: ForeignHandle)
    ensures IsTarget(b, h) ==>
              var r := AfterNewToplevel(b, h);
              r.ourForeignHandle == Some(h) && r.ourHandle == b.toplevelInfo[h].cosmicToplevel &&
              r.lastMinimized == None && r.events == b.events + [Found] &&
              r.seat == b.seat && r.toplevelInfo == b.toplevelInfo && r.targetAppId == b.targetAppId
    ensures !IsTarget(b, h) ==> AfterNewToplevel(b, h) == b
  {
  }

  /**
   * An adoption does not look at what is already adopted: a later toplevel with
   * the target app-id replaces the earlier one, whose updates are then ignored.
   */
  lemma LaterMatchReplacesAdopted(b: Bridge, first: ForeignHandle, second: ForeignHandle)
    requires IsTarget(b, first) && IsTarget(b, second) && first != second
    ensures var r := AfterNewToplevel(AfterNewToplevel(b, first), second);
      r.ourForeignHandle == Some(second) && r.events == b.events + [Found, Found] &&
      AfterUpdateToplevel(r, first) == r
  {
  }

  /** Updates to anything but the adopted toplevel are ignored, also when nothing is adopted. */
  lemma UpdateIgnoresOtherToplevels(b: Bridge, h: ForeignHandle)
    requires !IsOurs(b, h)
    ensures AfterUpdateToplevel(b, h) == b
  {
  }

  /** An update of the adopted toplevel for which the toolkit holds no info is ignored. */
  lemma UpdateWithoutInfoIsIgnored(b: Bridge, h: ForeignHandle)
    requires IsOurs(b, h) && h !in b.toplevelInfo
    ensures AfterUpdateToplevel(b, h) == b
  {
  }

  /**
   * Edge detection: after an update of the adopted toplevel the remembered flag
   * is the current one, and an event is reported only when it changed.
   */
  lemma UpdateReportsEdges(b: Bridge, h: ForeignHandle)
    requires IsOurs(b, h) && h in b.toplevelInfo
    ensures var r := AfterUpdateToplevel(b, h);
      var state := b.toplevelInfo[h].state;
      var isMinimized := ToplevelState.Minimized in state;
      && r.lastMinimized == Some(isMinimized)
      && r.ourHandle == b.toplevelInfo[h].cosmicToplevel
      && r.ourForeignHandle == b.ourForeignHandle
      && (b.lastMinimized == Some(isMinimized) ==> r.events == b.events)
      && (r.events == b.events + [ToplevelEvent.Minimized] <==> b.lastMinimized != Some(true) && isMinimized)
      && (r.events == b.events + [ToplevelEvent.Activated] <==>
            b.lastMinimized != Some(false) && !isMinimized && ToplevelState.Activated in state)
      && (r.events == b.events || r.events == b.events + [ToplevelEvent.Minimized] ||
          r.events == b.events + [ToplevelEvent.Activated])
      && r.(ourHandle := b.ourHandle, lastMinimized := b.lastMinimized, events := b.events) == b
  {
  }

  /** Repeating an update with unchanged flags reports nothing more. */
  lemma RepeatedUpdateIsSilent(b: Bridge, h: ForeignHandle)
    ensures AfterUpdateToplevel(AfterUpdateToplevel(b, h), h) == AfterUpdateToplevel(b, h)
  {
  }

  lemma ClosedReleasesAdopted(b: Bridge, h: ForeignHandle)
    ensures IsOurs(b, h) ==>
              var r := AfterToplevelClosed(b, h);
              r.ourHandle == None && r.ourForeignHandle == None && r.lastMinimized == None &&
              r.events == b.events + [Closed] && r.seat == b.seat && r.toplevelInfo == b.toplevelInfo &&
              r.targetAppId == b.targetAppId && r.managerAvailable == b.managerAvailable
    ensures !IsOurs(b, h) ==> AfterToplevelClosed(b, h) == b
  {
  }

  /** Every handler keeps Tracking. */
  lemma HandlersKeepTracking(b: Bridge, h: ForeignHandle, seat: Seat)
    requires Tracking(b)
    ensures Tracking(AfterNewSeat(b, seat))
    ensures Tracking(AfterNewToplevel(b, h))
    ensures Tracking(AfterUpdateToplevel(b, h))
    ensures Tracking(AfterToplevelClosed(b, h))
  {
  }

  /** Once the adopted toplevel has closed, commands have no effect. */
  lemma CommandsAfterCloseAreSilent(b: Bridge, h: ForeignHandle, cmds: seq<WaylandCommand>)
    requires IsOurs(b, h)
    ensures DrainRequests(AfterToplevelClosed(b, h), cmds) == []
  {
    DrainWithoutHandleIsSilent(AfterToplevelClosed(b, h), cmds);
  }
}
