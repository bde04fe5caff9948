/**
 The controller (src/steamlan/app/controller.py): the class itself. Each method leaves the
 state its function in Control names, and the actions and ticks keep the fields fitting
 together. What Steam, Windows and the session answer during a call is its `Answers`.
 */
module AppController {
  import opened Basics
  import C = Control
  import M = Membership

  class AppController {
    var running: bool
    var pending: Option<C.Pending>
    var network: Option<C.Session>
    var saved: Option<C.Saved>
    var link: Option<C.Link>
    var helper: C.Handle
    var listenSocket: C.Handle
    var lobbyId: C.LobbyId
    var farewellUntil: Option<real>
    var leaving: Option<C.Saved>
    var recovery: C.Recovery
    var networkId: C.NetworkId
    var abandoned: map<C.ApiCall, C.LobbyId>
    ghost var books: C.Books

    ghost function State(): C.Control
      reads this
    {
      C.Control(running, C.Core(pending, network, saved, link), C.Held(helper, listenSocket, lobbyId),
                C.Goodbye(farewellUntil, leaving), recovery, networkId, abandoned, books)
    }

    /** The fields fit together. */
    ghost predicate Valid()
      reads this
    {
      C.Shape(State()) && C.Stopped(State())
    }

    constructor ()
      ensures Valid() && State() == C.INITIAL
    {
      running, pending, network, saved, link := false, None, None, None, None;
      helper, listenSocket, lobbyId := 0, 0, 0;
      farewellUntil, leaving, recovery := None, None, C.Recovery(0.0, 0.0, 0);
      networkId, abandoned, books := "", map[], C.INITIAL.books;
    }

    // Small pieces

    method CloseHelper()
      modifies `helper, `books
      ensures State() == C.CloseHelper(old(State()))
    {
      if helper != 0 {
        books := books.(helpers := C.Close(books.helpers, helper));
      }
      helper := 0;
    }

    /** Stops forwarding and removes the adapter, then closes the connections, leaves the
        lobby and closes the listen socket. */
    method CloseNetwork()
      modifies `helper, `network, `lobbyId, `listenSocket, `books
      ensures State() == C.CloseNetwork(old(State()))
    {
      CloseHelper();
      network, lobbyId := None, 0;
      if listenSocket != 0 {
        books := books.(sockets := C.Close(books.sockets, listenSocket));
      }
      listenSocket := 0;
    }

    method Abandon(leave: bool)
      modifies `pending, `abandoned
      ensures State() == C.Abandon(old(State()), leave)
    {
      var dropped := pending;
      pending := None;
      if dropped.Some? && !dropped.value.kind.Create? && dropped.value.call != 0 && leave {
        abandoned := abandoned[dropped.value.call := dropped.value.lobby];
      }
    }

    method GiveUp()
      modifies this
      ensures State() == C.Down(old(State()))
    {
      Abandon(true);
      link := None;
      CloseNetwork();
    }

    /** What is saved of the session: of the network that is saved already, if one is, with
        the members and the code the session has now. */
    function Snapshot(online: bool): (s: C.Saved)
      requires network.Some?
      reads this
      ensures s == C.Snapshot(State(), online)
      ensures Valid() && saved.Some? ==> C.SameNetwork(saved.value, s)
      ensures Valid() ==> s.lobby == lobbyId && s.members == network.value.seen.members && s.online == online
    {
      C.Saved(network.value.lobby, networkId, network.value.seen.code, network.value.seen.members, online)
    }

    // Losing and restoring the connection

    method BeginRestoring(now: real)
      modifies `link, `recovery, `books
      ensures State() == C.BeginRestoring(old(State()), now)
    {
      link := Some(C.RestoringNetwork);
      recovery := C.Recovery(now, now, 0);
      books := books.(attempts := []);
    }

    method Suspend()
      modifies `network
      ensures State() == old(State()).(core := old(State()).core.(net := C.Suspended(old(network), true)))
    {
      if network.Some? {
        network := Some(network.value.(suspended := true));
      }
    }

    /** The connection was lost by accident: keep everything, and recover. */
    method LoseConnection(loggedOn: bool, now: real)
      modifies `network, `link, `recovery, `books
      ensures State() == C.LoseConnection(old(State()), loggedOn, now)
    {
      Suspend();
      if loggedOn {
        BeginRestoring(now);
      } else {
        link := Some(C.Reconnecting);
      }
    }

    method Restored()
      requires network.Some?
      modifies `network, `link
      ensures State() == C.Restored(old(State()))
    {
      network := Some(network.value.(suspended := false));
      link := None;
    }

    method GoOfflineWith()
      requires network.None? || !network.value.seen.joined ==> saved.Some?
      modifies this
      ensures State() == C.GoOfflineWith(old(State()))
    {
      if network.Some? && network.value.seen.joined {
        saved := Some(Snapshot(false));
      } else {
        saved := Some(saved.value.WithOnline(false));
      }
      GiveUp();
    }

    method ForgetGone()
      modifies this
      ensures State() == C.ForgetGone(old(State()))
    {
      GiveUp();
      saved := None;
    }

    // Joining

    method EndFarewell()
      modifies `farewellUntil, `leaving
      ensures State() == C.EndFarewell(old(State()))
    {
      farewellUntil, leaving := None, None;
    }

    method CallFailed(kind: C.Kind, barred: bool, a: C.Answers)
      requires kind.Rejoin? && barred ==> saved.Some?
      modifies this
      ensures State() == C.CallFailed(old(State()), kind, barred, a)
    {
      if kind.Restore? {
        if barred {
          GiveUp();
        }
        return;
      }
      CloseNetwork();
      if kind.Farewell? {
        EndFarewell();
      } else if kind.Rejoin? && barred {
        saved := Some(saved.value.WithOnline(false));
      } else if kind.Rejoin? {
        LoseConnection(a.loggedOn, a.now);
      }
    }

    method OpenListenSocket(a: C.Answers)
      modifies `listenSocket, `books
      ensures State() == C.OpenSocket(old(State()), a)
    {
      if listenSocket == 0 && a.socket.Some? {
        listenSocket := a.socket.value;
        books := books.(sockets := books.sockets.(given := books.sockets.given + {a.socket.value}));
      }
    }

    method StartJoin(lobby: C.LobbyId, code: string, kind: C.Kind, a: C.Answers)
      modifies this
      ensures State() == C.StartJoin(old(State()), lobby, code, kind, a)
    {
      OpenListenSocket(a);
      if listenSocket == 0 || a.call.None? {
        CallFailed(kind, false, a);
        return;
      }
      pending := Some(C.Pending(kind, a.call.value, a.now, lobby, code));
    }

    method Enter(lobby: C.LobbyId, adapter: bool, a: C.Answers)
      modifies this
      ensures State() == C.Enter(old(State()), lobby, adapter, a)
    {
      hide C.GoOfflineWith, C.CloseNetwork;
      network := Some(C.Session(lobby, listenSocket, false, a.begun));
      lobbyId := lobby;
      if farewellUntil.Some? || !adapter || helper != 0 {
        return;
      }
      helper := a.helper;
      books := books.(helpers := books.helpers.(given := books.helpers.given + {a.helper}));
      if !a.helperStarts {
        if saved.Some? {
          GoOfflineWith();
        } else {
          CloseNetwork();
        }
      }
    }

    method Finish(p: C.Pending, answer: C.Answer, a: C.Answers)
      requires p.kind.Rejoin? ==> saved.Some?
      modifies this
      ensures State() == C.Finish(old(State()), p, answer, a)
    {
      hide C.Enter, C.CallFailed, C.ForgetGone, C.CloseNetwork;
      if p.kind.Create? {
        if answer.Created? && answer.marked {
          networkId := a.newId;
          Enter(answer.lobby, true, a);
        } else {
          CloseNetwork();
        }
      } else if answer.Entered? {
        Entered(p, answer.ours, answer.network, a);
      } else if answer.NotEntered? && answer.gone && (p.kind.Rejoin? || p.kind.Restore?) {
        ForgetGone();
      } else {
        CallFailed(p.kind, answer.NotEntered? && !answer.gone && answer.barred, a);
      }
    }

    method Entered(p: C.Pending, ours: bool, found: C.NetworkId, a: C.Answers)
      requires !p.kind.Create? && (p.kind.Rejoin? ==> saved.Some?)
      modifies this
      ensures State() == C.Finish(old(State()), p, C.Entered(ours, found), a)
    {
      hide C.Enter, C.CloseNetwork;
      var meant := if p.kind.Farewell? then leaving else saved;
      if !p.kind.Join? && (!ours || meant.None? || found != meant.value.network) {
        CloseNetwork();
        if p.kind.Farewell? {
          EndFarewell();
        } else {
          ForgetGone();
        }
        return;
      }
      if !ours {
        CloseNetwork();
        return;
      }
      networkId := found;
      if p.kind.Restore? && network.Some? {
        lobbyId := p.lobby;
        Restored();
        return;
      }
      if p.kind.Restore? {
        link := None;
      }
      Enter(p.lobby, !p.kind.Farewell?, a);
    }

    // Leaving

    method Farewell(a: C.Answers)
      requires farewellUntil.Some?
      modifies this
      ensures State() == C.FarewellStep(old(State()), a)
    {
      if a.told || a.now > farewellUntil.value {
        CloseNetwork();
        EndFarewell();
      }
    }

    method BeginFarewell(a: C.Answers)
      modifies this
      ensures State() == C.BeginFarewell(old(State()), a)
    {
      CloseHelper();
      farewellUntil := Some(a.now + C.FAREWELL_TIMEOUT);
      if network.Some? {
        Farewell(a);
      }
    }

    // Actions

    /** What the user is shown to be: offline exactly if the network is remembered and nothing
        is pending or held, restoring exactly while a lost connection is recovered from, and
        in no network only if nothing is remembered. */
    function Presence(): (p: C.Presence)
      reads this
      ensures p == C.PresenceOf(State())
      ensures Valid() ==>
        && (p.Offline? <==>
              saved.Some? && pending.None? && network.None? && link.None? && farewellUntil.None?
              && helper == 0 && listenSocket == 0 && lobbyId == 0)
        && (p.Restoring? <==> link.Some?)
        && (p.NoNetwork? ==> saved.None?)
    {
      if farewellUntil.Some? then C.NoNetwork
      else if link.Some? then C.Restoring
      else if network.Some? then if network.value.seen.joined then C.Online else C.Connecting
      else if pending.Some? && pending.value.kind.Rejoin? then C.Connecting
      else if saved.Some? then C.Offline
      else C.NoNetwork
    }

    predicate Idle()
      reads this
    {
      running && saved.None? && network.None? && pending.None?
    }

    ghost method Note(now: real)
      modifies `books
      ensures State() == C.At(old(State()), now)
    {
      books := books.(now := now);
    }

    method GoBackOnline(a: C.Answers)
      requires saved.Some?
      modifies this
      ensures State() == C.GoBackOnline(old(State()), a)
    {
      if a.loggedOn {
        StartJoin(saved.value.lobby, saved.value.code, C.Rejoin, a);
      } else {
        LoseConnection(false, a.now);
      }
    }

    /** `start`; nothing happens when Steam can't be opened. */
    method Start(loaded: Option<C.Saved>, a: C.Answers)
      requires Valid()
      modifies this
      ensures Valid() && State() == C.Step(old(State()), C.Starts(loaded, a))
    {
      hide C.GoBackOnline, C.Shape;
      C.StepShape(State(), C.Starts(loaded, a));
      Note(a.now);
      if running || !a.opens {
        return;
      }
      running := true;
      if loaded.None? {
        return;
      }
      saved := loaded;
      if loaded.value.online {
        GoBackOnline(a);
      }
    }

    method CreateLobby(a: C.Answers)
      requires Valid()
      modifies this
      ensures Valid() && State() == C.Step(old(State()), C.Creates(a))
    {
      hide C.Shape, C.OpenSocket, C.CloseNetwork;
      C.StepShape(State(), C.Creates(a));
      Note(a.now);
      if !Idle() {
        return;
      }
      OpenListenSocket(a);
      if listenSocket == 0 || a.call.None? {
        CloseNetwork();
        return;
      }
      pending := Some(C.Pending(C.Create, a.call.value, a.now, 0, ""));
    }

    method Join(lobby: C.LobbyId, code: string, a: C.Answers)
      requires Valid()
      modifies this
      ensures Valid() && State() == C.Step(old(State()), C.Joins(lobby, code, a))
    {
      hide C.Shape, C.StartJoin;
      C.StepShape(State(), C.Joins(lobby, code, a));
      Note(a.now);
      if Idle() {
        StartJoin(lobby, code, C.Join, a);
      }
    }

    method GoOnline(a: C.Answers)
      modifies this
      ensures State() == C.GoOnline(old(State()), a)
    {
      if saved.None? || !running || Presence() != C.Offline {
        return;
      }
      if pending.Some? {
        return;
      }
      saved := Some(saved.value.WithOnline(true));
      GoBackOnline(a);
    }

    method GoOffline(a: C.Answers)
      requires Valid()
      modifies this
      ensures Valid() && State() == C.Step(old(State()), C.GoesOffline(a))
    {
      hide C.Shape, C.Down;
      C.StepShape(State(), C.GoesOffline(a));
      Note(a.now);
      var presence := Presence();
      if presence != C.Online && presence != C.Connecting && presence != C.Restoring {
        return;
      }
      if network.Some? && network.value.seen.joined {
        saved := Some(Snapshot(false));
      } else if saved.Some? {
        saved := Some(saved.value.WithOnline(false));
      }
      GiveUp();
    }

    method LeaveNetwork(a: C.Answers)
      requires Valid()
      modifies this
      ensures Valid() && State() == C.Step(old(State()), C.Leaves(a))
    {
      hide C.Shape, C.LeaveNetwork;
      C.StepShape(State(), C.Leaves(a));
      Note(a.now);
      Leave(a);
    }

    method Leave(a: C.Answers)
      modifies this
      ensures State() == C.LeaveNetwork(old(State()), a)
    {
      hide C.Down, C.BeginFarewell, C.CloseNetwork, C.StartJoin;
      var was := saved;
      if farewellUntil.Some? || (was.None? && network.None?) {
        return;
      }
      saved, leaving := None, was;
      if link.Some? {
        GiveUp();
        EndFarewell();
      } else if network.Some? && (network.value.seen.joined || was.Some?) {
        BeginFarewell(a);
      } else if network.Some? {
        CloseNetwork();
      } else if pending.Some? {
        pending := Some(pending.value.(kind := C.Farewell));
        BeginFarewell(a);
      } else if running {
        StartJoin(was.value.lobby, was.value.code, C.Farewell, a);
        if pending.Some? {
          farewellUntil := Some(a.now + C.FAREWELL_TIMEOUT);
        }
      }
    }

    /** Exit: stay a member, and let everything go. */
    method Shutdown()
      modifies this
      ensures State() == C.Shutdown(old(State()))
    {
      hide C.CloseNetwork, C.Snapshot;
      if network.Some? && farewellUntil.None? && network.value.seen.joined {
        saved := Some(Snapshot(true));
      }
      CloseNetwork();
      pending, link := None, None;
      running := false;
    }

    // A tick

    method Tick(a: C.Answers)
      requires Valid()
      modifies this
      ensures Valid() && State() == C.Step(old(State()), C.Ticks(a))
    {
      hide C.Shape, C.TickCalls, C.TickRest, C.Stopped;
      C.StepShape(State(), C.Ticks(a));
      C.AtShape(State(), a.now);
      Note(a.now);
      if !running {
        return;
      }
      C.TickCallsShape(State(), a);
      TickCalls(a);
      TickRest(a);
    }

    method TickCalls(a: C.Answers)
      requires C.Linked(State())
      modifies this
      ensures State() == C.TickCalls(old(State()), a)
    {
      hide C.Finish, C.CallFailed;
      abandoned := abandoned - a.answered;
      if pending.None? {
        return;
      }
      var p := pending.value;
      if a.result.Some? {
        pending := None;
        Finish(p, a.result.value, a);
      } else if a.now - p.started > C.CALL_TIMEOUT {
        pending := None;
        CallFailed(p.kind, false, a);
      }
    }

    method TickRest(a: C.Answers)
      requires C.Shape(State())
      modifies this
      ensures State() == C.TickRest(old(State()), a)
    {
      hide C.Shape, C.WatchConnection, C.TickNetwork, C.FarewellStep;
      C.LinkSaved(State());
      if farewellUntil.Some? {
        if network.Some? {
          network := Some(C.Process(network.value, a));
          Farewell(a);
        }
        return;
      }
      if saved.Some? && (network.Some? || link.Some?) {
        WatchConnection(a);
      }
      ProcessNetwork(a);
    }

    method WatchConnection(a: C.Answers)
      requires saved.Some?
      modifies this
      ensures State() == C.WatchConnection(old(State()), a)
    {
      hide C.Recover, C.LoseConnection, C.BeginRestoring;
      if link.None? {
        if network.Some? && (!a.loggedOn || a.lost) {
          LoseConnection(a.loggedOn, a.now);
        }
        return;
      }
      if !a.loggedOn {
        if link.value.RestoringNetwork? {
          Abandon(false);
          link := Some(C.Reconnecting);
          Suspend();
        }
        return;
      }
      if link.value.Reconnecting? {
        BeginRestoring(a.now);
      }
      Recover(a);
    }

    method Recover(a: C.Answers)
      requires saved.Some?
      modifies this
      ensures State() == C.Recover(old(State()), a)
    {
      hide C.Down, C.StartJoin;
      if pending.Some? {
        return;
      }
      if network.Some? && a.inLobby {
        Restored();
      } else if a.now - recovery.started > C.RESTORE_TIMEOUT {
        GiveUp();
      } else if a.now >= recovery.next {
        var delay := C.Backoff(recovery.attempts);
        recovery := recovery.(attempts := recovery.attempts + 1, next := a.now + delay);
        books := books.(attempts := books.attempts + [a.now]);
        StartJoin(saved.value.lobby, saved.value.code, C.Restore, a);
      }
    }

    method ProcessNetwork(a: C.Answers)
      requires link.Some? ==> saved.Some?
      modifies this
      ensures State() == C.TickNetwork(old(State()), a)
    {
      hide C.CheckNetwork, C.GoOfflineWith, C.HandleInvite;
      if network.Some? {
        network := Some(C.Process(network.value, a));
        if link.None? {
          CheckNetwork(a);
        } else if helper != 0 && a.helperFailed {
          GoOfflineWith();
        }
      } else if pending.None? && link.None? {
        HandleInvite(a);
      }
    }

    method CheckNetwork(a: C.Answers)
      requires network.Some?
      modifies this
      ensures State() == C.CheckNetwork(old(State()), a)
    {
      hide C.Refused, C.GoOfflineWith, C.CloseNetwork;
      if network.value.seen.joined {
        saved := Some(Snapshot(true));
      }
      if network.value.seen.refused != "" && !network.value.seen.joined {
        Refused(network.value.seen.refused);
      } else if helper != 0 && a.helperFailed {
        if saved.Some? {
          GoOfflineWith();
        } else {
          CloseNetwork();
        }
      }
    }

    method Refused(reason: string)
      modifies this
      ensures State() == C.Refused(old(State()), reason)
    {
      CloseNetwork();
      if saved.None? {
        return;
      }
      if reason == M.NO_MEMBERS_ONLINE || reason == M.NO_ANSWER {
        saved := Some(saved.value.WithOnline(false));
      } else {
        saved := None;
      }
    }

    method HandleInvite(a: C.Answers)
      modifies this
      ensures State() == C.HandleInvite(old(State()), a)
    {
      hide C.StartJoin, C.GoOnline;
      if a.invite.None? {
        return;
      }
      if saved.None? {
        StartJoin(a.invite.value.lobby, a.invite.value.code, C.Join, a);
      } else if a.invite.value.lobby == saved.value.lobby {
        GoOnline(a);
      }
    }
  }
}
