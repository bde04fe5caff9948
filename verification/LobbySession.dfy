/**
 The connections of one session (src/steamlan/steam/session.py): the class itself. Each
 method leaves the state its function in LobbyLinks names.
 */
module LobbySession {
  import opened Basics
  import opened Ipv4
  import opened Roster
  import L = LobbyLinks

  type LobbyId = nat

  /** A decoded callback, with what Steam answers while it is handled. */
  datatype Callback =
    | MemberUpdate(lobby: LobbyId, answers: L.Answers)
    | ConnectionUpdate(event: L.Status, answers: L.Answers, now: real)

  /** What Steam answers at the end of one pass. */
  datatype Ending = Ending(settle: L.Answers, now: real, handles: map<SteamId, L.Handle>,
      inbox: map<L.Handle, seq<Bytes>>)

  function HandledOne(s: L.Session, lobby: LobbyId, callback: Callback): L.Session {
    match callback
    case MemberUpdate(other, answers) =>
      if other == lobby then L.UpdateMembers(s, answers.members, answers.inbox) else s
    case ConnectionUpdate(event, answers, now) => L.ConnectionChanged(s, event, answers, now)
  }

  function Handled(s: L.Session, lobby: LobbyId, callbacks: seq<Callback>): L.Session
    decreases |callbacks|
  {
    if callbacks == [] then s else Handled(HandledOne(s, lobby, callbacks[0]), lobby, callbacks[1..])
  }

  function Settled(s: L.Session, answers: L.Answers): L.Session {
    if s.unsettled then L.UpdateMembers(s, answers.members, answers.inbox) else s
  }

  /** The state in which one pass starts to connect. */
  function Ready(s: L.Session, lobby: LobbyId, callbacks: seq<Callback>, ending: Ending): L.Session {
    Settled(Handled(s, lobby, callbacks), ending.settle)
  }

  predicate Offered(s: L.Session, lobby: LobbyId, callbacks: seq<Callback>, ending: Ending) {
    L.DueIds(Ready(s, lobby, callbacks, ending), ending.now) <= ending.handles.Keys
  }

  function Processed(s: L.Session, lobby: LobbyId, callbacks: seq<Callback>, ending: Ending): L.Session
    requires Offered(s, lobby, callbacks, ending)
  {
    L.Receive(L.Connect(Ready(s, lobby, callbacks, ending), ending.now, ending.handles), ending.inbox)
  }

  // One pass is a run

  function EventsOf(lobby: LobbyId, callbacks: seq<Callback>): seq<L.Event>
    decreases |callbacks|
  {
    if callbacks == [] then []
    else (match callbacks[0]
          case MemberUpdate(other, answers) => if other == lobby then [L.MembersChanged(answers)] else []
          case ConnectionUpdate(event, answers, now) => [L.StatusChanged(event, answers, now)])
         + EventsOf(lobby, callbacks[1..])
  }

  /** The events of one pass, in order. */
  function PassOf(s: L.Session, lobby: LobbyId, callbacks: seq<Callback>, ending: Ending): seq<L.Event> {
    EventsOf(lobby, callbacks)
    + (if Handled(s, lobby, callbacks).unsettled then [L.MembersChanged(ending.settle)] else [])
    + [L.Connects(ending.now, ending.handles), L.Receives(ending.inbox)]
  }

  lemma {:induction false} HandledIsRun(s: L.Session, lobby: LobbyId, callbacks: seq<Callback>, rest: seq<L.Event>)
    requires L.PromisedRun(s, EventsOf(lobby, callbacks) + rest)
    ensures L.PromisedRun(Handled(s, lobby, callbacks), rest)
    ensures L.After(s, EventsOf(lobby, callbacks) + rest) == L.After(Handled(s, lobby, callbacks), rest)
    decreases |callbacks|
  {
    if callbacks == [] {
      assert EventsOf(lobby, callbacks) + rest == rest;
    } else {
      var t := HandledOne(s, lobby, callbacks[0]);
      var tail := EventsOf(lobby, callbacks[1..]);
      if callbacks[0].MemberUpdate? && callbacks[0].lobby != lobby {
        assert EventsOf(lobby, callbacks) + rest == tail + rest;
      } else {
        assert (EventsOf(lobby, callbacks) + rest)[1..] == tail + rest;
      }
      HandledIsRun(t, lobby, callbacks[1..], rest);
    }
  }

  lemma LastIsRun(s: L.Session, ending: Ending)
    requires L.PromisedRun(s, [L.Connects(ending.now, ending.handles), L.Receives(ending.inbox)])
    ensures L.DueIds(s, ending.now) <= ending.handles.Keys
    ensures L.After(s, [L.Connects(ending.now, ending.handles), L.Receives(ending.inbox)])
         == L.Receive(L.Connect(s, ending.now, ending.handles), ending.inbox)
  {
    hide L.Receive, L.Connect;
    var events := [L.Connects(ending.now, ending.handles), L.Receives(ending.inbox)];
    var t := L.Step(s, events[0]);
    assert events[1..] == [L.Receives(ending.inbox)];
    assert events[1..][1..] == [];
    assert L.After(t, events[1..]) == L.After(L.Step(t, events[1]), []);
  }

  /** One call of `process` is a run of the session's events, so what holds over every run
      holds over every sequence of calls; and it passes on everything handed over so far. */
  lemma PassIsRun(s: L.Session, lobby: LobbyId, callbacks: seq<Callback>, ending: Ending)
    requires L.PromisedRun(s, PassOf(s, lobby, callbacks, ending))
    ensures Offered(s, lobby, callbacks, ending)
    ensures L.After(s, PassOf(s, lobby, callbacks, ending)) == Processed(s, lobby, callbacks, ending)
  {
    hide L.UpdateMembers, L.ConnectionChanged, L.Receive, L.Connect;
    var middle := if Handled(s, lobby, callbacks).unsettled then [L.MembersChanged(ending.settle)] else [];
    var last := [L.Connects(ending.now, ending.handles), L.Receives(ending.inbox)];
    assert PassOf(s, lobby, callbacks, ending) == EventsOf(lobby, callbacks) + (middle + last);
    HandledIsRun(s, lobby, callbacks, middle + last);
    var t := Handled(s, lobby, callbacks);
    if t.unsettled {
      assert (middle + last)[1..] == last;
    } else {
      assert middle + last == last;
    }
    var ready := Ready(s, lobby, callbacks, ending);
    LastIsRun(ready, ending);
  }

  /** Nothing waits after a call of `process`: all Steam handed over has been returned. */
  lemma PassReturnsAll(s: L.Session, lobby: LobbyId, callbacks: seq<Callback>, ending: Ending)
    requires L.Ok(s) && L.Told(s) && L.Scheduled(s) && L.PromisedRun(s, PassOf(s, lobby, callbacks, ending))
    ensures var t := L.After(s, PassOf(s, lobby, callbacks, ending));
      t.drained == [] && t.books.returned == t.books.handed
  {
    hide L.Ok, L.Scheduled, L.PromisedRun, L.After, L.UpdateMembers, L.ConnectionChanged, L.Connect;
    PassIsRun(s, lobby, callbacks, ending);
    L.RunKeeps(s, PassOf(s, lobby, callbacks, ending));
  }

  // The order of the peers

  lemma OnceNext(order: seq<SteamId>, i: nat)
    requires L.Once(order) && i < |order|
    ensures order[..i + 1] == order[..i] + [order[i]] && order[i] !in order[..i]
  {
  }

  lemma {:induction false} KeepAppend(order: seq<SteamId>, x: SteamId, ids: set<SteamId>)
    ensures L.Keep(order + [x], ids) == L.Keep(order, ids) + (if x in ids then [x] else [])
    decreases |order|
  {
    if order == [] {
      assert order + [x] == [x];
    } else {
      assert (order + [x])[1..] == order[1..] + [x];
      KeepAppend(order[1..], x, ids);
    }
  }

  lemma ConnectReturned(s: L.Session, now: real, handles: map<SteamId, L.Handle>)
    requires L.DueIds(s, now) <= handles.Keys
    ensures L.Connect(s, now, handles).books.returned == s.books.returned
  {
  }

  lemma CollectNext(got: seq<L.Receipt>, order: seq<SteamId>, peers: map<SteamId, L.Peer>,
                    inbox: map<L.Handle, seq<Bytes>>)
    requires order != [] && order[0] in peers
    ensures got + L.Collect(order, peers, inbox)
         == (got + (if peers[order[0]].connected then L.Waiting(inbox, order[0], peers[order[0]].connection) else []))
            + L.Collect(order[1..], peers, inbox)
  {
  }

  function Among(ids: set<SteamId>, done: seq<SteamId>): set<SteamId> { set x | x in ids && x in done }

  function Reaching(peer: L.Peer, h: L.Handle): L.Peer { peer.(ended := "", retryAt := None, connection := h) }

  function Reached(peers: map<SteamId, L.Peer>, due: set<SteamId>,
                   handles: map<SteamId, L.Handle>): map<SteamId, L.Peer>
    requires due <= handles.Keys
  {
    map x | x in peers :: if x in due then Reaching(peers[x], handles[x]) else peers[x]
  }

  function Taken(due: set<SteamId>, handles: map<SteamId, L.Handle>): set<L.Handle>
    requires due <= handles.Keys
  {
    set x | x in due :: handles[x]
  }

  /** What the connecting loop has done once it has passed the peers in done. */
  function ConnectedTo(s: L.Session, done: seq<SteamId>, now: real, handles: map<SteamId, L.Handle>): L.Session
    requires L.DueIds(s, now) <= handles.Keys
  {
    var due := Among(L.DueIds(s, now), done);
    s.(peers := Reached(s.peers, due, handles),
       books := s.books.(
         given := s.books.given + Taken(due, handles),
         connects := s.books.connects + L.Keep(done, L.DueIds(s, now))))
  }

  lemma AmongOne(ids: set<SteamId>, done: seq<SteamId>, id: SteamId)
    ensures Among(ids, done + [id]) == if id in ids then Among(ids, done) + {id} else Among(ids, done)
  {
  }

  predicate CanConnect(s: L.Session, id: SteamId, now: real, handles: map<SteamId, L.Handle>) {
    id in s.peers && (L.Due(s.peers[id], now) ==> id in handles)
  }

  /** One turn of the connecting loop. */
  function ConnectOne(s: L.Session, id: SteamId, now: real, handles: map<SteamId, L.Handle>): L.Session
    requires CanConnect(s, id, now, handles)
  {
    if L.Due(s.peers[id], now) then
      s.(peers := s.peers[id := Reaching(s.peers[id], handles[id])],
         books := s.books.(given := s.books.given + {handles[id]}, connects := s.books.connects + [id]))
    else s
  }

  lemma ConnectedNone(s: L.Session, now: real, handles: map<SteamId, L.Handle>)
    requires L.DueIds(s, now) <= handles.Keys
    ensures ConnectedTo(s, [], now, handles) == s
  {
  }

  lemma ConnectedAll(s: L.Session, now: real, handles: map<SteamId, L.Handle>)
    requires L.DueIds(s, now) <= handles.Keys && !s.paused
    requires forall x :: x in s.peers ==> x in s.order
    ensures ConnectedTo(s, s.order, now, handles) == L.Connect(s, now, handles)
  {
  }

  lemma ReachedOne(peers: map<SteamId, L.Peer>, due: set<SteamId>, id: SteamId, handles: map<SteamId, L.Handle>)
    requires due + {id} <= handles.Keys && id in peers
    ensures Reached(peers, due + {id}, handles) == Reached(peers, due, handles)[id := Reaching(peers[id], handles[id])]
    ensures Taken(due + {id}, handles) == Taken(due, handles) + {handles[id]}
  {
  }

  lemma ConnectedOne(s: L.Session, done: seq<SteamId>, id: SteamId, now: real, handles: map<SteamId, L.Handle>)
    requires L.DueIds(s, now) <= handles.Keys && id in s.peers && id !in done
    ensures CanConnect(ConnectedTo(s, done, now, handles), id, now, handles)
    ensures ConnectedTo(s, done + [id], now, handles).peers.Keys == s.peers.Keys
    ensures ConnectedTo(s, done + [id], now, handles) ==
      ConnectOne(ConnectedTo(s, done, now, handles), id, now, handles)
  {
    hide L.Keep, L.Due, Taken;
    AmongOne(L.DueIds(s, now), done, id);
    KeepAppend(done, id, L.DueIds(s, now));
    if L.Due(s.peers[id], now) {
      ReachedOne(s.peers, Among(L.DueIds(s, now), done), id, handles);
    } else {
      assert id !in L.DueIds(s, now);
    }
  }

  /** What the resuming loop has done once it has passed the peers in done. */
  function Hastened(peers: map<SteamId, L.Peer>, done: seq<SteamId>, now: real): (r: map<SteamId, L.Peer>)
    ensures r.Keys == peers.Keys
  {
    map x | x in peers :: if x in done && peers[x].retryAt.Some? then peers[x].(retryAt := Some(now)) else peers[x]
  }

  lemma HastenedNone(peers: map<SteamId, L.Peer>, now: real)
    ensures Hastened(peers, [], now) == peers
  {
  }

  lemma HastenedAll(s: L.Session, now: real)
    requires forall x :: x in s.peers ==> x in s.order
    ensures L.Hasten(s, now) == s.(peers := Hastened(s.peers, s.order, now), books := L.Hasten(s, now).books)
  {
  }

  lemma HastenedOne(peers: map<SteamId, L.Peer>, done: seq<SteamId>, id: SteamId, now: real)
    requires id in peers && id !in done
    ensures Hastened(peers, done, now)[id] == peers[id]
    ensures Hastened(peers, done + [id], now) ==
      if peers[id].retryAt.Some? then Hastened(peers, done, now)[id := peers[id].(retryAt := Some(now))]
      else Hastened(peers, done, now)
  {
  }

  class LobbySession {
    const local: SteamId
    const lobby: LobbyId
    const socket: L.Handle
    var peers: map<SteamId, L.Peer>
    var order: seq<SteamId>  // in which the peers joined
    var paused: bool
    var unsettled: bool
    var drained: seq<L.Receipt>
    ghost var books: L.Books

    ghost predicate Valid()
      reads this
    {
      && (forall x :: x in order <==> x in peers)
      && L.Once(order)
    }

    ghost function State(): L.Session
      reads this
    {
      L.Session(local, socket, peers, order, paused, unsettled, drained, books)
    }

    /** The peers a message can be sent to. */
    function ConnectedPeers(): (ids: seq<SteamId>)
      reads this
      ensures forall x :: x in ids <==> x in order && x in peers && peers[x].connected
    {
      L.Keep(order, set x | x in peers && peers[x].connected)
    }

    constructor (local: SteamId, lobby: LobbyId, socket: L.Handle, answers: L.Answers)
      ensures Valid() && this.local == local && this.lobby == lobby && this.socket == socket
      ensures State() == L.UpdateMembers(L.Begin(local, socket), answers.members, answers.inbox)
    {
      this.local, this.lobby, this.socket := local, lobby, socket;
      peers, order, paused, unsettled, drained := map[], [], false, false, [];
      books := L.Begin(local, socket).books;
      new;
      UpdateMembers(answers);
    }

    method UpdateMembers(answers: L.Answers)
      requires Valid()
      modifies this
      ensures Valid() && State() == L.UpdateMembers(old(State()), answers.members, answers.inbox)
    {
      if answers.members.None? || local !in answers.members.value {
        unsettled := true;
        return;
      }
      unsettled := false;
      var others := answers.members.value - {local};
      SortedAscends(others - peers.Keys);
      assert forall i :: 0 <= i < |SortedIds(others - peers.Keys)| ==> SortedIds(others - peers.Keys)[i] !in peers by {
        SortedMembers(others - peers.Keys);
      }
      AddPeers(SortedIds(others - peers.Keys));
      DropPeers(SortedIds(peers.Keys - others), answers.inbox);
    }

    method AddPeers(joining: seq<SteamId>)
      requires Valid() && Ascending(joining) && forall i :: 0 <= i < |joining| ==> joining[i] !in peers
      modifies `peers, `order
      ensures Valid() && State() == L.AddAll(old(State()), joining)
    {
      for i := 0 to |joining|
        invariant Valid() && forall j :: i <= j < |joining| ==> joining[j] !in peers
        invariant L.AddAll(State(), joining[i..]) == old(L.AddAll(State(), joining))
      {
        peers := peers[joining[i] := L.NewPeer(local, joining[i])];
        order := order + [joining[i]];
      }
    }

    method DropPeers(leaving: seq<SteamId>, inbox: map<L.Handle, seq<Bytes>>)
      requires Valid()
      modifies `peers, `order, `drained, `books
      ensures Valid() && State() == L.DropAll(old(State()), leaving, inbox)
    {
      hide L.Close, L.Once, L.Keep;
      for i := 0 to |leaving|
        invariant Valid()
        invariant L.DropAll(State(), leaving[i..], inbox) == old(L.DropAll(State(), leaving, inbox))
      {
        if leaving[i] in peers {
          ClosePeer(leaving[i], L.LEFT, inbox);
          L.KeepOnce(order, peers.Keys - {leaving[i]});
          order := L.Keep(order, peers.Keys - {leaving[i]});
          peers := peers - {leaving[i]};
          books := books.(shut := books.shut - {leaving[i]});
        }
      }
    }

    /** Reads what still waits on the connection, closes it, and notes why. */
    method ClosePeer(id: SteamId, reason: L.Reason, inbox: map<L.Handle, seq<Bytes>>)
      requires Valid() && id in peers
      modifies `peers, `drained, `books
      ensures Valid() && State() == L.Close(old(State()), id, reason, inbox)
    {
      hide L.Waiting;
      var peer := peers[id];
      var got := if peer.connected then L.Waiting(inbox, id, peer.connection) else [];
      drained := drained + got;
      books := books.(handed := books.handed + got, shut := L.Shut(books.shut, id, reason));
      if peer.connection != 0 {
        books := L.CloseHandle(books, peer.connection);
      }
      peers := peers[id := peer.(connection := 0, connected := false, ended := reason.text, retryAt := None)];
    }

    /** One pass: what Steam reported, then new connections, then messages. */
    method Process(callbacks: seq<Callback>, ending: Ending) returns (received: seq<L.Receipt>)
      requires Valid() && Offered(State(), lobby, callbacks, ending)
      modifies this
      ensures Valid() && State() == Processed(old(State()), lobby, callbacks, ending)
      ensures books.returned == Ready(old(State()), lobby, callbacks, ending).books.returned + received
    {
      hide L.UpdateMembers, L.Connect, Handled;
      HandleAll(callbacks);
      if unsettled {
        UpdateMembers(ending.settle);
      }
      ConnectReturned(State(), ending.now, ending.handles);
      Connect(ending.now, ending.handles);
      received := Receive(ending.inbox);
    }

    method HandleAll(callbacks: seq<Callback>)
      requires Valid()
      modifies this
      ensures Valid() && State() == Handled(old(State()), lobby, callbacks)
    {
      for i := 0 to |callbacks|
        invariant Valid() && Handled(State(), lobby, callbacks[i..]) == old(Handled(State(), lobby, callbacks))
      {
        match callbacks[i]
        case MemberUpdate(other, answers) =>
          if other == lobby {
            UpdateMembers(answers);
          }
        case ConnectionUpdate(event, answers, now) =>
          ConnectionChanged(event, answers, now);
      }
    }

    method HolderOf(h: L.Handle) returns (holder: Option<SteamId>)
      requires Valid()
      ensures holder == L.Holder(order, peers, h)
    {
      for i := 0 to |order|
        invariant L.Holder(order[i..], peers, h) == L.Holder(order, peers, h)
      {
        if peers[order[i]].connection == h {
          return Some(order[i]);
        }
      }
      return None;
    }

    method ConnectionChanged(event: L.Status, answers: L.Answers, now: real)
      requires Valid()
      modifies this
      ensures Valid() && State() == L.ConnectionChanged(old(State()), event, answers, now)
    {
      var holder := HolderOf(event.connection);
      if holder.None? {
        if event.Incoming() && event.listenSocket == socket {
          Accept(event, answers);
        } else if event.Ended() {
          books := L.CloseHandle(books, event.connection);
        }
        return;
      }
      var id := holder.value;
      if event.remote.Some? && event.remote.value != id {
        ClosePeer(id, L.MISIDENTIFIED, answers.inbox);
      } else if event.state.Up? && !peers[id].connected {
        peers := peers[id := peers[id].(connected := true, wasConnected := true)];
      } else if event.Ended() {
        ClosePeer(id, L.DROPPED, answers.inbox);
        peers := peers[id := peers[id].(retryAt := Some(now + L.RECONNECT_DELAY))];
        books := books.(droppedAt := books.droppedAt[id := now], hastenedAt := books.hastenedAt - {id});
      }
    }

    method Accept(event: L.Status, answers: L.Answers)
      requires Valid()
      modifies this
      ensures Valid() && State() == L.Accept(old(State()), event, answers)
    {
      hide L.UpdateMembers, L.Close, L.Once;
      if event.remote.Some? && event.remote.value !in peers {
        UpdateMembers(answers);
      }
      var welcome := event.remote.Some? && event.remote.value in peers && !peers[event.remote.value].initiator;
      if welcome {
        if peers[event.remote.value].connection != 0 {
          ClosePeer(event.remote.value, L.REPLACED, answers.inbox);
        }
        welcome := answers.accepts;
      }
      books := books.(given := books.given + {event.connection});
      if !welcome {
        books := L.CloseHandle(books, event.connection);
        return;
      }
      var id := event.remote.value;
      peers := peers[id := peers[id].(connection := event.connection, ended := "", retryAt := None)];
      books := books.(shut := books.shut - {id});
    }

    method Connect(now: real, handles: map<SteamId, L.Handle>)
      requires Valid() && L.DueIds(State(), now) <= handles.Keys
      modifies `peers, `books
      ensures Valid() && State() == L.Connect(old(State()), now, handles)
    {
      if paused {
        return;
      }
      hide ConnectedTo, ConnectOne, CanConnect, L.Once, L.Connect, L.DueIds;
      ghost var s := State();
      ConnectedNone(s, now, handles);
      for i := 0 to |order|
        invariant order == s.order && peers.Keys == s.peers.Keys && State() == ConnectedTo(s, order[..i], now, handles)
      {
        OnceNext(order, i);
        ConnectedOne(s, order[..i], order[i], now, handles);
        ConnectPeer(order[i], now, handles);
      }
      assert order[..|order|] == order;
      ConnectedAll(s, now, handles);
    }

    method ConnectPeer(id: SteamId, now: real, handles: map<SteamId, L.Handle>)
      requires CanConnect(State(), id, now, handles)
      modifies `peers, `books
      ensures State() == ConnectOne(old(State()), id, now, handles)
    {
      var peer := peers[id];
      if peer.initiator && peer.connection == 0
         && (peer.ended == "" || (peer.retryAt.Some? && now >= peer.retryAt.value)) {
        peers := peers[id := peer.(ended := "", retryAt := None, connection := handles[id])];
        books := books.(given := books.given + {handles[id]}, connects := books.connects + [id]);
      }
    }

    /** What was drained, then what waits on the open connections. */
    method Receive(inbox: map<L.Handle, seq<Bytes>>) returns (received: seq<L.Receipt>)
      requires Valid()
      modifies `drained, `books
      ensures Valid() && State() == L.Receive(old(State()), inbox)
      ensures books.returned == old(books.returned) + received
    {
      received := drained;
      drained := [];
      var got := Gather(inbox);
      books := books.(handed := books.handed + got, returned := books.returned + received + got);
      received := received + got;
    }

    method Gather(inbox: map<L.Handle, seq<Bytes>>) returns (got: seq<L.Receipt>)
      requires Valid()
      ensures got == L.Collect(order, peers, inbox)
    {
      got := [];
      for i := 0 to |order|
        invariant got + L.Collect(order[i..], peers, inbox) == L.Collect(order, peers, inbox)
      {
        hide L.Collect, L.Waiting;
        assert order[i..][1..] == order[i + 1..];
        CollectNext(got, order[i..], peers, inbox);
        var more := if peers[order[i]].connected then L.Waiting(inbox, order[i], peers[order[i]].connection) else [];
        got := got + more;
      }
    }

    /** The connection to send on, if there is one. */
    method Send(id: SteamId) returns (connection: Result<L.Handle>)
      ensures connection.Ok? <==> id in peers && peers[id].connected
      ensures connection.Ok? ==> connection.value == peers[id].connection
    {
      if id !in peers || !peers[id].connected {
        return Error("not connected");
      }
      return Ok(peers[id].connection);
    }

    method Disconnect(id: SteamId, reason: string, inbox: map<L.Handle, seq<Bytes>>)
      requires Valid()
      modifies `peers, `drained, `books
      ensures Valid() && State() == L.Disconnect(old(State()), id, reason, inbox)
    {
      if id in peers {
        ClosePeer(id, L.Reason(reason, true), inbox);
      }
    }

    method Close(inbox: map<L.Handle, seq<Bytes>>)
      requires Valid()
      modifies `peers, `drained, `books
      ensures Valid() && State() == L.CloseEach(old(State()), order, inbox)
    {
      for i := 0 to |order|
        invariant Valid() && L.CloseEach(State(), order[i..], inbox) == old(L.CloseEach(State(), order, inbox))
      {
        ClosePeer(order[i], L.SESSION_CLOSED, inbox);
      }
    }

    method Pause()
      modifies `paused
      ensures State() == old(State()).(paused := true)
    {
      paused := true;
    }

    method Resume(now: real, answers: L.Answers)
      requires Valid()
      modifies this
      ensures Valid() && State() == L.Resume(old(State()), now, answers)
    {
      paused := false;
      UpdateMembers(answers);
      Hasten(now);
    }

    method Hasten(now: real)
      requires Valid()
      modifies `peers, `books
      ensures Valid() && State() == L.Hasten(old(State()), now)
    {
      hide Hastened, L.Once, L.Hasten;
      ghost var s, before := peers, State();
      HastenedNone(s, now);
      for i := 0 to |order|
        invariant State() == before.(peers := Hastened(s, order[..i], now))
      {
        OnceNext(order, i);
        HastenedOne(s, order[..i], order[i], now);
        var peer := peers[order[i]];
        if peer.retryAt.Some? {
          peers := peers[order[i] := peer.(retryAt := Some(now))];
        }
      }
      assert order[..|order|] == order;
      HastenedAll(before, now);
      books := L.Hasten(before, now).books;
    }
  }
}
