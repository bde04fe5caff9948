/**
 The connections a session keeps to the other members of a lobby, as functions
 (src/steamlan/steam/session.py): the specification of the class in
 LobbySession.dfy, and what holds over every run of it.
 */
module LobbyLinks {
  import opened Basics
  import opened Ipv4
  import opened Roster

  // A SteamNetworkingSockets connection or listen socket; 0 is none.
  type Handle = nat

  const RECONNECT_DELAY := 5.0

  datatype ConnectionState = Opening | FindingRoute | Up | ClosedByPeer | ProblemDetectedLocally | Other

  datatype Status = Status(connection: Handle, state: ConnectionState, remote: Option<SteamId>, listenSocket: Handle)
  {
    predicate Incoming() { state.Opening? && listenSocket != 0 }

    predicate Ended() { state.ClosedByPeer? || state.ProblemDetectedLocally? }
  }

  /** Of two members, the one with the lower SteamID connects and the other accepts. */
  predicate Initiates(local: SteamId, remote: SteamId) { local < remote }

  datatype Peer = Peer(
    initiator: bool,
    connection: Handle,
    connected: bool,
    ended: string,
    retryAt: Option<real>,
    wasConnected: bool)

  function NewPeer(local: SteamId, id: SteamId): Peer {
    Peer(Initiates(local, id), 0, false, "", None, false)
  }

  /** A message Steam handed over, with the connection it came on. */
  datatype Receipt = Receipt(from: SteamId, connection: Handle, data: Bytes)

  /** What has passed between the session and Steam: handles Steam gave, connections
      closed, whom it connected to, messages handed over, and messages passed on to the
      caller; when each peer's connection last dropped, when it was last hastened by a
      resume since; and the peers closed on purpose. */
  datatype Books = Books(
    given: set<Handle>,
    closed: multiset<Handle>,
    connects: seq<SteamId>,
    handed: seq<Receipt>,
    returned: seq<Receipt>,
    droppedAt: map<SteamId, real>,
    hastenedAt: map<SteamId, real>,
    shut: set<SteamId>)

  datatype Session = Session(
    local: SteamId,
    socket: Handle,
    peers: map<SteamId, Peer>,
    order: seq<SteamId>,  // of the dict's keys
    paused: bool,
    unsettled: bool,
    drained: seq<Receipt>,
    books: Books)

  /** What Steam answers during one step: the lobby's members (None if unreadable), the
      messages waiting on each connection, and whether it accepts the incoming one. */
  datatype Answers = Answers(members: Option<set<SteamId>>, inbox: map<Handle, seq<Bytes>>, accepts: bool)

  // Closing

  function Waiting(inbox: map<Handle, seq<Bytes>>, id: SteamId, h: Handle): (r: seq<Receipt>)
    ensures forall i :: 0 <= i < |r| ==> r[i].from == id && r[i].connection == h
  {
    if h in inbox then seq(|inbox[h]|, i requires 0 <= i < |inbox[h]| => Receipt(id, h, inbox[h][i])) else []
  }

  function CloseHandle(b: Books, h: Handle): Books { b.(closed := b.closed + multiset{h}) }

  /** Why a connection is closed, and whether that is meant to be for good. */
  datatype Reason = Reason(text: string, onPurpose: bool)

  function Closed(p: Peer, reason: string): Peer {
    p.(connection := 0, connected := false, ended := reason, retryAt := None)
  }

  function Shut(shut: set<SteamId>, id: SteamId, reason: Reason): set<SteamId> {
    if reason.onPurpose && reason.text != "" then shut + {id} else shut - {id}
  }

  function Close(s: Session, id: SteamId, reason: Reason, inbox: map<Handle, seq<Bytes>>): Session
    requires id in s.peers
  {
    var p := s.peers[id];
    var got := if p.connected then Waiting(inbox, id, p.connection) else [];
    var books := s.books.(handed := s.books.handed + got, shut := Shut(s.books.shut, id, reason));
    s.(peers := s.peers[id := Closed(p, reason.text)],
       drained := s.drained + got,
       books := if p.connection != 0 then CloseHandle(books, p.connection) else books)
  }

  // Following the member list

  function Keep(order: seq<SteamId>, ids: set<SteamId>): (r: seq<SteamId>)
    ensures forall x :: x in r <==> x in order && x in ids
    ensures |r| <= |order|
  {
    if order == [] then []
    else if order[0] in ids then [order[0]] + Keep(order[1..], ids)
    else Keep(order[1..], ids)
  }

  const LEFT := Reason("left the lobby", false)

  function Forget(s: Session, id: SteamId): Session {
    s.(peers := s.peers - {id}, order := Keep(s.order, s.peers.Keys - {id}),
        books := s.books.(shut := s.books.shut - {id}))
  }

  function Drop(s: Session, id: SteamId, inbox: map<Handle, seq<Bytes>>): Session
    requires id in s.peers
  {
    Forget(Close(s, id, LEFT, inbox), id)
  }

  function DropAll(s: Session, ids: seq<SteamId>, inbox: map<Handle, seq<Bytes>>): Session
    decreases |ids|
  {
    if ids == [] then s
    else DropAll(if ids[0] in s.peers then Drop(s, ids[0], inbox) else s, ids[1..], inbox)
  }

  function AddAll(s: Session, ids: seq<SteamId>): Session
    decreases |ids|
  {
    if ids == [] then s
    else AddAll(s.(peers := s.peers[ids[0] := NewPeer(s.local, ids[0])], order := s.order + [ids[0]]), ids[1..])
  }

  function UpdateMembers(s: Session, members: Option<set<SteamId>>, inbox: map<Handle, seq<Bytes>>): Session {
    if members.None? || s.local !in members.value then s.(unsettled := true)
    else
      var others := members.value - {s.local};
      var added := AddAll(s.(unsettled := false), SortedIds(others - s.peers.Keys));
      DropAll(added, SortedIds(added.peers.Keys - others), inbox)
  }

  // Connection changes

  /** The peer a connection belongs to. */
  function Holder(order: seq<SteamId>, peers: map<SteamId, Peer>, h: Handle): (r: Option<SteamId>)
    ensures r.Some? ==> r.value in peers && peers[r.value].connection == h
    ensures r.None? ==> forall x :: x in order && x in peers ==> peers[x].connection != h
  {
    if order == [] then None
    else if order[0] in peers && peers[order[0]].connection == h then Some(order[0])
    else Holder(order[1..], peers, h)
  }

  const REPLACED := Reason("replaced by a new connection from the peer", false)
  const MISIDENTIFIED := Reason("connection identified as somebody else", true)
  const DROPPED := Reason("the connection ended", false)
  const SESSION_CLOSED := Reason("session closed", true)

  function Give(s: Session, h: Handle): Session {
    s.(books := s.books.(given := s.books.given + {h}))
  }

  function Reject(s: Session, h: Handle): Session { s.(books := CloseHandle(s.books, h)) }

  function Adopt(s: Session, id: SteamId, h: Handle): Session
    requires id in s.peers
  {
    s.(peers := s.peers[id := s.peers[id].(connection := h, ended := "", retryAt := None)],
       books := s.books.(shut := s.books.shut - {id}))
  }

  function Accept(s: Session, event: Status, answers: Answers): Session {
    var known :=
      if event.remote.Some? && event.remote.value !in s.peers
      then UpdateMembers(s, answers.members, answers.inbox) else s;
    if event.remote.None? || event.remote.value !in known.peers || known.peers[event.remote.value].initiator then
      Reject(Give(known, event.connection), event.connection)
    else
      var id := event.remote.value;
      var free := if known.peers[id].connection != 0 then Close(known, id, REPLACED, answers.inbox) else known;
      if answers.accepts then Adopt(Give(free, event.connection), id, event.connection)
      else Reject(Give(free, event.connection), event.connection)
  }

  function Schedule(s: Session, id: SteamId, now: real): Session
    requires id in s.peers
  {
    s.(peers := s.peers[id := s.peers[id].(retryAt := Some(now + RECONNECT_DELAY))],
       books := s.books.(droppedAt := s.books.droppedAt[id := now], hastenedAt := s.books.hastenedAt - {id}))
  }

  function ConnectionChanged(s: Session, event: Status, answers: Answers, now: real): Session {
    var holder := Holder(s.order, s.peers, event.connection);
    if holder.None? then
      if event.Incoming() && event.listenSocket == s.socket then Accept(s, event, answers)
      else if event.Ended() then Reject(s, event.connection)
      else s
    else
      var id := holder.value;
      if event.remote.Some? && event.remote.value != id then Close(s, id, MISIDENTIFIED, answers.inbox)
      else if event.state.Up? && !s.peers[id].connected then
        s.(peers := s.peers[id := s.peers[id].(connected := true, wasConnected := true)])
      else if event.Ended() then Schedule(Close(s, id, DROPPED, answers.inbox), id, now)
      else s
  }

  // Connecting, receiving, disconnecting

  predicate Due(p: Peer, now: real) {
    p.initiator && p.connection == 0 && (p.ended != "" ==> p.retryAt.Some? && now >= p.retryAt.value)
  }

  function DueIds(s: Session, now: real): set<SteamId> { set id | id in s.peers && Due(s.peers[id], now) }

  /** Every peer that is due gets the handle Steam gives for it. */
  function Connect(s: Session, now: real, handles: map<SteamId, Handle>): Session
    requires DueIds(s, now) <= handles.Keys
  {
    if s.paused then s
    else
      var due := DueIds(s, now);
      s.(peers := map id | id in s.peers ::
           if id in due then s.peers[id].(ended := "", retryAt := None, connection := handles[id]) else s.peers[id],
         books := s.books.(
           given := s.books.given + (set id | id in due :: handles[id]),
           connects := s.books.connects + Keep(s.order, due)))
  }

  function Collect(order: seq<SteamId>, peers: map<SteamId, Peer>, inbox: map<Handle, seq<Bytes>>): (r: seq<Receipt>)
    ensures forall i :: 0 <= i < |r| ==>
      r[i].from in peers && peers[r[i].from].connected && r[i].connection == peers[r[i].from].connection
  {
    if order == [] then []
    else
      (if order[0] in peers && peers[order[0]].connected then Waiting(inbox, order[0], peers[order[0]].connection)
       else [])
      + Collect(order[1..], peers, inbox)
  }

  /** The end of `process`: what was drained, then what waits on the open connections. */
  function Receive(s: Session, inbox: map<Handle, seq<Bytes>>): Session {
    var got := Collect(s.order, s.peers, inbox);
    s.(drained := [],
       books := s.books.(handed := s.books.handed + got, returned := s.books.returned + s.drained + got))
  }

  function Disconnect(s: Session, id: SteamId, reason: string, inbox: map<Handle, seq<Bytes>>): Session {
    if id in s.peers then Close(s, id, Reason(reason, true), inbox) else s
  }

  function CloseEach(s: Session, ids: seq<SteamId>, inbox: map<Handle, seq<Bytes>>): Session
    decreases |ids|
  {
    if ids == [] then s
    else CloseEach(if ids[0] in s.peers then Close(s, ids[0], SESSION_CLOSED, inbox) else s, ids[1..], inbox)
  }

  /** Every waiting retry is due at once. */
  function Hasten(s: Session, now: real): Session {
    s.(peers := map id | id in s.peers ::
         if s.peers[id].retryAt.Some? then s.peers[id].(retryAt := Some(now)) else s.peers[id],
       books := s.books.(hastenedAt := s.books.hastenedAt +
         (map id | id in s.peers && s.peers[id].retryAt.Some? :: now)))
  }

  function Resume(s: Session, now: real, answers: Answers): Session {
    Hasten(UpdateMembers(s.(paused := false), answers.members, answers.inbox), now)
  }

  // Runs

  datatype Event =
    | MembersChanged(answers: Answers)
    | StatusChanged(event: Status, answers: Answers, now: real)
    | Connects(now: real, handles: map<SteamId, Handle>)
    | Receives(inbox: map<Handle, seq<Bytes>>)
    | Disconnects(id: SteamId, reason: string, inbox: map<Handle, seq<Bytes>>)
    | Closes(inbox: map<Handle, seq<Bytes>>)
    | Pauses
    | Resumes(now: real, answers: Answers)

  function Step(s: Session, e: Event): Session
    requires e.Connects? ==> DueIds(s, e.now) <= e.handles.Keys
  {
    match e
    case MembersChanged(answers) => UpdateMembers(s, answers.members, answers.inbox)
    case StatusChanged(event, answers, now) => ConnectionChanged(s, event, answers, now)
    case Connects(now, handles) => Connect(s, now, handles)
    case Receives(inbox) => Receive(s, inbox)
    case Disconnects(id, reason, inbox) => Disconnect(s, id, reason, inbox)
    case Closes(inbox) => CloseEach(s, s.order, inbox)
    case Pauses => s.(paused := true)
    case Resumes(now, answers) => Resume(s, now, answers)
  }

  /** What Steam promises: handles are fresh and never 0, members have real ids. */
  predicate Promised(s: Session, e: Event) {
    match e
    case MembersChanged(answers) => true
    case StatusChanged(event, answers, now) =>
      event.connection != 0
      && (event.Incoming() && Holder(s.order, s.peers, event.connection).None? ==>
            event.connection !in s.books.given && event.connection !in s.books.closed)
    case Connects(now, handles) =>
      && DueIds(s, now) <= handles.Keys
      && (forall x :: x in handles ==> handles[x] != 0 && handles[x] !in s.books.given && handles[x] !in s.books.closed)
      && (forall x, y :: (x in handles && y in handles && handles[x] == handles[y]) ==> x == y)
    case _ => true
  }

  // What holds in every state

  ghost predicate PeerOk(s: Session, id: SteamId)
    requires id in s.peers
  {
    var p := s.peers[id];
    && p.initiator == Initiates(s.local, id)
    && (p.connected ==> p.connection != 0)
    && (p.connection != 0 ==> p.ended == "")
    && (p.retryAt.Some? ==> p.connection == 0 && p.ended != "")
    && (p.connection != 0 ==> p.connection in s.books.given && p.connection !in s.books.closed)
  }

  ghost predicate Held(s: Session, h: Handle) {
    exists id :: id in s.peers && s.peers[id].connection == h
  }

  /** Every handle Steam gave is either closed or the connection of exactly one peer. */
  ghost predicate Conserved(s: Session) {
    && 0 !in s.books.given
    && (forall h :: h in s.books.given ==> h in s.books.closed || Held(s, h))
    && (forall x, y ::
          (x in s.peers && y in s.peers && s.peers[x].connection != 0 && s.peers[x].connection == s.peers[y].connection)
          ==> x == y)
  }

  /** The keys' order is right. */
  ghost predicate Ordered(s: Session) {
    && (forall x :: x in s.order <==> x in s.peers)
    && s.local !in s.peers
  }

  ghost predicate Ok(s: Session) {
    Ordered(s) && Conserved(s) && forall id :: id in s.peers ==> PeerOk(s, id)
  }

  /** What a session starts as, before it reads the member list. */
  function Begin(local: SteamId, socket: Handle): Session {
    Session(local, socket, map[], [], false, false, [], Books({}, multiset{}, [], [], [], map[], map[], {}))
  }

  // Steps keep it

  /** Nothing is opened: connections may be closed, and only those that were held. */
  ghost predicate OnlyCloses(s: Session, t: Session) {
    && t.local == s.local && t.socket == s.socket && t.books.given == s.books.given
    && t.books.connects == s.books.connects
    && t.books.returned == s.books.returned
    && (forall x :: x in t.peers && t.peers[x].connection != 0 ==>
         x in s.peers && t.peers[x].connection == s.peers[x].connection)
    && (forall h :: h in s.books.closed ==> h in t.books.closed)
    && (forall h :: h in t.books.closed ==> h in s.books.closed || (h != 0 && Held(s, h)))
  }

  lemma OnlyClosesNothing(s: Session)
    ensures OnlyCloses(s, s)
  {
  }

  lemma OnlyClosesJoin(s: Session, t: Session, u: Session)
    requires OnlyCloses(s, t) && OnlyCloses(t, u)
    ensures OnlyCloses(s, u)
  {
  }

  lemma CloseOnly(s: Session, id: SteamId, reason: Reason, inbox: map<Handle, seq<Bytes>>)
    requires id in s.peers
    ensures OnlyCloses(s, Close(s, id, reason, inbox))
  {
  }

  lemma CloseHolds(s: Session, id: SteamId, reason: Reason, inbox: map<Handle, seq<Bytes>>, h: Handle)
    requires Ok(s) && id in s.peers && h in s.books.given
    ensures h in Close(s, id, reason, inbox).books.closed || Held(Close(s, id, reason, inbox), h)
  {
    var t := Close(s, id, reason, inbox);
    if h !in s.books.closed {
      var x :| x in s.peers && s.peers[x].connection == h;
      assert x != id ==> x in t.peers && t.peers[x].connection == h;
    }
  }

  lemma CloseKeeps(s: Session, id: SteamId, reason: Reason, inbox: map<Handle, seq<Bytes>>)
    requires Ok(s) && id in s.peers
    ensures Ok(Close(s, id, reason, inbox)) && OnlyCloses(s, Close(s, id, reason, inbox))
  {
    hide Held, Waiting, OnlyCloses;
    var t := Close(s, id, reason, inbox);
    CloseOnly(s, id, reason, inbox);
    forall x | x in t.peers ensures PeerOk(t, x) {
      assert PeerOk(s, x);
    }
    forall h | h in t.books.given ensures h in t.books.closed || Held(t, h) {
      CloseHolds(s, id, reason, inbox, h);
    }
  }

  lemma ForgetKeeps(s: Session, id: SteamId)
    requires Ok(s) && id in s.peers && s.peers[id].connection == 0
    ensures Ok(Forget(s, id)) && OnlyCloses(s, Forget(s, id)) && Forget(s, id).peers.Keys == s.peers.Keys - {id}
  {
    var t := Forget(s, id);
    forall x | x in t.peers ensures PeerOk(t, x) {
      assert PeerOk(s, x);
    }
    forall h | h in t.books.given ensures h in t.books.closed || Held(t, h) {
      if h !in s.books.closed {
        var x :| x in s.peers && s.peers[x].connection == h;
        assert x in t.peers && t.peers[x].connection == h;
      }
    }
  }

  lemma DropKeeps(s: Session, id: SteamId, inbox: map<Handle, seq<Bytes>>)
    requires Ok(s) && id in s.peers
    ensures Ok(Drop(s, id, inbox)) && OnlyCloses(s, Drop(s, id, inbox))
    ensures Drop(s, id, inbox).peers.Keys == s.peers.Keys - {id}
  {
    var t := Close(s, id, LEFT, inbox);
    CloseKeeps(s, id, LEFT, inbox);
    ForgetKeeps(t, id);
    OnlyClosesJoin(s, t, Forget(t, id));
  }

  lemma {:induction false} DropAllKeeps(s: Session, ids: seq<SteamId>, inbox: map<Handle, seq<Bytes>>)
    requires Ok(s)
    ensures Ok(DropAll(s, ids, inbox)) && OnlyCloses(s, DropAll(s, ids, inbox))
    ensures forall x :: x in DropAll(s, ids, inbox).peers <==> x in s.peers && x !in ids
    decreases |ids|
  {
    if ids != [] {
      var t := if ids[0] in s.peers then Drop(s, ids[0], inbox) else s;
      if ids[0] in s.peers {
        DropKeeps(s, ids[0], inbox);
      }
      DropAllKeeps(t, ids[1..], inbox);
      OnlyClosesJoin(s, t, DropAll(t, ids[1..], inbox));
    }
  }

  lemma AddKeeps(s: Session, id: SteamId)
    requires Ok(s) && id !in s.peers && id != s.local
    ensures var t := s.(peers := s.peers[id := NewPeer(s.local, id)], order := s.order + [id]);
      Ok(t) && OnlyCloses(s, t)
  {
    var t := s.(peers := s.peers[id := NewPeer(s.local, id)], order := s.order + [id]);
    forall x | x in t.peers ensures PeerOk(t, x) {
      assert x != id ==> PeerOk(s, x);
    }
    forall h | h in t.books.given ensures h in t.books.closed || Held(t, h) {
      if h !in s.books.closed {
        var x :| x in s.peers && s.peers[x].connection == h;
        assert t.peers[x].connection == h;
      }
    }
  }

  lemma {:induction false} AddAllKeeps(s: Session, ids: seq<SteamId>)
    requires Ok(s) && Ascending(ids) && forall i :: 0 <= i < |ids| ==> ids[i] !in s.peers && ids[i] != s.local
    ensures Ok(AddAll(s, ids)) && OnlyCloses(s, AddAll(s, ids))
    ensures forall x :: x in AddAll(s, ids).peers <==> x in s.peers || x in ids
    decreases |ids|
  {
    hide Ok, OnlyCloses, NewPeer;
    if ids == [] {
      OnlyClosesNothing(s);
    } else {
      var t := s.(peers := s.peers[ids[0] := NewPeer(s.local, ids[0])], order := s.order + [ids[0]]);
      AddKeeps(s, ids[0]);
      AddAllKeeps(t, ids[1..]);
      OnlyClosesJoin(s, t, AddAll(t, ids[1..]));
    }
  }

  lemma {:induction false} AddAllSettled(s: Session, ids: seq<SteamId>)
    ensures AddAll(s, ids).unsettled == s.unsettled
    decreases |ids|
  {
    if ids != [] {
      AddAllSettled(s.(peers := s.peers[ids[0] := NewPeer(s.local, ids[0])], order := s.order + [ids[0]]), ids[1..]);
    }
  }

  lemma AddMissing(s: Session, others: set<SteamId>)
    requires Ok(s) && s.local !in others
    ensures var t := AddAll(s, SortedIds(others - s.peers.Keys));
      Ok(t) && OnlyCloses(s, t) && t.peers.Keys == s.peers.Keys + others && t.unsettled == s.unsettled
  {
    hide Ok, OnlyCloses, AddAll;
    var joining := SortedIds(others - s.peers.Keys);
    SortedMembers(others - s.peers.Keys);
    SortedAscends(others - s.peers.Keys);
    forall i | 0 <= i < |joining| ensures joining[i] !in s.peers && joining[i] != s.local {
      assert joining[i] in others - s.peers.Keys;
    }
    AddAllKeeps(s, joining);
    AddAllSettled(s, joining);
  }

  lemma {:induction false} DropAllSettled(s: Session, ids: seq<SteamId>, inbox: map<Handle, seq<Bytes>>)
    ensures DropAll(s, ids, inbox).unsettled == s.unsettled
    decreases |ids|
  {
    if ids != [] {
      DropAllSettled(if ids[0] in s.peers then Drop(s, ids[0], inbox) else s, ids[1..], inbox);
    }
  }

  lemma DropGone(s: Session, others: set<SteamId>, inbox: map<Handle, seq<Bytes>>)
    requires Ok(s)
    ensures var t := DropAll(s, SortedIds(s.peers.Keys - others), inbox);
      Ok(t) && OnlyCloses(s, t) && t.peers.Keys == s.peers.Keys * others && t.unsettled == s.unsettled
  {
    SortedMembers(s.peers.Keys - others);
    DropAllKeeps(s, SortedIds(s.peers.Keys - others), inbox);
    DropAllSettled(s, SortedIds(s.peers.Keys - others), inbox);
  }

  lemma FlagKeeps(s: Session, paused: bool, unsettled: bool, drained: seq<Receipt>)
    requires Ok(s)
    ensures var t := s.(paused := paused, unsettled := unsettled, drained := drained); Ok(t) && OnlyCloses(s, t)
  {
  }

  /** Following the member list: peers come and go only by a list that has this PC in it,
      and then they are exactly its others. */
  lemma UpdateKeeps(s: Session, members: Option<set<SteamId>>, inbox: map<Handle, seq<Bytes>>)
    requires Ok(s)
    ensures var t := UpdateMembers(s, members, inbox);
      && Ok(t) && OnlyCloses(s, t)
      && (if members.Some? && s.local in members.value
          then t.peers.Keys == members.value - {s.local} && !t.unsettled
          else t == s.(unsettled := true))
  {
    hide Ok, OnlyCloses, AddAll, DropAll;
    if members.Some? && s.local in members.value {
      var others := members.value - {s.local};
      var start := s.(unsettled := false);
      FlagKeeps(s, s.paused, false, s.drained);
      AddMissing(start, others);
      var added := AddAll(start, SortedIds(others - start.peers.Keys));
      DropGone(added, others, inbox);
      OnlyClosesJoin(s, start, added);
      OnlyClosesJoin(s, added, DropAll(added, SortedIds(added.peers.Keys - others), inbox));
    } else {
      FlagKeeps(s, s.paused, true, s.drained);
    }
  }

  // Incoming connections and other changes

  lemma AdoptKeeps(s: Session, id: SteamId, h: Handle)
    requires Ok(s) && h != 0 && h !in s.books.given && h !in s.books.closed
    requires id in s.peers && s.peers[id].connection == 0
    ensures Ok(Adopt(Give(s, h), id, h))
  {
    var t := Adopt(Give(s, h), id, h);
    forall x | x in t.peers ensures PeerOk(t, x) {
      assert PeerOk(s, x);
    }
    forall g | g in t.books.given ensures g in t.books.closed || Held(t, g) {
      if g == h {
        assert t.peers[id].connection == h;
      } else if g !in s.books.closed {
        var x :| x in s.peers && s.peers[x].connection == g;
        assert t.peers[x].connection == g;
      }
    }
    assert !Held(s, h) by {
      forall x | x in s.peers ensures s.peers[x].connection != h { assert PeerOk(s, x); }
    }
  }

  lemma GiveRejectKeeps(s: Session, h: Handle)
    requires Ok(s) && h !in s.books.given && h != 0
    ensures Ok(Reject(Give(s, h), h))
  {
  }

  lemma RejectKeeps(s: Session, h: Handle)
    requires Ok(s) && !Held(s, h)
    ensures Ok(Reject(s, h))
  {
  }

  lemma OnlyClosesSelf(s: Session)
    ensures OnlyCloses(s, s)
  {
  }

  lemma CloseFrees(s: Session, id: SteamId, reason: Reason, inbox: map<Handle, seq<Bytes>>)
    requires id in s.peers
    ensures var t := Close(s, id, reason, inbox);
      t.peers.Keys == s.peers.Keys && t.peers[id] == Closed(s.peers[id], reason.text)
      && forall x :: x in s.peers && x != id ==> t.peers[x] == s.peers[x]
  {
  }

  lemma AcceptKeeps(s: Session, event: Status, answers: Answers)
    requires Ok(s) && event.connection != 0 && !Held(s, event.connection)
    requires event.connection !in s.books.given && event.connection !in s.books.closed
    ensures Ok(Accept(s, event, answers))
  {
    hide Ok, UpdateMembers, Close, Give, Reject, Adopt;
    var h := event.connection;
    var known := s;
    OnlyClosesSelf(s);
    if event.remote.Some? && event.remote.value !in s.peers {
      known := UpdateMembers(s, answers.members, answers.inbox);
      UpdateKeeps(s, answers.members, answers.inbox);
    }
    if event.remote.None? || event.remote.value !in known.peers || known.peers[event.remote.value].initiator {
      GiveRejectKeeps(known, h);
    } else {
      var id := event.remote.value;
      var free := known;
      OnlyClosesSelf(known);
      if known.peers[id].connection != 0 {
        free := Close(known, id, REPLACED, answers.inbox);
        CloseKeeps(known, id, REPLACED, answers.inbox);
        CloseFrees(known, id, REPLACED, answers.inbox);
      }
      OnlyClosesJoin(s, known, free);
      if answers.accepts {
        AdoptKeeps(free, id, h);
      } else {
        GiveRejectKeeps(free, h);
      }
    }
  }

  lemma ScheduleKeeps(s: Session, id: SteamId, now: real)
    requires Ok(s) && id in s.peers && s.peers[id].connection == 0 && s.peers[id].ended != ""
    ensures Ok(Schedule(s, id, now))
  {
  }

  lemma UpKeeps(s: Session, id: SteamId)
    requires Ok(s) && id in s.peers && s.peers[id].connection != 0
    ensures Ok(s.(peers := s.peers[id := s.peers[id].(connected := true, wasConnected := true)]))
  {
    var t := s.(peers := s.peers[id := s.peers[id].(connected := true, wasConnected := true)]);
    forall x | x in t.peers ensures PeerOk(t, x) { assert PeerOk(s, x); }
    forall g | g in t.books.given ensures g in t.books.closed || Held(t, g) {
      if g !in s.books.closed {
        var x :| x in s.peers && s.peers[x].connection == g;
        assert t.peers[x].connection == g;
      }
    }
  }

  lemma DropKeepsScheduled(s: Session, id: SteamId, inbox: map<Handle, seq<Bytes>>, now: real)
    requires Ok(s) && id in s.peers
    ensures Ok(Schedule(Close(s, id, DROPPED, inbox), id, now))
  {
    CloseKeeps(s, id, DROPPED, inbox);
    CloseFrees(s, id, DROPPED, inbox);
    ScheduleKeeps(Close(s, id, DROPPED, inbox), id, now);
  }

  lemma NotHeld(s: Session, h: Handle)
    requires Ok(s) && Holder(s.order, s.peers, h).None?
    ensures !Held(s, h)
  {
  }

  lemma ChangeKeeps(s: Session, event: Status, answers: Answers, now: real)
    requires Ok(s) && Promised(s, StatusChanged(event, answers, now))
    ensures Ok(ConnectionChanged(s, event, answers, now))
  {
    hide Ok, Accept, Close, Schedule, Reject, Holder;
    var holder := Holder(s.order, s.peers, event.connection);
    if holder.None? {
      NotHeld(s, event.connection);
      if event.Incoming() && event.listenSocket == s.socket {
        AcceptKeeps(s, event, answers);
      } else if event.Ended() {
        RejectKeeps(s, event.connection);
      }
    } else {
      var id := holder.value;
      if event.remote.Some? && event.remote.value != id {
        CloseKeeps(s, id, MISIDENTIFIED, answers.inbox);
      } else if event.state.Up? && !s.peers[id].connected {
        UpKeeps(s, id);
      } else if event.Ended() {
        DropKeepsScheduled(s, id, answers.inbox, now);
      }
    }
  }

  lemma ConnectHolds(s: Session, now: real, handles: map<SteamId, Handle>, g: Handle)
    requires Ok(s) && Promised(s, Connects(now, handles)) && !s.paused && g in Connect(s, now, handles).books.given
    ensures g in Connect(s, now, handles).books.closed || Held(Connect(s, now, handles), g)
  {
    var t, due := Connect(s, now, handles), DueIds(s, now);
    if g !in s.books.closed {
      if g in s.books.given {
        var x :| x in s.peers && s.peers[x].connection == g;
        assert x !in due && t.peers[x].connection == g;
      } else {
        var x :| x in due && handles[x] == g;
        assert t.peers[x].connection == g;
      }
    }
  }

  lemma ConnectKeeps(s: Session, now: real, handles: map<SteamId, Handle>)
    requires Ok(s) && Promised(s, Connects(now, handles))
    ensures Ok(Connect(s, now, handles))
  {
    if !s.paused {
      var t, due := Connect(s, now, handles), DueIds(s, now);
      forall x | x in t.peers ensures PeerOk(t, x) { assert PeerOk(s, x); }
      forall g | g in t.books.given ensures g in t.books.closed || Held(t, g) {
        ConnectHolds(s, now, handles, g);
      }
      assert Ordered(t);
      forall x, y | x in t.peers && y in t.peers && t.peers[x].connection != 0
        && t.peers[x].connection == t.peers[y].connection
        ensures x == y
      {
        assert PeerOk(s, x) && PeerOk(s, y);
      }
    }
  }

  lemma ReceiveKeeps(s: Session, inbox: map<Handle, seq<Bytes>>)
    requires Ok(s)
    ensures Ok(Receive(s, inbox))
  {
  }

  lemma {:induction false} CloseEachKeeps(s: Session, ids: seq<SteamId>, inbox: map<Handle, seq<Bytes>>)
    requires Ok(s)
    ensures Ok(CloseEach(s, ids, inbox))
    decreases |ids|
  {
    if ids != [] {
      if ids[0] in s.peers {
        CloseKeeps(s, ids[0], SESSION_CLOSED, inbox);
        CloseEachKeeps(Close(s, ids[0], SESSION_CLOSED, inbox), ids[1..], inbox);
      } else {
        CloseEachKeeps(s, ids[1..], inbox);
      }
    }
  }

  lemma HastenKeeps(s: Session, now: real)
    requires Ok(s)
    ensures Ok(Hasten(s, now))
  {
  }

  lemma StepKeeps(s: Session, e: Event)
    requires Ok(s) && Promised(s, e)
    ensures Ok(Step(s, e))
  {
    hide Ok, UpdateMembers, ConnectionChanged, Connect, Receive, Close, CloseEach, Hasten;
    match e
    case MembersChanged(answers) => UpdateKeeps(s, answers.members, answers.inbox);
    case StatusChanged(event, answers, now) => ChangeKeeps(s, event, answers, now);
    case Connects(now, handles) => ConnectKeeps(s, now, handles);
    case Receives(inbox) => ReceiveKeeps(s, inbox);
    case Disconnects(id, reason, inbox) =>
      if id in s.peers {
        CloseKeeps(s, id, Reason(reason, true), inbox);
      }
    case Closes(inbox) => CloseEachKeeps(s, s.order, inbox);
    case Pauses => FlagKeeps(s, true, s.unsettled, s.drained);
    case Resumes(now, answers) =>
      FlagKeeps(s, false, s.unsettled, s.drained);
      UpdateKeeps(s.(paused := false), answers.members, answers.inbox);
      HastenKeeps(UpdateMembers(s.(paused := false), answers.members, answers.inbox), now);
  }

  // Messages

  /** Everything Steam handed over was passed on, in that order, or is waiting in drained. */
  ghost predicate Passed(s: Session) { s.books.handed == s.books.returned + s.drained }

  /** A message came on its sender's present connection or on one closed since. */
  ghost predicate Traced(s: Session, r: Receipt) {
    r.connection != 0 &&
    (r.connection in s.books.closed || (r.from in s.peers && s.peers[r.from].connection == r.connection))
  }

  /** A later message of the same member on another connection: the earlier one is closed. */
  ghost predicate Succeeds(s: Session, early: Receipt, late: Receipt) {
    early.from == late.from && early.connection != late.connection ==> early.connection in s.books.closed
  }

  /** Each member's messages come connection by connection: none of a closed connection
      ever follows one of a later connection. */
  ghost predicate Grouped(handed: seq<Receipt>) {
    forall i, j, k ::
      (0 <= i < j < k < |handed| && handed[i].from == handed[j].from == handed[k].from
        && handed[i].connection == handed[k].connection)
      ==> handed[j].connection == handed[i].connection
  }

  ghost predicate InOrder(s: Session) {
    && (forall i :: 0 <= i < |s.books.handed| ==> Traced(s, s.books.handed[i]))
    && (forall i, j :: 0 <= i < j < |s.books.handed| ==> Succeeds(s, s.books.handed[i], s.books.handed[j]))
    && Grouped(s.books.handed)
  }

  ghost predicate Told(s: Session) { Passed(s) && InOrder(s) }

  /** Messages just read: on their sender's present connection. */
  ghost predicate Present(s: Session, got: seq<Receipt>) {
    forall i :: 0 <= i < |got| ==>
      got[i].from in s.peers && s.peers[got[i].from].connection == got[i].connection != 0
        && got[i].connection !in s.books.closed
  }

  lemma AppendGrouped(s: Session, got: seq<Receipt>)
    requires InOrder(s) && Present(s, got)
    ensures Grouped(s.books.handed + got)
  {
  }

  lemma AppendInOrder(s: Session, got: seq<Receipt>)
    requires InOrder(s) && Present(s, got)
    ensures InOrder(s.(books := s.books.(handed := s.books.handed + got)))
  {
    var t, all := s.(books := s.books.(handed := s.books.handed + got)), s.books.handed + got;
    AppendGrouped(s, got);
    forall i | 0 <= i < |all| ensures Traced(t, all[i]) {
      if i < |s.books.handed| {
        assert Traced(s, s.books.handed[i]);
      } else {
        assert all[i] == got[i - |s.books.handed|];
      }
    }
    forall i, j | 0 <= i < j < |all| ensures Succeeds(t, all[i], all[j]) {
      if j < |s.books.handed| {
        assert Succeeds(s, s.books.handed[i], s.books.handed[j]);
      } else {
        assert all[j] == got[j - |s.books.handed|];
        if i < |s.books.handed| {
          assert Traced(s, s.books.handed[i]);
        } else {
          assert all[i] == got[i - |s.books.handed|];
        }
      }
    }
  }

  /** Connections open and close, but no message is read. */
  ghost predicate Quiet(s: Session, t: Session) {
    && t.books.handed == s.books.handed && t.books.returned == s.books.returned && t.drained == s.drained
    && (forall h :: h in s.books.closed ==> h in t.books.closed)
    && (forall x :: x in s.peers && s.peers[x].connection != 0 ==>
          s.peers[x].connection in t.books.closed || (x in t.peers && t.peers[x].connection == s.peers[x].connection))
  }

  lemma QuietKeeps(s: Session, t: Session)
    requires Told(s) && Quiet(s, t)
    ensures Told(t)
  {
  }

  /** Reading what waits, without closing yet. */
  function ReadBefore(s: Session, id: SteamId, inbox: map<Handle, seq<Bytes>>): Session
    requires id in s.peers
  {
    var got := if s.peers[id].connected then Waiting(inbox, id, s.peers[id].connection) else [];
    s.(drained := s.drained + got, books := s.books.(handed := s.books.handed + got))
  }

  lemma CloseQuiet(s: Session, id: SteamId, reason: Reason, inbox: map<Handle, seq<Bytes>>)
    requires id in s.peers
    ensures Quiet(ReadBefore(s, id, inbox), Close(s, id, reason, inbox))
  {
  }

  lemma InOrderDrained(s: Session, drained: seq<Receipt>)
    requires InOrder(s)
    ensures InOrder(s.(drained := drained))
  {
  }

  lemma CloseTells(s: Session, id: SteamId, reason: Reason, inbox: map<Handle, seq<Bytes>>)
    requires Ok(s) && Told(s) && id in s.peers
    ensures Told(Close(s, id, reason, inbox))
  {
    hide InOrder, Waiting, Held, Quiet, Close;
    assert PeerOk(s, id);
    var p := s.peers[id];
    var got := if p.connected then Waiting(inbox, id, p.connection) else [];
    assert Present(s, got);
    AppendInOrder(s, got);
    InOrderDrained(s.(books := s.books.(handed := s.books.handed + got)), s.drained + got);
    assert s.books.returned + s.drained + got == s.books.returned + (s.drained + got);
    CloseQuiet(s, id, reason, inbox);
    QuietKeeps(ReadBefore(s, id, inbox), Close(s, id, reason, inbox));
  }

  lemma DropTells(s: Session, id: SteamId, inbox: map<Handle, seq<Bytes>>)
    requires Ok(s) && Told(s) && id in s.peers
    ensures Told(Drop(s, id, inbox))
  {
    var t := Close(s, id, LEFT, inbox);
    CloseTells(s, id, LEFT, inbox);
    QuietKeeps(t, Forget(t, id));
  }

  lemma {:induction false} DropAllTells(s: Session, ids: seq<SteamId>, inbox: map<Handle, seq<Bytes>>)
    requires Ok(s) && Told(s)
    ensures Told(DropAll(s, ids, inbox))
    decreases |ids|
  {
    hide Ok, Told;
    if ids != [] {
      if ids[0] in s.peers {
        DropTells(s, ids[0], inbox);
        DropKeeps(s, ids[0], inbox);
        DropAllTells(Drop(s, ids[0], inbox), ids[1..], inbox);
      } else {
        DropAllTells(s, ids[1..], inbox);
      }
    }
  }

  lemma {:induction false} AddAllTells(s: Session, ids: seq<SteamId>)
    requires Told(s) && Ascending(ids) && forall i :: 0 <= i < |ids| ==> ids[i] !in s.peers
    ensures Told(AddAll(s, ids))
    decreases |ids|
  {
    if ids != [] {
      var t := s.(peers := s.peers[ids[0] := NewPeer(s.local, ids[0])], order := s.order + [ids[0]]);
      QuietKeeps(s, t);
      AddAllTells(t, ids[1..]);
    }
  }

  lemma UpdateTells(s: Session, members: Option<set<SteamId>>, inbox: map<Handle, seq<Bytes>>)
    requires Ok(s) && Told(s)
    ensures Told(UpdateMembers(s, members, inbox))
  {
    hide Ok, Told, AddAll, DropAll;
    if members.Some? && s.local in members.value {
      var others := members.value - {s.local};
      var start := s.(unsettled := false);
      var joining := SortedIds(others - start.peers.Keys);
      FlagKeeps(s, s.paused, false, s.drained);
      QuietKeeps(s, start);
      SortedMembers(others - start.peers.Keys);
      SortedAscends(others - start.peers.Keys);
      forall i | 0 <= i < |joining| ensures joining[i] !in start.peers {
        assert joining[i] in others - start.peers.Keys;
      }
      AddAllTells(start, joining);
      AddMissing(start, others);
      var added := AddAll(start, joining);
      DropAllTells(added, SortedIds(added.peers.Keys - others), inbox);
    } else {
      QuietKeeps(s, s.(unsettled := true));
    }
  }

  lemma AcceptTells(s: Session, event: Status, answers: Answers)
    requires Ok(s) && Told(s) && event.connection != 0
    ensures Told(Accept(s, event, answers))
  {
    hide Ok, Told, UpdateMembers, Close;
    var h := event.connection;
    var known := s;
    if event.remote.Some? && event.remote.value !in s.peers {
      known := UpdateMembers(s, answers.members, answers.inbox);
      UpdateKeeps(s, answers.members, answers.inbox);
      UpdateTells(s, answers.members, answers.inbox);
    }
    if event.remote.None? || event.remote.value !in known.peers || known.peers[event.remote.value].initiator {
      QuietKeeps(known, Reject(Give(known, h), h));
    } else {
      var id := event.remote.value;
      var free := known;
      if known.peers[id].connection != 0 {
        free := Close(known, id, REPLACED, answers.inbox);
        CloseTells(known, id, REPLACED, answers.inbox);
        CloseFrees(known, id, REPLACED, answers.inbox);
      }
      if answers.accepts {
        QuietKeeps(free, Adopt(Give(free, h), id, h));
      } else {
        QuietKeeps(free, Reject(Give(free, h), h));
      }
    }
  }

  lemma ChangeTells(s: Session, event: Status, answers: Answers, now: real)
    requires Ok(s) && Told(s) && event.connection != 0
    ensures Told(ConnectionChanged(s, event, answers, now))
  {
    hide Ok, Told, Accept, Close, Holder;
    var holder := Holder(s.order, s.peers, event.connection);
    if holder.None? {
      AcceptTells(s, event, answers);
      QuietKeeps(s, Reject(s, event.connection));
    } else {
      var id := holder.value;
      if event.remote.Some? && event.remote.value != id {
        CloseTells(s, id, MISIDENTIFIED, answers.inbox);
      } else if event.state.Up? && !s.peers[id].connected {
        QuietKeeps(s, ConnectionChanged(s, event, answers, now));
      } else if event.Ended() {
        var t := Close(s, id, DROPPED, answers.inbox);
        CloseTells(s, id, DROPPED, answers.inbox);
        CloseFrees(s, id, DROPPED, answers.inbox);
        QuietKeeps(t, Schedule(t, id, now));
      }
    }
  }

  lemma ReturnedInOrder(s: Session, t: Session)
    requires InOrder(s) && t.books.handed == s.books.handed && t.books.closed == s.books.closed && t.peers == s.peers
    ensures InOrder(t)
  {
  }

  lemma ReceiveTells(s: Session, inbox: map<Handle, seq<Bytes>>)
    requires Ok(s) && Told(s)
    ensures Told(Receive(s, inbox)) && Receive(s, inbox).books.returned == Receive(s, inbox).books.handed
  {
    var got := Collect(s.order, s.peers, inbox);
    assert Present(s, got) by {
      forall i | 0 <= i < |got|
        ensures got[i].from in s.peers && s.peers[got[i].from].connection == got[i].connection != 0
        ensures got[i].connection !in s.books.closed
      {
        assert PeerOk(s, got[i].from);
      }
    }
    AppendInOrder(s, got);
    var read := s.(books := s.books.(handed := s.books.handed + got));
    assert s.books.returned + s.drained + got == s.books.handed + got;
    ReturnedInOrder(read, Receive(s, inbox));
  }

  lemma {:induction false} CloseEachTells(s: Session, ids: seq<SteamId>, inbox: map<Handle, seq<Bytes>>)
    requires Ok(s) && Told(s)
    ensures Told(CloseEach(s, ids, inbox))
    decreases |ids|
  {
    hide Ok, Told;
    if ids != [] {
      if ids[0] in s.peers {
        CloseTells(s, ids[0], SESSION_CLOSED, inbox);
        CloseKeeps(s, ids[0], SESSION_CLOSED, inbox);
        CloseEachTells(Close(s, ids[0], SESSION_CLOSED, inbox), ids[1..], inbox);
      } else {
        CloseEachTells(s, ids[1..], inbox);
      }
    }
  }

  lemma StepTells(s: Session, e: Event)
    requires Ok(s) && Told(s) && Promised(s, e)
    ensures Told(Step(s, e))
  {
    hide Ok, Told, UpdateMembers, ConnectionChanged, Receive, Close, CloseEach;
    match e
    case MembersChanged(answers) => UpdateTells(s, answers.members, answers.inbox);
    case StatusChanged(event, answers, now) => ChangeTells(s, event, answers, now);
    case Connects(now, handles) => QuietKeeps(s, Connect(s, now, handles));
    case Receives(inbox) => ReceiveTells(s, inbox);
    case Disconnects(id, reason, inbox) =>
      if id in s.peers {
        CloseTells(s, id, Reason(reason, true), inbox);
      }
    case Closes(inbox) => CloseEachTells(s, s.order, inbox);
    case Pauses => QuietKeeps(s, s.(paused := true));
    case Resumes(now, answers) =>
      FlagKeeps(s, false, s.unsettled, s.drained);
      QuietKeeps(s, s.(paused := false));
      UpdateTells(s.(paused := false), answers.members, answers.inbox);
      var t := UpdateMembers(s.(paused := false), answers.members, answers.inbox);
      QuietKeeps(t, Hasten(t, now));
  }

  // Retrying

  /** When a peer that dropped is due: RECONNECT_DELAY after the drop, or when a resume
      hastened it since. */
  ghost function RetryTime(b: Books, x: SteamId): real
    requires x in b.droppedAt
  {
    if x in b.hastenedAt then b.hastenedAt[x] else b.droppedAt[x] + RECONNECT_DELAY
  }

  /** The schedule of one peer: closed on purpose and left alone, or waiting for exactly its
      time; and a peer this side connects to that has no connection is one of the two, or
      has nothing behind it and is connected to at once. */
  ghost predicate OnSchedule(s: Session, x: SteamId)
    requires x in s.peers
  {
    var p := s.peers[x];
    && (x in s.books.shut ==> p.connection == 0 && p.ended != "" && p.retryAt.None?)
    && (p.retryAt.Some? ==> x in s.books.droppedAt && p.retryAt.value == RetryTime(s.books, x))
    && (p.initiator && p.connection == 0 ==> x in s.books.shut || p.ended == "" || p.retryAt.Some?)
  }

  /** Closed for good: the side that connects, in the book of those closed on purpose. */
  ghost predicate Barred(s: Session, x: SteamId) { x in s.peers && s.peers[x].initiator && x in s.books.shut }

  /** Whoever is closed for good stays so while it is a member. */
  ghost predicate StaysBarred(s: Session, t: Session) { forall x :: Barred(s, x) && x in t.peers ==> Barred(t, x) }

  ghost predicate Scheduled(s: Session) {
    && s.books.shut <= s.peers.Keys && s.books.hastenedAt.Keys <= s.books.droppedAt.Keys
    && (forall x :: x in s.peers ==> OnSchedule(s, x))
    && (forall i :: 0 <= i < |s.books.connects| ==> Initiates(s.local, s.books.connects[i]))
  }

  /** What a step without a drop, a resume or a closing on purpose leaves of a peer: all of
      its schedule, or nothing that is waiting. */
  ghost predicate Calm(s: Session, t: Session, x: SteamId)
    requires x in t.peers
  {
    var p := t.peers[x];
    || (x in s.peers && (x in t.books.shut <==> x in s.books.shut)
        && p.initiator == s.peers[x].initiator && p.connection == s.peers[x].connection
        && p.ended == s.peers[x].ended && p.retryAt == s.peers[x].retryAt)
    || (x !in t.books.shut && p.retryAt.None? && (p.initiator ==> p.connection == 0 && p.ended == "" && x !in s.peers)
        && (x in s.peers ==> p.initiator == s.peers[x].initiator))
  }

  ghost predicate Calms(s: Session, t: Session) {
    && t.local == s.local && t.books.connects == s.books.connects
    && t.books.droppedAt == s.books.droppedAt && t.books.hastenedAt == s.books.hastenedAt
    && t.books.shut <= s.books.shut
    && (forall x :: x in t.peers ==> Calm(s, t, x))
  }

  lemma CalmsSchedules(s: Session, t: Session)
    requires Scheduled(s) && Calms(s, t) && t.books.shut <= t.peers.Keys
    ensures Scheduled(t) && StaysBarred(s, t)
  {
    forall x | x in t.peers ensures OnSchedule(t, x) {
      assert Calm(s, t, x);
      assert x in s.peers ==> OnSchedule(s, x);
    }
  }

  lemma CalmsJoin(s: Session, t: Session, u: Session)
    requires Calms(s, t) && Calms(t, u) && (forall x :: x in s.peers && x in u.peers ==> x in t.peers)
    ensures Calms(s, u)
  {
    forall x | x in u.peers ensures Calm(s, u, x) {
      assert Calm(t, u, x);
      assert x in t.peers ==> Calm(s, t, x);
    }
  }

  lemma CalmsSelf(s: Session, t: Session)
    requires t.peers == s.peers && t.local == s.local && t.books.connects == s.books.connects
    requires t.books.droppedAt == s.books.droppedAt && t.books.hastenedAt == s.books.hastenedAt
      && t.books.shut == s.books.shut
    ensures Calms(s, t)
  {
  }

  /** Closing a connection this side accepted, to put another in its place. */
  lemma ReplaceCalms(s: Session, id: SteamId, inbox: map<Handle, seq<Bytes>>)
    requires id in s.peers && !s.peers[id].initiator
    ensures Calms(s, Close(s, id, REPLACED, inbox))
  {
  }

  lemma DropCalms(s: Session, id: SteamId, inbox: map<Handle, seq<Bytes>>)
    requires id in s.peers
    ensures Calms(s, Drop(s, id, inbox)) && Drop(s, id, inbox).peers.Keys == s.peers.Keys - {id}
    ensures Drop(s, id, inbox).books.shut == s.books.shut - {id}
  {
  }

  lemma {:induction false} DropAllCalms(s: Session, ids: seq<SteamId>, inbox: map<Handle, seq<Bytes>>)
    requires s.books.shut <= s.peers.Keys
    ensures Calms(s, DropAll(s, ids, inbox))
    ensures DropAll(s, ids, inbox).peers.Keys <= s.peers.Keys
    ensures DropAll(s, ids, inbox).books.shut <= DropAll(s, ids, inbox).peers.Keys
    decreases |ids|
  {
    hide Calms, Drop;
    if ids == [] {
      CalmsSelf(s, s);
    } else if ids[0] in s.peers {
      var t := Drop(s, ids[0], inbox);
      DropCalms(s, ids[0], inbox);
      DropAllCalms(t, ids[1..], inbox);
      CalmsJoin(s, t, DropAll(t, ids[1..], inbox));
    } else {
      DropAllCalms(s, ids[1..], inbox);
    }
  }

  function Add(s: Session, id: SteamId): Session {
    s.(peers := s.peers[id := NewPeer(s.local, id)], order := s.order + [id])
  }

  lemma AddCalms(s: Session, id: SteamId)
    requires id !in s.peers && s.books.shut <= s.peers.Keys
    ensures Calms(s, Add(s, id))
  {
  }

  lemma {:induction false} AddAllCalms(s: Session, ids: seq<SteamId>)
    requires Ascending(ids) && (forall i :: 0 <= i < |ids| ==> ids[i] !in s.peers) && s.books.shut <= s.peers.Keys
    ensures Calms(s, AddAll(s, ids))
    ensures s.peers.Keys <= AddAll(s, ids).peers.Keys && AddAll(s, ids).books.shut == s.books.shut
    decreases |ids|
  {
    hide Calms, NewPeer;
    if ids == [] {
      CalmsSelf(s, s);
    } else {
      AddCalms(s, ids[0]);
      AddAllCalms(Add(s, ids[0]), ids[1..]);
      CalmsJoin(s, Add(s, ids[0]), AddAll(Add(s, ids[0]), ids[1..]));
    }
  }

  lemma AddMissingCalms(s: Session, others: set<SteamId>)
    requires s.books.shut <= s.peers.Keys
    ensures var t := AddAll(s, SortedIds(others - s.peers.Keys));
      Calms(s, t) && s.peers.Keys <= t.peers.Keys && t.books.shut == s.books.shut
  {
    hide Calms, AddAll;
    var joining := SortedIds(others - s.peers.Keys);
    SortedMembers(others - s.peers.Keys);
    SortedAscends(others - s.peers.Keys);
    forall i | 0 <= i < |joining| ensures joining[i] !in s.peers {
      assert joining[i] in others - s.peers.Keys;
    }
    AddAllCalms(s, joining);
  }

  lemma UpdateCalms(s: Session, members: Option<set<SteamId>>, inbox: map<Handle, seq<Bytes>>)
    requires s.books.shut <= s.peers.Keys
    ensures Calms(s, UpdateMembers(s, members, inbox))
    ensures UpdateMembers(s, members, inbox).books.shut <= UpdateMembers(s, members, inbox).peers.Keys
  {
    hide Calms, AddAll, DropAll;
    if members.Some? && s.local in members.value {
      var others := members.value - {s.local};
      var start := s.(unsettled := false);
      var added := AddAll(start, SortedIds(others - start.peers.Keys));
      var kept := DropAll(added, SortedIds(added.peers.Keys - others), inbox);
      AddMissingCalms(start, others);
      DropAllCalms(added, SortedIds(added.peers.Keys - others), inbox);
      CalmsSelf(s, start);
      CalmsJoin(start, added, kept);
      CalmsJoin(s, start, kept);
    } else {
      CalmsSelf(s, s.(unsettled := true));
    }
  }

  lemma CalmsShut(s: Session, t: Session)
    requires Calms(s, t)
    ensures t.books.shut <= s.books.shut
  {
  }

  lemma AdoptCalms(s: Session, id: SteamId, h: Handle)
    requires id in s.peers && !s.peers[id].initiator
    ensures Calms(s, Adopt(Give(s, h), id, h))
  {
  }

  lemma AcceptCalms(s: Session, event: Status, answers: Answers)
    requires s.books.shut <= s.peers.Keys
    ensures Calms(s, Accept(s, event, answers))
    ensures Accept(s, event, answers).books.shut <= Accept(s, event, answers).peers.Keys
  {
    hide UpdateMembers, Close, Calms;
    var h := event.connection;
    var known := s;
    CalmsSelf(s, s);
    if event.remote.Some? && event.remote.value !in s.peers {
      known := UpdateMembers(s, answers.members, answers.inbox);
      UpdateCalms(s, answers.members, answers.inbox);
    }
    if event.remote.None? || event.remote.value !in known.peers || known.peers[event.remote.value].initiator {
      CalmsSelf(known, Reject(Give(known, h), h));
      CalmsJoin(s, known, Reject(Give(known, h), h));
    } else {
      var id := event.remote.value;
      var free := known;
      CalmsSelf(known, known);
      if known.peers[id].connection != 0 {
        free := Close(known, id, REPLACED, answers.inbox);
        ReplaceCalms(known, id, answers.inbox);
        CloseFrees(known, id, REPLACED, answers.inbox);
        CalmsShut(known, free);
      }
      CalmsJoin(s, known, free);
      if answers.accepts {
        AdoptCalms(free, id, h);
        CalmsJoin(s, free, Adopt(Give(free, h), id, h));
      } else {
        CalmsSelf(free, Reject(Give(free, h), h));
        CalmsJoin(s, free, Reject(Give(free, h), h));
      }
    }
  }

  lemma UpCalms(s: Session, id: SteamId)
    requires id in s.peers
    ensures Calms(s, s.(peers := s.peers[id := s.peers[id].(connected := true, wasConnected := true)]))
  {
  }

  // The three kinds of steps that are not calm

  ghost predicate SameTimes(s: Session, t: Session) {
    t.books.droppedAt == s.books.droppedAt && t.books.hastenedAt == s.books.hastenedAt
      && t.books.connects == s.books.connects
  }

  /** Closing on purpose. */
  lemma ShutSchedules(s: Session, id: SteamId, reason: Reason, inbox: map<Handle, seq<Bytes>>)
    requires Scheduled(s) && id in s.peers && reason.onPurpose
    ensures var t := Close(s, id, reason, inbox);
      && Scheduled(t) && t.peers.Keys == s.peers.Keys && SameTimes(s, t)
      && t.books.shut == (if reason.text != "" then s.books.shut + {id} else s.books.shut - {id})
      && (forall x :: Barred(s, x) && (x != id || reason.text != "") ==> Barred(t, x))
  {
    var t := Close(s, id, reason, inbox);
    forall x | x in t.peers ensures OnSchedule(t, x) {
      assert OnSchedule(s, x);
    }
  }

  lemma {:induction false} CloseEachSchedules(s: Session, ids: seq<SteamId>, inbox: map<Handle, seq<Bytes>>)
    requires Scheduled(s)
    ensures var t := CloseEach(s, ids, inbox);
      Scheduled(t) && t.peers.Keys == s.peers.Keys && SameTimes(s, t) && s.books.shut <= t.books.shut
        && StaysBarred(s, t)
    decreases |ids|
  {
    hide Scheduled;
    if ids != [] {
      if ids[0] in s.peers {
        ShutSchedules(s, ids[0], SESSION_CLOSED, inbox);
        CloseEachSchedules(Close(s, ids[0], SESSION_CLOSED, inbox), ids[1..], inbox);
      } else {
        CloseEachSchedules(s, ids[1..], inbox);
      }
    }
  }

  /** A drop: whatever peer it is, it is due RECONNECT_DELAY from now. */
  lemma DropSchedules(s: Session, id: SteamId, inbox: map<Handle, seq<Bytes>>, now: real)
    requires Ok(s) && Scheduled(s) && id in s.peers && s.peers[id].connection != 0
    ensures var t := Schedule(Close(s, id, DROPPED, inbox), id, now);
      && Scheduled(t) && t.peers.Keys == s.peers.Keys && t.books.shut == s.books.shut
      && t.books.connects == s.books.connects
      && t.peers[id].retryAt == Some(now + RECONNECT_DELAY)
      && t.books.droppedAt == s.books.droppedAt[id := now] && t.books.hastenedAt == s.books.hastenedAt - {id}
      && StaysBarred(s, t)
  {
    hide Ok;
    var t := Schedule(Close(s, id, DROPPED, inbox), id, now);
    assert OnSchedule(s, id);
    forall x | x in t.peers ensures OnSchedule(t, x) {
      assert OnSchedule(s, x);
    }
  }

  /** A resume: whoever waits is due now. */
  lemma HastenSchedules(s: Session, now: real)
    requires Scheduled(s)
    ensures var t := Hasten(s, now);
      && Scheduled(t) && t.peers.Keys == s.peers.Keys && t.books.shut == s.books.shut
      && t.books.connects == s.books.connects
      && t.books.droppedAt == s.books.droppedAt
      && (forall x :: x in s.books.hastenedAt ==> x in t.books.hastenedAt)
      && (forall x :: x in t.books.hastenedAt ==>
            || t.books.hastenedAt[x] == now
            || (x in s.books.hastenedAt && t.books.hastenedAt[x] == s.books.hastenedAt[x]))
      && StaysBarred(s, t)
  {
    var t := Hasten(s, now);
    forall x | x in t.peers ensures OnSchedule(t, x) {
      assert OnSchedule(s, x);
    }
  }

  lemma ConnectSchedules(s: Session, now: real, handles: map<SteamId, Handle>)
    requires Ok(s) && Scheduled(s) && DueIds(s, now) <= handles.Keys
    ensures var t := Connect(s, now, handles);
      Scheduled(t) && t.books.shut == s.books.shut && StaysBarred(s, t)
      && t.books.droppedAt == s.books.droppedAt && t.books.hastenedAt == s.books.hastenedAt
  {
    if !s.paused {
      var t, made := Connect(s, now, handles), Keep(s.order, DueIds(s, now));
      forall x | x in t.peers ensures OnSchedule(t, x) {
        assert OnSchedule(s, x);
      }
      forall i | 0 <= i < |t.books.connects| ensures Initiates(s.local, t.books.connects[i]) {
        if i >= |s.books.connects| {
          var x := made[i - |s.books.connects|];
          assert t.books.connects[i] == x && x in made && PeerOk(s, x);
        }
      }
    }
  }

  // One event

  /** The events that close x on purpose: a disconnect that gives a reason, a connection
      that turns out to be somebody else's, and closing the session. */
  ghost predicate Shuts(s: Session, e: Event, x: SteamId) {
    match e
    case Disconnects(id, reason, _) => id == x && reason != ""
    case StatusChanged(event, _, _) =>
      Holder(s.order, s.peers, event.connection) == Some(x) && event.remote.Some? && event.remote.value != x
    case Closes(_) => true
    case _ => false
  }

  /** The event in which x's connection drops. */
  ghost predicate Drops(s: Session, e: Event, x: SteamId) {
    && e.StatusChanged? && e.event.Ended() && Holder(s.order, s.peers, e.event.connection) == Some(x)
    && (e.event.remote.Some? ==> e.event.remote.value == x)
    && !(e.event.state.Up? && !s.peers[x].connected)
  }

  /** The books say what happened and nothing else: who was closed on purpose, when each
      drop was, and when a resume hastened whom. */
  ghost predicate Booked(s: Session, e: Event, t: Session) {
    && (forall x :: x in t.books.shut ==> x in s.books.shut || Shuts(s, e, x))
    && (forall x :: x in t.books.droppedAt ==>
          if Drops(s, e, x) then t.books.droppedAt[x] == e.now
          else x in s.books.droppedAt && t.books.droppedAt[x] == s.books.droppedAt[x])
    && (forall x :: x in t.books.hastenedAt ==>
          && !Drops(s, e, x)
          && ((x in s.books.hastenedAt && t.books.hastenedAt[x] == s.books.hastenedAt[x])
              || (e.Resumes? && t.books.hastenedAt[x] == e.now)))
    && (forall x :: x in s.books.droppedAt ==> x in t.books.droppedAt)
    && (forall x :: x in s.books.hastenedAt && !Drops(s, e, x) ==> x in t.books.hastenedAt)
  }

  lemma CalmsBooked(s: Session, e: Event, t: Session)
    requires Calms(s, t) && (forall x :: !Drops(s, e, x))
    ensures Booked(s, e, t)
  {
  }

  lemma ShutIsPeers(s: Session)
    requires Scheduled(s)
    ensures s.books.shut <= s.peers.Keys
  {
  }

  lemma CalmsConnects(s: Session, t: Session)
    requires Calms(s, t)
    ensures t.books.connects == s.books.connects
  {
  }

  /** What one change of a connection does to the schedule. */
  lemma ChangeSchedules(s: Session, event: Status, answers: Answers, now: real)
    requires Ok(s) && Scheduled(s) && Promised(s, StatusChanged(event, answers, now))
    ensures var e, t := StatusChanged(event, answers, now), ConnectionChanged(s, event, answers, now);
      && Scheduled(t) && Booked(s, e, t) && t.books.connects == s.books.connects && StaysBarred(s, t)
      && (forall x :: Drops(s, e, x) ==> x in t.peers && t.peers[x].retryAt == Some(now + RECONNECT_DELAY))
  {
    hide Ok, Scheduled, Accept, Close, Calms, Schedule;
    var e, t := StatusChanged(event, answers, now), ConnectionChanged(s, event, answers, now);
    var holder := Holder(s.order, s.peers, event.connection);
    ShutIsPeers(s);
    if holder.None? {
      if event.Incoming() && event.listenSocket == s.socket {
        AcceptCalms(s, event, answers);
      } else {
        CalmsSelf(s, t);
      }
      CalmsSchedules(s, t);
      CalmsBooked(s, e, t);
      CalmsConnects(s, t);
    } else {
      var id := holder.value;
      if event.remote.Some? && event.remote.value != id {
        ShutSchedules(s, id, MISIDENTIFIED, answers.inbox);
      } else if event.state.Up? && !s.peers[id].connected {
        UpCalms(s, id);
        CalmsSchedules(s, t);
        CalmsBooked(s, e, t);
      } else if event.Ended() {
        DropSchedules(s, id, answers.inbox, now);
      }
    }
  }

  /** The one event that lifts a bar while the peer stays a member: closing it again for no
      reason at all. */
  predicate Lifts(e: Event, x: SteamId) { e.Disconnects? && e.id == x && e.reason == "" }

  lemma ReceiveCalms(s: Session, inbox: map<Handle, seq<Bytes>>)
    requires s.books.shut <= s.peers.Keys
    ensures Calms(s, Receive(s, inbox)) && Receive(s, inbox).peers == s.peers
      && Receive(s, inbox).books.shut == s.books.shut
  {
  }

  lemma ResumeSchedules(s: Session, now: real, answers: Answers)
    requires Scheduled(s)
    ensures Scheduled(Resume(s, now, answers)) && Booked(s, Resumes(now, answers), Resume(s, now, answers))
    ensures StaysBarred(s, Resume(s, now, answers))
  {
    hide Scheduled, Calms, UpdateMembers, Hasten;
    var started := s.(paused := false);
    var t := UpdateMembers(started, answers.members, answers.inbox);
    ShutIsPeers(s);
    CalmsSelf(s, started);
    CalmsSchedules(s, started);
    UpdateCalms(started, answers.members, answers.inbox);
    CalmsSchedules(started, t);
    CalmsBooked(started, Resumes(now, answers), t);
    HastenSchedules(t, now);
  }

  /** Over one event the schedule holds, the books say what happened, and whoever is closed
      for good stays so while it is a member. */
  lemma StepSchedules(s: Session, e: Event)
    requires Ok(s) && Scheduled(s) && Promised(s, e)
    ensures Scheduled(Step(s, e)) && Booked(s, e, Step(s, e))
    ensures forall x :: Barred(s, x) && x in Step(s, e).peers && !Lifts(e, x) ==> Barred(Step(s, e), x)
    ensures forall x :: Drops(s, e, x) ==>
      x in Step(s, e).peers && Step(s, e).peers[x].retryAt == Some(e.now + RECONNECT_DELAY)
  {
    hide Ok, Scheduled, Calms, UpdateMembers, ConnectionChanged, Connect, Receive, Close, CloseEach, Hasten;
    ShutIsPeers(s);
    match e
    case MembersChanged(answers) =>
      UpdateCalms(s, answers.members, answers.inbox);
      CalmsSchedules(s, Step(s, e));
      CalmsBooked(s, e, Step(s, e));
    case StatusChanged(event, answers, now) => ChangeSchedules(s, event, answers, now);
    case Connects(now, handles) => ConnectSchedules(s, now, handles);
    case Receives(inbox) =>
      ReceiveCalms(s, inbox);
      CalmsSchedules(s, Step(s, e));
      CalmsBooked(s, e, Step(s, e));
    case Disconnects(id, reason, inbox) =>
      if id in s.peers {
        ShutSchedules(s, id, Reason(reason, true), inbox);
      }
    case Closes(inbox) => CloseEachSchedules(s, s.order, inbox);
    case Pauses =>
      CalmsSelf(s, Step(s, e));
      CalmsSchedules(s, Step(s, e));
      CalmsBooked(s, e, Step(s, e));
    case Resumes(now, answers) => ResumeSchedules(s, now, answers);
  }

  // Who is connected to

  lemma HastenConnects(s: Session, now: real)
    ensures Hasten(s, now).books.connects == s.books.connects
  {
  }

  lemma ConnectMade(s: Session, now: real, handles: map<SteamId, Handle>)
    requires Ok(s) && Scheduled(s) && DueIds(s, now) <= handles.Keys
    ensures s.books.connects <= Connect(s, now, handles).books.connects
    ensures forall i :: |s.books.connects| <= i < |Connect(s, now, handles).books.connects| ==>
      var x := Connect(s, now, handles).books.connects[i];
      !s.paused && x in s.peers && s.peers[x].connection == 0 && s.local < x && x !in s.books.shut
  {
    if !s.paused {
      var t, made := Connect(s, now, handles), Keep(s.order, DueIds(s, now));
      forall i | |s.books.connects| <= i < |t.books.connects|
        ensures var x := t.books.connects[i];
          x in s.peers && s.peers[x].connection == 0 && s.local < x && x !in s.books.shut
      {
        var x := made[i - |s.books.connects|];
        assert t.books.connects[i] == x && x in made && PeerOk(s, x) && OnSchedule(s, x);
      }
    }
  }

  /** Only a connecting pass connects: to members with the higher id, that had no
      connection and were not closed for good. */
  lemma ConnectsOnly(s: Session, e: Event)
    requires Ok(s) && Scheduled(s) && Promised(s, e)
    ensures s.books.connects <= Step(s, e).books.connects
    ensures forall i :: |s.books.connects| <= i < |Step(s, e).books.connects| ==>
      var x := Step(s, e).books.connects[i];
      e.Connects? && !s.paused && x in s.peers && s.peers[x].connection == 0 && s.local < x && x !in s.books.shut
  {
    hide Ok, Scheduled, UpdateMembers, ConnectionChanged, Close, CloseEach, Hasten;
    ShutIsPeers(s);
    match e
    case MembersChanged(answers) =>
      UpdateCalms(s, answers.members, answers.inbox);
      CalmsConnects(s, Step(s, e));
    case StatusChanged(event, answers, now) => ChangeSchedules(s, event, answers, now);
    case Connects(now, handles) => ConnectMade(s, now, handles);
    case Receives(inbox) =>
    case Disconnects(id, reason, inbox) =>
      if id in s.peers {
        ShutSchedules(s, id, Reason(reason, true), inbox);
      }
    case Closes(inbox) => CloseEachSchedules(s, s.order, inbox);
    case Pauses =>
    case Resumes(now, answers) =>
      var t := UpdateMembers(s.(paused := false), answers.members, answers.inbox);
      UpdateCalms(s.(paused := false), answers.members, answers.inbox);
      CalmsConnects(s.(paused := false), t);
      HastenConnects(t, now);
  }

  /** A connecting pass reaches everybody it owes a connection and nobody else: a peer this
      side connects to has one afterwards unless it was closed on purpose or is waiting for
      its time. */
  lemma ConnectReaches(s: Session, now: real, handles: map<SteamId, Handle>, x: SteamId)
    requires Ok(s) && Scheduled(s) && Promised(s, Connects(now, handles)) && !s.paused
    requires x in s.peers && s.local < x
    ensures Connect(s, now, handles).peers[x].connection != 0 <==>
      x !in s.books.shut && (s.peers[x].retryAt.Some? ==> now >= RetryTime(s.books, x))
  {
    assert PeerOk(s, x) && OnSchedule(s, x);
  }

  /** So once RECONNECT_DELAY has passed since the drop, and with a clock that does not go
      back behind a resume, every peer but those closed on purpose has a connection. */
  lemma ConnectReachesAll(s: Session, now: real, handles: map<SteamId, Handle>, x: SteamId)
    requires Ok(s) && Scheduled(s) && Promised(s, Connects(now, handles)) && !s.paused
    requires x in s.peers && s.local < x
    requires x in s.books.droppedAt ==> now >= s.books.droppedAt[x] + RECONNECT_DELAY
    requires x in s.books.hastenedAt ==> now >= s.books.hastenedAt[x]
    ensures Connect(s, now, handles).peers[x].connection != 0 <==> x !in s.books.shut
  {
    ConnectReaches(s, now, handles, x);
    assert OnSchedule(s, x);
  }

  /** Closing on purpose bars a peer this side connects to exactly if a reason is given. */
  lemma DisconnectBars(s: Session, id: SteamId, reason: string, inbox: map<Handle, seq<Bytes>>)
    requires Ok(s) && id in s.peers && s.local < id
    ensures Barred(Disconnect(s, id, reason, inbox), id) <==> reason != ""
  {
    assert PeerOk(s, id);
  }

  // On time

  /** A peer waits no longer than RECONNECT_DELAY from its drop. */
  ghost predicate OnTime(s: Session, x: SteamId)
    requires x in s.peers && s.peers[x].retryAt.Some? && x in s.books.droppedAt
  {
    s.peers[x].retryAt.value <= s.books.droppedAt[x] + RECONNECT_DELAY
  }

  /** That is so exactly if no resume since the drop came later than that. */
  lemma OnTimeExactly(s: Session, x: SteamId)
    requires Scheduled(s) && x in s.peers && s.peers[x].retryAt.Some?
    ensures x in s.books.droppedAt
    ensures OnTime(s, x) <==> (x in s.books.hastenedAt ==>
        s.books.hastenedAt[x] <= s.books.droppedAt[x] + RECONNECT_DELAY)
  {
    assert OnSchedule(s, x);
  }

  /** For one resume: who waits at the end of it is on time exactly if it came in time. */
  lemma ResumeOnTime(s: Session, now: real, answers: Answers, x: SteamId)
    requires Scheduled(s) && x in Resume(s, now, answers).peers && Resume(s, now, answers).peers[x].retryAt.Some?
    ensures x in Resume(s, now, answers).books.droppedAt
    ensures OnTime(Resume(s, now, answers), x) <==> now <= Resume(s, now, answers).books.droppedAt[x] + RECONNECT_DELAY
  {
    hide UpdateMembers, Scheduled;
    ResumeSchedules(s, now, answers);
    OnTimeExactly(Resume(s, now, answers), x);
  }

  ghost predicate IsLate(s: Session, x: SteamId) {
    x in s.peers && s.peers[x].retryAt.Some? && x in s.books.droppedAt && !OnTime(s, x)
  }

  lemma DropPromised(s: Session, event: Status, answers: Answers, now: real, x: SteamId)
    requires Drops(s, StatusChanged(event, answers, now), x) && event.connection != 0
    ensures Promised(s, StatusChanged(event, answers, now))
  {
  }

  /** Every event of a run meets what Steam promises. */
  predicate PromisedRun(s: Session, events: seq<Event>)
    decreases |events|
  {
    events == [] || (Promised(s, events[0]) && PromisedRun(Step(s, events[0]), events[1..]))
  }

  function After(s: Session, events: seq<Event>): Session
    requires PromisedRun(s, events)
    decreases |events|
  {
    if events == [] then s else After(Step(s, events[0]), events[1..])
  }

  lemma ThreeSteps(s: Session, a: Event, b: Event, c: Event)
    requires Promised(s, a) && Promised(Step(s, a), b) && Promised(Step(Step(s, a), b), c)
    ensures PromisedRun(s, [a, b, c]) && After(s, [a, b, c]) == Step(Step(Step(s, a), b), c)
  {
    hide Step;
    var s1 := Step(s, a);
    var s2 := Step(s1, b);
    assert [a, b, c][1..] == [b, c] && [b, c][1..] == [c] && [c][1..] == [];
    assert PromisedRun(Step(s2, c), []) && After(Step(s2, c), []) == Step(s2, c);
    assert PromisedRun(s2, [c]) && After(s2, [c]) == Step(s2, c);
    assert PromisedRun(s1, [b, c]) && After(s1, [b, c]) == Step(s2, c);
  }

  lemma DropPeers(s: Session, event: Status, answers: Answers, now: real, x: SteamId)
    requires Drops(s, StatusChanged(event, answers, now), x)
    ensures var t := ConnectionChanged(s, event, answers, now);
      t.peers.Keys == s.peers.Keys && t.local == s.local && x in t.books.droppedAt && t.books.droppedAt[x] == now
  {
  }

  lemma NotLocal(s: Session)
    requires Ok(s)
    ensures s.local !in s.peers
  {
  }

  /** A peer that waits and stays a member is due when a resume says. */
  lemma WaitsOn(s: Session, now: real, answers: Answers, x: SteamId)
    requires Ok(s) && Scheduled(s) && x in s.peers && s.peers[x].retryAt.Some?
      && answers.members == Some({s.local} + s.peers.Keys)
    ensures var t := Resume(s, now, answers);
      x in t.peers && t.peers[x].retryAt == Some(now) && t.books.droppedAt == s.books.droppedAt
  {
    hide Ok, Scheduled;
    var started, others := s.(paused := false), answers.members.value - {s.local};
    NotLocal(s);
    assert others == s.peers.Keys && others - s.peers.Keys == {} && s.peers.Keys - others == {};
    assert SortedIds({}) == [];
    assert UpdateMembers(started, answers.members, answers.inbox) == started.(unsettled := false);
  }

  /** Dropped, paused, and resumed more than RECONNECT_DELAY after the drop, still a member:
      such a peer is late. */
  lemma LateResume(s: Session, event: Status, answers: Answers, dropped: real, resumed: real, x: SteamId)
    requires Ok(s) && Scheduled(s) && Drops(s, StatusChanged(event, answers, dropped), x)
    requires event.connection != 0 && resumed > dropped + RECONNECT_DELAY
    requires answers.members == Some({s.local} + s.peers.Keys)
    ensures var events := [StatusChanged(event, answers, dropped), Pauses, Resumes(resumed, answers)];
      PromisedRun(s, events) && IsLate(After(s, events), x)
  {
    hide Ok, Scheduled, ConnectionChanged, UpdateMembers, Hasten, Drops, Holder, Booked, PromisedRun, After;
    var e1, e3 := StatusChanged(event, answers, dropped), Resumes(resumed, answers);
    var t1 := Step(s, e1);
    var t2 := Step(t1, Pauses);
    DropPromised(s, event, answers, dropped, x);
    StepKeeps(s, e1);
    StepSchedules(s, e1);
    DropPeers(s, event, answers, dropped, x);
    StepKeeps(t1, Pauses);
    StepSchedules(t1, Pauses);
    WaitsOn(t2, resumed, answers, x);
    ThreeSteps(s, e1, Pauses, e3);
  }

  /** The peers are only ever changed by a list that has this PC in it: to its others. */
  function ListOf(e: Event): Option<set<SteamId>> {
    match e
    case MembersChanged(answers) => answers.members
    case StatusChanged(_, answers, _) => answers.members
    case Resumes(_, answers) => answers.members
    case _ => None
  }

  lemma AcceptFollows(s: Session, event: Status, answers: Answers)
    requires Ok(s)
    ensures var t, m := Accept(s, event, answers), answers.members;
      t.peers.Keys == s.peers.Keys || (m.Some? && s.local in m.value && t.peers.Keys == m.value - {s.local})
  {
    hide Ok, UpdateMembers, Close, OnlyCloses;
    UpdateKeeps(s, answers.members, answers.inbox);
    if event.remote.Some? {
      var known := if event.remote.value !in s.peers then UpdateMembers(s, answers.members, answers.inbox) else s;
      if event.remote.value in known.peers {
        CloseFrees(known, event.remote.value, REPLACED, answers.inbox);
      }
    }
  }

  lemma ChangeFollows(s: Session, event: Status, answers: Answers, now: real)
    requires Ok(s)
    ensures var t, m := ConnectionChanged(s, event, answers, now), answers.members;
      t.peers.Keys == s.peers.Keys || (m.Some? && s.local in m.value && t.peers.Keys == m.value - {s.local})
  {
    hide Ok, Accept, Close, Holder;
    var holder := Holder(s.order, s.peers, event.connection);
    if holder.Some? {
      CloseFrees(s, holder.value, MISIDENTIFIED, answers.inbox);
      CloseFrees(s, holder.value, DROPPED, answers.inbox);
    } else {
      AcceptFollows(s, event, answers);
    }
  }

  lemma {:induction false} CloseEachPeers(s: Session, ids: seq<SteamId>, inbox: map<Handle, seq<Bytes>>)
    ensures CloseEach(s, ids, inbox).peers.Keys == s.peers.Keys
    decreases |ids|
  {
    if ids != [] {
      if ids[0] in s.peers {
        CloseFrees(s, ids[0], SESSION_CLOSED, inbox);
        CloseEachPeers(Close(s, ids[0], SESSION_CLOSED, inbox), ids[1..], inbox);
      } else {
        CloseEachPeers(s, ids[1..], inbox);
      }
    }
  }

  lemma PeersFollowList(s: Session, e: Event)
    requires Ok(s) && Promised(s, e)
    ensures Step(s, e).peers.Keys == s.peers.Keys
      || (ListOf(e).Some? && s.local in ListOf(e).value && Step(s, e).peers.Keys == ListOf(e).value - {s.local})
  {
    hide Ok, UpdateMembers, Close;
    match e
    case MembersChanged(answers) => UpdateKeeps(s, answers.members, answers.inbox);
    case StatusChanged(event, answers, now) => ChangeFollows(s, event, answers, now);
    case Connects(now, handles) =>
    case Receives(inbox) =>
    case Disconnects(id, reason, inbox) =>
      if id in s.peers {
        CloseFrees(s, id, Reason(reason, true), inbox);
      }
    case Closes(inbox) => CloseEachPeers(s, s.order, inbox);
    case Pauses =>
    case Resumes(now, answers) =>
      FlagKeeps(s, false, s.unsettled, s.drained);
      UpdateKeeps(s.(paused := false), answers.members, answers.inbox);
  }

  // Whole runs

  lemma {:induction false} RunLast(s: Session, events: seq<Event>, e: Event)
    requires PromisedRun(s, events + [e])
    ensures PromisedRun(s, events) && Promised(After(s, events), e)
    ensures After(s, events + [e]) == Step(After(s, events), e)
    decreases |events|
  {
    hide Step;
    if events == [] {
      assert events + [e] == [e] && [e][1..] == [];
    } else {
      assert (events + [e])[0] == events[0] && (events + [e])[1..] == events[1..] + [e];
      RunLast(Step(s, events[0]), events[1..], e);
    }
  }

  /** Connections, messages and the schedule over every run. */
  lemma {:induction false} RunKeeps(s: Session, events: seq<Event>)
    requires Ok(s) && Told(s) && Scheduled(s) && PromisedRun(s, events)
    ensures Ok(After(s, events)) && Told(After(s, events)) && Scheduled(After(s, events))
    decreases |events|
  {
    hide Ok, Told, Scheduled, Step;
    if events != [] {
      StepKeeps(s, events[0]);
      StepTells(s, events[0]);
      StepSchedules(s, events[0]);
      RunKeeps(Step(s, events[0]), events[1..]);
    }
  }

  lemma BeginKeeps(local: SteamId, socket: Handle)
    ensures Ok(Begin(local, socket)) && Told(Begin(local, socket)) && Scheduled(Begin(local, socket))
  {
  }

  /** Over every run from a session's first event: each handle Steam gave is closed or is the
      connection of exactly one peer; everything handed over was passed on exactly once or
      is about to be, each member's messages connection by connection; and the schedule
      holds. */
  lemma EveryRun(local: SteamId, socket: Handle, events: seq<Event>)
    requires PromisedRun(Begin(local, socket), events)
    ensures var s := After(Begin(local, socket), events); Ok(s) && Told(s) && Scheduled(s)
  {
    hide Ok, Told, Scheduled;
    BeginKeeps(local, socket);
    RunKeeps(Begin(local, socket), events);
  }

  /** Event i is a drop of x. */
  ghost predicate DropsAt(s: Session, events: seq<Event>, i: nat, x: SteamId) {
    i < |events| && PromisedRun(s, events[..i]) && Drops(After(s, events[..i]), events[i], x)
  }

  /** Event i closes x on purpose. */
  ghost predicate ShutsAt(s: Session, events: seq<Event>, i: nat, x: SteamId) {
    i < |events| && PromisedRun(s, events[..i]) && Shuts(After(s, events[..i]), events[i], x)
  }

  ghost predicate PeerAt(s: Session, events: seq<Event>, x: SteamId) {
    PromisedRun(s, events) && x in After(s, events).peers
  }

  /** Event i closes x on purpose, and x has been a member ever since. */
  ghost predicate ShutSince(s: Session, events: seq<Event>, i: nat, x: SteamId) {
    && i < |events| && ShutsAt(s, events, i, x)
    && (forall k: nat :: i < k <= |events| ==> PeerAt(s, events[..k], x))
    && (forall k: nat :: i < k < |events| ==> !Lifts(events[k], x))
  }

  /** Event i is the last drop of x so far, at that time. */
  ghost predicate LastDrop(s: Session, events: seq<Event>, x: SteamId, at: real, i: nat) {
    DropsAt(s, events, i, x) && events[i].now == at && forall j: nat :: i < j < |events| ==> !DropsAt(s, events, j, x)
  }

  /** A resume after event i came at that time. */
  ghost predicate ResumedSince(events: seq<Event>, i: nat, at: real) {
    exists k :: i < k < |events| && events[k].Resumes? && events[k].now == at
  }

  /** The time x is due for is that of its last drop and RECONNECT_DELAY, or of a resume since. */
  ghost predicate Explained(s: Session, events: seq<Event>, x: SteamId)
    requires PromisedRun(s, events)
  {
    var b := After(s, events).books;
    && x in b.droppedAt
    && exists i: nat :: LastDrop(s, events, x, b.droppedAt[x], i)
         && (x in b.hastenedAt ==> ResumedSince(events, i, b.hastenedAt[x]))
  }

  ghost predicate Recorded(s: Session, events: seq<Event>)
    requires PromisedRun(s, events)
  {
    && (forall x :: x in After(s, events).books.droppedAt ==> Explained(s, events, x))
    && (forall x :: x in After(s, events).books.shut ==> exists i: nat :: ShutSince(s, events, i, x))
  }

  lemma EarlierEvent(s: Session, events: seq<Event>, e: Event, i: nat, x: SteamId)
    requires i < |events|
    ensures DropsAt(s, events + [e], i, x) <==> DropsAt(s, events, i, x)
    ensures ShutsAt(s, events + [e], i, x) <==> ShutsAt(s, events, i, x)
  {
    assert (events + [e])[..i] == events[..i] && (events + [e])[i] == events[i];
  }

  lemma LastEvent(s: Session, events: seq<Event>, e: Event, x: SteamId)
    requires PromisedRun(s, events)
    ensures DropsAt(s, events + [e], |events|, x) <==> Drops(After(s, events), e, x)
    ensures ShutsAt(s, events + [e], |events|, x) <==> Shuts(After(s, events), e, x)
  {
    assert (events + [e])[..|events|] == events && (events + [e])[|events|] == e;
  }

  lemma ResumesOn(events: seq<Event>, e: Event, i: nat, at: real)
    requires i < |events| && (ResumedSince(events, i, at) || (e.Resumes? && e.now == at))
    ensures ResumedSince(events + [e], i, at)
  {
    if ResumedSince(events, i, at) {
      var k :| i < k < |events| && events[k].Resumes? && events[k].now == at;
      assert (events + [e])[k] == events[k];
    } else {
      assert (events + [e])[|events|] == e;
    }
  }

  lemma ExplainsStep(s: Session, events: seq<Event>, e: Event, x: SteamId)
    requires PromisedRun(s, events + [e]) && PromisedRun(s, events)
    requires x in After(s, events).books.droppedAt ==> Explained(s, events, x)
    requires x in After(s, events).books.hastenedAt ==> x in After(s, events).books.droppedAt
    requires Booked(After(s, events), e, After(s, events + [e])) && x in After(s, events + [e]).books.droppedAt
    ensures Explained(s, events + [e], x)
  {
    hide After, PromisedRun, Drops, Shuts;
    var before, all := After(s, events), events + [e];
    var t := After(s, all);
    LastEvent(s, events, e, x);
    if Drops(before, e, x) {
      assert LastDrop(s, all, x, t.books.droppedAt[x], |events|);
    } else {
      var i: nat :| LastDrop(s, events, x, before.books.droppedAt[x], i)
        && (x in before.books.hastenedAt ==> ResumedSince(events, i, before.books.hastenedAt[x]));
      EarlierEvent(s, events, e, i, x);
      forall j: nat | i < j < |all| ensures !DropsAt(s, all, j, x) {
        if j < |events| {
          EarlierEvent(s, events, e, j, x);
        }
      }
      assert LastDrop(s, all, x, t.books.droppedAt[x], i);
      if x in t.books.hastenedAt {
        ResumesOn(events, e, i, t.books.hastenedAt[x]);
      }
    }
  }

  lemma HastenedDropped(s: Session)
    requires Scheduled(s)
    ensures s.books.hastenedAt.Keys <= s.books.droppedAt.Keys
  {
  }

  lemma PeerNow(s: Session, events: seq<Event>, x: SteamId)
    requires PromisedRun(s, events) && x in After(s, events).peers
    ensures PeerAt(s, events, x)
  {
  }

  lemma ShutStep(s: Session, events: seq<Event>, e: Event, x: SteamId)
    requires PromisedRun(s, events + [e]) && PromisedRun(s, events)
    requires x in After(s, events).books.shut ==> exists i: nat :: ShutSince(s, events, i, x)
    requires Booked(After(s, events), e, After(s, events + [e])) && x in After(s, events + [e]).books.shut
    requires Scheduled(After(s, events + [e])) && !Lifts(e, x)
    ensures exists i: nat :: ShutSince(s, events + [e], i, x)
  {
    hide After, PromisedRun, Drops, Shuts, PeerAt, ShutsAt, Scheduled, Lifts;
    var all := events + [e];
    LastEvent(s, events, e, x);
    ShutIsPeers(After(s, all));
    assert all[..|all|] == all;
    PeerNow(s, all, x);
    if x in After(s, events).books.shut {
      var i: nat :| ShutSince(s, events, i, x);
      EarlierEvent(s, events, e, i, x);
      forall k: nat | i < k <= |all| ensures PeerAt(s, all[..k], x) {
        if k < |all| {
          assert all[..k] == events[..k];
        }
      }
      assert forall k: nat :: k < |events| ==> all[k] == events[k];
      assert ShutSince(s, all, i, x);
    } else {
      assert ShutSince(s, all, |events|, x);
    }
  }

  lemma LiftsShut(s: Session, e: Event, x: SteamId)
    requires Lifts(e, x) && s.books.shut <= s.peers.Keys
    ensures x !in Step(s, e).books.shut
  {
  }

  lemma {:induction false} RunRecords(local: SteamId, socket: Handle, events: seq<Event>)
    requires PromisedRun(Begin(local, socket), events)
    ensures Recorded(Begin(local, socket), events)
    decreases |events|
  {
    hide Ok, Told, Scheduled, Booked, Explained, Shuts;
    var s := Begin(local, socket);
    if events != [] {
      var before, e := events[..|events| - 1], events[|events| - 1];
      assert events == before + [e];
      RunLast(s, before, e);
      RunRecords(local, socket, before);
      EveryRun(local, socket, before);
      StepSchedules(After(s, before), e);
      HastenedDropped(After(s, before));
      forall x | x in After(s, events).books.droppedAt ensures Explained(s, events, x) {
        ExplainsStep(s, before, e, x);
      }
      ShutIsPeers(After(s, before));
      forall x | x in After(s, events).books.shut ensures exists i: nat :: ShutSince(s, events, i, x) {
        if Lifts(e, x) {
          LiftsShut(After(s, before), e, x);
        }
        ShutStep(s, before, e, x);
      }
    }
  }

  /** The retry discipline, told of the events alone: over every run, a peer this side
      connects to that has no connection was closed on purpose by some event and has
      been a member ever since, or is due at once, or waits for the time of its last
      drop and RECONNECT_DELAY, or of a resume that came after that drop. */
  lemma RetryDiscipline(local: SteamId, socket: Handle, events: seq<Event>, x: SteamId)
    requires PromisedRun(Begin(local, socket), events)
    requires var s := After(Begin(local, socket), events); x in s.peers && s.local < x && s.peers[x].connection == 0
    ensures var start := Begin(local, socket);
      var p := After(start, events).peers[x];
      || (exists i: nat :: ShutSince(start, events, i, x))
      || (p.ended == "" && p.retryAt.None?)
      || (p.retryAt.Some? && exists i: nat ::
            DropsAt(start, events, i, x) && (forall j: nat :: i < j < |events| ==> !DropsAt(start, events, j, x))
            && (p.retryAt.value == events[i].now + RECONNECT_DELAY || ResumedSince(events, i, p.retryAt.value)))
  {
    hide Told, DropsAt, ShutSince, PromisedRun, ResumedSince;
    var start := Begin(local, socket);
    var s := After(start, events);
    EveryRun(local, socket, events);
    RunRecords(local, socket, events);
    assert OnSchedule(s, x) && PeerOk(s, x);
    if x !in s.books.shut && s.peers[x].retryAt.Some? {
      assert Explained(start, events, x);
      var i: nat :| LastDrop(start, events, x, s.books.droppedAt[x], i)
        && (x in s.books.hastenedAt ==> ResumedSince(events, i, s.books.hastenedAt[x]));
      assert DropsAt(start, events, i, x);
    }
  }

  /** A peer stays a member after each event of a run. */
  predicate Remains(s: Session, events: seq<Event>, x: SteamId)
    requires PromisedRun(s, events)
    decreases |events|
  {
    x in s.peers && (events != [] ==> Remains(Step(s, events[0]), events[1..], x))
  }

  function Times(ids: seq<SteamId>, x: SteamId): nat { multiset(ids)[x] }

  lemma EqualTimes(a: seq<SteamId>, b: seq<SteamId>, x: SteamId)
    requires a <= b && forall i :: |a| <= i < |b| ==> b[i] != x
    ensures Times(b, x) == Times(a, x)
  {
    assert b == a + b[|a|..];
    assert x !in b[|a|..];
  }

  /** A peer closed for good is never connected to again until it has left the lobby,
      across any events, pauses and resumes. */
  lemma {:induction false} BarredNeverConnects(s: Session, events: seq<Event>, x: SteamId)
    requires Ok(s) && Scheduled(s) && Barred(s, x) && PromisedRun(s, events) && Remains(s, events, x)
    requires forall i :: 0 <= i < |events| ==> !Lifts(events[i], x)
    ensures Barred(After(s, events), x)
    ensures Times(After(s, events).books.connects, x) == Times(s.books.connects, x)
    decreases |events|
  {
    hide Ok, Scheduled, Step, Booked;
    if events != [] {
      var t := Step(s, events[0]);
      assert Remains(t, events[1..], x) && x in t.peers;
      StepKeeps(s, events[0]);
      StepSchedules(s, events[0]);
      ConnectsOnly(s, events[0]);
      EqualTimes(s.books.connects, t.books.connects, x);
      BarredNeverConnects(t, events[1..], x);
    }
  }

  lemma {:induction false} RunJoin(s: Session, before: seq<Event>, rest: seq<Event>)
    requires PromisedRun(s, before) && PromisedRun(After(s, before), rest)
    ensures PromisedRun(s, before + rest) && After(s, before + rest) == After(After(s, before), rest)
    decreases |before|
  {
    hide Step;
    if before == [] {
      assert before + rest == rest;
    } else {
      assert (before + rest)[0] == before[0] && (before + rest)[1..] == before[1..] + rest;
      RunJoin(Step(s, before[0]), before[1..], rest);
    }
  }

  /** One other member, connected to with handle h. */
  function Linked(local: SteamId, socket: Handle, x: SteamId, h: Handle): Session {
    Begin(local, socket).(
      peers := map[x := NewPeer(local, x).(connection := h)],
      order := [x],
      books := Begin(local, socket).books.(given := {h}, connects := [x]))
  }

  lemma MeetsOne(local: SteamId, socket: Handle, x: SteamId)
    requires local != x
    ensures UpdateMembers(Begin(local, socket), Some({local, x}), map[])
         == Begin(local, socket).(peers := map[x := NewPeer(local, x)], order := [x])
  {
    var start, others := Begin(local, socket), {local, x} - {local};
    var met := start.(peers := map[x := NewPeer(local, x)], order := [x]);
    assert others == {x} && others - start.peers.Keys == {x} && met.peers.Keys - others == {};
    assert Least({x}) == x && {x} - {x} == {} && SortedIds({}) == [] && SortedIds({x}) == [x];
    assert AddAll(start, [x]) == met by { assert [x][1..] == [] && [] + [x] == [x]; }
    assert DropAll(met, [], map[]) == met;
  }

  lemma TwoSteps(s: Session, a: Event, b: Event)
    requires Promised(s, a) && Promised(Step(s, a), b)
    ensures PromisedRun(s, [a, b]) && After(s, [a, b]) == Step(Step(s, a), b)
  {
    hide Step;
    var s1 := Step(s, a);
    assert [a, b][1..] == [b] && [b][1..] == [];
    assert PromisedRun(Step(s1, b), []) && After(Step(s1, b), []) == Step(s1, b);
    assert PromisedRun(s1, [b]) && After(s1, [b]) == Step(s1, b);
  }

  lemma LinkedRun(local: SteamId, socket: Handle, x: SteamId, h: Handle)
    requires local < x && h != 0
    ensures var answers := Answers(Some({local, x}), map[], true);
      var events := [MembersChanged(answers), Connects(0.0, map[x := h])];
      PromisedRun(Begin(local, socket), events) && After(Begin(local, socket), events) == Linked(local, socket, x, h)
  {
    var answers := Answers(Some({local, x}), map[], true);
    var start := Begin(local, socket);
    var met := start.(peers := map[x := NewPeer(local, x)], order := [x]);
    MeetsOne(local, socket, x);
    assert DueIds(met, 0.0) == {x};
    assert Keep([x], {x}) == [x] by { assert [x][1..] == []; }
    assert Connect(met, 0.0, map[x := h]) == Linked(local, socket, x, h);
    TwoSteps(start, MembersChanged(answers), Connects(0.0, map[x := h]));
  }

  /** Being late is reached from a session's first event: it meets one member, connects to
      it, the connection drops, and a resume comes more than RECONNECT_DELAY later. */
  lemma LateIsReachable(local: SteamId, socket: Handle, x: SteamId, h: Handle)
    requires local < x && h != 0
    ensures exists events :: PromisedRun(Begin(local, socket), events) && IsLate(After(Begin(local, socket), events), x)
  {
    hide Ok, Scheduled, Told, PromisedRun, After, Step, IsLate;
    var start := Begin(local, socket);
    var answers := Answers(Some({local, x}), map[], true);
    var before := [MembersChanged(answers), Connects(0.0, map[x := h])];
    var linked := Linked(local, socket, x, h);
    LinkedRun(local, socket, x, h);
    EveryRun(local, socket, before);
    var event := Status(h, ClosedByPeer, None, 0);
    assert Holder([x], linked.peers, h) == Some(x);
    assert {local} + linked.peers.Keys == {local, x};
    var rest := [StatusChanged(event, answers, 1.0), Pauses, Resumes(7.0, answers)];
    LateResume(linked, event, answers, 1.0, 7.0, x);
    RunJoin(start, before, rest);
  }

  // Who is connected

  lemma {:induction false} AddAllSame(s: Session, ids: seq<SteamId>, x: SteamId)
    requires x in AddAll(s, ids).peers
    ensures x in ids || x in s.peers
    ensures AddAll(s, ids).peers[x] == (if x in ids then NewPeer(s.local, x) else s.peers[x])
    decreases |ids|
  {
    if ids != [] {
      AddAllSame(Add(s, ids[0]), ids[1..], x);
    }
  }

  lemma DropSame(s: Session, id: SteamId, inbox: map<Handle, seq<Bytes>>, x: SteamId)
    requires id in s.peers && x in Drop(s, id, inbox).peers
    ensures x != id && x in s.peers && Drop(s, id, inbox).peers[x] == s.peers[x]
  {
  }

  lemma {:induction false} DropAllSame(s: Session, ids: seq<SteamId>, inbox: map<Handle, seq<Bytes>>, x: SteamId)
    requires x in DropAll(s, ids, inbox).peers
    ensures x in s.peers && DropAll(s, ids, inbox).peers[x] == s.peers[x]
    decreases |ids|
  {
    hide Drop;
    if ids != [] {
      DropAllSame(if ids[0] in s.peers then Drop(s, ids[0], inbox) else s, ids[1..], inbox, x);
      if ids[0] in s.peers {
        DropSame(s, ids[0], inbox, x);
      }
    }
  }

  /** Following the list leaves every peer that stays as it was, and a new one is new. */
  lemma UpdateSame(s: Session, members: Option<set<SteamId>>, inbox: map<Handle, seq<Bytes>>, x: SteamId)
    requires x in UpdateMembers(s, members, inbox).peers
    ensures UpdateMembers(s, members, inbox).peers[x] == if x in s.peers then s.peers[x] else NewPeer(s.local, x)
  {
    hide AddAll, DropAll;
    if members.Some? && s.local in members.value {
      var others := members.value - {s.local};
      var joining := SortedIds(others - s.peers.Keys);
      var added := AddAll(s.(unsettled := false), joining);
      DropAllSame(added, SortedIds(added.peers.Keys - others), inbox, x);
      AddAllSame(s.(unsettled := false), joining, x);
      SortedMembers(others - s.peers.Keys);
    }
  }

  /** The event reports the connection of x up, with nobody else's identity. */
  predicate Ups(s: Session, e: Event, x: SteamId) {
    && e.StatusChanged? && e.event.state.Up? && Holder(s.order, s.peers, e.event.connection) == Some(x)
    && (e.event.remote.Some? ==> e.event.remote.value == x)
  }

  /** From s to t nothing is heard of x: it is connected, or was once, exactly if it was so and,
      for the first, still has the same connection. */
  ghost predicate Unheard(s: Session, t: Session, x: SteamId)
    requires x in t.peers
  {
    && (t.peers[x].connected <==>
          x in s.peers && s.peers[x].connected && t.peers[x].connection == s.peers[x].connection)
    && (t.peers[x].wasConnected <==> x in s.peers && s.peers[x].wasConnected)
  }

  lemma UpdateUnheard(s: Session, members: Option<set<SteamId>>, inbox: map<Handle, seq<Bytes>>, x: SteamId)
    requires x in UpdateMembers(s, members, inbox).peers
    ensures Unheard(s, UpdateMembers(s, members, inbox), x)
  {
    hide UpdateMembers;
    UpdateSame(s, members, inbox, x);
  }

  lemma CloseUnheard(s: Session, id: SteamId, reason: Reason, inbox: map<Handle, seq<Bytes>>, x: SteamId)
    requires Ok(s) && id in s.peers && x in s.peers
    ensures Unheard(s, Close(s, id, reason, inbox), x)
  {
    hide Waiting;
    assert PeerOk(s, x);
  }

  function KnownOf(s: Session, event: Status, answers: Answers): Session {
    if event.remote.Some? && event.remote.value !in s.peers then UpdateMembers(s, answers.members, answers.inbox) else s
  }

  /** What an incoming connection makes of a peer, in the terms of what is known of it once
      the list is read. */
  lemma AcceptIs(s: Session, event: Status, answers: Answers, x: SteamId)
    requires x in Accept(s, event, answers).peers
    requires var k := KnownOf(s, event, answers);
      x in k.peers && k.peers[x].connected ==> k.peers[x].connection != 0
    ensures var k, q := KnownOf(s, event, answers), Accept(s, event, answers).peers[x];
      && x in k.peers
      && (if event.remote == Some(x) && !k.peers[x].initiator
          then !q.connected && q.wasConnected == k.peers[x].wasConnected
               && q.connection == if answers.accepts then event.connection else 0
          else q == k.peers[x])
  {
    hide UpdateMembers, Waiting;
  }

  lemma KnownUnheard(s: Session, event: Status, answers: Answers, x: SteamId)
    requires Ok(s) && x in KnownOf(s, event, answers).peers
    ensures var k := KnownOf(s, event, answers);
      && Unheard(s, k, x) && (k.peers[x].connected ==> k.peers[x].connection != 0)
      && (x in s.peers ==> k.peers[x] == s.peers[x]) && (x !in s.peers ==> k.peers[x] == NewPeer(s.local, x))
  {
    hide UpdateMembers;
    if KnownOf(s, event, answers) != s {
      UpdateSame(s, answers.members, answers.inbox, x);
    }
    assert x in s.peers ==> PeerOk(s, x);
  }

  lemma AcceptPeers(s: Session, event: Status, answers: Answers)
    ensures Accept(s, event, answers).peers.Keys == KnownOf(s, event, answers).peers.Keys
  {
    hide UpdateMembers, Waiting;
  }

  lemma AcceptUnheard(s: Session, event: Status, answers: Answers, x: SteamId)
    requires Ok(s) && event.connection != 0 && event.connection !in s.books.given
    requires x in Accept(s, event, answers).peers
    ensures Unheard(s, Accept(s, event, answers), x)
  {
    hide Accept, KnownOf;
    AcceptPeers(s, event, answers);
    KnownUnheard(s, event, answers, x);
    AcceptIs(s, event, answers, x);
    assert x in s.peers ==> PeerOk(s, x);
  }

  lemma ClosePeers(s: Session, id: SteamId, reason: Reason, inbox: map<Handle, seq<Bytes>>)
    requires id in s.peers
    ensures Close(s, id, reason, inbox).peers.Keys == s.peers.Keys
  {
  }

  /** A change of a connection that some peer holds. */
  lemma HeldUps(s: Session, event: Status, answers: Answers, now: real, id: SteamId, x: SteamId)
    requires Ok(s) && Holder(s.order, s.peers, event.connection) == Some(id) && event.connection != 0 && x in s.peers
    requires s.peers[x].connected ==> s.peers[x].wasConnected
    ensures var e, t := StatusChanged(event, answers, now), ConnectionChanged(s, event, answers, now);
      && t.peers.Keys == s.peers.Keys
      && if Ups(s, e, x)
         then t.peers[x].connected && t.peers[x].wasConnected
              && t.peers[x].connection == s.peers[x].connection == event.connection
         else Unheard(s, t, x)
  {
    hide Close, Holder, Ok;
    if event.remote.Some? && event.remote.value != id {
      ClosePeers(s, id, MISIDENTIFIED, answers.inbox);
      CloseUnheard(s, id, MISIDENTIFIED, answers.inbox, x);
    } else if event.Ended() {
      ClosePeers(s, id, DROPPED, answers.inbox);
      CloseUnheard(s, id, DROPPED, answers.inbox, x);
    }
  }

  lemma ChangePeers(s: Session, event: Status, answers: Answers, now: real)
    requires Holder(s.order, s.peers, event.connection).Some?
    ensures ConnectionChanged(s, event, answers, now).peers.Keys == s.peers.Keys
  {
    hide Holder;
    ClosePeers(s, Holder(s.order, s.peers, event.connection).value, MISIDENTIFIED, answers.inbox);
  }

  lemma SameUnheard(s: Session, t: Session, x: SteamId)
    requires t.peers == s.peers && x in t.peers
    ensures Unheard(s, t, x)
  {
  }

  lemma ChangeUps(s: Session, event: Status, answers: Answers, now: real, x: SteamId)
    requires Ok(s) && Promised(s, StatusChanged(event, answers, now))
      && x in ConnectionChanged(s, event, answers, now).peers
    requires x in s.peers && s.peers[x].connected ==> s.peers[x].wasConnected
    ensures var e, t := StatusChanged(event, answers, now), ConnectionChanged(s, event, answers, now);
      if Ups(s, e, x)
      then t.peers[x].connected && t.peers[x].wasConnected && x in s.peers
           && t.peers[x].connection == s.peers[x].connection == e.event.connection != 0
      else Unheard(s, t, x)
  {
    hide Accept, Close, Holder, Ok;
    var holder := Holder(s.order, s.peers, event.connection);
    if holder.None? {
      if event.Incoming() && event.listenSocket == s.socket {
        AcceptUnheard(s, event, answers, x);
      } else {
        SameUnheard(s, ConnectionChanged(s, event, answers, now), x);
      }
    } else {
      ChangePeers(s, event, answers, now);
      HeldUps(s, event, answers, now, holder.value, x);
    }
  }

  lemma CloseConnection(s: Session, id: SteamId, reason: Reason, inbox: map<Handle, seq<Bytes>>, x: SteamId)
    requires id in s.peers && x in s.peers
    ensures var t := Close(s, id, reason, inbox);
      x in t.peers && t.peers[x].connection == if x == id then 0 else s.peers[x].connection
  {
  }

  lemma {:induction false} CloseEachUnheard(s: Session, ids: seq<SteamId>, inbox: map<Handle, seq<Bytes>>, x: SteamId)
    requires Ok(s) && x in s.peers
    ensures x in CloseEach(s, ids, inbox).peers && Unheard(s, CloseEach(s, ids, inbox), x)
    ensures CloseEach(s, ids, inbox).peers[x].connection in {0, s.peers[x].connection}
    decreases |ids|
  {
    hide Close;
    if ids != [] {
      var t := if ids[0] in s.peers then Close(s, ids[0], SESSION_CLOSED, inbox) else s;
      if ids[0] in s.peers {
        CloseKeeps(s, ids[0], SESSION_CLOSED, inbox);
        CloseUnheard(s, ids[0], SESSION_CLOSED, inbox, x);
        CloseConnection(s, ids[0], SESSION_CLOSED, inbox, x);
      }
      CloseEachUnheard(t, ids[1..], inbox, x);
      assert PeerOk(s, x);
    }
  }

  lemma ConnectUnheard(s: Session, now: real, handles: map<SteamId, Handle>, x: SteamId)
    requires Ok(s) && Promised(s, Connects(now, handles)) && x in s.peers
    ensures Unheard(s, Connect(s, now, handles), x)
  {
    assert PeerOk(s, x);
  }

  lemma ResumeUnheard(s: Session, now: real, answers: Answers, x: SteamId)
    requires x in Resume(s, now, answers).peers
    ensures Unheard(s, Resume(s, now, answers), x)
  {
    hide UpdateMembers;
    UpdateUnheard(s.(paused := false), answers.members, answers.inbox, x);
  }

  lemma ConnectPeers(s: Session, now: real, handles: map<SteamId, Handle>)
    requires DueIds(s, now) <= handles.Keys
    ensures Connect(s, now, handles).peers.Keys == s.peers.Keys
  {
  }

  lemma ReceiveUnheard(s: Session, inbox: map<Handle, seq<Bytes>>, x: SteamId)
    requires x in Receive(s, inbox).peers
    ensures Unheard(s, Receive(s, inbox), x)
  {
  }

  /** One event: whom it makes connected, and what else it leaves so. */
  lemma StepUps(s: Session, e: Event, x: SteamId)
    requires Ok(s) && Promised(s, e) && x in Step(s, e).peers
    requires x in s.peers && s.peers[x].connected ==> s.peers[x].wasConnected
    ensures var t := Step(s, e);
      if Ups(s, e, x)
      then t.peers[x].connected && t.peers[x].wasConnected && x in s.peers
           && t.peers[x].connection == s.peers[x].connection == e.event.connection != 0
      else Unheard(s, t, x)
  {
    hide Ok, ConnectionChanged, UpdateMembers, Connect, Close, CloseEach, Resume, Receive;
    match e
    case MembersChanged(answers) => UpdateUnheard(s, answers.members, answers.inbox, x);
    case StatusChanged(event, answers, now) => ChangeUps(s, event, answers, now, x);
    case Connects(now, handles) =>
      ConnectPeers(s, now, handles);
      ConnectUnheard(s, now, handles, x);
    case Receives(inbox) => ReceiveUnheard(s, inbox, x);
    case Disconnects(id, reason, inbox) =>
      if id in s.peers {
        ClosePeers(s, id, Reason(reason, true), inbox);
        CloseUnheard(s, id, Reason(reason, true), inbox, x);
      } else {
        SameUnheard(s, s, x);
      }
    case Closes(inbox) =>
      CloseEachPeers(s, s.order, inbox);
      CloseEachUnheard(s, s.order, inbox, x);
    case Pauses => SameUnheard(s, s.(paused := true), x);
    case Resumes(now, answers) => ResumeUnheard(s, now, answers, x);
  }

  // The same over runs, told of the events

  /** Event k of a run reports the connection of x up. */
  ghost predicate UpAt(s: Session, events: seq<Event>, k: nat, x: SteamId) {
    k < |events| && PromisedRun(s, events[..k]) && Ups(After(s, events[..k]), events[k], x)
  }

  /** After these events x is a peer, with that connection. */
  ghost predicate HasAt(s: Session, events: seq<Event>, x: SteamId, h: Handle) {
    PromisedRun(s, events) && x in After(s, events).peers && After(s, events).peers[x].connection == h
  }

  /** Event k reports x up, and from then on x has that connection. */
  ghost predicate UpSince(s: Session, events: seq<Event>, k: nat, x: SteamId, h: Handle) {
    && UpAt(s, events, k, x) && events[k].event.connection == h
    && forall j: nat :: k <= j <= |events| ==> HasAt(s, events[..j], x, h)
  }

  /** Event k reports x up, and from then on x is a peer. */
  ghost predicate UpOnce(s: Session, events: seq<Event>, k: nat, x: SteamId) {
    UpAt(s, events, k, x) && forall j: nat :: k <= j <= |events| ==> PeerAt(s, events[..j], x)
  }

  lemma UpSinceMore(s: Session, before: seq<Event>, e: Event, k: nat, x: SteamId, h: Handle)
    requires k < |before|
    ensures UpSince(s, before + [e], k, x, h) <==> UpSince(s, before, k, x, h) && HasAt(s, before + [e], x, h)
    ensures UpOnce(s, before + [e], k, x) <==> UpOnce(s, before, k, x) && PeerAt(s, before + [e], x)
  {
    hide HasAt, PeerAt, Ups;
    var events := before + [e];
    assert events[..k] == before[..k] && events[k] == before[k];
    assert events[..|events|] == events;
    assert forall j: nat :: j <= |before| ==> events[..j] == before[..j];
  }

  lemma UpSinceNow(s: Session, before: seq<Event>, e: Event, x: SteamId, h: Handle)
    requires PromisedRun(s, before)
    ensures UpSince(s, before + [e], |before|, x, h) <==>
      && Ups(After(s, before), e, x) && e.event.connection == h
      && HasAt(s, before, x, h) && HasAt(s, before + [e], x, h)
    ensures UpOnce(s, before + [e], |before|, x) <==>
      Ups(After(s, before), e, x) && PeerAt(s, before, x) && PeerAt(s, before + [e], x)
  {
    hide HasAt, PeerAt, Ups;
    var events := before + [e];
    assert events[..|before|] == before && events[|before|] == e && events[..|events|] == events;
  }

  lemma UpOnceSince(s: Session, events: seq<Event>, x: SteamId, h: Handle)
    ensures forall k: nat :: UpSince(s, events, k, x, h) ==> UpOnce(s, events, k, x)
  {
    hide Ups, After, PromisedRun;
  }

  lemma HasIs(s: Session, events: seq<Event>, x: SteamId, h: Handle)
    requires PromisedRun(s, events)
    ensures HasAt(s, events, x, h) <==> x in After(s, events).peers && After(s, events).peers[x].connection == h
    ensures PeerAt(s, events, x) <==> x in After(s, events).peers
  {
  }

  lemma UpSinceBound(s: Session, events: seq<Event>, x: SteamId, h: Handle)
    ensures forall k: nat :: UpSince(s, events, k, x, h) ==> k < |events| && HasAt(s, events, x, h)
    ensures forall k: nat :: UpOnce(s, events, k, x) ==> k < |events| && PeerAt(s, events, x)
  {
    hide Ups, HasAt, PeerAt, After, PromisedRun;
    assert events[..|events|] == events;
  }

  /** One more event, in the terms of the run. */
  lemma ConnectedNext(s: Session, before: seq<Event>, e: Event, x: SteamId)
    requires PromisedRun(s, before) && PromisedRun(s, before + [e]) && x in After(s, before + [e]).peers
    requires x in After(s, before).peers ==>
      var p := After(s, before).peers[x];
      && (p.connected <==> p.connection != 0 && exists k: nat :: UpSince(s, before, k, x, p.connection))
      && (p.wasConnected <==> exists k: nat :: UpOnce(s, before, k, x))
      && (p.connected ==> p.connection != 0)
    requires var w, t := After(s, before), After(s, before + [e]);
      if Ups(w, e, x)
      then t.peers[x].connected && t.peers[x].wasConnected && x in w.peers
           && t.peers[x].connection == w.peers[x].connection == e.event.connection != 0
      else Unheard(w, t, x)
    ensures var p := After(s, before + [e]).peers[x];
      && (p.connected <==> p.connection != 0 && exists k: nat :: UpSince(s, before + [e], k, x, p.connection))
      && (p.wasConnected <==> exists k: nat :: UpOnce(s, before + [e], k, x))
  {
    hide Ups, After, PromisedRun, UpSince, UpOnce, HasAt, PeerAt;
    var events := before + [e];
    var w, p := After(s, before), After(s, events).peers[x];
    HasIs(s, before, x, p.connection);
    HasIs(s, events, x, p.connection);
    UpSinceNow(s, before, e, x, p.connection);
    forall k: nat | k < |before|
      ensures UpSince(s, events, k, x, p.connection) <==> UpSince(s, before, k, x, p.connection)
      ensures UpOnce(s, events, k, x) <==> UpOnce(s, before, k, x)
    {
      UpSinceMore(s, before, e, k, x, p.connection);
    }
    UpSinceBound(s, before, x, p.connection);
    UpSinceBound(s, events, x, p.connection);
  }

  /** Over every run: a peer is connected exactly if some event since its present connection
      became its own has reported that connection up, with its identity or with none; and it
      counts as having been connected exactly if some event since it became a peer has. */
  lemma {:induction false} ConnectedExactly(local: SteamId, socket: Handle, events: seq<Event>, x: SteamId)
    requires PromisedRun(Begin(local, socket), events) && x in After(Begin(local, socket), events).peers
    ensures var start := Begin(local, socket);
      var p := After(start, events).peers[x];
      && (p.connected <==> p.connection != 0 && exists k: nat :: UpSince(start, events, k, x, p.connection))
      && (p.wasConnected <==> exists k: nat :: UpOnce(start, events, k, x))
    decreases |events|
  {
    hide Ups, Ok, Step, UpSince, UpOnce;
    var start := Begin(local, socket);
    if events != [] {
      var before, e := events[..|events| - 1], events[|events| - 1];
      assert events == before + [e];
      RunLast(start, before, e);
      EveryRun(local, socket, before);
      if x in After(start, before).peers {
        ConnectedExactly(local, socket, before, x);
        UpOnceSince(start, before, x, After(start, before).peers[x].connection);
      }
      StepUps(After(start, before), e, x);
      ConnectedNext(start, before, e, x);
    }
  }

  // An incoming connection

  lemma OpenIsKept(s: Session, x: SteamId)
    requires Ok(s) && x in s.peers && s.peers[x].connection != 0
    ensures s.peers[x].connection !in s.books.closed
  {
    assert PeerOk(s, x);
  }

  lemma KnownInitiates(s: Session, event: Status, answers: Answers, x: SteamId)
    requires Ok(s) && x in KnownOf(s, event, answers).peers
    ensures KnownOf(s, event, answers).peers[x].initiator == (s.local < x)
  {
    KnownUnheard(s, event, answers, x);
    assert x in s.peers ==> PeerOk(s, x);
  }

  lemma KnownMember(s: Session, event: Status, answers: Answers, x: SteamId)
    requires Ok(s) && event.remote == Some(x) && x != s.local
    ensures x in KnownOf(s, event, answers).peers <==>
      x in s.peers || (answers.members.Some? && s.local in answers.members.value && x in answers.members.value)
  {
    hide UpdateMembers, Ok;
    UpdateKeeps(s, answers.members, answers.inbox);
  }

  lemma AcceptCloses(s: Session, event: Status, answers: Answers, x: SteamId)
    requires event.remote == Some(x)
    ensures var k := KnownOf(s, event, answers);
      !(x in k.peers && !k.peers[x].initiator && answers.accepts) ==>
        event.connection in Accept(s, event, answers).books.closed
  {
    hide UpdateMembers, Close;
  }

  /** An incoming connection becomes its peer's exactly if the one it comes from is a member,
      known or by the list as it is now, is the side that connects, and Steam accepts it;
      otherwise it is closed. */
  lemma IncomingExactly(s: Session, event: Status, answers: Answers, now: real, x: SteamId)
    requires Ok(s) && Promised(s, StatusChanged(event, answers, now)) && event.remote == Some(x) && x != s.local
    requires event.state.Opening? && event.listenSocket == s.socket != 0
    requires Holder(s.order, s.peers, event.connection).None?
    ensures var t := ConnectionChanged(s, event, answers, now);
      var member := x in s.peers ||
        (answers.members.Some? && s.local in answers.members.value && x in answers.members.value);
      if member && !(s.local < x) && answers.accepts
      then x in t.peers && t.peers[x].connection == event.connection && event.connection !in t.books.closed
      else event.connection in t.books.closed
  {
    hide Accept, KnownOf, Ok;
    ChangeKeeps(s, event, answers, now);
    AcceptPeers(s, event, answers);
    KnownMember(s, event, answers, x);
    if x in KnownOf(s, event, answers).peers {
      KnownUnheard(s, event, answers, x);
      AcceptIs(s, event, answers, x);
      KnownInitiates(s, event, answers, x);
    }
    AcceptCloses(s, event, answers, x);
    if x in Accept(s, event, answers).peers && Accept(s, event, answers).peers[x].connection != 0 {
      OpenIsKept(Accept(s, event, answers), x);
    }
  }

  /** Of a connection that is nobody's and doesn't come in here, one that is over is closed and
      any other is left alone; and one that comes in without an identity is closed. */
  lemma StrayExactly(s: Session, event: Status, answers: Answers, now: real)
    requires Holder(s.order, s.peers, event.connection).None?
    requires event.state.Opening? && event.listenSocket == s.socket != 0 ==> event.remote.None?
    ensures var t, ends := ConnectionChanged(s, event, answers, now), event.connection;
      if event.state.Opening? && event.listenSocket == s.socket != 0 then
        t == s.(books := s.books.(given := s.books.given + {ends}, closed := s.books.closed + multiset{ends}))
      else if event.state.ClosedByPeer? || event.state.ProblemDetectedLocally? then
        t == s.(books := s.books.(closed := s.books.closed + multiset{ends}))
      else t == s
  {
  }

  // What is read

  function Arrived(receipts: seq<Receipt>, h: Handle): seq<Bytes>
    decreases |receipts|
  {
    if receipts == [] then []
    else (if receipts[0].connection == h then [receipts[0].data] else []) + Arrived(receipts[1..], h)
  }

  function Box(inbox: map<Handle, seq<Bytes>>, h: Handle): seq<Bytes> { if h in inbox then inbox[h] else [] }

  lemma {:induction false} ArrivedConcat(a: seq<Receipt>, b: seq<Receipt>, h: Handle)
    ensures Arrived(a + b, h) == Arrived(a, h) + Arrived(b, h)
    decreases |a|
  {
    if a == [] {
      assert a + b == b;
    } else {
      assert (a + b)[1..] == a[1..] + b;
      ArrivedConcat(a[1..], b, h);
    }
  }

  lemma {:induction false} ArrivedAll(receipts: seq<Receipt>, h: Handle)
    requires forall i :: 0 <= i < |receipts| ==> receipts[i].connection == h
    ensures |Arrived(receipts, h)| == |receipts|
    ensures forall i :: 0 <= i < |receipts| ==> Arrived(receipts, h)[i] == receipts[i].data
    decreases |receipts|
  {
    if receipts != [] {
      ArrivedAll(receipts[1..], h);
    }
  }

  lemma {:induction false} ArrivedNone(receipts: seq<Receipt>, h: Handle)
    requires forall i :: 0 <= i < |receipts| ==> receipts[i].connection != h
    ensures Arrived(receipts, h) == []
    decreases |receipts|
  {
    if receipts != [] {
      ArrivedNone(receipts[1..], h);
    }
  }

  lemma ArrivedWaiting(inbox: map<Handle, seq<Bytes>>, id: SteamId, g: Handle, h: Handle)
    ensures Arrived(Waiting(inbox, id, g), h) == if g == h then Box(inbox, h) else []
  {
    var got := Waiting(inbox, id, g);
    if g == h {
      ArrivedAll(got, h);
      assert Arrived(got, h) == Box(inbox, h);
    } else {
      ArrivedNone(got, h);
    }
  }

  /** Some peer is connected by h. */
  ghost predicate Live(s: Session, h: Handle) {
    exists id :: id in s.peers && s.peers[id].connected && s.peers[id].connection == h
  }

  /** From s to t, h is read exactly if it is closed, and nothing becomes connected. */
  ghost predicate Drains(s: Session, t: Session, inbox: map<Handle, seq<Bytes>>, h: Handle) {
    && Arrived(t.books.handed, h) ==
         Arrived(s.books.handed, h) + (if Live(s, h) && !Live(t, h) then Box(inbox, h) else [])
    && (Live(t, h) ==> Live(s, h))
  }

  lemma DrainsJoin(s: Session, t: Session, u: Session, inbox: map<Handle, seq<Bytes>>, h: Handle)
    requires Drains(s, t, inbox, h) && Drains(t, u, inbox, h)
    ensures Drains(s, u, inbox, h)
  {
    hide Arrived, Live, Box;
  }

  /** Nothing is read and nobody's being connected changes. */
  lemma StillDrains(s: Session, t: Session, inbox: map<Handle, seq<Bytes>>, h: Handle)
    requires t.books.handed == s.books.handed
    requires forall x :: x in t.peers && t.peers[x].connected ==>
      x in s.peers && s.peers[x].connected && s.peers[x].connection == t.peers[x].connection
    requires forall x :: x in s.peers && s.peers[x].connected ==>
      x in t.peers && t.peers[x].connected && t.peers[x].connection == s.peers[x].connection
    ensures Drains(s, t, inbox, h)
  {
    assert Arrived(s.books.handed, h) + [] == Arrived(s.books.handed, h);
    if Live(s, h) {
      var x :| x in s.peers && s.peers[x].connected && s.peers[x].connection == h;
      assert x in t.peers && t.peers[x].connected && t.peers[x].connection == h;
    }
  }

  lemma CloseLive(s: Session, id: SteamId, reason: Reason, inbox: map<Handle, seq<Bytes>>, h: Handle)
    requires Ok(s) && id in s.peers
    ensures Live(Close(s, id, reason, inbox), h) <==>
      Live(s, h) && !(s.peers[id].connected && s.peers[id].connection == h)
  {
    hide Waiting;
    var t := Close(s, id, reason, inbox);
    assert PeerOk(s, id);
    if Live(s, h) {
      var x :| x in s.peers && s.peers[x].connected && s.peers[x].connection == h;
      assert PeerOk(s, x);
      assert x != id ==> t.peers[x] == s.peers[x];
    }
  }

  lemma CloseDrains(s: Session, id: SteamId, reason: Reason, inbox: map<Handle, seq<Bytes>>, h: Handle)
    requires Ok(s) && id in s.peers
    ensures Drains(s, Close(s, id, reason, inbox), inbox, h)
  {
    hide Arrived, Waiting;
    var p, t := s.peers[id], Close(s, id, reason, inbox);
    var got := if p.connected then Waiting(inbox, id, p.connection) else [];
    assert t.books.handed == s.books.handed + got;
    ArrivedConcat(s.books.handed, got, h);
    ArrivedWaiting(inbox, id, p.connection, h);
    assert Arrived([], h) == [] by {
      ArrivedNone([], h);
    }
    CloseLive(s, id, reason, inbox, h);
  }

  lemma ForgetDrains(s: Session, id: SteamId, inbox: map<Handle, seq<Bytes>>, h: Handle)
    requires id in s.peers && !s.peers[id].connected
    ensures Drains(s, Forget(s, id), inbox, h)
  {
    StillDrains(s, Forget(s, id), inbox, h);
  }

  lemma DropDrains(s: Session, id: SteamId, inbox: map<Handle, seq<Bytes>>, h: Handle)
    requires Ok(s) && id in s.peers
    ensures Drains(s, Drop(s, id, inbox), inbox, h)
  {
    hide Drains, Forget, Waiting;
    var t := Close(s, id, LEFT, inbox);
    CloseDrains(s, id, LEFT, inbox, h);
    ForgetDrains(t, id, inbox, h);
    DrainsJoin(s, t, Forget(t, id), inbox, h);
  }

  lemma {:induction false} DropAllDrains(s: Session, ids: seq<SteamId>, inbox: map<Handle, seq<Bytes>>, h: Handle)
    requires Ok(s)
    ensures Drains(s, DropAll(s, ids, inbox), inbox, h)
    decreases |ids|
  {
    hide Ok, Drains, Drop;
    if ids == [] {
      StillDrains(s, s, inbox, h);
    } else if ids[0] in s.peers {
      var t := Drop(s, ids[0], inbox);
      DropDrains(s, ids[0], inbox, h);
      DropKeeps(s, ids[0], inbox);
      DropAllDrains(t, ids[1..], inbox, h);
      DrainsJoin(s, t, DropAll(t, ids[1..], inbox), inbox, h);
    } else {
      DropAllDrains(s, ids[1..], inbox, h);
    }
  }

  lemma AddDrains(s: Session, id: SteamId, inbox: map<Handle, seq<Bytes>>, h: Handle)
    requires id !in s.peers
    ensures Drains(s, Add(s, id), inbox, h)
  {
    StillDrains(s, Add(s, id), inbox, h);
  }

  lemma {:induction false} AddAllDrains(s: Session, ids: seq<SteamId>, inbox: map<Handle, seq<Bytes>>, h: Handle)
    requires Ascending(ids) && forall i :: 0 <= i < |ids| ==> ids[i] !in s.peers
    ensures Drains(s, AddAll(s, ids), inbox, h)
    decreases |ids|
  {
    hide Drains;
    if ids == [] {
      StillDrains(s, s, inbox, h);
    } else {
      var t := Add(s, ids[0]);
      AddDrains(s, ids[0], inbox, h);
      AddAllDrains(t, ids[1..], inbox, h);
      DrainsJoin(s, t, AddAll(t, ids[1..]), inbox, h);
    }
  }

  lemma UpdateDrains(s: Session, members: Option<set<SteamId>>, inbox: map<Handle, seq<Bytes>>, h: Handle)
    requires Ok(s)
    ensures Drains(s, UpdateMembers(s, members, inbox), inbox, h)
  {
    hide Ok, Drains, AddAll, DropAll;
    if members.Some? && s.local in members.value {
      var others := members.value - {s.local};
      var start := s.(unsettled := false);
      var joining := SortedIds(others - s.peers.Keys);
      var added := AddAll(start, joining);
      FlagKeeps(s, s.paused, false, s.drained);
      AddMissing(start, others);
      SortedMembers(others - s.peers.Keys);
      SortedAscends(others - s.peers.Keys);
      forall i | 0 <= i < |joining| ensures joining[i] !in start.peers {
        assert joining[i] in joining;
      }
      StillDrains(s, start, inbox, h);
      AddAllDrains(start, joining, inbox, h);
      DropAllDrains(added, SortedIds(added.peers.Keys - others), inbox, h);
      DrainsJoin(s, start, added, inbox, h);
      DrainsJoin(s, added, DropAll(added, SortedIds(added.peers.Keys - others), inbox), inbox, h);
    } else {
      StillDrains(s, s.(unsettled := true), inbox, h);
    }
  }

  lemma AdoptDrains(s: Session, id: SteamId, g: Handle, inbox: map<Handle, seq<Bytes>>, h: Handle)
    requires id in s.peers && !s.peers[id].connected
    ensures Drains(s, Adopt(Give(s, g), id, g), inbox, h)
  {
    StillDrains(s, Adopt(Give(s, g), id, g), inbox, h);
  }

  lemma RejectDrains(s: Session, g: Handle, inbox: map<Handle, seq<Bytes>>, h: Handle)
    ensures Drains(s, Reject(s, g), inbox, h) && Drains(s, Reject(Give(s, g), g), inbox, h)
  {
    StillDrains(s, Reject(s, g), inbox, h);
    StillDrains(s, Reject(Give(s, g), g), inbox, h);
  }

  lemma FreeIsNot(s: Session, id: SteamId)
    requires Ok(s) && id in s.peers && s.peers[id].connection == 0
    ensures !s.peers[id].connected
  {
    assert PeerOk(s, id);
  }

  lemma AcceptDrains(s: Session, event: Status, answers: Answers, h: Handle)
    requires Ok(s)
    ensures Drains(s, Accept(s, event, answers), answers.inbox, h)
  {
    hide Ok, Drains, UpdateMembers, Close, Adopt;
    var g, inbox := event.connection, answers.inbox;
    var known := KnownOf(s, event, answers);
    StillDrains(s, s, inbox, h);
    UpdateKeeps(s, answers.members, inbox);
    UpdateDrains(s, answers.members, inbox, h);
    if event.remote.None? || event.remote.value !in known.peers || known.peers[event.remote.value].initiator {
      RejectDrains(known, g, inbox, h);
      DrainsJoin(s, known, Reject(Give(known, g), g), inbox, h);
    } else {
      var id := event.remote.value;
      var free := known;
      StillDrains(known, known, inbox, h);
      if known.peers[id].connection != 0 {
        free := Close(known, id, REPLACED, inbox);
        CloseDrains(known, id, REPLACED, inbox, h);
        CloseFrees(known, id, REPLACED, inbox);
      } else {
        FreeIsNot(known, id);
      }
      DrainsJoin(s, known, free, inbox, h);
      if answers.accepts {
        AdoptDrains(free, id, g, inbox, h);
        DrainsJoin(s, free, Adopt(Give(free, g), id, g), inbox, h);
      } else {
        RejectDrains(free, g, inbox, h);
        DrainsJoin(s, free, Reject(Give(free, g), g), inbox, h);
      }
    }
  }

  lemma ScheduleDrains(s: Session, id: SteamId, now: real, inbox: map<Handle, seq<Bytes>>, h: Handle)
    requires id in s.peers
    ensures Drains(s, Schedule(s, id, now), inbox, h)
  {
    StillDrains(s, Schedule(s, id, now), inbox, h);
  }

  /** A change that connects nobody. */
  lemma ChangeDrains(s: Session, event: Status, answers: Answers, now: real, h: Handle)
    requires Ok(s) && forall x :: !Ups(s, StatusChanged(event, answers, now), x)
    ensures Drains(s, ConnectionChanged(s, event, answers, now), answers.inbox, h)
  {
    hide Ok, Accept, Close, Schedule, Reject, Holder, Drains;
    var holder, inbox := Holder(s.order, s.peers, event.connection), answers.inbox;
    StillDrains(s, s, inbox, h);
    RejectDrains(s, event.connection, inbox, h);
    if holder.None? {
      AcceptDrains(s, event, answers, h);
    } else {
      var id := holder.value;
      assert !Ups(s, StatusChanged(event, answers, now), id);
      CloseDrains(s, id, MISIDENTIFIED, inbox, h);
      var t := Close(s, id, DROPPED, inbox);
      CloseDrains(s, id, DROPPED, inbox, h);
      CloseFrees(s, id, DROPPED, inbox);
      ScheduleDrains(t, id, now, inbox, h);
      DrainsJoin(s, t, Schedule(t, id, now), inbox, h);
    }
  }

  lemma {:induction false} CloseEachDrains(s: Session, ids: seq<SteamId>, inbox: map<Handle, seq<Bytes>>, h: Handle)
    requires Ok(s)
    ensures Drains(s, CloseEach(s, ids, inbox), inbox, h)
    decreases |ids|
  {
    hide Ok, Drains, Close;
    if ids == [] {
      StillDrains(s, s, inbox, h);
    } else if ids[0] in s.peers {
      var t := Close(s, ids[0], SESSION_CLOSED, inbox);
      CloseDrains(s, ids[0], SESSION_CLOSED, inbox, h);
      CloseKeeps(s, ids[0], SESSION_CLOSED, inbox);
      CloseEachDrains(t, ids[1..], inbox, h);
      DrainsJoin(s, t, CloseEach(t, ids[1..], inbox), inbox, h);
    } else {
      CloseEachDrains(s, ids[1..], inbox, h);
    }
  }

  lemma ConnectDrains(s: Session, now: real, handles: map<SteamId, Handle>, h: Handle)
    requires Ok(s) && DueIds(s, now) <= handles.Keys
    ensures Drains(s, Connect(s, now, handles), map[], h)
  {
    forall x | x in s.peers ensures s.peers[x].connected ==> !Due(s.peers[x], now) {
      assert PeerOk(s, x);
    }
    StillDrains(s, Connect(s, now, handles), map[], h);
  }

  lemma HastenDrains(s: Session, now: real, inbox: map<Handle, seq<Bytes>>, h: Handle)
    ensures Drains(s, Hasten(s, now), inbox, h)
  {
    StillDrains(s, Hasten(s, now), inbox, h);
  }

  lemma ResumeDrains(s: Session, now: real, answers: Answers, h: Handle)
    requires Ok(s)
    ensures Drains(s, Resume(s, now, answers), answers.inbox, h)
  {
    hide Ok, Drains, UpdateMembers, Hasten;
    var start := s.(paused := false);
    var updated := UpdateMembers(start, answers.members, answers.inbox);
    FlagKeeps(s, false, s.unsettled, s.drained);
    StillDrains(s, start, answers.inbox, h);
    UpdateDrains(start, answers.members, answers.inbox, h);
    HastenDrains(updated, now, answers.inbox, h);
    DrainsJoin(s, start, updated, answers.inbox, h);
    DrainsJoin(s, updated, Hasten(updated, now), answers.inbox, h);
  }

  // No peer is in the order twice

  ghost predicate Once(order: seq<SteamId>) { forall i, j :: 0 <= i < j < |order| ==> order[i] != order[j] }

  lemma {:induction false} KeepOnce(order: seq<SteamId>, ids: set<SteamId>)
    requires Once(order)
    ensures Once(Keep(order, ids))
    decreases |order|
  {
    if order != [] {
      var rest := Keep(order[1..], ids);
      KeepOnce(order[1..], ids);
      forall i, j | 0 <= i < j < |Keep(order, ids)| ensures Keep(order, ids)[i] != Keep(order, ids)[j] {
        if order[0] in ids && i == 0 {
          assert rest[j - 1] in rest;
        }
      }
    }
  }

  /** What is read from h in going through the peers: its box, if it is connected. */
  lemma {:induction false} CollectReads(order: seq<SteamId>, peers: map<SteamId, Peer>, inbox: map<Handle, seq<Bytes>>,
                                        h: Handle)
    requires Once(order)
    requires forall x, y :: (x in peers && y in peers && peers[x].connected && peers[y].connected
      && peers[x].connection == peers[y].connection) ==> x == y
    ensures Arrived(Collect(order, peers, inbox), h) ==
      if exists x :: x in order && x in peers && peers[x].connected && peers[x].connection == h
      then Box(inbox, h) else []
    decreases |order|
  {
    hide Arrived, Waiting;
    ArrivedNone([], h);
    if order != [] {
      var x, rest := order[0], order[1..];
      var first := if x in peers && peers[x].connected then Waiting(inbox, x, peers[x].connection) else [];
      CollectReads(rest, peers, inbox, h);
      ArrivedConcat(first, Collect(rest, peers, inbox), h);
      if x in peers {
        ArrivedWaiting(inbox, x, peers[x].connection, h);
      }
      assert forall y :: y in order <==> y == x || y in rest;
      assert x !in rest;
    }
  }

  lemma ReceiveReads(s: Session, inbox: map<Handle, seq<Bytes>>, h: Handle)
    requires Ok(s) && Once(s.order)
    ensures Arrived(Receive(s, inbox).books.handed, h) ==
      Arrived(s.books.handed, h) + (if Live(s, h) then Box(inbox, h) else [])
  {
    hide Arrived, Collect, Once;
    forall x | x in s.peers ensures s.peers[x].connected ==> s.peers[x].connection != 0 {
      assert PeerOk(s, x);
    }
    CollectReads(s.order, s.peers, inbox, h);
    ArrivedConcat(s.books.handed, Collect(s.order, s.peers, inbox), h);
  }

  function InboxOf(e: Event): map<Handle, seq<Bytes>> {
    match e
    case MembersChanged(answers) => answers.inbox
    case StatusChanged(_, answers, _) => answers.inbox
    case Receives(inbox) => inbox
    case Disconnects(_, _, inbox) => inbox
    case Closes(inbox) => inbox
    case Resumes(_, answers) => answers.inbox
    case _ => map[]
  }

  /** What an event must read from h: all that waits, if a peer is connected by it and is either
      read from in turn or ceases to be connected. */
  ghost function Offer(s: Session, e: Event, h: Handle): seq<Bytes>
    requires Promised(s, e)
  {
    if Live(s, h) && (e.Receives? || !Live(Step(s, e), h)) then Box(InboxOf(e), h) else []
  }

  lemma UpReads(s: Session, event: Status, answers: Answers, now: real, x: SteamId, h: Handle)
    requires Ok(s) && Ups(s, StatusChanged(event, answers, now), x)
    ensures var t := ConnectionChanged(s, event, answers, now);
      t.books.handed == s.books.handed && (Live(s, h) ==> Live(t, h))
  {
    var t := ConnectionChanged(s, event, answers, now);
    assert t == s || t == s.(peers := s.peers[x := s.peers[x].(connected := true, wasConnected := true)]);
    if Live(s, h) {
      var y :| y in s.peers && s.peers[y].connected && s.peers[y].connection == h;
      assert y in t.peers && t.peers[y].connected && t.peers[y].connection == h;
    }
  }

  lemma StepReads(s: Session, e: Event, h: Handle)
    requires Ok(s) && Once(s.order) && Promised(s, e)
    ensures Arrived(Step(s, e).books.handed, h) == Arrived(s.books.handed, h) + Offer(s, e, h)
  {
    hide Ok, Once, Arrived, Live, Box, ConnectionChanged, UpdateMembers, Connect, Close, CloseEach, Resume, Receive;
    match e
    case MembersChanged(answers) => UpdateDrains(s, answers.members, answers.inbox, h);
    case StatusChanged(event, answers, now) =>
      if x :| Ups(s, e, x) {
        UpReads(s, event, answers, now, x, h);
      } else {
        ChangeDrains(s, event, answers, now, h);
      }
    case Connects(now, handles) => ConnectDrains(s, now, handles, h);
    case Receives(inbox) => ReceiveReads(s, inbox, h);
    case Disconnects(id, reason, inbox) =>
      if id in s.peers {
        CloseDrains(s, id, Reason(reason, true), inbox, h);
      } else {
        StillDrains(s, s, inbox, h);
      }
    case Closes(inbox) => CloseEachDrains(s, s.order, inbox, h);
    case Pauses => StillDrains(s, s.(paused := true), map[], h);
    case Resumes(now, answers) => ResumeDrains(s, now, answers, h);
  }

  lemma {:induction false} AddAllOnce(s: Session, ids: seq<SteamId>)
    requires Ordered(s) && Once(s.order) && Ascending(ids)
    requires forall i :: 0 <= i < |ids| ==> ids[i] !in s.peers && ids[i] != s.local
    ensures Once(AddAll(s, ids).order)
    decreases |ids|
  {
    if ids != [] {
      AddAllOnce(Add(s, ids[0]), ids[1..]);
    }
  }

  lemma DropOrder(s: Session, id: SteamId, inbox: map<Handle, seq<Bytes>>)
    requires id in s.peers
    ensures Drop(s, id, inbox).order == Keep(s.order, s.peers.Keys - {id})
  {
    ClosePeers(s, id, LEFT, inbox);
  }

  lemma {:induction false} DropAllOnce(s: Session, ids: seq<SteamId>, inbox: map<Handle, seq<Bytes>>)
    requires Once(s.order)
    ensures Once(DropAll(s, ids, inbox).order)
    decreases |ids|
  {
    hide Once, Close;
    if ids != [] {
      if ids[0] in s.peers {
        DropOrder(s, ids[0], inbox);
        KeepOnce(s.order, s.peers.Keys - {ids[0]});
      }
      DropAllOnce(if ids[0] in s.peers then Drop(s, ids[0], inbox) else s, ids[1..], inbox);
    }
  }

  lemma UpdateOnce(s: Session, members: Option<set<SteamId>>, inbox: map<Handle, seq<Bytes>>)
    requires Ok(s) && Once(s.order)
    ensures Once(UpdateMembers(s, members, inbox).order)
  {
    hide Once, AddAll, DropAll;
    if members.Some? && s.local in members.value {
      var others := members.value - {s.local};
      var joining := SortedIds(others - s.peers.Keys);
      SortedMembers(others - s.peers.Keys);
      SortedAscends(others - s.peers.Keys);
      forall i | 0 <= i < |joining| ensures joining[i] !in s.peers && joining[i] != s.local {
        assert joining[i] in joining;
      }
      var added := AddAll(s.(unsettled := false), joining);
      AddAllOnce(s.(unsettled := false), joining);
      DropAllOnce(added, SortedIds(added.peers.Keys - others), inbox);
    }
  }

  lemma {:induction false} CloseEachOrder(s: Session, ids: seq<SteamId>, inbox: map<Handle, seq<Bytes>>)
    ensures CloseEach(s, ids, inbox).order == s.order
    decreases |ids|
  {
    hide Waiting;
    if ids != [] {
      CloseEachOrder(if ids[0] in s.peers then Close(s, ids[0], SESSION_CLOSED, inbox) else s, ids[1..], inbox);
    }
  }

  lemma AcceptOnce(s: Session, event: Status, answers: Answers)
    requires Ok(s) && Once(s.order)
    ensures Once(Accept(s, event, answers).order)
  {
    hide Once, UpdateMembers, Waiting;
    UpdateOnce(s, answers.members, answers.inbox);
  }

  lemma ChangeOnce(s: Session, event: Status, answers: Answers, now: real)
    requires Ok(s) && Once(s.order)
    ensures Once(ConnectionChanged(s, event, answers, now).order)
  {
    hide Once, Accept, Holder, Waiting;
    AcceptOnce(s, event, answers);
  }

  lemma StepOnce(s: Session, e: Event)
    requires Ok(s) && Once(s.order) && Promised(s, e)
    ensures Once(Step(s, e).order)
  {
    hide Once, Ok, UpdateMembers, ConnectionChanged, CloseEach, Waiting, Collect;
    match e
    case MembersChanged(answers) => UpdateOnce(s, answers.members, answers.inbox);
    case StatusChanged(event, answers, now) => ChangeOnce(s, event, answers, now);
    case Closes(inbox) => CloseEachOrder(s, s.order, inbox);
    case Resumes(now, answers) =>
      FlagKeeps(s, false, s.unsettled, s.drained);
      UpdateOnce(s.(paused := false), answers.members, answers.inbox);
    case _ =>
  }

  /** What a run must read from h. */
  ghost function Offers(s: Session, events: seq<Event>, h: Handle): seq<Bytes>
    requires PromisedRun(s, events)
    decreases |events|
  {
    if events == [] then [] else Offer(s, events[0], h) + Offers(Step(s, events[0]), events[1..], h)
  }

  lemma {:induction false} RunReads(s: Session, events: seq<Event>, h: Handle)
    requires Ok(s) && Once(s.order) && PromisedRun(s, events)
    ensures Arrived(After(s, events).books.handed, h) == Arrived(s.books.handed, h) + Offers(s, events, h)
    decreases |events|
  {
    hide Ok, Once, Step, Arrived, Offer;
    if events != [] {
      StepReads(s, events[0], h);
      StepKeeps(s, events[0]);
      StepOnce(s, events[0]);
      RunReads(Step(s, events[0]), events[1..], h);
    }
  }

  /** Nothing stays unread: over every run, what has been passed on from a connection, and then
      what waits to be, is exactly all that Steam had for it each time it was read: in turn
      while its peer was connected, and once more as it was closed. */
  lemma NothingUnread(local: SteamId, socket: Handle, events: seq<Event>, h: Handle)
    requires PromisedRun(Begin(local, socket), events)
    ensures var s := After(Begin(local, socket), events);
      Arrived(s.books.returned, h) + Arrived(s.drained, h) == Offers(Begin(local, socket), events, h)
  {
    hide Ok, InOrder, Scheduled;
    var start := Begin(local, socket);
    var s := After(start, events);
    BeginKeeps(local, socket);
    RunReads(start, events, h);
    EveryRun(local, socket, events);
    ArrivedConcat(s.books.returned, s.drained, h);
    ArrivedNone(start.books.handed, h);
  }

  // Which events end a connection

  /** The list leaves x out, and has this PC in it. */
  predicate LeavesOut(s: Session, members: Option<set<SteamId>>, x: SteamId) {
    members.Some? && s.local in members.value && x !in members.value
  }

  /** The states in which a connection is over. */
  predicate Over(state: ConnectionState) { state.ClosedByPeer? || state.ProblemDetectedLocally? }

  /** The event ends the connection of x: x leaves the lobby, is disconnected, or everybody is;
      its connection drops or turns out to be somebody else's; or x connects anew. */
  predicate Ends(s: Session, e: Event, x: SteamId) {
    match e
    case MembersChanged(answers) => LeavesOut(s, answers.members, x)
    case Resumes(_, answers) => LeavesOut(s, answers.members, x)
    case Disconnects(id, _, _) => id == x
    case Closes(_) => true
    case StatusChanged(event, answers, _) =>
      var holder := Holder(s.order, s.peers, event.connection);
      if holder.Some? then
        holder.value == x && ((event.remote.Some? && event.remote.value != x) || Over(event.state))
      else
        && event.state.Opening? && event.listenSocket == s.socket != 0 && event.remote.Some?
        && if event.remote.value in s.peers then event.remote.value == x && !(s.local < x)
           else LeavesOut(s, answers.members, x)
    case _ => false
  }

  lemma PeerIsNotLocal(s: Session, x: SteamId)
    requires Ok(s) && x in s.peers
    ensures x != s.local && s.peers[x].initiator == (s.local < x)
  {
    assert PeerOk(s, x);
  }

  lemma UpdateEnds(s: Session, members: Option<set<SteamId>>, inbox: map<Handle, seq<Bytes>>, x: SteamId)
    requires Ok(s) && x in s.peers
    ensures var t := UpdateMembers(s, members, inbox);
      (x in t.peers <==> !LeavesOut(s, members, x)) && (x in t.peers ==> t.peers[x] == s.peers[x])
  {
    hide UpdateMembers;
    PeerIsNotLocal(s, x);
    UpdateKeeps(s, members, inbox);
    if x in UpdateMembers(s, members, inbox).peers {
      UpdateSame(s, members, inbox, x);
    }
  }

  /** x still is a peer with the connection it had. */
  predicate Keeps(s: Session, t: Session, x: SteamId)
    requires x in s.peers
  {
    x in t.peers && t.peers[x].connection == s.peers[x].connection
  }

  lemma OpenIsGiven(s: Session, x: SteamId)
    requires Ok(s) && x in s.peers && s.peers[x].connection != 0
    ensures s.peers[x].connection in s.books.given
  {
    assert PeerOk(s, x);
  }

  lemma AcceptEnds(s: Session, event: Status, answers: Answers, x: SteamId)
    requires Ok(s) && x in s.peers && s.peers[x].connection != 0
    requires event.connection != 0 && event.connection !in s.books.given
    ensures Keeps(s, Accept(s, event, answers), x) <==>
      !(event.remote.Some? && if event.remote.value in s.peers then event.remote.value == x && !(s.local < x)
                              else LeavesOut(s, answers.members, x))
  {
    hide Accept, UpdateMembers, Ok;
    UpdateEnds(s, answers.members, answers.inbox, x);
    AcceptPeers(s, event, answers);
    PeerIsNotLocal(s, x);
    OpenIsGiven(s, x);
    if x in KnownOf(s, event, answers).peers {
      KnownUnheard(s, event, answers, x);
      AcceptIs(s, event, answers, x);
    }
  }

  lemma ChangeEnds(s: Session, event: Status, answers: Answers, now: real, x: SteamId)
    requires Ok(s) && Promised(s, StatusChanged(event, answers, now)) && x in s.peers && s.peers[x].connection != 0
    ensures Keeps(s, ConnectionChanged(s, event, answers, now), x) <==> !Ends(s, StatusChanged(event, answers, now), x)
  {
    hide Accept, Close, Holder, Ok, KnownOf;
    var holder := Holder(s.order, s.peers, event.connection);
    if holder.Some? {
      CloseFrees(s, holder.value, MISIDENTIFIED, answers.inbox);
      CloseFrees(s, holder.value, DROPPED, answers.inbox);
    } else if event.Incoming() && event.listenSocket == s.socket {
      AcceptEnds(s, event, answers, x);
    }
  }

  lemma {:induction false} CloseEachEnds(s: Session, ids: seq<SteamId>, inbox: map<Handle, seq<Bytes>>, x: SteamId)
    requires x in s.peers
    ensures var t := CloseEach(s, ids, inbox);
      x in t.peers && t.peers[x].connection == if x in ids then 0 else s.peers[x].connection
    decreases |ids|
  {
    hide Close;
    if ids != [] {
      var t := if ids[0] in s.peers then Close(s, ids[0], SESSION_CLOSED, inbox) else s;
      if ids[0] in s.peers {
        CloseFrees(s, ids[0], SESSION_CLOSED, inbox);
      }
      CloseEachEnds(t, ids[1..], inbox, x);
    }
  }

  lemma ConnectEnds(s: Session, now: real, handles: map<SteamId, Handle>, x: SteamId)
    requires DueIds(s, now) <= handles.Keys && x in s.peers && s.peers[x].connection != 0
    ensures Keeps(s, Connect(s, now, handles), x)
  {
  }

  lemma InOrderPeer(s: Session, x: SteamId)
    requires Ok(s) && x in s.peers
    ensures x in s.order
  {
  }

  /** Exactly those events end a connection: any other leaves it to its peer. */
  lemma EndsExactly(s: Session, e: Event, x: SteamId)
    requires Ok(s) && Promised(s, e) && x in s.peers && s.peers[x].connection != 0
    ensures Keeps(s, Step(s, e), x) <==> !Ends(s, e, x)
  {
    hide Ok, ConnectionChanged, UpdateMembers, Connect, Close, CloseEach, Collect;
    match e
    case MembersChanged(answers) => UpdateEnds(s, answers.members, answers.inbox, x);
    case StatusChanged(event, answers, now) => ChangeEnds(s, event, answers, now, x);
    case Connects(now, handles) => ConnectEnds(s, now, handles, x);
    case Receives(inbox) =>
    case Disconnects(id, reason, inbox) =>
      if id in s.peers {
        CloseFrees(s, id, Reason(reason, true), inbox);
      }
    case Closes(inbox) =>
      InOrderPeer(s, x);
      CloseEachEnds(s, s.order, inbox, x);
    case Pauses =>
    case Resumes(now, answers) =>
      FlagKeeps(s, false, s.unsettled, s.drained);
      UpdateEnds(s.(paused := false), answers.members, answers.inbox, x);
  }
}
