/**
 What the controller decides (src/steamlan/app/controller.py): its actions and ticks as
 functions of its state and of what Steam and Windows answer. The class in
 AppController.dfy is proved against them.
 */
module Control {
  import opened Basics
  import opened Roster
  import M = Membership

  type Handle = nat  // a listen socket or a helper; 0 is none
  type LobbyId = nat
  type ApiCall = nat
  type NetworkId = string

  const CALL_TIMEOUT := 15.0
  const FAREWELL_TIMEOUT := 15.0
  const RESTORE_TIMEOUT := 90.0

  /** RESTORE_BACKOFF: seconds before each further attempt to get back into the lobby. */
  function Backoff(attempts: nat): real {
    if attempts == 0 then 2.0 else if attempts == 1 then 4.0 else if attempts == 2 then 8.0 else 15.0
  }

  datatype Kind = Create | Join | Rejoin | Restore | Farewell

  datatype Pending = Pending(kind: Kind, call: ApiCall, started: real, lobby: LobbyId, code: string)

  datatype Saved = Saved(lobby: LobbyId, network: NetworkId, code: string, members: Roster, online: bool)
  {
    function WithOnline(flag: bool): Saved { this.(online := flag) }
  }

  datatype Link = Reconnecting | RestoringNetwork

  /** What the controller reads of a session. */
  datatype Seen = Seen(joined: bool, refused: string, code: string, members: Roster)

  datatype Session = Session(lobby: LobbyId, socket: Handle, suspended: bool, seen: Seen)

  datatype Core = Core(call: Option<Pending>, net: Option<Session>, saved: Option<Saved>, link: Option<Link>)

  datatype Held = Held(helper: Handle, socket: Handle, lobby: LobbyId)

  const NOTHING := Held(0, 0, 0)

  datatype Goodbye = Goodbye(until: Option<real>, leaving: Option<Saved>)

  datatype Recovery = Recovery(started: real, next: real, attempts: nat)

  /** What was given, and what was closed again. */
  datatype Ledger = Ledger(given: set<Handle>, closed: multiset<Handle>)

  /** The listen sockets and helpers there ever were, and when each attempt of the latest
      restoring stretch was made. */
  datatype Books = Books(sockets: Ledger, helpers: Ledger, attempts: seq<real>, now: real)

  datatype Control = Control(
    running: bool,  // whether there is a Steam
    core: Core,
    held: Held,
    goodbye: Goodbye,
    recovery: Recovery,
    network: NetworkId,
    abandoned: map<ApiCall, LobbyId>,
    books: Books)

  const INITIAL := Control(false, Core(None, None, None, None), NOTHING, Goodbye(None, None), Recovery(0.0, 0.0, 0),
                           "", map[], Books(Ledger({}, multiset{}), Ledger({}, multiset{}), [], 0.0))

  /** Steam's answer to the pending call. Entering answers for the lobby asked for. */
  datatype Answer =
    | Created(lobby: LobbyId, marked: bool)
    | NotCreated
    | Entered(ours: bool, network: NetworkId)
    | NotEntered(gone: bool, barred: bool)

  datatype Invite = Invite(lobby: LobbyId, code: string)

  /** All Steam, Windows and the session answer during one action or tick; None where the
      call fails. */
  datatype Answers = Answers(
    now: real,
    opens: bool,  // Steam, when the app starts
    loggedOn: bool,
    lost: bool,  // Steam says it lost its servers, or took this PC out of the lobby
    inLobby: bool,
    socket: Option<Handle>,
    call: Option<ApiCall>,
    result: Option<Answer>,
    answered: set<ApiCall>,
    begun: Seen,  // of a session just made
    seen: Seen,  // of the session once it has processed its messages
    told: bool,
    helper: Handle,
    helperStarts: bool,
    helperFailed: bool,
    invite: Option<Invite>,
    newId: NetworkId)

  // Small pieces

  function Close(l: Ledger, h: Handle): Ledger { if h == 0 then l else l.(closed := l.closed + multiset{h}) }

  function CloseHelper(c: Control): Control {
    c.(held := c.held.(helper := 0), books := c.books.(helpers := Close(c.books.helpers, c.held.helper)))
  }

  function CloseNetwork(c: Control): Control {
    c.(core := c.core.(net := None),
       held := NOTHING,
       books := c.books.(
         helpers := Close(c.books.helpers, c.held.helper),
         sockets := Close(c.books.sockets, c.held.socket)))
  }

  function Save(c: Control, saved: Option<Saved>): Control { c.(core := c.core.(saved := saved)) }

  function StopRecovering(c: Control): Control { c.(core := c.core.(link := None)) }

  function Drop(c: Control): Control { c.(core := c.core.(call := None)) }

  function Abandon(c: Control, leave: bool): Control {
    var dropped := Drop(c);
    if c.core.call.Some? && !c.core.call.value.kind.Create? && c.core.call.value.call != 0 && leave then
      dropped.(abandoned := c.abandoned[c.core.call.value.call := c.core.call.value.lobby])
    else dropped
  }

  /** Everything given up at once: the call, recovering, the network. */
  function Down(c: Control): Control { CloseNetwork(StopRecovering(Abandon(c, true))) }

  function EndFarewell(c: Control): Control { c.(goodbye := Goodbye(None, None)) }

  function Snapshot(c: Control, online: bool): Saved
    requires c.core.net.Some?
  {
    var net := c.core.net.value;
    Saved(net.lobby, c.network, net.seen.code, net.seen.members, online)
  }

  function Suspended(net: Option<Session>, flag: bool): Option<Session> {
    match net
    case None => None
    case Some(s) => Some(s.(suspended := flag))
  }

  // Losing and restoring the connection

  function BeginRestoring(c: Control, now: real): Control {
    c.(core := c.core.(link := Some(RestoringNetwork)),
       recovery := Recovery(now, now, 0),
       books := c.books.(attempts := []))
  }

  function LoseConnection(c: Control, loggedOn: bool, now: real): Control {
    var held := c.(core := c.core.(net := Suspended(c.core.net, true)));
    if loggedOn then BeginRestoring(held, now) else held.(core := held.core.(link := Some(Reconnecting)))
  }

  function Restored(c: Control): Control {
    c.(core := c.core.(net := Suspended(c.core.net, false), link := None))
  }

  function GoOfflineWith(c: Control): Control
    requires c.core.net.None? || !c.core.net.value.seen.joined ==> c.core.saved.Some?
  {
    var saved :=
      if c.core.net.Some? && c.core.net.value.seen.joined then Snapshot(c, false)
      else c.core.saved.value.WithOnline(false);
    Down(Save(c, Some(saved)))
  }

  function ForgetGone(c: Control): Control { Save(Down(c), None) }

  // Joining

  /** A call that failed, or that Steam did not answer in time. */
  function CallFailed(c: Control, kind: Kind, barred: bool, a: Answers): Control
    requires kind.Rejoin? && barred ==> c.core.saved.Some?
  {
    if kind.Restore? then
      if barred then Down(c) else c
    else
      var closed := CloseNetwork(c);
      match kind
      case Farewell => EndFarewell(closed)
      case Rejoin =>
        if barred then Save(closed, Some(c.core.saved.value.WithOnline(false)))
        else LoseConnection(closed, a.loggedOn, a.now)
      case _ => closed
  }

  function OpenSocket(c: Control, a: Answers): Control {
    if c.held.socket != 0 || a.socket.None? then c
    else
      c.(held := c.held.(socket := a.socket.value),
         books := c.books.(sockets := c.books.sockets.(given := c.books.sockets.given + {a.socket.value})))
  }

  function StartJoin(c: Control, lobby: LobbyId, code: string, kind: Kind, a: Answers): Control {
    var listening := OpenSocket(c, a);
    if listening.held.socket == 0 || a.call.None? then CallFailed(listening, kind, false, a)
    else listening.(core := c.core.(call := Some(Pending(kind, a.call.value, a.now, lobby, code))))
  }

  function StartCreate(c: Control, a: Answers): Control {
    var listening := OpenSocket(c, a);
    if listening.held.socket == 0 || a.call.None? then CloseNetwork(listening)
    else listening.(core := c.core.(call := Some(Pending(Create, a.call.value, a.now, 0, ""))))
  }

  function Entering(c: Control, lobby: LobbyId, a: Answers): Control {
    c.(core := c.core.(net := Some(Session(lobby, c.held.socket, false, a.begun))), held := c.held.(lobby := lobby))
  }

  function AddHelper(c: Control, a: Answers): Control {
    c.(held := c.held.(helper := a.helper),
       books := c.books.(helpers := c.books.helpers.(given := c.books.helpers.given + {a.helper})))
  }

  function Enter(c: Control, lobby: LobbyId, adapter: bool, a: Answers): Control {
    var entered := Entering(c, lobby, a);
    if c.goodbye.until.Some? || !adapter || c.held.helper != 0 then entered
    else
      var helped := AddHelper(entered, a);
      if a.helperStarts then helped
      else if c.core.saved.Some? then GoOfflineWith(helped)
      else CloseNetwork(helped)
  }

  function FinishCreate(c: Control, answer: Answer, a: Answers): Control {
    match answer
    case Created(lobby, true) => Enter(c.(network := a.newId), lobby, true, a)
    case _ => CloseNetwork(c)
  }

  /** The lobby is one of ours, and the one that was meant. */
  predicate Meant(c: Control, kind: Kind, ours: bool, network: NetworkId) {
    var saved := if kind.Farewell? then c.goodbye.leaving else c.core.saved;
    ours && (kind.Join? || (saved.Some? && network == saved.value.network))
  }

  function FinishEnter(c: Control, p: Pending, network: NetworkId, a: Answers): Control {
    var named := c.(network := network);
    if p.kind.Restore? && c.core.net.Some? then
      Restored(named.(held := named.held.(lobby := p.lobby)))
    else
      Enter(if p.kind.Restore? then StopRecovering(named) else named, p.lobby, !p.kind.Farewell?, a)
  }

  /** The pending call's answer; the call itself is no longer pending. */
  function Finish(c: Control, p: Pending, answer: Answer, a: Answers): Control
    requires p.kind.Rejoin? ==> c.core.saved.Some?
  {
    if p.kind.Create? then FinishCreate(c, answer, a)
    else
      match answer
      case Entered(ours, found) =>
        if Meant(c, p.kind, ours, found) then FinishEnter(c, p, found, a)
        else if p.kind.Farewell? then EndFarewell(CloseNetwork(c))
        else if p.kind.Join? then CloseNetwork(c)
        else ForgetGone(CloseNetwork(c))
      case NotEntered(true, _) =>
        if p.kind.Rejoin? || p.kind.Restore? then ForgetGone(c) else CallFailed(c, p.kind, false, a)
      case NotEntered(false, barred) => CallFailed(c, p.kind, barred, a)
      case _ => CallFailed(c, p.kind, false, a)
  }

  // Leaving

  function FarewellStep(c: Control, a: Answers): Control
    requires c.goodbye.until.Some?
  {
    if a.told || a.now > c.goodbye.until.value then EndFarewell(CloseNetwork(c)) else c
  }

  function BeginFarewell(c: Control, a: Answers): Control {
    var begun := CloseHelper(c).(goodbye := c.goodbye.(until := Some(a.now + FAREWELL_TIMEOUT)));
    if c.core.net.Some? then FarewellStep(begun, a) else begun
  }

  // Actions

  predicate Idle(c: Control) { c.running && c.core.saved.None? && c.core.net.None? && c.core.call.None? }

  datatype Presence = NoNetwork | Offline | Connecting | Online | Restoring

  function PresenceOf(c: Control): Presence {
    if c.goodbye.until.Some? then NoNetwork
    else if c.core.link.Some? then Restoring
    else if c.core.net.Some? then if c.core.net.value.seen.joined then Online else Connecting
    else if c.core.call.Some? && c.core.call.value.kind.Rejoin? then Connecting
    else if c.core.saved.Some? then Offline
    else NoNetwork
  }

  function GoBackOnline(c: Control, a: Answers): Control
    requires c.core.saved.Some?
  {
    if a.loggedOn then StartJoin(c, c.core.saved.value.lobby, c.core.saved.value.code, Rejoin, a)
    else LoseConnection(c, false, a.now)
  }

  /** `start`, when Steam can be opened: with the network the store has saved. */
  function Started(c: Control, loaded: Option<Saved>, a: Answers): Control {
    if c.running || !a.opens then c
    else
      var running := c.(running := true);
      match loaded
      case None => running
      case Some(saved) =>
        if saved.online then GoBackOnline(Save(running, Some(saved)), a) else Save(running, Some(saved))
  }

  function CreateLobby(c: Control, a: Answers): Control { if Idle(c) then StartCreate(c, a) else c }

  function JoinLobby(c: Control, lobby: LobbyId, code: string, a: Answers): Control {
    if Idle(c) then StartJoin(c, lobby, code, Join, a) else c
  }

  function GoOnline(c: Control, a: Answers): Control {
    if c.core.saved.None? || !c.running || PresenceOf(c) != Offline || c.core.call.Some? then c
    else GoBackOnline(Save(c, Some(c.core.saved.value.WithOnline(true))), a)
  }

  function GoOffline(c: Control): Control {
    if PresenceOf(c) == NoNetwork || PresenceOf(c) == Offline then c
    else if c.core.net.Some? && c.core.net.value.seen.joined then Down(Save(c, Some(Snapshot(c, false))))
    else if c.core.saved.Some? then Down(Save(c, Some(c.core.saved.value.WithOnline(false))))
    else Down(c)
  }

  function LeaveNetwork(c: Control, a: Answers): Control {
    var saved, net := c.core.saved, c.core.net;
    if c.goodbye.until.Some? || (saved.None? && net.None?) then c
    else
      var forgotten := Save(c, None).(goodbye := Goodbye(None, saved));
      if c.core.link.Some? then Down(forgotten).(goodbye := Goodbye(None, None))
      else if net.Some? && (net.value.seen.joined || saved.Some?) then BeginFarewell(forgotten, a)
      else if net.Some? then CloseNetwork(forgotten)
      else if c.core.call.Some? then
        BeginFarewell(forgotten.(core := forgotten.core.(call := Some(c.core.call.value.(kind := Farewell)))), a)
      else if c.running then
        var asked := StartJoin(forgotten, saved.value.lobby, saved.value.code, Farewell, a);
        if asked.core.call.Some? then asked.(goodbye := asked.goodbye.(until := Some(a.now + FAREWELL_TIMEOUT)))
          else asked
      else forgotten
  }

  function Shutdown(c: Control): Control {
    var kept :=
      if c.core.net.Some? && c.goodbye.until.None? && c.core.net.value.seen.joined then Save(c, Some(Snapshot(c, true)))
      else c;
    StopRecovering(Drop(CloseNetwork(kept))).(running := false)
  }

  // A tick

  /** The answers to given-up calls, then to the pending one or its timeout. */
  function TickCalls(c: Control, a: Answers): Control
    requires c.core.call.Some? && c.core.call.value.kind.Rejoin? ==> c.core.saved.Some?
  {
    var d := c.(abandoned := c.abandoned - a.answered);
    if c.core.call.None? then d
    else
      var p := c.core.call.value;
      if a.result.Some? then Finish(Drop(d), p, a.result.value, a)
      else if a.now - p.started > CALL_TIMEOUT then CallFailed(Drop(d), p.kind, false, a)
      else d
  }

  function Process(net: Session, a: Answers): Session { net.(seen := a.seen) }

  function Attempt(c: Control, a: Answers): Control
    requires c.core.saved.Some?
  {
    var r := c.recovery;
    var noted := c.(recovery := r.(attempts := r.attempts + 1, next := a.now + Backoff(r.attempts)),
                    books := c.books.(attempts := c.books.attempts + [a.now]));
    StartJoin(noted, c.core.saved.value.lobby, c.core.saved.value.code, Restore, a)
  }

  function Recover(c: Control, a: Answers): Control
    requires c.core.saved.Some?
  {
    if c.core.call.Some? then c
    else if c.core.net.Some? && a.inLobby then Restored(c)
    else if a.now - c.recovery.started > RESTORE_TIMEOUT then Down(c)
    else if a.now >= c.recovery.next then Attempt(c, a)
    else c
  }

  function LoseAgain(c: Control): Control {
    var dropped := Abandon(c, false);
    dropped.(core := dropped.core.(link := Some(Reconnecting), net := Suspended(c.core.net, true)))
  }

  function WatchConnection(c: Control, a: Answers): (r: Control)
    requires c.core.saved.Some?
    ensures r.core.saved == c.core.saved
  {
    if c.core.link.None? then
      if c.core.net.Some? && (!a.loggedOn || a.lost) then LoseConnection(c, a.loggedOn, a.now) else c
    else if !a.loggedOn then
      if c.core.link.value.RestoringNetwork? then LoseAgain(c) else c
    else
      Recover(if c.core.link.value.Reconnecting? then BeginRestoring(c, a.now) else c, a)
  }

  function Refused(c: Control, reason: string): Control {
    var closed := CloseNetwork(c);
    if c.core.saved.None? then closed
    else if reason == M.NO_MEMBERS_ONLINE || reason == M.NO_ANSWER then
      Save(closed, Some(c.core.saved.value.WithOnline(false)))
    else Save(closed, None)
  }

  function CheckNetwork(c: Control, a: Answers): Control
    requires c.core.net.Some?
  {
    var net := c.core.net.value;
    var kept := if net.seen.joined then Save(c, Some(Snapshot(c, true))) else c;
    if net.seen.refused != "" && !net.seen.joined then Refused(kept, net.seen.refused)
    else if c.held.helper != 0 && a.helperFailed then
      if kept.core.saved.Some? then GoOfflineWith(kept) else CloseNetwork(kept)
    else kept
  }

  function HandleInvite(c: Control, a: Answers): Control {
    match a.invite
    case None => c
    case Some(invite) =>
      if c.core.saved.None? then StartJoin(c, invite.lobby, invite.code, Join, a)
      else if invite.lobby == c.core.saved.value.lobby then GoOnline(c, a)
      else c
  }

  function TickNetwork(c: Control, a: Answers): Control
    requires c.core.link.Some? ==> c.core.saved.Some?
  {
    if c.core.net.Some? then
      var d := c.(core := c.core.(net := Some(Process(c.core.net.value, a))));
      if c.core.link.None? then CheckNetwork(d, a)
      else if c.held.helper != 0 && a.helperFailed then GoOfflineWith(d)
      else d
    else if c.core.call.None? && c.core.link.None? then HandleInvite(c, a)
    else c
  }

  function TickFarewell(c: Control, a: Answers): Control
    requires c.goodbye.until.Some?
  {
    if c.core.net.Some? then
      FarewellStep(c.(core := c.core.(net := Some(Process(c.core.net.value, a)))), a)
    else c
  }

  function TickRest(c: Control, a: Answers): Control
    requires c.core.link.Some? ==> c.core.saved.Some?
  {
    if c.goodbye.until.Some? then TickFarewell(c, a)
    else
      var watched :=
        if c.core.saved.Some? && (c.core.net.Some? || c.core.link.Some?) then WatchConnection(c, a) else c;
      TickNetwork(watched, a)
  }

  // What holds from start until shutdown

  /** What may be pending, and what it is waiting for. */
  predicate CallShape(c: Control) {
    c.core.call.Some? ==>
      var p := c.core.call.value;
      && c.held.socket != 0
      && (c.core.net.Some? ==> p.kind.Restore?)
      && (match p.kind
          case Create => c.core.saved.None? && c.core.link.None? && c.goodbye.until.None?
          case Join => c.core.saved.None? && c.core.link.None? && c.goodbye.until.None?
          case Rejoin => c.core.saved.Some? && p.lobby == c.core.saved.value.lobby && c.core.link.None?
            && c.goodbye.until.None?
          case Restore => c.core.saved.Some? && p.lobby == c.core.saved.value.lobby
            && c.core.link == Some(RestoringNetwork)
          case Farewell => c.goodbye.until.Some?)
  }

  /** A session has its socket and lobby, and is on hold exactly while recovering. */
  predicate NetShape(c: Control) {
    && (c.core.net.None? ==> c.held.helper == 0 && c.held.lobby == 0)
    && (c.core.net.Some? ==>
          var net := c.core.net.value;
          && c.held.socket != 0 && net.socket == c.held.socket && net.lobby == c.held.lobby
          && (net.suspended <==> c.core.link.Some?)
          && (c.core.saved.Some? ==> net.lobby == c.core.saved.value.lobby && c.network == c.core.saved.value.network))
  }

  predicate GoodbyeShape(c: Control) {
    c.goodbye.until.Some? ==>
      && c.core.saved.None? && c.core.link.None? && c.held.helper == 0
      && (c.core.net.Some? <==> c.core.call.None?)
  }

  predicate NothingLeft(c: Control) {
    c.core.call.None? && c.core.net.None? && c.core.link.None? && c.goodbye.until.None? ==> c.held == NOTHING
  }

  predicate Shape(c: Control) {
    && (c.core.link.Some? ==> c.core.saved.Some?)
    && CallShape(c) && NetShape(c) && GoodbyeShape(c) && NothingLeft(c)
  }

  lemma CloseShape(c: Control)
    requires c.core.call.None? && c.goodbye.until.None? && (c.core.link.Some? ==> c.core.saved.Some?)
    ensures Shape(CloseNetwork(c))
  {
  }

  lemma DownShape(c: Control)
    requires c.goodbye.until.None?
    ensures Shape(Down(c)) && Down(c).core == Core(None, None, c.core.saved, None) && Down(c).goodbye == c.goodbye
  {
  }

  lemma FailedShape(c: Control, p: Pending, barred: bool, a: Answers)
    requires Shape(c) && c.core.call == Some(p)
    ensures Shape(CallFailed(Drop(c), p.kind, barred, a))
  {
    if !p.kind.Restore? {
      CloseShape(EndFarewell(Drop(c)));
    }
  }

  /** Ready to ask Steam for a lobby. */
  predicate ReadyFor(c: Control, kind: Kind, lobby: LobbyId) {
    && Shape(c) && c.core.call.None? && c.goodbye.until.None?
    && (match kind
        case Join => c.core.saved.None? && c.core.net.None?
        case Rejoin => c.core.saved.Some? && lobby == c.core.saved.value.lobby && c.core.net.None? && c.core.link.None?
        case Restore => c.core.saved.Some? && lobby == c.core.saved.value.lobby && c.core.link == Some(RestoringNetwork)
        case _ => false)
  }

  lemma JoinShape(c: Control, lobby: LobbyId, code: string, kind: Kind, a: Answers)
    requires ReadyFor(c, kind, lobby)
    ensures Shape(StartJoin(c, lobby, code, kind, a)) && StartJoin(c, lobby, code, kind, a).core.saved == c.core.saved
  {
    var listening := OpenSocket(c, a);
    if listening.held.socket == 0 || a.call.None? {
      if !kind.Restore? {
        CloseShape(listening);
      }
    }
  }

  lemma EnterShape(c: Control, lobby: LobbyId, adapter: bool, a: Answers)
    requires c.core.call.None? && c.core.net.None? && c.core.link.None? && c.held.helper == 0 && c.held.socket != 0
    requires c.core.saved.Some? ==> c.core.saved.value.lobby == lobby && c.core.saved.value.network == c.network
    requires c.goodbye.until.Some? ==> c.core.saved.None?
    ensures Shape(Enter(c, lobby, adapter, a))
  {
  }

  predicate Linked(c: Control) { c.core.call.Some? && c.core.call.value.kind.Rejoin? ==> c.core.saved.Some? }

  lemma LinkedShape(c: Control)
    requires Shape(c)
    ensures Linked(c)
    ensures c.core.call.Some? ==>
      var kind := c.core.call.value.kind;
      && (kind.Rejoin? || kind.Restore? ==> c.goodbye.until.None?)
      && (kind.Farewell? || kind.Join? ==> c.core.saved.None?)
  {
  }

  lemma ForgottenShape(c: Control)
    requires Shape(c) && c.core.call.None? && c.core.net.None? && c.core.link.None?
    ensures Shape(Save(c, None))
  {
  }

  lemma FinishCreateShape(c: Control, p: Pending, answer: Answer, a: Answers)
    requires Shape(c) && c.core.call == Some(p) && p.kind.Create?
    ensures Shape(FinishCreate(Drop(c), answer, a))
  {
  }

  lemma TurnedAway(c: Control, p: Pending)
    requires Shape(c) && c.core.call == Some(p) && !p.kind.Create?
    ensures p.kind.Farewell? ==> Shape(EndFarewell(CloseNetwork(Drop(c))))
    ensures p.kind.Join? ==> Shape(CloseNetwork(Drop(c)))
    ensures !p.kind.Farewell? && !p.kind.Join? ==> Shape(ForgetGone(CloseNetwork(Drop(c))))
  {
  }

  lemma FinishEnterShape(c: Control, p: Pending, network: NetworkId, a: Answers)
    requires Shape(c) && c.core.call == Some(p) && !p.kind.Create?
    requires c.core.saved.Some? ==> c.core.saved.value.network == network
    ensures Shape(FinishEnter(Drop(c), p, network, a))
  {
    hide Enter;
    var named := Drop(c).(network := network);
    if !(p.kind.Restore? && c.core.net.Some?) {
      EnterShape(if p.kind.Restore? then StopRecovering(named) else named, p.lobby, !p.kind.Farewell?, a);
    }
  }

  lemma FinishShape(c: Control, p: Pending, answer: Answer, a: Answers)
    requires Shape(c) && c.core.call == Some(p)
    ensures Shape(Finish(Drop(c), p, answer, a))
  {
    hide Enter, Shape, CallFailed, CloseNetwork, Down, Restored;
    LinkedShape(c);
    var d := Drop(c);
    if p.kind.Create? {
      FinishCreateShape(c, p, answer, a);
    } else if answer.Entered? {
      if Meant(d, p.kind, answer.ours, answer.network) {
        FinishEnterShape(c, p, answer.network, a);
      } else {
        TurnedAway(c, p);
      }
    } else if answer.NotEntered? && answer.gone && (p.kind.Rejoin? || p.kind.Restore?) {
      DownShape(d);
      ForgottenShape(Down(d));
    } else {
      FailedShape(c, p, if answer.NotEntered? && !answer.gone then answer.barred else false, a);
    }
  }

  lemma SameShape(c: Control, d: Control)
    requires Shape(c) && d.core == c.core && d.held == c.held && d.goodbye == c.goodbye && d.network == c.network
    ensures Shape(d)
  {
  }

  lemma TickCallsShape(c: Control, a: Answers)
    requires Shape(c)
    ensures Linked(c) && Shape(TickCalls(c, a))
  {
    hide Shape, Finish, CallFailed;
    LinkedShape(c);
    var d := c.(abandoned := c.abandoned - a.answered);
    SameShape(c, d);
    if c.core.call.Some? {
      var p := c.core.call.value;
      if a.result.Some? {
        FinishShape(d, p, a.result.value, a);
      } else if a.now - p.started > CALL_TIMEOUT {
        FailedShape(d, p, false, a);
      }
    }
  }

  lemma JoinGoodbye(c: Control, lobby: LobbyId, code: string, a: Answers)
    ensures StartJoin(c, lobby, code, Restore, a).goodbye == c.goodbye
  {
  }

  lemma RecoverShape(c: Control, a: Answers)
    requires Shape(c) && c.core.saved.Some? && c.core.link == Some(RestoringNetwork)
    ensures Shape(Recover(c, a)) && Recover(c, a).goodbye == c.goodbye
  {
    hide StartJoin, Down;
    if c.core.call.None? && !(c.core.net.Some? && a.inLobby) {
      if a.now - c.recovery.started > RESTORE_TIMEOUT {
        DownShape(c);
      } else if a.now >= c.recovery.next {
        var r := c.recovery;
        var noted := c.(recovery := r.(attempts := r.attempts + 1, next := a.now + Backoff(r.attempts)),
                        books := c.books.(attempts := c.books.attempts + [a.now]));
        JoinShape(noted, c.core.saved.value.lobby, c.core.saved.value.code, Restore, a);
        JoinGoodbye(noted, c.core.saved.value.lobby, c.core.saved.value.code, a);
      }
    }
  }

  lemma WatchShape(c: Control, a: Answers)
    requires Shape(c) && c.core.saved.Some? && (c.core.net.Some? || c.core.link.Some?)
    ensures Shape(WatchConnection(c, a)) && WatchConnection(c, a).goodbye.until.None?
  {
    hide Recover;
    if c.core.link.Some? && a.loggedOn {
      var restoring := if c.core.link.value.Reconnecting? then BeginRestoring(c, a.now) else c;
      RecoverShape(restoring, a);
    }
  }

  function GoOfflineSaved(c: Control): Option<Saved>
    requires c.core.net.None? || !c.core.net.value.seen.joined ==> c.core.saved.Some?
  {
    Some(if c.core.net.Some? && c.core.net.value.seen.joined then Snapshot(c, false)
        else c.core.saved.value.WithOnline(false))
  }

  lemma CheckShape(c: Control, a: Answers)
    requires Shape(c) && c.core.net.Some? && c.core.link.None? && c.goodbye.until.None?
    ensures Shape(CheckNetwork(c, a))
  {
    hide Down;
    var kept := if c.core.net.value.seen.joined then Save(c, Some(Snapshot(c, true))) else c;
    CloseShape(kept);
    if kept.core.saved.Some? {
      DownShape(Save(kept, GoOfflineSaved(kept)));
      CloseShape(Save(kept, Some(kept.core.saved.value.WithOnline(false))));
      CloseShape(Save(kept, None));
    }
  }

  lemma BackOnlineShape(c: Control, a: Answers)
    requires Shape(c) && c.core.saved.Some? && c.core.call.None? && c.core.net.None? && c.core.link.None?
    requires c.goodbye.until.None?
    ensures Shape(GoBackOnline(c, a))
  {
    hide StartJoin;
    JoinShape(c, c.core.saved.value.lobby, c.core.saved.value.code, Rejoin, a);
  }

  lemma OnlineShape(c: Control, a: Answers)
    requires Shape(c)
    ensures Shape(GoOnline(c, a))
  {
    hide StartJoin;
    if c.core.saved.Some? {
      var online := Save(c, Some(c.core.saved.value.WithOnline(true)));
      if c.running && PresenceOf(c) == Offline && c.core.call.None? {
        BackOnlineShape(online, a);
      }
    }
  }

  lemma InviteShape(c: Control, a: Answers)
    requires Shape(c) && c.core.call.None? && c.core.net.None? && c.core.link.None? && c.goodbye.until.None?
    ensures Shape(HandleInvite(c, a))
  {
    hide StartJoin, GoOnline, Shape;
    if a.invite.Some? {
      if c.core.saved.None? {
        JoinShape(c, a.invite.value.lobby, a.invite.value.code, Join, a);
      } else {
        OnlineShape(c, a);
      }
    }
  }

  lemma NetworkShape(c: Control, a: Answers)
    requires Shape(c) && c.goodbye.until.None?
    ensures Shape(TickNetwork(c, a))
  {
    hide CheckNetwork, HandleInvite, Down;
    if c.core.net.Some? {
      var d := c.(core := c.core.(net := Some(Process(c.core.net.value, a))));
      if c.core.link.None? {
        CheckShape(d, a);
      } else if c.held.helper != 0 && a.helperFailed {
        DownShape(Save(d, GoOfflineSaved(d)));
      }
    } else if c.core.call.None? && c.core.link.None? {
      InviteShape(c, a);
    }
  }

  lemma FarewellShape(c: Control, a: Answers)
    requires Shape(c) && c.goodbye.until.Some?
    ensures Shape(TickFarewell(c, a))
  {
  }

  lemma RestShape(c: Control, a: Answers)
    requires Shape(c)
    ensures Shape(TickRest(c, a))
  {
    hide TickFarewell, TickNetwork, WatchConnection, Shape;
    if c.goodbye.until.Some? {
      FarewellShape(c, a);
    } else if c.core.saved.Some? && (c.core.net.Some? || c.core.link.Some?) {
      WatchShape(c, a);
      NetworkShape(WatchConnection(c, a), a);
    } else {
      NetworkShape(c, a);
    }
  }

  /** `_tick`. */
  function Tick(c: Control, a: Answers): Control
    requires Shape(c)
  {
    TickCallsShape(c, a);
    TickRest(TickCalls(c, a), a)
  }

  lemma TickShape(c: Control, a: Answers)
    requires Shape(c)
    ensures Shape(Tick(c, a))
  {
    hide Shape, TickCalls, TickRest;
    TickCallsShape(c, a);
    RestShape(TickCalls(c, a), a);
  }

  lemma OfflineShape(c: Control)
    requires Shape(c)
    ensures Shape(GoOffline(c))
  {
    hide Down;
    if c.goodbye.until.None? {
      DownShape(c);
      if c.core.net.Some? && c.core.net.value.seen.joined {
        DownShape(Save(c, Some(Snapshot(c, false))));
      } else if c.core.saved.Some? {
        DownShape(Save(c, Some(c.core.saved.value.WithOnline(false))));
      }
    }
  }

  lemma BeginShape(c: Control, forgotten: Control, a: Answers)
    requires Shape(c) && c.core.net.Some? && c.core.link.None? && c.core.call.None?
    requires forgotten.core == c.core.(saved := None) && forgotten.held == c.held && forgotten.goodbye.until.None?
    ensures Shape(BeginFarewell(forgotten, a))
  {
  }

  lemma CallFarewellShape(c: Control, a: Answers)
    requires c.core.call.Some? && c.core.call.value.kind.Farewell? && c.core.net.None? && c.core.link.None?
      && c.core.saved.None?
    requires c.held.socket != 0 && c.held.lobby == 0 && c.held.helper == 0
    ensures Shape(BeginFarewell(c, a))
  {
  }

  lemma AskedShape(c: Control, lobby: LobbyId, code: string, a: Answers)
    requires c.core == Core(None, None, None, None) && c.held == NOTHING && c.goodbye.until.None?
    ensures var asked := StartJoin(c, lobby, code, Farewell, a);
      Shape(if asked.core.call.Some? then asked.(goodbye := asked.goodbye.(until := Some(a.now + FAREWELL_TIMEOUT)))
          else asked)
  {
  }

  lemma LeaveShape(c: Control, a: Answers)
    requires Shape(c)
    ensures Shape(LeaveNetwork(c, a))
  {
    hide Down, BeginFarewell, StartJoin;
    var saved, net := c.core.saved, c.core.net;
    var forgotten := Save(c, None).(goodbye := Goodbye(None, saved));
    if !(c.goodbye.until.Some? || (saved.None? && net.None?)) {
      if c.core.link.Some? {
        DownShape(forgotten);
      } else if net.Some? && (net.value.seen.joined || saved.Some?) {
        BeginShape(c, forgotten, a);
      } else if net.Some? {
        CloseShape(forgotten);
      } else if c.core.call.Some? {
        CallFarewellShape(forgotten.(core := forgotten.core.(call := Some(c.core.call.value.(kind := Farewell)))), a);
      } else if c.running {
        AskedShape(forgotten, saved.value.lobby, saved.value.code, a);
      }
    }
  }

  lemma StartedShape(c: Control, loaded: Option<Saved>, a: Answers)
    requires Shape(c) && (!c.running ==>
        c.core == Core(None, None, None, None) && c.held == NOTHING && c.goodbye.until.None?)
    ensures Shape(Started(c, loaded, a))
  {
  }

  lemma CreateShape(c: Control, a: Answers)
    requires Shape(c)
    ensures Shape(CreateLobby(c, a))
  {
  }

  lemma JoinLobbyShape(c: Control, lobby: LobbyId, code: string, a: Answers)
    requires Shape(c)
    ensures Shape(JoinLobby(c, lobby, code, a))
  {
  }

  // What the window shows never needs a saved network that isn't there

  /** `view` and `_lose_connection` read the saved network exactly in these cases. */
  predicate ReadsSaved(c: Control) {
    PresenceOf(c).Restoring? || (!PresenceOf(c).NoNetwork? && c.core.net.None?)
  }

  lemma SavedIsThere(c: Control)
    requires Shape(c)
    ensures ReadsSaved(c) ==> c.core.saved.Some?
  {
  }

  /** What the user is shown to be says what is held: offline is remembered and nothing else
      at all, in no network is nothing remembered, restoring is on hold, and online is in
      the lobby and not on hold. */
  lemma PresenceMeans(c: Control)
    requires Shape(c)
    ensures PresenceOf(c).Offline? <==>
      c.core.saved.Some? && c.core == Core(None, None, c.core.saved, None) && c.held == NOTHING && c.goodbye.until.None?
    ensures PresenceOf(c).NoNetwork? <==> c.core.saved.None? && (c.goodbye.until.Some? || c.core.net.None?)
    ensures PresenceOf(c).Restoring? <==> c.core.link.Some?
    ensures PresenceOf(c).Restoring? ==> c.core.saved.Some? && (c.core.net.Some? ==> c.core.net.value.suspended)
    ensures PresenceOf(c).Online? <==>
      c.goodbye.until.None? && c.core.net.Some? && c.core.net.value.seen.joined && !c.core.net.value.suspended
  {
  }

  /** Going offline keeps what going online again needs: it asks for the same lobby, with the
      code the session had, and the members it had are what is remembered. */
  lemma OfflineAndBack(c: Control, a: Answers)
    requires Shape(c) && c.running && PresenceOf(c).Online?
    requires a.loggedOn && a.call.Some? && a.socket.Some? && a.socket.value != 0
    ensures var net, t := c.core.net.value, GoOffline(c);
      && t.core.saved == Some(Saved(net.lobby, c.network, net.seen.code, net.seen.members, false))
      && GoOnline(t, a).core.call == Some(Pending(Rejoin, a.call.value, a.now, net.lobby, net.seen.code))
      && GoOnline(t, a).core.saved.value.members == net.seen.members
  {
  }

  // Sockets and helpers

  /** What is held, if anything, is open; all else that was ever given was closed once. */
  ghost predicate Balanced(held: Handle, l: Ledger) {
    forall h :: (if h == held && h != 0 then 1 else 0) + l.closed[h] == (if h in l.given then 1 else 0)
  }

  ghost predicate Kept(c: Control) {
    Balanced(c.held.socket, c.books.sockets) && Balanced(c.held.helper, c.books.helpers)
  }

  predicate Fresh(l: Ledger, h: Handle) { h != 0 && h !in l.given }

  predicate NewSocket(c: Control, a: Answers) { a.socket.Some? ==> Fresh(c.books.sockets, a.socket.value) }

  predicate NewHelper(c: Control, a: Answers) { Fresh(c.books.helpers, a.helper) }

  /** What Steam and Windows promise: a new listen socket or helper is really new. */
  predicate Promised(c: Control, a: Answers) { NewSocket(c, a) && NewHelper(c, a) && a.now >= c.books.now }

  /** Nothing was opened. */
  predicate OpensNothing(c: Control, d: Control) {
    d.books.sockets.given == c.books.sockets.given && d.books.helpers.given == c.books.helpers.given
  }

  lemma CloseKept(c: Control)
    requires Kept(c)
    ensures Kept(CloseNetwork(c)) && OpensNothing(c, CloseNetwork(c))
    ensures Kept(CloseHelper(c)) && OpensNothing(c, CloseHelper(c))
  {
  }

  lemma OpenKept(c: Control, a: Answers)
    requires Kept(c) && NewSocket(c, a)
    ensures Kept(OpenSocket(c, a))
  {
  }

  lemma HelperKept(c: Control, a: Answers)
    requires Kept(c) && NewHelper(c, a) && c.held.helper == 0
    ensures Kept(AddHelper(c, a)) && AddHelper(c, a).books.sockets == c.books.sockets
  {
  }

  lemma FailedKept(c: Control, kind: Kind, barred: bool, a: Answers)
    requires Kept(c) && (kind.Rejoin? && barred ==> c.core.saved.Some?)
    ensures Kept(CallFailed(c, kind, barred, a)) && OpensNothing(c, CallFailed(c, kind, barred, a))
  {
    hide Balanced;
    CloseKept(c);
  }

  lemma JoinKept(c: Control, lobby: LobbyId, code: string, kind: Kind, a: Answers)
    requires Kept(c) && NewSocket(c, a)
    ensures Kept(StartJoin(c, lobby, code, kind, a))
  {
    hide Balanced, CallFailed, OpenSocket;
    OpenKept(c, a);
    FailedKept(OpenSocket(c, a), kind, false, a);
  }

  lemma CreateKept(c: Control, a: Answers)
    requires Kept(c) && NewSocket(c, a)
    ensures Kept(StartCreate(c, a))
  {
  }

  lemma EnterKept(c: Control, lobby: LobbyId, adapter: bool, a: Answers)
    requires Kept(c) && NewHelper(c, a)
    ensures Kept(Enter(c, lobby, adapter, a))
      && Enter(c, lobby, adapter, a).books.sockets.given == c.books.sockets.given
  {
    hide Balanced;
    var entered := Entering(c, lobby, a);
    if c.goodbye.until.None? && adapter && c.held.helper == 0 {
      HelperKept(entered, a);
      CloseKept(AddHelper(entered, a));
    }
  }

  lemma DownKept(c: Control)
    requires Kept(c)
    ensures Kept(Down(c)) && OpensNothing(c, Down(c))
  {
    hide Balanced;
    CloseKept(StopRecovering(Abandon(c, true)));
  }

  lemma FinishCreateKept(c: Control, answer: Answer, a: Answers)
    requires Kept(c) && NewHelper(c, a)
    ensures var t := FinishCreate(c, answer, a); Kept(t) && t.books.sockets.given == c.books.sockets.given
  {
    hide Balanced, Enter, CloseNetwork;
    CloseKept(c);
    if answer.Created? {
      EnterKept(c.(network := a.newId), answer.lobby, true, a);
    }
  }

  lemma FinishEnterKept(c: Control, p: Pending, network: NetworkId, a: Answers)
    requires Kept(c) && NewHelper(c, a)
    ensures var t := FinishEnter(c, p, network, a); Kept(t) && t.books.sockets.given == c.books.sockets.given
  {
    hide Balanced, Enter;
    var named := c.(network := network);
    EnterKept(if p.kind.Restore? then StopRecovering(named) else named, p.lobby, !p.kind.Farewell?, a);
  }

  lemma FinishKept(c: Control, p: Pending, answer: Answer, a: Answers)
    requires Kept(c) && NewHelper(c, a) && (p.kind.Rejoin? ==> c.core.saved.Some?)
    ensures Kept(Finish(c, p, answer, a)) && Finish(c, p, answer, a).books.sockets.given == c.books.sockets.given
  {
    hide Balanced, FinishCreate, FinishEnter, CallFailed, CloseNetwork, Down;
    CloseKept(c);
    DownKept(c);
    DownKept(CloseNetwork(c));
    FailedKept(c, p.kind, answer.NotEntered? && !answer.gone && answer.barred, a);
    FinishCreateKept(c, answer, a);
    if answer.Entered? {
      FinishEnterKept(c, p, answer.network, a);
    }
  }

  lemma TickCallsKept(c: Control, a: Answers)
    requires Kept(c) && NewHelper(c, a) && Linked(c)
    ensures Kept(TickCalls(c, a)) && TickCalls(c, a).books.sockets.given == c.books.sockets.given
  {
    hide Balanced, Finish, CallFailed;
    var d := c.(abandoned := c.abandoned - a.answered);
    if c.core.call.Some? {
      if a.result.Some? {
        FinishKept(Drop(d), c.core.call.value, a.result.value, a);
      } else if a.now - c.core.call.value.started > CALL_TIMEOUT {
        FailedKept(Drop(d), c.core.call.value.kind, false, a);
      }
    }
  }

  lemma OfflineWithKept(c: Control)
    requires Kept(c) && (c.core.net.None? || !c.core.net.value.seen.joined ==> c.core.saved.Some?)
    ensures Kept(GoOfflineWith(c))
  {
    hide Balanced, Down;
    DownKept(Save(c, GoOfflineSaved(c)));
  }

  lemma OpenLinked(c: Control, a: Answers)
    ensures OpenSocket(c, a).core == c.core
  {
  }

  lemma RecoverKept(c: Control, a: Answers)
    requires Kept(c) && NewSocket(c, a) && c.core.saved.Some? && c.core.link.Some?
    ensures Kept(Recover(c, a))
    ensures Recover(c, a).core.link.None? ==> Recover(c, a).books.sockets.given == c.books.sockets.given
  {
    hide Balanced, Down, OpenSocket;
    DownKept(c);
    var r := c.recovery;
    var noted := c.(recovery := r.(attempts := r.attempts + 1, next := a.now + Backoff(r.attempts)),
                    books := c.books.(attempts := c.books.attempts + [a.now]));
    JoinKept(noted, c.core.saved.value.lobby, c.core.saved.value.code, Restore, a);
    OpenLinked(noted, a);
  }

  lemma WatchKept(c: Control, a: Answers)
    requires Kept(c) && NewSocket(c, a) && c.core.saved.Some?
    ensures Kept(WatchConnection(c, a))
    ensures WatchConnection(c, a).core.link.None? ==> WatchConnection(c, a).books.sockets.given == c.books.sockets.given
  {
    hide Balanced, Recover;
    if c.core.link.Some? && a.loggedOn {
      RecoverKept(if c.core.link.value.Reconnecting? then BeginRestoring(c, a.now) else c, a);
    }
  }

  lemma CheckKept(c: Control, a: Answers)
    requires Kept(c) && c.core.net.Some?
    ensures Kept(CheckNetwork(c, a))
  {
    hide Balanced, CloseNetwork, GoOfflineWith;
    var kept := if c.core.net.value.seen.joined then Save(c, Some(Snapshot(c, true))) else c;
    CloseKept(kept);
    if kept.core.saved.Some? {
      OfflineWithKept(kept);
    }
  }

  lemma BackOnlineKept(c: Control, a: Answers)
    requires Kept(c) && NewSocket(c, a) && c.core.saved.Some?
    ensures Kept(GoBackOnline(c, a))
  {
    hide Balanced, StartJoin;
    JoinKept(c, c.core.saved.value.lobby, c.core.saved.value.code, Rejoin, a);
  }

  lemma OnlineKept(c: Control, a: Answers)
    requires Kept(c) && NewSocket(c, a)
    ensures Kept(GoOnline(c, a))
  {
    hide Balanced, GoBackOnline;
    if c.core.saved.Some? {
      BackOnlineKept(Save(c, Some(c.core.saved.value.WithOnline(true))), a);
    }
  }

  lemma InviteKept(c: Control, a: Answers)
    requires Kept(c) && NewSocket(c, a)
    ensures Kept(HandleInvite(c, a))
  {
    hide Balanced, StartJoin, GoOnline;
    OnlineKept(c, a);
    if a.invite.Some? {
      JoinKept(c, a.invite.value.lobby, a.invite.value.code, Join, a);
    }
  }

  lemma NetworkKept(c: Control, a: Answers)
    requires Kept(c) && (c.core.link.None? ==> NewSocket(c, a)) && (c.core.link.Some? ==> c.core.saved.Some?)
    ensures Kept(TickNetwork(c, a))
  {
    hide Balanced, CheckNetwork, HandleInvite, GoOfflineWith;
    if c.core.net.Some? {
      var d := c.(core := c.core.(net := Some(Process(c.core.net.value, a))));
      CheckKept(d, a);
      if c.core.link.Some? {
        OfflineWithKept(d);
      }
    } else if c.core.call.None? && c.core.link.None? {
      InviteKept(c, a);
    }
  }

  lemma FarewellStepKept(c: Control, a: Answers)
    requires Kept(c) && c.goodbye.until.Some?
    ensures Kept(FarewellStep(c, a))
  {
  }

  lemma RestKept(c: Control, a: Answers)
    requires Kept(c) && NewSocket(c, a) && (c.core.link.Some? ==> c.core.saved.Some?)
    ensures Kept(TickRest(c, a))
  {
    hide Balanced, FarewellStep, WatchConnection, TickNetwork;
    if c.goodbye.until.Some? {
      if c.core.net.Some? {
        FarewellStepKept(c.(core := c.core.(net := Some(Process(c.core.net.value, a)))), a);
      }
    } else if c.core.saved.Some? && (c.core.net.Some? || c.core.link.Some?) {
      WatchKept(c, a);
      NetworkKept(WatchConnection(c, a), a);
    } else {
      NetworkKept(c, a);
    }
  }

  lemma TickKept(c: Control, a: Answers)
    requires Shape(c) && Kept(c) && Promised(c, a)
    ensures Kept(Tick(c, a))
  {
    hide Balanced, TickCalls, TickRest;
    TickCallsShape(c, a);
    TickCallsKept(c, a);
    assert NewSocket(TickCalls(c, a), a);
    RestKept(TickCalls(c, a), a);
  }

  lemma BeginKept(c: Control, a: Answers)
    requires Kept(c)
    ensures Kept(BeginFarewell(c, a))
  {
  }

  lemma LeaveKept(c: Control, a: Answers)
    requires Shape(c) && Kept(c) && Promised(c, a)
    ensures Kept(LeaveNetwork(c, a))
  {
    hide Balanced, Down, StartJoin, CloseNetwork, BeginFarewell;
    var saved := c.core.saved;
    var forgotten := Save(c, None).(goodbye := Goodbye(None, saved));
    DownKept(forgotten);
    CloseKept(forgotten);
    BeginKept(forgotten, a);
    if c.core.call.Some? {
      BeginKept(forgotten.(core := forgotten.core.(call := Some(c.core.call.value.(kind := Farewell)))), a);
    }
    if saved.Some? {
      JoinKept(forgotten, saved.value.lobby, saved.value.code, Farewell, a);
    }
  }

  // Time

  /** The earliest an attempt can come after a restoring stretch began. */
  function Offset(k: nat): real { if k == 0 then 0.0 else Offset(k - 1) + Backoff(k - 1) }

  /** Attempt k came no sooner than its offset and no later than RESTORE_TIMEOUT. */
  predicate InTime(attempts: seq<real>, started: real, k: nat)
    requires k < |attempts|
  {
    started + Offset(k) <= attempts[k] <= started + RESTORE_TIMEOUT
  }

  /** Attempt k came no sooner than its delay after the one before. */
  predicate Delayed(attempts: seq<real>, k: nat)
    requires 0 < k < |attempts|
  {
    attempts[k] >= attempts[k - 1] + Backoff(k - 1)
  }

  /** The pace of a restoring stretch, with the time its next attempt may come. */
  ghost predicate Paced(attempts: seq<real>, r: Recovery) {
    && r.attempts == |attempts| && r.next >= r.started + Offset(|attempts|)
    && (forall k :: 0 <= k < |attempts| ==> InTime(attempts, r.started, k))
    && (forall k :: 0 < k < |attempts| ==> Delayed(attempts, k))
    && (attempts != [] ==> r.next == attempts[|attempts| - 1] + Backoff(|attempts| - 1))
  }

  predicate CallTimes(c: Control) {
    c.core.call.Some? ==>
      var p := c.core.call.value;
      && p.started <= c.books.now
      && (p.kind.Restore? ==> c.recovery.started <= p.started <= c.recovery.started + RESTORE_TIMEOUT)
      && (p.kind.Farewell? && c.goodbye.until.Some? ==> p.started <= c.goodbye.until.value - FAREWELL_TIMEOUT)
  }

  ghost predicate Timed(c: Control) {
    && Paced(c.books.attempts, c.recovery)
    && CallTimes(c)
    && (c.core.link == Some(RestoringNetwork) ==> c.recovery.started <= c.books.now)
    && (c.goodbye.until.Some? ==> c.goodbye.until.value - FAREWELL_TIMEOUT <= c.books.now)
  }

  lemma Offsets()
    ensures Offset(0) == 0.0 && Offset(1) == 2.0 && Offset(2) == 6.0 && Offset(3) == 14.0 && Offset(4) == 29.0
    ensures Offset(5) == 44.0 && Offset(6) == 59.0 && Offset(7) == 74.0 && Offset(8) == 89.0 && Offset(9) == 104.0
  {
  }

  lemma {:induction false} LateOffset(k: nat)
    ensures k >= 9 ==> Offset(k) >= 104.0
  {
    Offsets();
    if k > 9 {
      LateOffset(k - 1);
    }
  }

  /** There is no room for a tenth attempt within RESTORE_TIMEOUT. */
  lemma NineAttempts(attempts: seq<real>, r: Recovery)
    requires Paced(attempts, r)
    ensures |attempts| <= 9
  {
    if attempts != [] {
      assert InTime(attempts, r.started, |attempts| - 1);
      LateOffset(|attempts| - 1);
    }
  }

  /** Neither a call nor the pace of a stretch is touched. */
  predicate KeepsTime(c: Control, d: Control) {
    && d.books.now == c.books.now && d.books.attempts == c.books.attempts && d.recovery == c.recovery
    && (d.core.call.None? || d.core.call == c.core.call)
    && (d.goodbye.until.None? || d.goodbye.until == c.goodbye.until)
    && (d.core.link == Some(RestoringNetwork) ==> c.core.link == d.core.link)
  }

  lemma KeptTimed(c: Control, d: Control)
    requires Timed(c) && KeepsTime(c, d)
    ensures Timed(d)
  {
  }

  lemma BeginTimed(c: Control, now: real)
    requires Timed(c) && c.books.now == now && c.core.call.None?
    ensures Timed(BeginRestoring(c, now))
  {
  }

  lemma LoseTimed(c: Control, loggedOn: bool, now: real)
    requires Timed(c) && c.books.now == now && c.core.call.None?
    ensures Timed(LoseConnection(c, loggedOn, now)) && LoseConnection(c, loggedOn, now).books.now == now
  {
  }

  lemma FailedTimed(c: Control, kind: Kind, barred: bool, a: Answers)
    requires Timed(c) && c.books.now == a.now && c.core.call.None? && (kind.Rejoin? && barred ==> c.core.saved.Some?)
    ensures Timed(CallFailed(c, kind, barred, a)) && CallFailed(c, kind, barred, a).books.now == a.now
  {
  }

  lemma OpenKeepsTime(c: Control, a: Answers)
    ensures KeepsTime(c, OpenSocket(c, a))
    ensures var t := OpenSocket(c, a);
      t.core == c.core && t.goodbye == c.goodbye && t.recovery == c.recovery && t.books.now == c.books.now
  {
  }

  lemma FailedCalls(c: Control, kind: Kind, barred: bool, a: Answers)
    requires c.core.call.None? && (kind.Rejoin? && barred ==> c.core.saved.Some?)
    ensures CallFailed(c, kind, barred, a).core.call.None?
  {
  }

  lemma JoinTimed(c: Control, lobby: LobbyId, code: string, kind: Kind, a: Answers)
    requires Timed(c) && c.books.now == a.now && c.core.call.None? && !kind.Create?
    requires kind.Restore? ==> c.recovery.started <= a.now <= c.recovery.started + RESTORE_TIMEOUT
    requires kind.Farewell? ==> c.goodbye.until.None?
    ensures var t := StartJoin(c, lobby, code, kind, a);
      && Timed(t) && t.books.now == a.now && (t.core.call.Some? ==> t.core.call.value.started == a.now)
  {
    hide Paced, OpenSocket, CallFailed, KeepsTime;
    OpenKeepsTime(c, a);
    KeptTimed(c, OpenSocket(c, a));
    FailedTimed(OpenSocket(c, a), kind, false, a);
    FailedCalls(OpenSocket(c, a), kind, false, a);
  }

  lemma AttemptPaced(attempts: seq<real>, r: Recovery, now: real)
    requires Paced(attempts, r) && now >= r.next && now <= r.started + RESTORE_TIMEOUT
    ensures Paced(attempts + [now], r.(attempts := r.attempts + 1, next := now + Backoff(r.attempts)))
  {
    hide Backoff;
    var more, n := attempts + [now], |attempts|;
    assert Offset(n + 1) == Offset(n) + Backoff(n);
    forall k | 0 <= k < |more| ensures InTime(more, r.started, k) {
      assert k < n ==> InTime(attempts, r.started, k);
    }
    forall k | 0 < k < |more| ensures Delayed(more, k) {
      assert k < n ==> Delayed(attempts, k);
    }
  }

  lemma AttemptTimed(c: Control, a: Answers)
    requires Timed(c) && c.books.now == a.now && c.core.call.None? && c.core.saved.Some?
    requires c.core.link == Some(RestoringNetwork)
    requires a.now - c.recovery.started <= RESTORE_TIMEOUT && a.now >= c.recovery.next
    ensures Timed(Attempt(c, a)) && Attempt(c, a).books.now == a.now
  {
    hide StartJoin, Paced, Backoff;
    var r := c.recovery;
    var noted := c.(recovery := r.(attempts := r.attempts + 1, next := a.now + Backoff(r.attempts)),
                    books := c.books.(attempts := c.books.attempts + [a.now]));
    AttemptPaced(c.books.attempts, r, a.now);
    JoinTimed(noted, c.core.saved.value.lobby, c.core.saved.value.code, Restore, a);
  }

  lemma RecoverTimed(c: Control, a: Answers)
    requires Timed(c) && c.books.now == a.now && c.core.saved.Some? && c.core.link == Some(RestoringNetwork)
    ensures Timed(Recover(c, a)) && Recover(c, a).books.now == a.now
  {
    hide Paced, Attempt;
    KeptTimed(c, Restored(c));
    KeptTimed(c, Down(c));
    if c.core.call.None? && a.now - c.recovery.started <= RESTORE_TIMEOUT && a.now >= c.recovery.next {
      AttemptTimed(c, a);
    }
  }

  lemma WatchTimed(c: Control, a: Answers)
    requires Shape(c) && Timed(c) && c.books.now == a.now && c.core.saved.Some?
      && (c.core.net.Some? || c.core.link.Some?)
    ensures Timed(WatchConnection(c, a)) && WatchConnection(c, a).books.now == a.now
  {
    hide Paced, Recover, Timed;
    if c.core.link.None? {
      if c.core.net.Some? && (!a.loggedOn || a.lost) {
        LoseTimed(c, a.loggedOn, a.now);
      }
    } else if !a.loggedOn {
      KeptTimed(c, LoseAgain(c));
    } else if c.core.link.value.Reconnecting? {
      BeginTimed(c, a.now);
      RecoverTimed(BeginRestoring(c, a.now), a);
    } else {
      RecoverTimed(c, a);
    }
  }

  lemma EnterKeepsTime(c: Control, lobby: LobbyId, adapter: bool, a: Answers)
    requires c.core.call.None?
    ensures KeepsTime(c, Enter(c, lobby, adapter, a))
  {
  }

  /** An answer fails the call or changes nothing of the timing. */
  lemma FinishOr(c: Control, p: Pending, answer: Answer, a: Answers)
    requires c.core.call.None? && (p.kind.Rejoin? ==> c.core.saved.Some?)
    ensures KeepsTime(c, Finish(c, p, answer, a))
      || Finish(c, p, answer, a) == CallFailed(c, p.kind, answer.NotEntered? && !answer.gone && answer.barred, a)
  {
    hide Enter, CallFailed;
    if answer.Created? {
      EnterKeepsTime(c.(network := a.newId), answer.lobby, true, a);
    }
    if answer.Entered? {
      var named := c.(network := answer.network);
      EnterKeepsTime(if p.kind.Restore? then StopRecovering(named) else named, p.lobby, !p.kind.Farewell?, a);
    }
  }

  lemma FinishTimed(c: Control, p: Pending, answer: Answer, a: Answers)
    requires Timed(c) && c.books.now == a.now && c.core.call.None? && (p.kind.Rejoin? ==> c.core.saved.Some?)
    ensures Timed(Finish(c, p, answer, a)) && Finish(c, p, answer, a).books.now == a.now
  {
    hide Paced, Timed, CallFailed, Enter;
    var barred := answer.NotEntered? && !answer.gone && answer.barred;
    FailedTimed(c, p.kind, barred, a);
    FinishOr(c, p, answer, a);
    if Finish(c, p, answer, a) != CallFailed(c, p.kind, barred, a) {
      KeptTimed(c, Finish(c, p, answer, a));
    }
  }

  lemma TickCallsTimed(c: Control, a: Answers)
    requires Timed(c) && c.books.now == a.now && Linked(c)
    ensures Timed(TickCalls(c, a)) && TickCalls(c, a).books.now == a.now
  {
    hide Paced, Timed, Finish, CallFailed;
    var d := c.(abandoned := c.abandoned - a.answered);
    KeptTimed(c, d);
    if c.core.call.Some? {
      KeptTimed(c, Drop(d));
      var p := c.core.call.value;
      if a.result.Some? {
        FinishTimed(Drop(d), p, a.result.value, a);
      } else if a.now - p.started > CALL_TIMEOUT {
        FailedTimed(Drop(d), p.kind, false, a);
      }
    }
  }

  lemma DownKeepsTime(c: Control, saved: Option<Saved>)
    ensures KeepsTime(c, Down(Save(c, saved)))
    ensures KeepsTime(c, Save(CloseNetwork(c), saved))
  {
  }

  lemma CloseSaves(c: Control)
    ensures Save(CloseNetwork(c), c.core.saved) == CloseNetwork(c)
  {
  }

  lemma CheckKeepsTime(c: Control, a: Answers)
    requires c.core.net.Some?
    ensures KeepsTime(c, CheckNetwork(c, a))
  {
    hide Down, CloseNetwork;
    var kept := if c.core.net.value.seen.joined then Save(c, Some(Snapshot(c, true))) else c;
    DownKeepsTime(kept, None);
    DownKeepsTime(kept, kept.core.saved);
    if kept.core.saved.Some? {
      DownKeepsTime(kept, Some(kept.core.saved.value.WithOnline(false)));
      DownKeepsTime(kept, GoOfflineSaved(kept));
    }
    CloseSaves(kept);
  }

  lemma BackOnlineTimed(c: Control, a: Answers)
    requires Timed(c) && c.books.now == a.now && c.core.saved.Some? && c.core.call.None?
    ensures Timed(GoBackOnline(c, a)) && GoBackOnline(c, a).books.now == a.now
  {
    hide Paced, Timed, StartJoin;
    if a.loggedOn {
      JoinTimed(c, c.core.saved.value.lobby, c.core.saved.value.code, Rejoin, a);
    } else {
      LoseTimed(c, false, a.now);
    }
  }

  lemma OnlineTimed(c: Control, a: Answers)
    requires Timed(c) && c.books.now == a.now
    ensures Timed(GoOnline(c, a)) && GoOnline(c, a).books.now == a.now
  {
    hide Paced, Timed, GoBackOnline;
    if c.core.saved.Some? && c.core.call.None? {
      var online := Save(c, Some(c.core.saved.value.WithOnline(true)));
      KeptTimed(c, online);
      BackOnlineTimed(online, a);
    }
  }

  lemma NetworkTimed(c: Control, a: Answers)
    requires Timed(c) && c.books.now == a.now && (c.core.link.Some? ==> c.core.saved.Some?)
    ensures Timed(TickNetwork(c, a)) && TickNetwork(c, a).books.now == a.now
  {
    hide Paced, Timed, CheckNetwork, StartJoin, GoOnline;
    if c.core.net.Some? {
      var d := c.(core := c.core.(net := Some(Process(c.core.net.value, a))));
      CheckKeepsTime(d, a);
      KeptTimed(c, TickNetwork(c, a));
    } else if c.core.call.None? {
      OnlineTimed(c, a);
      if a.invite.Some? {
        JoinTimed(c, a.invite.value.lobby, a.invite.value.code, Join, a);
      }
    }
  }

  lemma LinkSaved(c: Control)
    requires Shape(c)
    ensures c.core.link.Some? ==> c.core.saved.Some?
  {
  }

  lemma RestTimed(c: Control, a: Answers)
    requires Shape(c) && Timed(c) && c.books.now == a.now
    ensures Timed(TickRest(c, a)) && TickRest(c, a).books.now == a.now
  {
    hide Paced, Timed, Shape, WatchConnection, TickNetwork;
    if c.goodbye.until.Some? {
      KeptTimed(c, TickFarewell(c, a));
    } else if c.core.saved.Some? && (c.core.net.Some? || c.core.link.Some?) {
      WatchTimed(c, a);
      WatchShape(c, a);
      LinkSaved(WatchConnection(c, a));
      NetworkTimed(WatchConnection(c, a), a);
    } else {
      LinkSaved(c);
      NetworkTimed(c, a);
    }
  }

  lemma TickTimed(c: Control, a: Answers)
    requires Shape(c) && Timed(c) && c.books.now == a.now
    ensures Timed(Tick(c, a)) && Tick(c, a).books.now == a.now
  {
    hide Timed, Shape, TickCalls, TickRest;
    TickCallsShape(c, a);
    TickCallsTimed(c, a);
    RestTimed(TickCalls(c, a), a);
  }

  // Recovery and leaving come to an end

  /** If a restoring stretch is on, it began just now. */
  predicate JustBegun(c: Control, now: real) { c.core.link == Some(RestoringNetwork) ==> c.recovery.started == now }

  /** The call has been dealt with; what is left of the stretch is as it was. */
  predicate CallOver(c: Control, d: Control) {
    d.core.link == Some(RestoringNetwork) ==> d.core.call.None? && d.recovery == c.recovery
  }

  lemma FinishOver(c: Control, p: Pending, answer: Answer, a: Answers)
    requires c.core.call.None? && p.kind.Restore?
    ensures CallOver(c, Finish(c, p, answer, a))
  {
  }

  lemma EnterLink(c: Control, lobby: LobbyId, adapter: bool, a: Answers)
    requires c.core.link.None?
    ensures Enter(c, lobby, adapter, a).core.link.None?
  {
  }

  lemma CallsOver(c: Control, a: Answers)
    requires Shape(c) && Timed(c) && c.core.link == Some(RestoringNetwork)
    requires a.now > c.recovery.started + RESTORE_TIMEOUT + CALL_TIMEOUT
    ensures Linked(c) && CallOver(c, TickCalls(c, a))
  {
    hide Finish, Paced;
    var d := c.(abandoned := c.abandoned - a.answered);
    if c.core.call.Some? && a.result.Some? {
      FinishOver(Drop(d), c.core.call.value, a.result.value, a);
    }
  }

  /** With the time up and no call pending, watching ends the stretch. */
  lemma WatchEnds(c: Control, a: Answers)
    requires c.core.saved.Some? && c.core.link != Some(Reconnecting)
    requires c.core.link == Some(RestoringNetwork) ==> c.core.call.None? && a.now > c.recovery.started + RESTORE_TIMEOUT
    ensures JustBegun(WatchConnection(c, a), a.now)
  {
  }

  lemma NetworkEnds(c: Control, a: Answers)
    requires JustBegun(c, a.now) && (c.core.link.Some? ==> c.core.saved.Some?)
    ensures JustBegun(TickNetwork(c, a), a.now)
  {
  }

  lemma GoodbyeLinks(c: Control)
    requires Shape(c)
    ensures c.goodbye.until.Some? ==> c.core.link.None?
  {
  }

  lemma RestEnds(c: Control, a: Answers)
    requires Shape(c) && c.core.link != Some(Reconnecting)
    requires c.core.link == Some(RestoringNetwork) ==> c.core.call.None? && a.now > c.recovery.started + RESTORE_TIMEOUT
    ensures JustBegun(TickRest(c, a), a.now)
  {
    hide Shape, WatchConnection, TickNetwork;
    LinkSaved(c);
    GoodbyeLinks(c);
    if c.goodbye.until.None? {
      if c.core.saved.Some? && (c.core.net.Some? || c.core.link.Some?) {
        WatchEnds(c, a);
        WatchShape(c, a);
        LinkSaved(WatchConnection(c, a));
        NetworkEnds(WatchConnection(c, a), a);
      } else {
        NetworkEnds(c, a);
      }
    }
  }

  lemma CallsLink(c: Control, a: Answers)
    requires Shape(c) && c.core.link == Some(RestoringNetwork)
    ensures Linked(c) && TickCalls(c, a).core.link != Some(Reconnecting)
  {
    hide Enter;
    var d := c.(abandoned := c.abandoned - a.answered);
    if c.core.call.Some? && a.result.Some? && a.result.value.Entered? {
      EnterLink(StopRecovering(Drop(d).(network := a.result.value.network)), c.core.call.value.lobby, true, a);
    }
  }

  /** Recovery is bounded: the first tick later than RESTORE_TIMEOUT + CALL_TIMEOUT after a
      restoring stretch began finds it over, whatever Steam answered and whenever. */
  lemma RestoringEnds(c: Control, a: Answers)
    requires Shape(c) && Timed(c) && c.core.link == Some(RestoringNetwork)
    requires a.now > c.recovery.started + RESTORE_TIMEOUT + CALL_TIMEOUT
    ensures JustBegun(Tick(c, a), a.now)
  {
    hide Shape, Timed, TickCalls, TickRest;
    CallsOver(c, a);
    TickCallsShape(c, a);
    CallsLink(c, a);
    RestEnds(TickCalls(c, a), a);
  }

  // Leaving

  lemma FarewellCalls(c: Control, a: Answers)
    requires Shape(c) && Timed(c) && c.goodbye.until.Some? && a.now > c.goodbye.until.value
    ensures Linked(c)
    ensures var d := TickCalls(c, a); d.goodbye.until.None? || (d.core.net.Some? && d.goodbye.until == c.goodbye.until)
  {
  }

  lemma WatchGoodbye(c: Control, a: Answers)
    requires c.core.saved.Some? && c.goodbye.until.None?
    ensures WatchConnection(c, a).goodbye.until.None?
  {
  }

  lemma NetworkGoodbye(c: Control, a: Answers)
    requires c.goodbye.until.None? && (c.core.link.Some? ==> c.core.saved.Some?)
    ensures TickNetwork(c, a).goodbye.until.None?
  {
  }

  lemma RestGoodbye(c: Control, a: Answers)
    requires Shape(c) && c.goodbye.until.None?
    ensures TickRest(c, a).goodbye.until.None?
  {
    hide Shape, WatchConnection, TickNetwork;
    LinkSaved(c);
    if c.core.saved.Some? && (c.core.net.Some? || c.core.link.Some?) {
      WatchGoodbye(c, a);
      WatchShape(c, a);
      LinkSaved(WatchConnection(c, a));
      NetworkGoodbye(WatchConnection(c, a), a);
    } else {
      NetworkGoodbye(c, a);
    }
  }

  /** Leave Network is over by the first tick later than FAREWELL_TIMEOUT after it was asked
      for, whatever Steam answers. */
  lemma FarewellEnds(c: Control, a: Answers)
    requires Shape(c) && Timed(c) && c.goodbye.until.Some? && a.now > c.goodbye.until.value
    ensures Tick(c, a).goodbye.until.None?
  {
    hide Shape, Timed, TickCalls, WatchConnection, TickNetwork;
    FarewellCalls(c, a);
    TickCallsShape(c, a);
    var d := TickCalls(c, a);
    if d.goodbye.until.None? {
      RestGoodbye(d, a);
    }
  }

  // Whole runs, from the start until shutdown

  datatype Event =
    | Starts(loaded: Option<Saved>, a: Answers)
    | Ticks(a: Answers)
    | Creates(a: Answers)
    | Joins(lobby: LobbyId, code: string, a: Answers)
    | GoesOnline(a: Answers)
    | GoesOffline(a: Answers)
    | Leaves(a: Answers)

  function At(c: Control, now: real): Control { c.(books := c.books.(now := now)) }

  lemma AtShape(c: Control, now: real)
    requires Shape(c)
    ensures Shape(At(c, now))
  {
  }

  function Step(c: Control, e: Event): Control
    requires Shape(c)
  {
    AtShape(c, e.a.now);
    var at := At(c, e.a.now);
    match e
    case Starts(loaded, a) => Started(at, loaded, a)
    case Ticks(a) => if c.running then Tick(at, a) else at
    case Creates(a) => CreateLobby(at, a)
    case Joins(lobby, code, a) => JoinLobby(at, lobby, code, a)
    case GoesOnline(a) => GoOnline(at, a)
    case GoesOffline(_) => GoOffline(at)
    case Leaves(a) => LeaveNetwork(at, a)
  }

  /** Before it is started it holds nothing. */
  predicate Stopped(c: Control) {
    !c.running ==> c.core == Core(None, None, None, None) && c.held == NOTHING && c.goodbye.until.None?
  }

  ghost predicate Sound(c: Control) { Shape(c) && Stopped(c) && Kept(c) && Timed(c) }

  lemma InitialSound()
    ensures Sound(INITIAL)
  {
  }

  /** Only a start makes it run, and nothing else happens before. */
  lemma StepRuns(c: Control, e: Event)
    requires Shape(c) && Stopped(c) && !c.running
    ensures Step(c, e).running || Step(c, e) == At(c, e.a.now)
  {
  }

  lemma FailedRuns(c: Control, kind: Kind, barred: bool, a: Answers)
    requires kind.Rejoin? && barred ==> c.core.saved.Some?
    ensures CallFailed(c, kind, barred, a).running == c.running
  {
  }

  lemma EnterRuns(c: Control, lobby: LobbyId, adapter: bool, a: Answers)
    ensures Enter(c, lobby, adapter, a).running == c.running
  {
  }

  lemma FinishRuns(c: Control, p: Pending, answer: Answer, a: Answers)
    requires p.kind.Rejoin? ==> c.core.saved.Some?
    ensures Finish(c, p, answer, a).running == c.running
  {
    hide Enter, CallFailed;
    FailedRuns(c, p.kind, answer.NotEntered? && !answer.gone && answer.barred, a);
    if answer.Created? {
      EnterRuns(c.(network := a.newId), answer.lobby, true, a);
    }
    if answer.Entered? {
      var named := c.(network := answer.network);
      EnterRuns(if p.kind.Restore? then StopRecovering(named) else named, p.lobby, !p.kind.Farewell?, a);
    }
  }

  lemma TickCallsRuns(c: Control, a: Answers)
    requires Linked(c)
    ensures TickCalls(c, a).running == c.running
  {
    hide Finish;
    if c.core.call.Some? && a.result.Some? {
      FinishRuns(Drop(c.(abandoned := c.abandoned - a.answered)), c.core.call.value, a.result.value, a);
    }
  }

  lemma WatchRuns(c: Control, a: Answers)
    requires c.core.saved.Some?
    ensures WatchConnection(c, a).running == c.running
  {
  }

  lemma NetworkRuns(c: Control, a: Answers)
    requires c.core.link.Some? ==> c.core.saved.Some?
    ensures TickNetwork(c, a).running == c.running
  {
  }

  lemma RestRuns(c: Control, a: Answers)
    requires Shape(c)
    ensures TickRest(c, a).running == c.running
  {
    hide Shape, WatchConnection, TickNetwork;
    LinkSaved(c);
    if c.goodbye.until.None? {
      if c.core.saved.Some? && (c.core.net.Some? || c.core.link.Some?) {
        WatchShape(c, a);
        WatchRuns(c, a);
        LinkSaved(WatchConnection(c, a));
        NetworkRuns(WatchConnection(c, a), a);
      } else {
        NetworkRuns(c, a);
      }
    }
  }

  lemma RunsOn(c: Control, e: Event)
    requires Shape(c) && c.running
    ensures Step(c, e).running
  {
    hide Shape, TickCalls, TickRest;
    var at := At(c, e.a.now);
    AtShape(c, e.a.now);
    if e.Ticks? {
      TickCallsShape(at, e.a);
      TickCallsRuns(at, e.a);
      RestRuns(TickCalls(at, e.a), e.a);
    }
  }

  lemma StepShape(c: Control, e: Event)
    requires Shape(c) && Stopped(c)
    ensures Shape(Step(c, e)) && Stopped(Step(c, e))
  {
    hide Shape, Tick, Started, CreateLobby, JoinLobby, GoOnline, GoOffline, LeaveNetwork;
    var at := At(c, e.a.now);
    AtShape(c, e.a.now);
    if c.running {
      RunsOn(c, e);
    } else {
      StepRuns(c, e);
    }
    match e
    case Starts(loaded, a) => StartedShape(at, loaded, a);
    case Ticks(a) => TickShape(at, a);
    case Creates(a) => CreateShape(at, a);
    case Joins(lobby, code, a) => JoinLobbyShape(at, lobby, code, a);
    case GoesOnline(a) => OnlineShape(at, a);
    case GoesOffline(_) => OfflineShape(at);
    case Leaves(a) => LeaveShape(at, a);
  }

  lemma AtKept(c: Control, now: real)
    requires Kept(c) && Timed(c) && now >= c.books.now
    ensures Kept(At(c, now)) && Timed(At(c, now)) && At(c, now).books.now == now
  {
  }

  lemma StartedKept(c: Control, loaded: Option<Saved>, a: Answers)
    requires Kept(c) && NewSocket(c, a)
    ensures Kept(Started(c, loaded, a))
  {
    hide Balanced, GoBackOnline;
    if loaded.Some? {
      BackOnlineKept(Save(c.(running := true), loaded), a);
    }
  }

  lemma CreateLobbyKept(c: Control, a: Answers)
    requires Kept(c) && NewSocket(c, a)
    ensures Kept(CreateLobby(c, a))
  {
    hide Balanced, StartCreate;
    CreateKept(c, a);
  }

  lemma OfflineKept(c: Control)
    requires Kept(c)
    ensures Kept(GoOffline(c))
  {
    hide Balanced, Down;
    DownKept(c);
    if c.core.net.Some? {
      DownKept(Save(c, Some(Snapshot(c, false))));
    }
    if c.core.saved.Some? {
      DownKept(Save(c, Some(c.core.saved.value.WithOnline(false))));
    }
  }

  lemma StepKept(c: Control, e: Event)
    requires Shape(c) && Kept(c) && Timed(c) && Promised(c, e.a)
    ensures Kept(Step(c, e))
  {
    hide Balanced, Shape, Timed, Tick, CreateLobby, GoOnline, GoOffline, LeaveNetwork, GoBackOnline, StartJoin;
    var at := At(c, e.a.now);
    AtShape(c, e.a.now);
    AtKept(c, e.a.now);
    match e
    case Starts(loaded, a) => StartedKept(at, loaded, a);
    case Ticks(a) => TickKept(at, a);
    case Creates(a) => CreateLobbyKept(at, a);
    case Joins(lobby, code, a) => JoinKept(at, lobby, code, Join, a);
    case GoesOnline(a) => OnlineKept(at, a);
    case GoesOffline(_) => OfflineKept(at);
    case Leaves(a) => LeaveKept(at, a);
  }

  lemma StartedTimed(c: Control, loaded: Option<Saved>, a: Answers)
    requires Stopped(c) && Timed(c) && c.books.now == a.now
    ensures Timed(Started(c, loaded, a))
  {
    hide Paced, Timed, GoBackOnline;
    if !c.running {
      var running := Save(c.(running := true), loaded);
      KeptTimed(c, running);
      if loaded.Some? {
        BackOnlineTimed(running, a);
      } else {
        KeptTimed(c, c.(running := true));
      }
    }
  }

  lemma CreateTimed(c: Control, a: Answers)
    requires Timed(c) && c.books.now == a.now
    ensures Timed(CreateLobby(c, a))
  {
  }

  lemma JoinLobbyTimed(c: Control, lobby: LobbyId, code: string, a: Answers)
    requires Timed(c) && c.books.now == a.now
    ensures Timed(JoinLobby(c, lobby, code, a))
  {
  }

  lemma OfflineTimed(c: Control)
    requires Timed(c)
    ensures Timed(GoOffline(c))
  {
    hide Timed, Down, KeepsTime;
    DownKeepsTime(c, c.core.saved);
    KeptTimed(c, Down(Save(c, c.core.saved)));
    if c.core.net.Some? {
      DownKeepsTime(c, Some(Snapshot(c, false)));
      KeptTimed(c, Down(Save(c, Some(Snapshot(c, false)))));
    }
    if c.core.saved.Some? {
      var saved := Some(c.core.saved.value.WithOnline(false));
      DownKeepsTime(c, saved);
      KeptTimed(c, Down(Save(c, saved)));
    }
  }

  lemma LeaveTimed(c: Control, a: Answers)
    requires Shape(c) && Timed(c) && c.books.now == a.now
    ensures Timed(LeaveNetwork(c, a))
  {
    hide Paced, StartJoin;
    var saved := c.core.saved;
    var forgotten := Save(c, None).(goodbye := Goodbye(None, saved));
    if saved.Some? && c.core.call.None? {
      KeptTimed(c, forgotten);
      JoinTimed(forgotten, saved.value.lobby, saved.value.code, Farewell, a);
    }
  }

  lemma StepTimed(c: Control, e: Event)
    requires Shape(c) && Stopped(c) && Kept(c) && Timed(c) && e.a.now >= c.books.now
    ensures Timed(Step(c, e))
  {
    hide Balanced, Shape, Timed, Tick, CreateLobby, JoinLobby, GoOnline, GoOffline, LeaveNetwork, Started;
    var at := At(c, e.a.now);
    AtShape(c, e.a.now);
    AtKept(c, e.a.now);
    match e
    case Starts(loaded, a) => StartedTimed(at, loaded, a);
    case Ticks(a) =>
      if c.running {
        TickTimed(at, a);
      }
    case Creates(a) => CreateTimed(at, a);
    case Joins(lobby, code, a) => JoinLobbyTimed(at, lobby, code, a);
    case GoesOnline(a) => OnlineTimed(at, a);
    case GoesOffline(_) => OfflineTimed(at);
    case Leaves(a) => LeaveTimed(at, a);
  }

  predicate PromisedAll(c: Control, events: seq<Event>)
    requires Shape(c) && Stopped(c)
    decreases |events|
  {
    events == [] || (Promised(c, events[0].a)
        && (StepShape(c, events[0]); PromisedAll(Step(c, events[0]), events[1..])))
  }

  function After(c: Control, events: seq<Event>): Control
    requires Shape(c) && Stopped(c)
    decreases |events|
  {
    if events == [] then c else (StepShape(c, events[0]); After(Step(c, events[0]), events[1..]))
  }

  /** Over every run of actions and ticks, whatever Steam, Windows and the session answer:
      the fields fit together, every listen socket and helper is held or was closed exactly
      once, and the attempts of every restoring stretch keep their pace. */
  lemma {:induction false} RunKeeps(c: Control, events: seq<Event>)
    requires Sound(c) && PromisedAll(c, events)
    ensures Sound(After(c, events))
    decreases |events|
  {
    hide Shape, Kept, Timed, Step;
    if events != [] {
      StepShape(c, events[0]);
      StepKept(c, events[0]);
      StepTimed(c, events[0]);
      RunKeeps(Step(c, events[0]), events[1..]);
    }
  }

  /** Shutting down closes every listen socket and helper there ever was exactly once. */
  lemma ShutdownClosesAll(c: Control)
    requires Kept(c)
    ensures var t := Shutdown(c);
      && t.held == NOTHING && t.core.call.None? && t.core.net.None? && t.core.link.None? && !t.running
      && (forall h :: h in t.books.sockets.given ==> t.books.sockets.closed[h] == 1)
      && (forall h :: h in t.books.helpers.given ==> t.books.helpers.closed[h] == 1)
  {
  }

  // The membership that is remembered

  predicate SameNetwork(before: Saved, after: Saved) { after.lobby == before.lobby && after.network == before.network }

  /** Steam answered that the lobby is gone, or it is no longer the network it was. */
  predicate SaysGone(c: Control, a: Answers) {
    && c.core.call.Some? && (c.core.call.value.kind.Rejoin? || c.core.call.value.kind.Restore?)
    && a.result.Some?
    && match a.result.value
       case NotEntered(gone, _) => gone
       case Entered(ours, network) => !ours || c.core.saved.None? || network != c.core.saved.value.network
       case _ => false
  }

  /** The network said it doesn't know this member. */
  predicate SaysStranger(a: Answers) {
    !a.seen.joined && a.seen.refused != "" && a.seen.refused != M.NO_MEMBERS_ONLINE && a.seen.refused != M.NO_ANSWER
  }

  /** It says so to a session that isn't on hold. */
  predicate Expelled(c: Control, a: Answers) {
    c.goodbye.until.None? && c.core.net.Some? && c.core.link.None? && SaysStranger(a)
  }

  lemma FailedSaved(c: Control, kind: Kind, barred: bool, a: Answers)
    requires c.core.saved.Some?
    ensures var t := CallFailed(c, kind, barred, a);
      t.core.saved.Some? && SameNetwork(c.core.saved.value, t.core.saved.value)
  {
  }

  lemma EnterSaved(c: Control, lobby: LobbyId, adapter: bool, a: Answers)
    requires c.core.saved.Some? && c.core.saved.value.network == c.network
    ensures var t := Enter(c, lobby, adapter, a);
      t.core.saved.Some? && (lobby == c.core.saved.value.lobby ==> SameNetwork(c.core.saved.value, t.core.saved.value))
  {
  }

  lemma FinishEnterSaved(c: Control, p: Pending, network: NetworkId, a: Answers)
    requires Shape(c) && c.core.call == Some(p) && c.core.saved.Some? && c.core.saved.value.network == network
    ensures var t := FinishEnter(Drop(c), p, network, a);
      t.core.saved.Some? && SameNetwork(c.core.saved.value, t.core.saved.value)
  {
    hide Enter;
    var named := Drop(c).(network := network);
    EnterSaved(if p.kind.Restore? then StopRecovering(named) else named, p.lobby, !p.kind.Farewell?, a);
  }

  lemma FinishSaved(c: Control, p: Pending, a: Answers)
    requires Shape(c) && c.core.call == Some(p) && c.core.saved.Some? && a.result.Some?
    ensures var t := Finish(Drop(c), p, a.result.value, a);
      if SaysGone(c, a) then t.core == Core(None, None, None, None)
      else t.core.saved.Some? && SameNetwork(c.core.saved.value, t.core.saved.value)
  {
    hide Enter, FinishEnter, CallFailed;
    var answer := a.result.value;
    FailedSaved(Drop(c), p.kind, answer.NotEntered? && !answer.gone && answer.barred, a);
    if answer.Entered? && Meant(Drop(c), p.kind, answer.ours, answer.network) {
      FinishEnterSaved(c, p, answer.network, a);
    }
  }

  lemma CallsSaved(c: Control, a: Answers)
    requires Shape(c) && c.core.saved.Some?
    ensures Linked(c)
    ensures var t := TickCalls(c, a);
      if SaysGone(c, a) then t.core == Core(None, None, None, None)
      else t.core.saved.Some? && SameNetwork(c.core.saved.value, t.core.saved.value)
  {
    hide Finish;
    var d := c.(abandoned := c.abandoned - a.answered);
    if c.core.call.Some? && a.result.Some? {
      FinishSaved(d, c.core.call.value, a);
    }
  }

  /** A session and the saved network are of the same network. */
  predicate Fits(c: Control) {
    c.core.net.Some? && c.core.saved.Some?
    && c.core.net.value.lobby == c.core.saved.value.lobby && c.network == c.core.saved.value.network
  }

  lemma FitsShape(c: Control)
    requires Shape(c) && c.core.saved.Some? && c.core.net.Some?
    ensures Fits(c) && c.goodbye.until.None?
  {
  }

  lemma OfflineWithSaved(c: Control)
    requires Fits(c)
    ensures var t := GoOfflineWith(c); t.core.saved.Some? && SameNetwork(c.core.saved.value, t.core.saved.value)
  {
  }

  lemma CheckSaved(c: Control, a: Answers)
    requires Fits(c) && c.core.net.value.seen == a.seen
    ensures var t := CheckNetwork(c, a);
      if SaysStranger(a) then t.core.saved.None?
      else t.core.saved.Some? && SameNetwork(c.core.saved.value, t.core.saved.value)
  {
    hide GoOfflineWith;
    OfflineWithSaved(c);
    OfflineWithSaved(Save(c, Some(Snapshot(c, true))));
  }

  lemma BackOnlineSaved(c: Control, a: Answers)
    requires c.core.saved.Some?
    ensures GoBackOnline(c, a).core.saved == c.core.saved
  {
  }

  lemma NetworkSaved(c: Control, a: Answers)
    requires Shape(c) && c.core.saved.Some?
    ensures var t := TickNetwork(c, a);
      if Expelled(c, a) then t.core.saved.None?
      else t.core.saved.Some? && SameNetwork(c.core.saved.value, t.core.saved.value)
  {
    hide StartJoin, GoBackOnline, CheckNetwork, GoOfflineWith, Shape;
    if c.core.net.Some? {
      FitsShape(c);
      var d := c.(core := c.core.(net := Some(Process(c.core.net.value, a))));
      OfflineWithSaved(d);
      CheckSaved(d, a);
    } else if a.invite.Some? {
      BackOnlineSaved(Save(c, Some(c.core.saved.value.WithOnline(true))), a);
    }
  }

  lemma RestForgotten(c: Control, a: Answers)
    requires c.core == Core(None, None, None, None)
    ensures TickRest(c, a).core.saved.None?
  {
  }

  /** What a tick's connection watch is done on, and what it leaves. */
  function Watched(c: Control, a: Answers): Control
    requires Shape(c)
  {
    if c.goodbye.until.None? && c.core.saved.Some? && (c.core.net.Some? || c.core.link.Some?) then WatchConnection(c, a)
    else c
  }

  lemma RestSaved(c: Control, a: Answers)
    requires Shape(c) && c.core.saved.Some?
    ensures var t := TickRest(c, a);
      if Expelled(Watched(c, a), a) then t.core.saved.None?
      else t.core.saved.Some? && SameNetwork(c.core.saved.value, t.core.saved.value)
  {
    hide WatchConnection, TickNetwork;
    if c.core.net.Some? || c.core.link.Some? {
      WatchShape(c, a);
    }
    NetworkSaved(Watched(c, a), a);
  }

  /** Everything that forgets the membership. */
  predicate Forgets(c: Control, e: Event)
    requires Shape(c)
  {
    AtShape(c, e.a.now);
    TickCallsShape(At(c, e.a.now), e.a);
    || e.Leaves?
    || (e.Ticks? && (SaysGone(c, e.a) || Expelled(Watched(TickCalls(At(c, e.a.now), e.a), e.a), e.a)))
  }

  lemma TickSaved(c: Control, a: Answers)
    requires Shape(c) && c.core.saved.Some?
    ensures Shape(TickCalls(c, a))
    ensures var t := Tick(c, a);
      if SaysGone(c, a) || Expelled(Watched(TickCalls(c, a), a), a) then t.core.saved.None?
      else t.core.saved.Some? && SameNetwork(c.core.saved.value, t.core.saved.value)
  {
    hide Shape, TickCalls, TickRest, WatchConnection;
    CallsSaved(c, a);
    TickCallsShape(c, a);
    if SaysGone(c, a) {
      RestForgotten(TickCalls(c, a), a);
    } else {
      RestSaved(TickCalls(c, a), a);
    }
  }

  lemma OfflineSaved(c: Control)
    requires Shape(c) && c.core.saved.Some?
    ensures GoOffline(c).core.saved.Some? && SameNetwork(c.core.saved.value, GoOffline(c).core.saved.value)
  {
    hide Shape, Down;
    if c.goodbye.until.None? {
      DownShape(Save(c, Some(c.core.saved.value.WithOnline(false))));
      if c.core.net.Some? {
        FitsShape(c);
        DownShape(Save(c, Some(Snapshot(c, false))));
      }
    }
  }

  lemma LeaveForgets(c: Control, a: Answers)
    requires Shape(c)
    ensures c.core.saved.Some? ==> LeaveNetwork(c, a).core.saved.None?
  {
  }

  /** A membership is remembered, as the same network, unless the user leaves it, Steam says
      its lobby is gone or another network's, or the network says it doesn't know this
      member, and in exactly these cases it is forgotten: no timeout, lost connection,
      failed call or failed adapter forgets it. */
  lemma MembershipIsKept(c: Control, e: Event)
    requires Shape(c) && Stopped(c) && c.core.saved.Some?
    ensures var t := Step(c, e);
      if Forgets(c, e) then t.core.saved.None?
      else t.core.saved.Some? && SameNetwork(c.core.saved.value, t.core.saved.value)
  {
    hide Shape, Tick, TickCalls, Watched, GoBackOnline, LeaveNetwork, StartJoin;
    var at := At(c, e.a.now);
    AtShape(c, e.a.now);
    TickCallsShape(at, e.a);
    match e
    case Ticks(a) => TickSaved(at, a);
    case GoesOnline(a) => BackOnlineSaved(Save(at, Some(at.core.saved.value.WithOnline(true))), a);
    case GoesOffline(_) => OfflineSaved(at);
    case Leaves(a) => LeaveForgets(at, a);
    case _ =>
  }

  // Restoring stretches and farewells, told of the events of a run

  lemma {:induction false} AfterShape(c: Control, events: seq<Event>)
    requires Shape(c) && Stopped(c)
    ensures Shape(After(c, events)) && Stopped(After(c, events))
    decreases |events|
  {
    hide Shape, Stopped, Step;
    if events != [] {
      StepShape(c, events[0]);
      AfterShape(Step(c, events[0]), events[1..]);
    }
  }

  /** The state before event k of a run from the start. */
  function StateAt(events: seq<Event>, k: nat): (c: Control)
    requires k <= |events|
    ensures Shape(c) && Stopped(c)
  {
    AfterShape(INITIAL, events[..k]);
    After(INITIAL, events[..k])
  }

  lemma {:induction false} AfterLast(c: Control, events: seq<Event>, e: Event)
    requires Shape(c) && Stopped(c)
    ensures Shape(After(c, events)) && After(c, events + [e]) == Step(After(c, events), e)
    ensures PromisedAll(c, events + [e]) ==> PromisedAll(c, events) && Promised(After(c, events), e.a)
    decreases |events|
  {
    hide Shape, Stopped, Step, Promised;
    AfterShape(c, events);
    if events == [] {
      assert events + [e] == [e] && [e][1..] == [];
      StepShape(c, e);
    } else {
      assert (events + [e])[0] == events[0] && (events + [e])[1..] == events[1..] + [e];
      StepShape(c, events[0]);
      AfterLast(Step(c, events[0]), events[1..], e);
    }
  }

  /** From one event of a run to the next: everything that holds, and the step taken. */
  lemma {:induction false} StateNext(events: seq<Event>, k: nat)
    requires PromisedAll(INITIAL, events) && k < |events|
    ensures Sound(StateAt(events, k)) && Promised(StateAt(events, k), events[k].a)
    ensures StateAt(events, k + 1) == Step(StateAt(events, k), events[k]) && Sound(StateAt(events, k + 1))
    ensures PromisedAll(INITIAL, events[..k + 1])
    decreases |events|
  {
    hide Shape, Stopped, Step, Promised, Kept, Timed;
    var last := |events| - 1;
    InitialSound();
    assert events == events[..last] + [events[last]];
    AfterLast(INITIAL, events[..last], events[last]);
    if k < last {
      StateNext(events[..last], k);
      assert events[..last][..k] == events[..k] && events[..last][..k + 1] == events[..k + 1];
    } else {
      assert events[..k + 1] == events;
      RunKeeps(INITIAL, events[..k]);
      RunKeeps(INITIAL, events);
    }
  }

  // One event of a restoring stretch

  predicate IsRestoring(c: Control) { c.core.link == Some(RestoringNetwork) }

  /** A stretch that began just now, with an attempt already or without. */
  predicate Began(c: Control, now: real) {
    IsRestoring(c) && c.recovery.started == now && (c.books.attempts == [] || c.books.attempts == [now])
  }

  /** The same stretch, with an attempt more or without. */
  predicate Continues(c: Control, d: Control, now: real) {
    && IsRestoring(d) && d.recovery.started == c.recovery.started
    && (d.books.attempts == c.books.attempts || d.books.attempts == c.books.attempts + [now])
  }

  /** Nothing of the stretch has changed yet. */
  predicate Untouched(c: Control, d: Control) {
    IsRestoring(d) && d.recovery == c.recovery && d.books.attempts == c.books.attempts
  }

  /** The stretch ended within the tick, before what the tick ends with. */
  predicate EndedWithin(c: Control, a: Answers)
    requires Shape(c)
  {
    TickCallsShape(c, a);
    TickCalls(c, a).core.link.None? || Watched(TickCalls(c, a), a).core.link.None?
  }

  lemma RestoreOnly(c: Control)
    requires Shape(c) && IsRestoring(c)
    ensures c.core.call.Some? ==> c.core.call.value.kind.Restore?
    ensures c.core.saved.Some? && c.goodbye.until.None?
  {
  }

  lemma FinishStretch(c: Control, p: Pending, answer: Answer, a: Answers)
    requires IsRestoring(c) && p.kind.Restore?
    ensures Finish(c, p, answer, a).core.link.None? || Untouched(c, Finish(c, p, answer, a))
  {
    hide Enter;
    var named := c.(network := if answer.Entered? then answer.network else "");
    EnterLink(StopRecovering(named), p.lobby, true, a);
  }

  lemma CallsStretch(c: Control, a: Answers)
    requires Shape(c) && IsRestoring(c)
    ensures Linked(c) && (TickCalls(c, a).core.link.None? || Untouched(c, TickCalls(c, a)))
  {
    hide Enter, Shape;
    LinkedShape(c);
    RestoreOnly(c);
    var d := c.(abandoned := c.abandoned - a.answered);
    if c.core.call.Some? && a.result.Some? {
      FinishStretch(Drop(d), c.core.call.value, a.result.value, a);
    }
  }

  lemma AttemptStretch(c: Control, a: Answers)
    requires c.core.saved.Some? && IsRestoring(c)
    ensures Continues(c, Attempt(c, a), a.now)
  {
  }

  /** Watching a stretch ends it, loses Steam again, or goes on with it. */
  lemma WatchStretch(c: Control, a: Answers)
    requires c.core.saved.Some? && IsRestoring(c)
    ensures var w := WatchConnection(c, a);
      w.core.link.None? || w.core.link == Some(Reconnecting) || Continues(c, w, a.now)
  {
    hide Attempt;
    if c.core.call.None? && a.loggedOn {
      AttemptStretch(c, a);
    }
  }

  /** Watching without a stretch begins one at this very time, if it does. */
  lemma WatchBegins(c: Control, a: Answers)
    requires c.core.saved.Some? && !IsRestoring(c)
    ensures var w := WatchConnection(c, a); IsRestoring(w) ==> Began(w, a.now)
  {
  }

  lemma JoinLinks(c: Control, lobby: LobbyId, code: string, a: Answers)
    ensures StartJoin(c, lobby, code, Join, a).core.link == c.core.link
  {
  }

  lemma BackOnlineStretch(c: Control, a: Answers)
    requires c.core.saved.Some? && c.core.link.None?
    ensures var t := GoBackOnline(c, a); IsRestoring(t) ==> Began(t, a.now)
  {
  }

  /** The rest of the tick leaves the link alone, ends it, or begins anew from nothing. */
  lemma NetworkStretch(c: Control, a: Answers)
    requires c.core.link.Some? ==> c.core.saved.Some?
    ensures var t := TickNetwork(c, a);
      && (c.core.link.Some? ==> t.core.link.None? || t.core.link == c.core.link)
      && (IsRestoring(t) && c.core.link.Some? ==> Untouched(c, t))
      && (IsRestoring(t) && c.core.link.None? ==> Began(t, a.now))
  {
    hide StartJoin, GoBackOnline;
    if c.core.net.None? && a.invite.Some? && c.core.saved.Some? && c.core.link.None? {
      BackOnlineStretch(Save(c, Some(c.core.saved.value.WithOnline(true))), a);
    }
    if c.core.net.None? && a.invite.Some? {
      JoinLinks(c, a.invite.value.lobby, a.invite.value.code, a);
    }
  }

  lemma WatchedSaved(c: Control, a: Answers)
    requires Shape(c)
    ensures Shape(Watched(c, a)) && (Watched(c, a).core.link.Some? ==> Watched(c, a).core.saved.Some?)
  {
    hide Shape, WatchConnection;
    if c.goodbye.until.None? && c.core.saved.Some? && (c.core.net.Some? || c.core.link.Some?) {
      WatchShape(c, a);
    }
    LinkSaved(Watched(c, a));
  }

  lemma RestStretch(d: Control, a: Answers)
    requires Shape(d)
    ensures var t, w := TickRest(d, a), Watched(d, a);
      && (IsRestoring(t) && IsRestoring(d) && w.core.link.Some? ==> Continues(d, t, a.now))
      && (IsRestoring(t) && !(IsRestoring(d) && w.core.link.Some?) ==> Began(t, a.now))
  {
    hide Shape, WatchConnection, TickNetwork;
    LinkSaved(d);
    GoodbyeLinks(d);
    var w := Watched(d, a);
    if d.goodbye.until.None? {
      if d.core.saved.Some? && (d.core.net.Some? || d.core.link.Some?) {
        WatchShape(d, a);
        if IsRestoring(d) {
          WatchStretch(d, a);
        } else {
          WatchBegins(d, a);
        }
      }
      WatchedSaved(d, a);
      NetworkStretch(w, a);
    }
  }

  lemma NotRestore(c: Control)
    requires Shape(c) && !IsRestoring(c)
    ensures c.core.call.Some? ==> !c.core.call.value.kind.Restore?
  {
  }

  lemma EnterKeepsLink(c: Control, lobby: LobbyId, adapter: bool, a: Answers)
    ensures Enter(c, lobby, adapter, a).core.link.None? || Enter(c, lobby, adapter, a).core.link == c.core.link
  {
  }

  lemma FinishBegins(c: Control, p: Pending, answer: Answer, a: Answers)
    requires !IsRestoring(c) && !p.kind.Restore? && (p.kind.Rejoin? ==> c.core.saved.Some?)
    ensures var d := Finish(c, p, answer, a); IsRestoring(d) ==> d.recovery.started == a.now && d.books.attempts == []
  {
    hide Enter;
    if answer.Created? {
      EnterKeepsLink(c.(network := a.newId), answer.lobby, true, a);
    }
    if answer.Entered? {
      EnterKeepsLink(c.(network := answer.network), p.lobby, !p.kind.Farewell?, a);
    }
  }

  lemma CallsBegin(c: Control, a: Answers)
    requires Shape(c) && !IsRestoring(c)
    ensures Linked(c)
    ensures var d := TickCalls(c, a); IsRestoring(d) ==> d.recovery.started == a.now && d.books.attempts == []
  {
    hide Enter, Shape;
    LinkedShape(c);
    NotRestore(c);
    var d := c.(abandoned := c.abandoned - a.answered);
    if c.core.call.Some? && a.result.Some? {
      FinishBegins(Drop(d), c.core.call.value, a.result.value, a);
    }
  }

  /** One tick: a stretch that was on and did not end within it goes on; any other that is
      on afterwards began at this very time. */
  lemma TickStretch(c: Control, a: Answers)
    requires Shape(c)
    ensures IsRestoring(Tick(c, a)) ==>
      if IsRestoring(c) && !EndedWithin(c, a) then Continues(c, Tick(c, a), a.now) else Began(Tick(c, a), a.now)
  {
    hide Shape, TickCalls, TickRest, Watched;
    TickCallsShape(c, a);
    if IsRestoring(c) {
      CallsStretch(c, a);
    } else {
      CallsBegin(c, a);
    }
    RestStretch(TickCalls(c, a), a);
  }

  /** The tick in which a stretch ends and another begins. */
  predicate RestartsAt(c: Control, e: Event)
    requires Shape(c)
  {
    AtShape(c, e.a.now);
    e.Ticks? && c.running && IsRestoring(c) && EndedWithin(At(c, e.a.now), e.a) && IsRestoring(Step(c, e))
  }

  /** Back in the lobby, but Steam said in between that it lost its servers or took this PC
      out: the loss counts. */
  predicate LostMeanwhile(d: Control, a: Answers) {
    && d.core.link.None? && d.core.net.Some? && d.core.saved.Some? && d.goodbye.until.None?
    && a.loggedOn && a.lost && !(d.held.helper != 0 && a.helperFailed)
  }

  /** Given up, with an invite to the same lobby accepted, and the join can't even be asked for. */
  predicate InviteFails(w: Control, a: Answers) {
    && w.core.link.None? && w.core.net.None? && w.core.call.None? && w.goodbye.until.None?
    && w.core.saved.Some? && w.running && a.loggedOn
    && a.invite.Some? && a.invite.value.lobby == w.core.saved.value.lobby
    && (OpenSocket(w, a).held.socket == 0 || a.call.None?)
  }

  lemma RestIs(d: Control, a: Answers)
    requires Shape(d) && d.goodbye.until.None?
    ensures Shape(Watched(d, a)) && (Watched(d, a).core.link.Some? ==> Watched(d, a).core.saved.Some?)
    ensures TickRest(d, a) == TickNetwork(Watched(d, a), a)
  {
    hide Shape, WatchConnection, TickNetwork;
    LinkSaved(d);
    WatchedSaved(d, a);
  }

  lemma WatchedAgain(d: Control, a: Answers)
    requires Shape(d) && d.core.link != Some(Reconnecting)
    ensures var w := Watched(d, a);
      && w.goodbye == d.goodbye
      && (d.core.link.None? ==> (IsRestoring(w) <==>
           d.core.net.Some? && d.core.saved.Some? && d.goodbye.until.None? && a.loggedOn && a.lost))
      && (d.core.link.None? && IsRestoring(w) ==> w.held == d.held && w.core.net.Some?)
      && (d.core.link.None? ==> w.core.link == Some(Reconnecting) || IsRestoring(w) || w == d)
      && (w.core.link.None? && IsRestoring(d) ==> w.core.call.None?)
  {
  }

  lemma OpenSame(c: Control, saved: Option<Saved>, a: Answers)
    ensures OpenSocket(Save(c, saved), a).held == OpenSocket(c, a).held
  {
  }

  lemma NetworkAgain(w: Control, a: Answers)
    requires Shape(w) && w.goodbye.until.None? && (w.core.link.Some? ==> w.core.saved.Some?)
    ensures IsRestoring(w) && w.core.net.Some? ==>
      (IsRestoring(TickNetwork(w, a)) <==> !(w.held.helper != 0 && a.helperFailed))
    ensures w.core.link.None? ==> (IsRestoring(TickNetwork(w, a)) <==> InviteFails(w, a))
    ensures w.core.link == Some(Reconnecting) ==> !IsRestoring(TickNetwork(w, a))
  {
    hide OpenSocket;
    if w.core.net.None? && a.invite.Some? && w.core.saved.Some? {
      OpenLinked(Save(w, Some(w.core.saved.value.WithOnline(true))), a);
      OpenSame(w, Some(w.core.saved.value.WithOnline(true)), a);
    }
    OpenLinked(w, a);
  }

  /** Steam lets this PC back into the network that is remembered. */
  predicate BackIn(c: Control, a: Answers) {
    c.core.call.Some? && c.core.saved.Some? && a.result == Some(Entered(true, c.core.saved.value.network))
  }

  /** Back in, but Steam says at once that it lost its servers or took this PC out again, and
      the helper works: the one there is or, without a session, a new one. */
  predicate LostAgain(c: Control, a: Answers) {
    && BackIn(c, a) && a.loggedOn && a.lost
    && if c.core.net.Some? then !(c.held.helper != 0 && a.helperFailed)
       else a.helperStarts && !(a.helper != 0 && a.helperFailed)
  }

  /** No request is left: there was none, it failed, or Steam took too long. */
  predicate NoRequestLeft(c: Control, a: Answers) {
    || c.core.call.None?
    || (if a.result.Some? then a.result.value.Created? || a.result.value.NotCreated?
         || a.result.value == NotEntered(false, false)
        else a.now - c.core.call.value.started > CALL_TIMEOUT)
  }

  /** Restoring is given up: this PC is barred from the lobby, RESTORE_TIMEOUT is over, or it
      is back without a session and its new helper doesn't start. */
  predicate GivesUp(c: Control, a: Answers) {
    || (c.core.call.Some? && a.result == Some(NotEntered(false, true)))
    || (NoRequestLeft(c, a) && !(c.core.net.Some? && a.inLobby) && a.now - c.recovery.started > RESTORE_TIMEOUT)
    || (BackIn(c, a) && c.core.net.None? && !a.helperStarts)
  }

  /** An invite to the remembered lobby is accepted, and the join can't even be asked for. */
  predicate AsksInVain(c: Control, a: Answers) {
    && c.running && a.loggedOn && c.core.saved.Some?
    && a.invite.Some? && a.invite.value.lobby == c.core.saved.value.lobby
    && (a.socket.None? || a.socket.value == 0 || a.call.None?)
  }

  lemma LostIs(c: Control, a: Answers)
    requires Shape(c) && IsRestoring(c)
    ensures Linked(c) && (LostMeanwhile(TickCalls(c, a), a) <==> LostAgain(c, a))
  {
    LinkedShape(c);
    RestoreOnly(c);
  }

  /** Back in: the session there is goes on, or a new one is begun with a new helper. */
  lemma EntersBack(c: Control, p: Pending, network: NetworkId, a: Answers)
    requires c.core.call.None? && c.core.saved.Some? && c.goodbye.until.None? && IsRestoring(c)
    requires p.kind.Restore? && p.lobby == c.core.saved.value.lobby && (c.core.net.None? ==> c.held.helper == 0)
    ensures var d := FinishEnter(c, p, network, a);
      && d.running == c.running && d.goodbye == c.goodbye && d.core.call.None? && d.core.link.None?
      && (d.core.net.None? <==> c.core.net.None? && !a.helperStarts)
      && d.core.saved.Some? && d.core.saved.value.lobby == c.core.saved.value.lobby
  {
  }

  /** The answer to a request to get back in. */
  lemma FinishLeaves(c: Control, p: Pending, answer: Answer, a: Answers)
    requires c.core.call.None? && c.core.saved.Some? && c.goodbye.until.None? && IsRestoring(c)
    requires p.kind.Restore? && p.lobby == c.core.saved.value.lobby && (c.core.net.None? ==> c.held.helper == 0)
    ensures var d, back := Finish(c, p, answer, a), answer == Entered(true, c.core.saved.value.network);
      && d.running == c.running && d.goodbye == c.goodbye && d.core.call.None?
      && (d.core.saved.Some? ==> d.core.saved.value.lobby == c.core.saved.value.lobby)
      && (IsRestoring(d) <==> answer.Created? || answer.NotCreated? || answer == NotEntered(false, false))
      && (d.core.link.None? && d.core.net.None? && d.core.saved.Some? <==>
            answer == NotEntered(false, true) || (back && c.core.net.None? && !a.helperStarts))
      && (IsRestoring(d) ==> d == c)
  {
    hide FinishEnter;
    if answer.Entered? && Meant(c, p.kind, answer.ours, answer.network) {
      EntersBack(c, p, answer.network, a);
    }
  }

  /** After the answers: given up already, or still restoring with what is left of the request. */
  lemma CallsLeave(c: Control, a: Answers)
    requires Shape(c) && IsRestoring(c)
    ensures Linked(c)
    ensures var d := TickCalls(c, a);
      && d.running == c.running && d.goodbye == c.goodbye && (d.core.link.None? ==> d.core.call.None?)
      && (d.core.link.None? && d.core.net.None? && d.core.saved.Some? <==>
            (c.core.call.Some? && a.result == Some(NotEntered(false, true)))
              || (BackIn(c, a) && c.core.net.None? && !a.helperStarts))
      && (IsRestoring(d) ==> d.core.net == c.core.net && d.recovery == c.recovery && d.core.saved == c.core.saved)
      && (IsRestoring(d) && d.core.call.None? <==> NoRequestLeft(c, a))
      && (d.core.saved.Some? ==> d.core.saved.value.lobby == c.core.saved.value.lobby)
  {
    hide Finish;
    LinkedShape(c);
    RestoreOnly(c);
    if c.core.call.Some? && a.result.Some? {
      FinishLeaves(Drop(c.(abandoned := c.abandoned - a.answered)), c.core.call.value, a.result.value, a);
    }
  }

  /** Watching ends a stretch without a session exactly when it is given up. */
  lemma WatchGivesUp(d: Control, a: Answers)
    requires Shape(d) && IsRestoring(d)
    ensures var w := Watched(d, a);
      && w.running == d.running && w.core.saved == d.core.saved
      && (a.loggedOn ==>
            (w.core.link.None? && w.core.net.None? <==>
               d.core.call.None? && !(d.core.net.Some? && a.inLobby) && a.now - d.recovery.started > RESTORE_TIMEOUT))
      && (!a.loggedOn ==> w.core.link.Some?)
  {
    GoodbyeLinks(d);
  }

  lemma WatchedRests(d: Control, a: Answers)
    requires Shape(d) && d.core.net.None? && d.core.link.None?
    ensures Watched(d, a) == d
  {
  }

  lemma NothingIsHeld(w: Control, a: Answers)
    requires Shape(w)
    ensures w.core.call.None? && w.core.net.None? && w.core.link.None? && w.goodbye.until.None? ==>
      (OpenSocket(w, a).held.socket == 0 <==> a.socket.None? || a.socket.value == 0)
  {
  }

  lemma InviteIs(c: Control, a: Answers)
    requires Shape(c) && IsRestoring(c)
    ensures Linked(c) && Shape(TickCalls(c, a))
    ensures InviteFails(Watched(TickCalls(c, a), a), a) <==> GivesUp(c, a) && AsksInVain(c, a)
  {
    hide TickCalls, Watched, Shape, BackIn, NoRequestLeft;
    TickCallsShape(c, a);
    CallsLeave(c, a);
    CallsStretch(c, a);
    var d := TickCalls(c, a);
    var w := Watched(d, a);
    WatchedSaved(d, a);
    WatchedAgain(d, a);
    RestoreOnly(c);
    NothingIsHeld(w, a);
    if IsRestoring(d) {
      WatchGivesUp(d, a);
    } else {
      assert d.core.link.None?;
      if d.core.net.None? {
        assert w == d by { WatchedRests(d, a); }
      } else {
        assert !InviteFails(w, a);
      }
    }
  }

  lemma RestartsWithin(c: Control, a: Answers)
    requires Shape(c) && IsRestoring(c)
    ensures Linked(c) && Shape(TickCalls(c, a))
    ensures EndedWithin(c, a) && IsRestoring(Tick(c, a)) <==>
      LostMeanwhile(TickCalls(c, a), a) || InviteFails(Watched(TickCalls(c, a), a), a)
  {
    hide Shape, TickCalls, Watched, TickNetwork, OpenSocket;
    TickCallsShape(c, a);
    CallsStretch(c, a);
    var d := TickCalls(c, a);
    var w := Watched(d, a);
    LinkSaved(d);
    GoodbyeLinks(d);
    WatchedSaved(d, a);
    WatchedAgain(d, a);
    if d.goodbye.until.None? {
      RestIs(d, a);
      NetworkAgain(w, a);
    }
  }

  /** A stretch ends and another begins within one tick in exactly these two cases: the
      connection is back and lost again, or restoring is given up and an invite to the same
      lobby can't be asked for. */
  lemma RestartsExactly(c: Control, a: Answers)
    requires Shape(c) && IsRestoring(c)
    ensures EndedWithin(c, a) && IsRestoring(Tick(c, a)) <==> LostAgain(c, a) || (GivesUp(c, a) && AsksInVain(c, a))
  {
    hide Shape, TickCalls, Watched, TickNetwork, OpenSocket, LostMeanwhile, InviteFails, LostAgain, GivesUp, AsksInVain;
    RestartsWithin(c, a);
    LostIs(c, a);
    InviteIs(c, a);
  }

  /** The event at which a stretch begins. */
  predicate EntersAt(c: Control, e: Event)
    requires Shape(c)
  {
    IsRestoring(Step(c, e)) && (!IsRestoring(c) || RestartsAt(c, e))
  }

  lemma StartedStretch(c: Control, loaded: Option<Saved>, a: Answers)
    requires Stopped(c)
    ensures var t := Started(c, loaded, a);
      IsRestoring(t) ==> if IsRestoring(c) then Untouched(c, t) else Began(t, a.now)
  {
    hide StartJoin;
    if !c.running && loaded.Some? {
      BackOnlineStretch(Save(c.(running := true), loaded), a);
    }
  }

  lemma OnlineStretch(c: Control, a: Answers)
    ensures var t := GoOnline(c, a);
      IsRestoring(t) ==> if IsRestoring(c) then Untouched(c, t) else Began(t, a.now)
  {
  }

  lemma JoinLinkOnly(c: Control, lobby: LobbyId, code: string, a: Answers)
    ensures JoinLobby(c, lobby, code, a).core.link == c.core.link
    ensures JoinLobby(c, lobby, code, a).recovery == c.recovery
      && JoinLobby(c, lobby, code, a).books.attempts == c.books.attempts
  {
  }

  lemma LeaveStretch(c: Control, a: Answers)
    ensures IsRestoring(LeaveNetwork(c, a)) ==> IsRestoring(c) && Untouched(c, LeaveNetwork(c, a))
  {
  }

  /** One event: a stretch that begins has this event's time, and one that is on keeps its
      own; the attempts on the books grow by at most one, of this event's time. */
  lemma StepStretch(c: Control, e: Event)
    requires Shape(c) && Stopped(c)
    ensures EntersAt(c, e) ==> Began(Step(c, e), e.a.now)
    ensures IsRestoring(Step(c, e)) && !EntersAt(c, e) ==> Continues(c, Step(c, e), e.a.now)
  {
    hide Shape, Tick, EndedWithin, StartJoin;
    var at := At(c, e.a.now);
    AtShape(c, e.a.now);
    match e
    case Ticks(a) =>
      if c.running {
        TickStretch(at, a);
      }
    case Starts(loaded, a) => StartedStretch(at, loaded, a);
    case GoesOnline(a) => OnlineStretch(at, a);
    case Joins(lobby, code, a) => JoinLinkOnly(at, lobby, code, a);
    case Creates(a) =>
    case GoesOffline(_) =>
    case Leaves(a) => LeaveStretch(at, a);
  }

  /** No request to get back into the lobby was made: what is pending was so before, or is
      something else. */
  predicate NoRequest(c: Control, d: Control) {
    d.core.call.None? || d.core.call == c.core.call || !d.core.call.value.kind.Restore?
  }

  lemma EnterDrops(c: Control, lobby: LobbyId, adapter: bool, a: Answers)
    requires c.core.call.None?
    ensures Enter(c, lobby, adapter, a).core.call.None?
  {
  }

  lemma FinishDrops(c: Control, p: Pending, answer: Answer, a: Answers)
    requires c.core.call.None? && (p.kind.Rejoin? ==> c.core.saved.Some?)
    ensures Finish(c, p, answer, a).core.call.None?
  {
    hide Enter;
    if answer.Created? {
      EnterDrops(c.(network := a.newId), answer.lobby, true, a);
    }
    if answer.Entered? {
      var named := c.(network := answer.network);
      EnterDrops(if p.kind.Restore? then StopRecovering(named) else named, p.lobby, !p.kind.Farewell?, a);
    }
  }

  lemma CallsRequest(c: Control, a: Answers)
    requires Linked(c)
    ensures TickCalls(c, a).core.call.None? || TickCalls(c, a).core.call == c.core.call
  {
    hide Enter;
    if c.core.call.Some? && a.result.Some? {
      FinishDrops(Drop(c.(abandoned := c.abandoned - a.answered)), c.core.call.value, a.result.value, a);
    }
  }

  /** The attempts on the books before a step, as far as its stretch goes on. */
  function Earlier(c: Control): seq<real> { if IsRestoring(c) then c.books.attempts else [] }

  lemma WatchRequests(c: Control, a: Answers)
    requires c.core.saved.Some?
    ensures var w := WatchConnection(c, a); !NoRequest(c, w) ==> w.books.attempts == Earlier(c) + [a.now]
  {
  }

  lemma NetworkRequests(c: Control, a: Answers)
    requires c.core.link.Some? ==> c.core.saved.Some?
    ensures NoRequest(c, TickNetwork(c, a))
  {
  }

  lemma RequestRestores(c: Control)
    requires Shape(c)
    ensures c.core.call.Some? && c.core.call.value.kind.Restore? ==> IsRestoring(c)
  {
  }

  /** A tick that has a new request pending has put it on the books, with its time. */
  lemma TickRequests(c: Control, a: Answers)
    requires Shape(c)
    ensures var t := Tick(c, a);
      !NoRequest(c, t) ==>
        t.books.attempts == (if IsRestoring(c) && !EndedWithin(c, a) then c.books.attempts else []) + [a.now]
  {
    hide Shape, TickCalls, TickNetwork, WatchConnection;
    LinkedShape(c);
    TickCallsShape(c, a);
    CallsRequest(c, a);
    var d := TickCalls(c, a);
    var w := Watched(d, a);
    LinkSaved(d);
    GoodbyeLinks(d);
    if IsRestoring(c) {
      CallsStretch(c, a);
    } else {
      CallsBegin(c, a);
    }
    if d.goodbye.until.None? {
      if d.core.saved.Some? && (d.core.net.Some? || d.core.link.Some?) {
        WatchRequests(d, a);
      }
      WatchedSaved(d, a);
      NetworkRequests(w, a);
      NetworkStretch(w, a);
      TickShape(c, a);
      RequestRestores(w);
      RequestRestores(Tick(c, a));
    }
  }

  lemma JoinNoRequest(c: Control, lobby: LobbyId, code: string, kind: Kind, a: Answers)
    requires !kind.Restore?
    ensures NoRequest(c, StartJoin(c, lobby, code, kind, a))
  {
  }

  /** Only ticks ask to get back into the lobby. */
  lemma OtherRequests(c: Control, e: Event)
    requires !e.Ticks?
    ensures match e
      case Starts(loaded, a) => NoRequest(c, Started(c, loaded, a))
      case Creates(a) => NoRequest(c, CreateLobby(c, a))
      case Joins(lobby, code, a) => NoRequest(c, JoinLobby(c, lobby, code, a))
      case GoesOnline(a) => NoRequest(c, GoOnline(c, a))
      case GoesOffline(_) => NoRequest(c, GoOffline(c))
      case Leaves(a) => NoRequest(c, LeaveNetwork(c, a))
  {
    hide StartJoin;
    match e
    case Starts(loaded, a) =>
      if loaded.Some? {
        JoinNoRequest(Save(c.(running := true), loaded), loaded.value.lobby, loaded.value.code, Rejoin, a);
      }
    case Joins(lobby, code, a) => JoinNoRequest(c, lobby, code, Join, a);
    case GoesOnline(a) =>
      if c.core.saved.Some? {
        var online := c.core.saved.value.WithOnline(true);
        JoinNoRequest(Save(c, Some(online)), online.lobby, online.code, Rejoin, a);
      }
    case Leaves(a) =>
      if c.core.saved.Some? {
        var forgotten := Save(c, None).(goodbye := Goodbye(None, c.core.saved));
        JoinNoRequest(forgotten, c.core.saved.value.lobby, c.core.saved.value.code, Farewell, a);
      }
    case _ =>
  }

  /** One event: a request that is new was made by a tick and is on the books. */
  lemma StepRequests(c: Control, e: Event)
    requires Shape(c) && Stopped(c)
    ensures !NoRequest(c, Step(c, e)) ==>
      && IsRestoring(Step(c, e))
      && Step(c, e).books.attempts == (if EntersAt(c, e) then [] else c.books.attempts) + [e.a.now]
  {
    hide Shape, Tick, EndedWithin, Started, CreateLobby, JoinLobby, GoOnline, GoOffline, LeaveNetwork;
    var at := At(c, e.a.now);
    AtShape(c, e.a.now);
    StepShape(c, e);
    RequestRestores(Step(c, e));
    if e.Ticks? {
      if c.running {
        TickRequests(at, e.a);
      }
    } else {
      OtherRequests(at, e);
    }
  }

  // Both bounds, over the events of a run

  /** A restoring stretch begins with event i. */
  predicate Enters(events: seq<Event>, i: nat) { i < |events| && EntersAt(StateAt(events, i), events[i]) }

  /** The stretch that began with event i is on before event j. */
  ghost predicate Lasts(events: seq<Event>, i: nat, j: nat) {
    && i < j <= |events| && Enters(events, i)
    && (forall k: nat :: i < k <= j ==> IsRestoring(StateAt(events, k)))
    && (forall k: nat :: i < k < j ==> !Enters(events, k))
  }

  lemma {:induction false} LastsSince(events: seq<Event>, i: nat, j: nat)
    requires PromisedAll(INITIAL, events) && Lasts(events, i, j)
    ensures StateAt(events, j).recovery.started == events[i].a.now
    decreases j
  {
    hide PromisedAll, StateAt, EntersAt, Sound, Step;
    StateNext(events, j - 1);
    StepStretch(StateAt(events, j - 1), events[j - 1]);
    assert IsRestoring(StateAt(events, j));
    if i < j - 1 {
      assert !Enters(events, j - 1);
      LastsSince(events, i, j - 1);
    }
  }

  /** Recovery is bounded: the first tick later than 105 s after the event with which a
      restoring stretch began ends it, whatever Steam answers. */
  lemma RecoveryIsBounded(events: seq<Event>, i: nat, j: nat)
    requires PromisedAll(INITIAL, events) && Lasts(events, i, j) && j < |events| && events[j].Ticks?
    requires events[j].a.now > events[i].a.now + 105.0
    ensures !IsRestoring(StateAt(events, j + 1)) || Enters(events, j)
    ensures !Lasts(events, i, j + 1)
  {
    hide Shape, Timed, Kept, Tick, PromisedAll, EntersAt, StateAt;
    var c, a := StateAt(events, j), events[j].a;
    StateNext(events, j);
    LastsSince(events, i, j);
    assert IsRestoring(c);
    AtKept(c, a.now);
    AtShape(c, a.now);
    RestoringEnds(At(c, a.now), a);
    StepStretch(c, events[j]);
    assert Enters(events, j) <==> EntersAt(c, events[j]);
  }

  /** The times at which a request to get back into the lobby became pending, by the events
      from i up to j. */
  function RequestTimes(events: seq<Event>, i: nat, j: nat): seq<real>
    requires i <= j <= |events|
    decreases j
  {
    if i == j then []
    else
      RequestTimes(events, i, j - 1)
      + (if NoRequest(StateAt(events, j - 1), StateAt(events, j)) then [] else [events[j - 1].a.now])
  }

  lemma {:induction false} OffsetGrows(k: nat, n: nat)
    requires k <= n
    ensures Offset(k) <= Offset(n)
    decreases n
  {
    if k < n {
      OffsetGrows(k, n - 1);
    }
  }

  ghost predicate Late(times: seq<real>, since: real) {
    forall n: nat :: n < |times| ==> since + Offset(n) <= times[n] <= since + RESTORE_TIMEOUT
  }

  lemma LateMore(times: seq<real>, since: real, attempts: nat, now: real)
    requires Late(times, since) && |times| <= attempts && since + Offset(attempts) <= now <= since + RESTORE_TIMEOUT
    ensures Late(times + [now], since)
  {
    hide Offset;
    OffsetGrows(|times|, attempts);
  }

  lemma NoneLate(since: real)
    ensures Late([], since)
  {
  }

  lemma LastInTime(c: Control)
    requires Sound(c) && c.books.attempts != []
    ensures var n := |c.books.attempts| - 1;
      c.recovery.started + Offset(n) <= c.books.attempts[n] <= c.recovery.started + RESTORE_TIMEOUT
  {
    assert InTime(c.books.attempts, c.recovery.started, |c.books.attempts| - 1);
  }

  lemma {:induction false} RequestsPaced(events: seq<Event>, i: nat, j: nat)
    requires PromisedAll(INITIAL, events) && Lasts(events, i, j)
    ensures |RequestTimes(events, i, j)| <= |StateAt(events, j).books.attempts|
    ensures Late(RequestTimes(events, i, j), events[i].a.now)
    decreases j
  {
    hide PromisedAll, StateAt, EntersAt, Sound, Step, NoRequest, Late, Offset;
    var c, e, d := StateAt(events, j - 1), events[j - 1], StateAt(events, j);
    StateNext(events, j - 1);
    StepStretch(c, e);
    StepRequests(c, e);
    LastsSince(events, i, j);
    assert IsRestoring(d) && (EntersAt(c, e) <==> Enters(events, j - 1));
    assert Enters(events, j - 1) <==> i == j - 1;
    var earlier := if i < j - 1 then c.books.attempts else [];
    var times := RequestTimes(events, i, j - 1);
    assert times + [] == times;
    if i < j - 1 {
      RequestsPaced(events, i, j - 1);
    } else {
      NoneLate(events[i].a.now);
    }
    if !NoRequest(c, d) {
      LastInTime(d);
      LateMore(times, events[i].a.now, |earlier|, e.a.now);
    }
  }

  /** In a restoring stretch at most nine requests are made, the k-th no sooner than its
      offset, 0, 2, 6, 14, 29, 44, 59, 74 or 89 s, after the event with which the stretch
      began, and none later than RESTORE_TIMEOUT after it. */
  lemma RequestsAreFew(events: seq<Event>, i: nat, j: nat)
    requires PromisedAll(INITIAL, events) && Lasts(events, i, j)
    ensures var times := RequestTimes(events, i, j);
      |times| <= 9 && forall n: nat :: n < |times| ==>
        events[i].a.now + Offset(n) <= times[n] <= events[i].a.now + RESTORE_TIMEOUT
  {
    hide PromisedAll, StateAt, EntersAt, IsRestoring;
    RequestsPaced(events, i, j);
    StateNext(events, j - 1);
    NineAttempts(StateAt(events, j).books.attempts, StateAt(events, j).recovery);
  }

  // Leaving

  lemma EnterFarewell(c: Control, lobby: LobbyId, adapter: bool, a: Answers)
    ensures Enter(c, lobby, adapter, a).goodbye.until == c.goodbye.until
  {
  }

  lemma FailedFarewell(c: Control, kind: Kind, barred: bool, a: Answers)
    requires kind.Rejoin? ==> c.core.saved.Some?
    ensures var t := CallFailed(c, kind, barred, a); t.goodbye.until.None? || t.goodbye.until == c.goodbye.until
  {
  }

  lemma FinishFarewell(c: Control, p: Pending, answer: Answer, a: Answers)
    requires p.kind.Rejoin? ==> c.core.saved.Some?
    ensures var t := Finish(c, p, answer, a); t.goodbye.until.None? || t.goodbye.until == c.goodbye.until
  {
    hide Enter, CallFailed;
    if answer.Created? {
      EnterFarewell(c.(network := a.newId), answer.lobby, true, a);
    }
    FailedFarewell(c, p.kind, false, a);
    FailedFarewell(c, p.kind, true, a);
    if answer.Entered? {
      var named := c.(network := answer.network);
      EnterFarewell(if p.kind.Restore? then StopRecovering(named) else named, p.lobby, !p.kind.Farewell?, a);
    }
  }

  lemma TickFarewellOnly(c: Control, a: Answers)
    requires Shape(c)
    ensures Tick(c, a).goodbye.until.None? || Tick(c, a).goodbye.until == c.goodbye.until
  {
    hide Shape, Finish, WatchConnection, TickNetwork;
    LinkedShape(c);
    TickCallsShape(c, a);
    if c.core.call.Some? && a.result.Some? {
      FinishFarewell(Drop(c.(abandoned := c.abandoned - a.answered)), c.core.call.value, a.result.value, a);
    }
    var d := TickCalls(c, a);
    if d.goodbye.until.None? {
      RestGoodbye(d, a);
    }
  }

  lemma JoinFarewell(c: Control, lobby: LobbyId, code: string, kind: Kind, a: Answers)
    ensures var t := StartJoin(c, lobby, code, kind, a); t.goodbye.until.None? || t.goodbye.until == c.goodbye.until
  {
  }

  lemma CreateFarewell(c: Control, a: Answers)
    ensures CreateLobby(c, a).goodbye == c.goodbye
  {
  }

  lemma OfflineFarewell(c: Control)
    ensures GoOffline(c).goodbye == c.goodbye
  {
  }

  lemma LeaveFarewell(c: Control, a: Answers)
    ensures var t := LeaveNetwork(c, a);
      t.goodbye.until.Some? ==>
        if c.goodbye.until.Some? then t.goodbye.until == c.goodbye.until
          else t.goodbye.until == Some(a.now + FAREWELL_TIMEOUT)
  {
  }

  /** Only leaving sets the deadline, FAREWELL_TIMEOUT from then, and nothing moves it. */
  lemma StepFarewell(c: Control, e: Event)
    requires Shape(c) && Stopped(c)
    ensures var t := Step(c, e);
      t.goodbye.until.Some? ==>
        if c.goodbye.until.Some? then t.goodbye.until == c.goodbye.until
        else e.Leaves? && t.goodbye.until == Some(e.a.now + FAREWELL_TIMEOUT)
  {
    hide Shape, Tick, StartJoin, CloseNetwork;
    var at := At(c, e.a.now);
    AtShape(c, e.a.now);
    match e
    case Ticks(a) =>
      if c.running {
        TickFarewellOnly(at, a);
      }
    case Starts(loaded, a) =>
      if loaded.Some? {
        JoinFarewell(Save(at.(running := true), loaded), loaded.value.lobby, loaded.value.code, Rejoin, a);
      }
    case Joins(lobby, code, a) => JoinFarewell(at, lobby, code, Join, a);
    case Creates(a) => CreateFarewell(at, a);
    case GoesOnline(a) =>
      if c.core.saved.Some? {
        var online := c.core.saved.value.WithOnline(true);
        JoinFarewell(Save(at, Some(online)), online.lobby, online.code, Rejoin, a);
      }
    case GoesOffline(_) => OfflineFarewell(at);
    case Leaves(a) => LeaveFarewell(at, a);
  }

  lemma {:induction false} FarewellSince(events: seq<Event>, i: nat, j: nat)
    requires PromisedAll(INITIAL, events) && i < j <= |events| && events[i].Leaves?
    requires forall k: nat :: i < k < j ==> !events[k].Leaves?
    ensures StateAt(events, j).goodbye.until.Some? ==>
      StateAt(events, j).goodbye.until.value <= events[i].a.now + FAREWELL_TIMEOUT
    decreases j
  {
    hide PromisedAll, StateAt, Step, Shape, Kept;
    StateNext(events, j - 1);
    StepFarewell(StateAt(events, j - 1), events[j - 1]);
    if i < j - 1 {
      FarewellSince(events, i, j - 1);
    }
  }

  /** Leave Network is over: asked for with event i, no farewell is left after the first tick
      later than 15 s after it, whatever Steam answers, unless it is asked for again. */
  lemma FarewellIsBounded(events: seq<Event>, i: nat, j: nat)
    requires PromisedAll(INITIAL, events) && i < j < |events| && events[i].Leaves? && events[j].Ticks?
    requires (forall k: nat :: i < k < j ==> !events[k].Leaves?) && events[j].a.now > events[i].a.now + 15.0
    ensures StateAt(events, j + 1).goodbye.until.None?
  {
    hide Shape, Timed, Kept, Tick, PromisedAll, StateAt;
    var c, a := StateAt(events, j), events[j].a;
    StateNext(events, j);
    FarewellSince(events, i, j);
    AtKept(c, a.now);
    AtShape(c, a.now);
    if c.goodbye.until.Some? {
      FarewellEnds(At(c, a.now), a);
    } else {
      StepFarewell(c, events[j]);
    }
  }

  // A tick that ends a stretch late and begins another

  /** Answers in which Steam is logged on or not, and nothing else happens. */
  function Quiet(now: real, loggedOn: bool): Answers {
    var seen := Seen(false, "", "", map[]);
    Answers(now, true, loggedOn, false, false, None, None, None, {}, seen, seen, false, 1, true, false, None, "")
  }

  /** Started while Steam is offline; back at 1 s, when the lobby is asked for; and the answer
      comes at 107 s, together with the connection being lost again. */
  function LateAnswer(saved: Saved): seq<Event> {
    [Starts(Some(saved), Quiet(0.0, false)),
     Ticks(Quiet(1.0, true).(socket := Some(1), call := Some(1))),
     Ticks(Quiet(107.0, true).(lost := true, result := Some(Entered(true, saved.network))))]
  }

  lemma {:induction false} PromisedMore(c: Control, events: seq<Event>, e: Event)
    requires Shape(c) && Stopped(c) && PromisedAll(c, events) && Promised(After(c, events), e.a)
    ensures PromisedAll(c, events + [e])
    decreases |events|
  {
    hide Shape, Stopped, Promised, Step;
    if events == [] {
      assert ([] + [e])[1..] == [] && ([] + [e])[0] == e;
      StepShape(c, e);
    } else {
      assert (events + [e])[1..] == events[1..] + [e];
      StepShape(c, events[0]);
      PromisedMore(Step(c, events[0]), events[1..], e);
    }
  }

  /** Started offline: it waits for Steam. */
  lemma LateStarts(saved: Saved)
    requires saved.online
    ensures var c, e := INITIAL, Starts(Some(saved), Quiet(0.0, false));
      && Shape(c) && Stopped(c) && Promised(c, e.a)
      && Step(c, e) == c.(running := true, core := Core(None, None, Some(saved), Some(Reconnecting)))
  {
  }

  lemma LateAsks(saved: Saved, c: Control)
    requires c == INITIAL.(running := true, core := Core(None, None, Some(saved), Some(Reconnecting)))
    ensures var e := Ticks(Quiet(1.0, true).(socket := Some(1), call := Some(1)));
      && Shape(c) && Stopped(c) && Promised(c, e.a)
      && var d := Step(c, e);
         && d.running && IsRestoring(d) && d.recovery.started == 1.0
         && d.core == Core(Some(Pending(Restore, 1, 1.0, saved.lobby, saved.code)), None, Some(saved),
              Some(RestoringNetwork))
         && d.held == Held(0, 1, 0) && d.books.helpers.given == {} && d.books.now == 1.0 && EntersAt(c, e)
  {
  }

  lemma LateReturns(saved: Saved, c: Control)
    requires Shape(c) && Stopped(c) && c.running && IsRestoring(c)
    requires c.core == Core(Some(Pending(Restore, 1, 1.0, saved.lobby, saved.code)), None, Some(saved),
        Some(RestoringNetwork))
    requires c.books.helpers.given == {} && c.books.now == 1.0
    ensures var e := Ticks(Quiet(107.0, true).(lost := true, result := Some(Entered(true, saved.network))));
      Promised(c, e.a) && RestartsAt(c, e) && IsRestoring(Step(c, e))
  {
    hide Tick, EndedWithin, Shape;
    var a := Quiet(107.0, true).(lost := true, result := Some(Entered(true, saved.network)));
    AtShape(c, a.now);
    RestartsExactly(At(c, a.now), a);
  }

  /** So restoring may be on after a tick later than 105 s after it began, as it began anew. */
  lemma LateAnswerRestarts(saved: Saved)
    requires saved.online
    ensures var events := LateAnswer(saved);
      && |events| == 3 && PromisedAll(INITIAL, events) && Enters(events, 1)
      && events[2].Ticks? && events[2].a.now > events[1].a.now + 105.0
      && RestartsAt(StateAt(events, 2), events[2]) && IsRestoring(StateAt(events, 3))
  {
    hide Shape, Stopped, Step, Promised, RestartsAt, EntersAt;
    var events := LateAnswer(saved);
    var e0, e1, e2 := events[0], events[1], events[2];
    assert events[..0] == [] && events[..1] == [e0] && events[..2] == [e0] + [e1]
      && events[..3] == [e0] + [e1] + [e2] == events;
    LateStarts(saved);
    StepShape(INITIAL, e0);
    var c1 := Step(INITIAL, e0);
    AfterLast(INITIAL, [], e0);
    PromisedMore(INITIAL, [], e0);
    LateAsks(saved, c1);
    AfterLast(INITIAL, [e0], e1);
    PromisedMore(INITIAL, [e0], e1);
    var c2 := Step(c1, e1);
    StepShape(c1, e1);
    LateReturns(saved, c2);
    AfterLast(INITIAL, [e0] + [e1], e2);
    PromisedMore(INITIAL, [e0] + [e1], e2);
  }
}
