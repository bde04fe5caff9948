/**
 Several sessions sharing one lobby: the roster protocol as a whole
 (src/steamlan/app/network.py, src/steamlan/app/roster.py). Each session moves
 by the functions of Membership; Steam keeps one owner and one roster text,
 which only the owner can write. One `process` call is one step.
 */
module RosterProtocol {
  import opened Basics
  import opened Ipv4
  import opened Roster
  import opened Membership
  import Access

  /**
   - leaves: LEAVE messages on their way, as (from, to); answers: accepted
     answers on their way.
   - saved: what members keep on disk of a network they haven't left.
   - granted: who was admitted or has joined and hasn't announced leaving since,
     and at which address. No session reads it; it is what the protocol owes.
   */
  datatype World = World(
    owner: SteamId,
    text: string,
    online: map<SteamId, State>,
    leaves: set<(SteamId, SteamId)>,
    answers: set<(SteamId, SteamId)>,
    saved: map<SteamId, Roster>,
    granted: Roster)
  {
    function Published(): Roster { Decode(text).GetOr(map[]) }
  }

  // The roster a network starts from: its creator's process() publishes itself.

  function Created(id: SteamId, code: string): World {
    var first: Roster := map[id := FIRST_HOST];
    var look := Look(Some(id), "", true, 0.0, {}, {});
    var s := State(Sync(Start(id, code, first), Some(id), ""), EmptyBook(None), look, multiset{}, []);
    var after := Process(s, []);
    World(id, after.look.text, map[id := after], {}, {}, map[], first)
  }

  // Steps

  /** What varies from call to call besides the lobby itself. */
  datatype Call = Call(readsOwner: bool, now: real, connected: set<SteamId>)

  function View(w: World, id: SteamId, call: Call): Look {
    Look(if call.readsOwner then Some(w.owner) else None, w.text, w.owner == id, call.now, call.connected,
         w.online.Keys - {id})
  }

  /** A session about to make a call: it sees the lobby as it is. */
  function Facing(w: World, id: SteamId, call: Call): State
    requires id in w.online
  {
    w.online[id].(look := View(w, id, call), sent := multiset{})
  }

  datatype WorldStep =
    | Enters(id: SteamId, fromSaved: bool, code: string, preferred: Option<Address>, call: Call)
    | Processes(id: SteamId, batch: seq<Mail>, call: Call)
    | Announces(id: SteamId, told: set<SteamId>, call: Call, heir: SteamId)
    | GoesOffline(id: SteamId, heir: SteamId)
    | Saves(id: SteamId)
    | Forgets(id: SteamId)
    | Pauses(id: SteamId, suspended: bool)
    | Moves(heir: SteamId)
    | Loses(leave: (SteamId, SteamId))

  ghost predicate Includes(big: Roster, small: Roster) {
    forall x :: x in small ==> x in big && big[x] == small[x]
  }

  ghost function Newly(w: World, id: SteamId, leaves: set<(SteamId, SteamId)>, left: set<SteamId>,
                       published: Roster): (r: Roster)
    ensures Includes(published, r)
    ensures forall x :: x in r ==> x !in w.Published() && (x, id) !in leaves && x !in left
  {
    map x | x in published.Keys - w.Published().Keys && (x, id) !in leaves && x !in left :: published[x]
  }

  ghost function Own(m: Member, published: Roster): Roster {
    if m.Joined() && m.local in published then map[m.local := published[m.local]] else map[]
  }

  /** Addresses that are owed once id has processed: the entries it newly published for
      members that haven't announced leaving meanwhile, and its own once it has joined. */
  ghost function Granted(w: World, id: SteamId, leaves: set<(SteamId, SteamId)>, after: State): Roster {
    var published := Decode(after.look.text).GetOr(map[]);
    w.granted + Newly(w, id, leaves, after.m.left, published) + Own(after.m, published)
  }

  ghost function Enter(w: World, id: SteamId, fromSaved: bool, code: string, preferred: Option<Address>,
                       call: Call): World {
    var known := if fromSaved && id in w.saved then w.saved[id] else map[];
    var look := View(w, id, call);
    var m := Sync(Start(id, code, known), look.owner, look.text);
    w.(online := w.online[id := State(m, EmptyBook(preferred), look, multiset{}, [])],
       granted := w.granted + Own(m, w.Published()))
  }

  /** LEAVEs still on their way once id has read batch. */
  ghost function Unread(w: World, id: SteamId, batch: seq<Mail>): (leaves: set<(SteamId, SteamId)>)
    ensures leaves <= w.leaves && forall p :: p in w.leaves && p.1 != id ==> p in leaves
    ensures forall x :: (x, id) in leaves <==> (x, id) in w.leaves && !SaysLeave(batch, x)
  {
    set p | p in w.leaves && (p.1 != id || !SaysLeave(batch, p.0))
  }

  /** Accepted answers that `after` has sent and that will arrive. */
  ghost function Answered(w: World, id: SteamId, leaves: set<(SteamId, SteamId)>,
                          after: State): (answers: set<(SteamId, SteamId)>)
    ensures forall p :: p in answers <==>
      p.0 == id && p.1 in w.online && p.1 != id && Accepts(after, p.1) && (p.1, id) !in leaves
  {
    set x | x in w.online && x != id && Accepts(after, x) && (x, id) !in leaves :: (id, x)
  }

  /** The world once id, having read batch, has come to `after`. */
  ghost function Conclude(w: World, id: SteamId, batch: seq<Mail>, after: State): World {
    // An answer to somebody whose LEAVE is still on its way goes to a closed connection.
    var leaves := Unread(w, id, batch);
    w.(text := after.look.text,
       online := w.online[id := after],
       leaves := leaves,
       answers := w.answers + Answered(w, id, leaves, after),
       granted := Granted(w, id, leaves, after))
  }

  ghost function ProcessIn(w: World, id: SteamId, batch: seq<Mail>, call: Call): World
    requires id in w.online
  {
    Conclude(w, id, batch, Process(Facing(w, id, call), batch))
  }

  /** The lobby without id; if it was the owner, Steam makes heir the owner. */
  ghost function Without(w: World, id: SteamId, heir: SteamId): World {
    w.(owner := if w.owner == id then heir else w.owner,
       online := w.online - {id},
       leaves := (set p | p in w.leaves && p.1 != id),
       answers := (set p | p in w.answers && p.1 != id))
  }

  ghost function Announce(w: World, id: SteamId, told: set<SteamId>, call: Call, heir: SteamId): World
    requires id in w.online
  {
    var after := AnnounceLeave(Facing(w, id, call)).0;
    var gone := Without(w.(text := after.look.text), id, heir);
    gone.(leaves := gone.leaves + (set to | to in told :: (id, to)),
          saved := gone.saved - {id},
          granted := gone.granted - {id})
  }

  ghost function Pause(w: World, id: SteamId, suspended: bool): World
    requires id in w.online
  {
    w.(online := w.online[id := Step(w.online[id], if suspended then Suspends else Resumes)])
  }

  /** Messages a session can have been sent. */
  ghost predicate Arrives(w: World, id: SteamId, mail: Mail) {
    && IsId(mail.from) && mail.from != id
    && (mail.message.Leave? ==> (mail.from, id) in w.leaves)
    && (mail.message.Accepted? ==> (mail.from, id) in w.answers)
  }

  /** After id is gone, Steam makes somebody the owner that is in the lobby. */
  ghost predicate Inherits(w: World, id: SteamId, heir: SteamId) {
    w.owner == id && w.online.Keys != {id} ==> heir in w.online && heir != id
  }

  /** What Steam and the sessions may do. */
  ghost predicate Possible(w: World, step: WorldStep) {
    match step
    case Enters(id, fromSaved, code, preferred, call) =>
      IsId(id) && id !in w.online && w.online.Keys != {} && (fromSaved ==> id in w.saved)
    case Processes(id, batch, call) => id in w.online && forall i :: 0 <= i < |batch| ==> Arrives(w, id, batch[i])
    case Announces(id, told, call, heir) =>
      && id in w.online && AnnounceLeave(Facing(w, id, call)).1
      && told <= w.online.Keys - {id} && Inherits(w, id, heir)
    case GoesOffline(id, heir) => id in w.online && Inherits(w, id, heir)
    case Saves(id) => id in w.online && w.online[id].m.Joined()
    case Forgets(id) => true
    case Pauses(id, suspended) => id in w.online
    case Moves(heir) => heir in w.online
    case Loses(leave) => true
  }

  ghost function Next(w: World, step: WorldStep): World
    requires Possible(w, step)
  {
    match step
    case Enters(id, fromSaved, code, preferred, call) => Enter(w, id, fromSaved, code, preferred, call)
    case Processes(id, batch, call) => ProcessIn(w, id, batch, call)
    case Announces(id, told, call, heir) => Announce(w, id, told, call, heir)
    case GoesOffline(id, heir) => Without(w, id, heir)
    case Saves(id) => w.(saved := w.saved[id := w.online[id].m.roster])
    case Forgets(id) => w.(saved := w.saved - {id})
    case Pauses(id, suspended) => Pause(w, id, suspended)
    case Moves(heir) => w.(owner := heir)
    case Loses(leave) => w.(leaves := w.leaves - {leave}, answers := w.answers - {leave})
  }

  // What the protocol must not do

  /** x takes the owner's word: it trusts the owner, or will by an answer on its way. */
  ghost predicate Heeds(w: World, x: SteamId) {
    x in w.online && x != w.owner && (w.owner in w.online[x].m.trusted || (w.owner, x) in w.answers)
  }

  /** x is owed its address, or would join wherever the owner publishes it. */
  ghost predicate Due(w: World, x: SteamId) { x in w.granted || Heeds(w, x) }

  /** The roster an owner works on: the published one if it is about to take that, as it
      trusts the owner it last saw or isn't joined, otherwise its own. */
  function AheadOf(m: Member, published: Roster): Roster {
    if m.Joined() && !(m.coordinator != m.local && m.coordinator in m.trusted) then m.roster else published
  }

  /** An owner that will ever write: it has joined, or is about to by its own text. */
  predicate ActiveOf(m: Member, published: Roster) {
    m.Joined() || (m.local in m.trusted && m.local in published)
  }

  /** An owner works on the published entry of x, and has no LEAVE of x recorded against it
      or, if x is or will be published, on its way. */
  predicate StandsIn(m: Member, published: Roster, waits: bool, x: SteamId) {
    var ahead := AheadOf(m, published);
    && (x in published ==> x in ahead && ahead[x] == published[x] && !Marked(m, x))
    && (x in published || (x in ahead && !Marked(m, x)) ==> !waits)
  }

  ghost predicate Stands(w: World, x: SteamId)
    requires w.owner in w.online
  {
    StandsIn(w.online[w.owner].m, w.Published(), (x, w.owner) in w.leaves, x)
  }

  /** The owner can be the owner: if it will ever write, everybody that is due stands. */
  ghost predicate Ready(w: World)
    requires w.owner in w.online
  {
    ActiveOf(w.online[w.owner].m, w.Published()) ==> forall x :: x != w.owner && Due(w, x) ==> Stands(w, x)
  }

  ghost function Shown(s: State): Roster { Decode(s.look.text).GetOr(map[]) }

  /** Who takes the word of an owner on hold isn't going once the batch is read and, unless
      the text follows the roster because of an admission, is published as in the roster. */
  ghost predicate Holds(s: State, batch: seq<Mail>, x: SteamId) {
    if exists y :: Enrols(s, batch, y) then !Going(s, batch, x)
    else x in Shown(s) ==> !Going(s, batch, x) && x in s.m.roster && s.m.roster[x] == Shown(s)[x]
  }

  /** Told in this call that it is a member, with the answer arriving. */
  ghost predicate Told(w: World, id: SteamId, batch: seq<Mail>, call: Call, x: SteamId)
    requires id in w.online
  {
    x in w.online && x != id && Welcomes(Facing(w, id, call), batch, x) && (x, id) !in Unread(w, id, batch)
  }

  /** Reading the batch does x no harm: it isn't admitted if it heeds the owner already and a
      LEAVE of it waits; and on hold, it holds if it heeds the owner or is told now. */
  ghost predicate FreshIn(s: State, batch: seq<Mail>, x: SteamId, heeds: bool, told: bool, waits: bool) {
    && (heeds && Enrols(s, batch, x) ==> !waits)
    && (s.m.suspended && (heeds || told) ==> Holds(s, batch, x))
  }

  /** A call of a coordinating owner does nobody harm. */
  ghost predicate Fresh(w: World, id: SteamId, batch: seq<Mail>, call: Call)
    requires id in w.online
  {
    Facing(w, id, call).m.IsCoordinator() ==> forall x :: x in w.online && x != id ==>
      FreshIn(Facing(w, id, call), batch, x, Heeds(w, x), Told(w, id, batch, call, x), (x, id) in Unread(w, id, batch))
  }

  /** The steps that do no harm. */
  ghost predicate Harmless(w: World, step: WorldStep)
    requires Possible(w, step)
  {
    match step
    case Processes(id, batch, call) => w.owner == id ==> Fresh(w, id, batch, call)
    case Announces(id, _, _, _) => w.owner == id && w.online.Keys != {id} ==> Ready(Next(w, step))
    case GoesOffline(id, _) => w.owner == id && w.online.Keys != {id} ==> Ready(Next(w, step))
    case Moves(heir) => Ready(Next(w, step))
    case _ => true
  }

  ghost predicate Enabled(w: World, step: WorldStep) { Possible(w, step) && Harmless(w, step) }

  // What holds in every reachable state

  ghost predicate SessionOk(w: World, x: SteamId)
    requires x in w.online
  {
    var m := w.online[x].m;
    && Good(m) && m.local == x
    && (m.Joined() ==> x in w.granted && w.granted[x] == m.roster[x])
    && (x in m.known ==> x in w.granted)
  }

  ghost predicate SavedOk(w: World, x: SteamId)
    requires x in w.saved
  {
    var r := w.saved[x];
    IsId(x) && Valid(r) && x in r && x in w.granted && w.granted[x] == r[x]
  }

  /** Messages are to somebody in the lobby, and no answer is on its way to somebody whose
      LEAVE is. */
  ghost predicate WireOk(w: World) {
    && (forall p :: p in w.leaves ==> p.1 in w.online && p.0 != p.1)
    && (forall p :: p in w.answers ==> p.1 in w.online && (p.1, p.0) !in w.leaves)
  }

  /** What holds whoever the owner is. */
  ghost predicate Base(w: World) {
    && Decode(w.text).Some?
    && Includes(w.Published(), w.granted)
    && (forall x :: x in w.online ==> SessionOk(w, x))
    && (forall x :: x in w.saved ==> SavedOk(w, x))
    && WireOk(w)
    && (w.online.Keys != {} ==> w.owner in w.online)
  }

  ghost predicate Inv(w: World) { Base(w) && (w.online.Keys != {} ==> Ready(w)) }

  // One process call, away from the owner

  lemma ProcessSplit(s: State, batch: seq<Mail>)
    ensures var read := Run(s, Deliveries(batch));
      Process(s, batch) == if read.m.suspended then read else Act(Step(read, Syncs))
  {
  }

  /** Reading the lobby elsewhere: a session joins only by the published roster, and takes
      nothing as long as it doesn't trust the owner. */
  lemma SyncElsewhere(m: Member, owner: Option<SteamId>, text: string, o: SteamId)
    requires Good(m) && o != m.local && (owner.Some? ==> owner.value == o)
    ensures var synced := Sync(m, owner, text);
      && Good(synced) && KeepsPlace(m, synced) && (if owner.Some? then synced.coordinator == o else synced == m)
      && (!m.Joined() && synced.Joined() ==> Decode(text) == Some(synced.roster))
      && (o !in m.trusted ==> synced.trusted == m.trusted && synced.roster == m.roster)
  {
    hide Good;
    SyncKeeps(m, owner, text);
  }

  lemma ActElsewhere(s: State)
    requires Good(s.m) && !s.look.writable
    ensures var after := Act(s);
      && Good(after.m) && KeepsPlace(s.m, after.m) && after.look.text == s.look.text
      && after.m.trusted == s.m.trusted && after.m.Joined() == s.m.Joined()
      && (!s.m.IsCoordinator() ==> after.m == s.m)
  {
    hide Good;
    ActSplit(s);
    CoordinateMemberKeeps(s.m);
    OnlyCoordinatorWrites(s, Acts);
  }

  lemma ReadElsewhere(s: State, batch: seq<Mail>, o: SteamId)
    requires Good(s.m) && FromOthers(s.m, batch) && o != s.m.local && !s.look.writable
    ensures var read := Run(s, Deliveries(batch));
      && Good(read.m) && KeepsPlace(s.m, read.m) && read.look.text == s.look.text && !read.look.writable
      && read.look.owner == s.look.owner && (read.m.Joined() ==> s.m.Joined())
      && (!s.m.Joined() && o !in s.m.trusted && !SaysAccepted(batch, o) ==> o !in read.m.trusted)
  {
    ReadBatch(s, batch);
  }

  /** A call by a session that doesn't own the lobby: it can't write, it joins only by the
      published roster, and comes to trust the owner and to join only by its word. */
  lemma ProcessElsewhere(s: State, batch: seq<Mail>, o: SteamId)
    requires Good(s.m) && FromOthers(s.m, batch) && o != s.m.local
    requires !s.look.writable && (s.look.owner.Some? ==> s.look.owner.value == o)
    ensures var after := Process(s, batch);
      && Good(after.m) && KeepsPlace(s.m, after.m) && after.look.text == s.look.text
      && (!s.m.Joined() && after.m.Joined() ==> Decode(s.look.text) == Some(after.m.roster))
      && (!s.m.Joined() && o !in s.m.trusted && !SaysAccepted(batch, o) ==> o !in after.m.trusted && !after.m.Joined())
  {
    hide Good, Act, Sync, Decode, SaysAccepted;
    var read := Run(s, Deliveries(batch));
    ReadElsewhere(s, batch, o);
    ProcessSplit(s, batch);
    if !read.m.suspended {
      SyncElsewhere(read.m, read.look.owner, read.look.text, o);
      ActElsewhere(Step(read, Syncs));
    }
  }

  // One process call at the owner

  /** What the owner of the lobby relies on. */
  ghost predicate OwnerView(s: State) {
    var m, look := s.m, s.look;
    && Good(m) && look.writable && (look.owner.Some? ==> look.owner.value == m.local)
    && Decode(look.text).Some?
    && (m.Joined() ==> m.local in Shown(s) && Shown(s)[m.local] == m.roster[m.local])
    && (m.local in m.known ==> m.local in Shown(s))
  }

  ghost function Ahead(s: State): Roster { AheadOf(s.m, Shown(s)) }

  ghost predicate Active(s: State) { ActiveOf(s.m, Shown(s)) }

  lemma DecodeEmpty()
    ensures Decode("") == Some(map[])
  {
  }

  lemma ReadView(s: State, batch: seq<Mail>, read: State)
    requires OwnerView(s) && ReadFrom(s, batch, read) && Good(read.m)
    ensures OwnerView(read) && KeepsPlace(s.m, read.m)
    ensures if read.m.roster == s.m.roster then Shown(read) == Shown(s)
      else Shown(read) == read.m.roster && s.m.IsCoordinator()
    ensures s.m.IsCoordinator() == read.m.IsCoordinator() && s.m.suspended == read.m.suspended
      && s.m.trusted <= read.m.trusted
    ensures read.look.owner == s.look.owner
  {
  }

  lemma ReadGrows(s: State, batch: seq<Mail>, read: State)
    requires ReadFrom(s, batch, read)
    ensures forall x :: x in s.m.roster ==> x in read.m.roster && read.m.roster[x] == s.m.roster[x]
    ensures read.m.coordinator == s.m.coordinator && read.m.local == s.m.local
  {
  }

  /** What reading leaves of the roster to work on. */
  lemma ReadAhead(s: State, batch: seq<Mail>, x: SteamId)
    requires OwnerView(s) && FromOthers(s.m, batch) && Active(s)
    ensures var read := Run(s, Deliveries(batch));
      && Active(read)
      && (x in Shown(s) && x in Ahead(s) && Ahead(s)[x] == Shown(s)[x] ==>
           x in Ahead(read) && Ahead(read)[x] == Shown(s)[x])
      && (x in Ahead(read) ==> x in Shown(s) || x in Ahead(s) || Enrols(s, batch, x))
  {
    var read := Run(s, Deliveries(batch));
    ReadBatch(s, batch);
    ReadView(s, batch, read);
    EnrolsExactly(s, batch, x);
    ReadGrows(s, batch, read);
  }

  /** A roster that is taken: the records of members leaving are kept for those it and the
      old one have. */
  lemma TakeMarks(m: Member, text: string, writer: SteamId)
    requires Good(m) && writer in m.trusted && text != "" && Decode(text).Some?
    requires m.Joined() ==> m.local in Decode(text).value && Decode(text).value[m.local] == m.roster[m.local]
    ensures var t, members := TakeRoster(m, text, writer), Decode(text).value;
      && t.roster == members && t.coordinator == m.coordinator && t.local == m.local
      && (forall x :: Marked(t, x) <==> Marked(m, x) && x in members)
  {
    DecodeInverse(m.roster);
  }

  /** Reading the lobby again at an owner that will write: it coordinates the roster ahead,
      with the same members recorded as leaving. */
  lemma SyncOwner(read: State)
    requires OwnerView(read) && Active(read) && (read.look.owner.Some? || read.m.IsCoordinator())
    ensures var synced := Step(read, Syncs);
      && Good(synced.m) && KeepsPlace(read.m, synced.m) && synced.m.IsCoordinator()
      && synced.look == read.look && synced.sent == read.sent && synced.m.roster == Ahead(read)
      && (forall x :: Marked(synced.m, x) <==> Marked(read.m, x) && x in Ahead(read))
  {
    hide Decode, TakeRoster;
    var m, text := read.m, read.look.text;
    SyncKeeps(m, read.look.owner, text);
    DecodeEmpty();
    if read.look.owner.Some? {
      var now := m.(coordinator := m.local);
      if !m.Joined() {
        TakeMarks(now, text, m.local);
      } else if m.coordinator != m.local && m.coordinator in m.trusted {
        TakeMarks(now, text, m.coordinator);
      }
    }
  }

  /** A call that ends coordinating: the roster ahead is published without the members that
      were recorded as leaving. */
  ghost predicate Coordinated(read: State, after: State) {
    && OwnerView(after) && KeepsPlace(read.m, after.m) && after.m.IsCoordinator() && Shown(after) == after.m.roster
    && (forall x :: x in after.m.roster <==> x in Ahead(read) && (x == read.m.local || !Marked(read.m, x)))
    && (forall x :: x in after.m.roster ==> after.m.roster[x] == Ahead(read)[x])
    && (forall x :: x != read.m.local ==> !Marked(after.m, x))
  }

  lemma SameText(s: State)
    ensures !s.m.IsCoordinator() ==> Act(s).look.text == s.look.text && Act(s).m == s.m
    ensures Act(s).look.owner == s.look.owner && Act(s).look.writable == s.look.writable
  {
  }

  lemma GoodView(s: State)
    requires OwnerView(s)
    ensures Good(s.m)
  {
  }

  lemma OwnerCoordinates(read: State)
    requires OwnerView(read) && Active(read) && (read.look.owner.Some? || read.m.IsCoordinator())
    ensures Coordinated(read, Act(Step(read, Syncs)))
  {
    hide Active, Decode, Act, Sync, Good, Ahead;
    var synced := Step(read, Syncs);
    GoodView(read);
    SyncOwner(read);
    CoordinatePublishes(synced);
    CoordinateMemberKeeps(synced.m);
    SameText(synced);
  }

  lemma ActAccepts(s: State, x: SteamId)
    ensures Accepts(Act(s), x) <==> Accepts(s, x)
  {
    if Accepts(s, x) {
      var code :| Sent(x, Access.Accepted(code)) in s.sent;
      assert Sent(x, Access.Accepted(code)) in Act(s).sent;
    }
  }

  lemma SyncAccepts(s: State, x: SteamId)
    ensures Accepts(Step(s, Syncs), x) <==> Accepts(s, x)
  {
    hide Sync;
    assert Step(s, Syncs).sent == s.sent;
  }

  /** Exactly whom a call tells that it is a member. */
  lemma AcceptsExactly(s: State, batch: seq<Mail>, x: SteamId)
    ensures Accepts(Process(s, batch), x) <==> Accepts(s, x) || Welcomes(s, batch, x)
  {
    hide Accepts, Act, Sync;
    ProcessSplit(s, batch);
    WelcomesExactly(s, batch, x);
    ActAccepts(Step(Run(s, Deliveries(batch)), Syncs), x);
    SyncAccepts(Run(s, Deliveries(batch)), x);
  }

  /** A call of the owner that leaves the text and its roster as they are. */
  ghost predicate Rests(s: State, batch: seq<Mail>, after: State) {
    && OwnerView(after) && KeepsPlace(s.m, after.m) && Active(after)
    && after.look.text == s.look.text && after.m.roster == s.m.roster && after.m.coordinator == s.m.coordinator
    && s.m.trusted <= after.m.trusted && (forall x :: Marked(after.m, x) <==> Going(s, batch, x))
  }

  /** A call on hold that admits somebody: the text follows the roster. */
  ghost predicate Grown(s: State, batch: seq<Mail>, after: State) {
    && OwnerView(after) && KeepsPlace(s.m, after.m) && s.m.IsCoordinator() && after.m.IsCoordinator()
    && Shown(after) == after.m.roster
    && (forall x :: x in after.m.roster <==> x in s.m.roster || Enrols(s, batch, x))
    && (forall x :: x in s.m.roster ==> x in after.m.roster && after.m.roster[x] == s.m.roster[x])
    && (forall x :: Marked(after.m, x) <==> Going(s, batch, x))
  }

  lemma MarksAreGoing(s: State, batch: seq<Mail>)
    requires Good(s.m) && FromOthers(s.m, batch)
    ensures forall x :: Going(s, batch, x) <==> Marked(Run(s, Deliveries(batch)).m, x)
    ensures forall x :: x in Run(s, Deliveries(batch)).m.roster <==> x in s.m.roster || Enrols(s, batch, x)
    ensures forall x :: Enrols(s, batch, x) ==> x !in s.m.roster && s.m.IsCoordinator()
  {
    forall x ensures Going(s, batch, x) <==> Marked(Run(s, Deliveries(batch)).m, x) {
      GoingExactly(s, batch, x);
    }
    forall x ensures x in Run(s, Deliveries(batch)).m.roster <==> x in s.m.roster || Enrols(s, batch, x) {
      EnrolsExactly(s, batch, x);
    }
    forall x | Enrols(s, batch, x) ensures x !in s.m.roster && s.m.IsCoordinator() {
      EnrolsExactly(s, batch, x);
    }
  }

  /** A roster that has grown without a new member is the same. */
  lemma GrownSame(s: State, batch: seq<Mail>, read: State)
    requires ReadFrom(s, batch, read)
    requires forall x :: x in read.m.roster ==> x in s.m.roster
    ensures read.m.roster == s.m.roster
  {
    ReadGrows(s, batch, read);
    assert read.m.roster.Keys == s.m.roster.Keys;
  }

  lemma RestsText(s: State, batch: seq<Mail>, read: State)
    requires ReadFrom(s, batch, read) && read.m.roster == s.m.roster
    ensures read.look.text == s.look.text
  {
  }

  /** What reading comes to at the owner. */
  lemma OwnerReads(s: State, batch: seq<Mail>)
    requires OwnerView(s) && FromOthers(s.m, batch) && Active(s)
    ensures var read := Run(s, Deliveries(batch));
      if exists y :: Enrols(s, batch, y) then Grown(s, batch, read) else Rests(s, batch, read)
  {
    hide Going, Enrols, Good;
    var read := Run(s, Deliveries(batch));
    ReadBatch(s, batch);
    ReadView(s, batch, read);
    MarksAreGoing(s, batch);
    ReadGrows(s, batch, read);
    ReadAhead(s, batch, s.m.local);
    if forall y :: !Enrols(s, batch, y) {
      GrownSame(s, batch, read);
      RestsText(s, batch, read);
    }
  }

  lemma ReadFacts(s: State, batch: seq<Mail>)
    requires OwnerView(s) && FromOthers(s.m, batch) && Active(s)
    ensures var read := Run(s, Deliveries(batch));
      && OwnerView(read) && KeepsPlace(s.m, read.m) && Active(read)
      && read.m.suspended == s.m.suspended && read.look.owner == s.look.owner
      && read.m.IsCoordinator() == s.m.IsCoordinator()
  {
    hide Good, Active;
    ReadBatch(s, batch);
    ReadView(s, batch, Run(s, Deliveries(batch)));
    ReadAhead(s, batch, s.m.local);
  }

  lemma OwnerRests(s: State, batch: seq<Mail>, read: State)
    requires read.look.owner.None? && !read.m.IsCoordinator()
    requires if exists y :: Enrols(s, batch, y) then Grown(s, batch, read) else Rests(s, batch, read)
    ensures var after := Act(Step(read, Syncs));
      if exists y :: Enrols(s, batch, y) then Grown(s, batch, after) else Rests(s, batch, after)
  {
    assert Step(read, Syncs) == read;
    SameText(read);
  }

  /** A call by the owner, if it will ever write, ends in one of three ways. */
  lemma OwnerCall(s: State, batch: seq<Mail>)
    requires OwnerView(s) && FromOthers(s.m, batch) && Active(s)
    ensures var read, after := Run(s, Deliveries(batch)), Process(s, batch);
      if s.m.suspended || !(s.m.IsCoordinator() || s.look.owner.Some?)
         then if exists y :: Enrols(s, batch, y) then Grown(s, batch, after) else Rests(s, batch, after)
         else Coordinated(read, after)
  {
    hide Going, Enrols, Good, Act, Sync, Active, Rests, Grown, Coordinated, OwnerView;
    var read := Run(s, Deliveries(batch));
    ProcessSplit(s, batch);
    ReadFacts(s, batch);
    OwnerReads(s, batch);
    if !s.m.suspended {
      if s.m.IsCoordinator() || s.look.owner.Some? {
        OwnerCoordinates(read);
      } else {
        OwnerRests(s, batch, read);
      }
    }
  }

  lemma IdleTrust(s: State, batch: seq<Mail>, read: State)
    requires ReadFrom(s, batch, read) && FromOthers(s.m, batch) && !s.m.IsCoordinator() && s.m.local !in s.m.trusted
    ensures s.m.local !in read.m.trusted
  {
    assert forall code :: Mail(s.m.local, Access.Accepted(code)) !in batch;
  }

  /** An owner that will never write changes nothing, and never will. */
  lemma IdleCall(s: State, batch: seq<Mail>)
    requires OwnerView(s) && FromOthers(s.m, batch) && !Active(s)
    ensures var after := Process(s, batch);
      && OwnerView(after) && KeepsPlace(s.m, after.m) && !Active(after) && after.look.text == s.look.text
  {
    hide Decode, Act, Encode;
    var read := Run(s, Deliveries(batch));
    ReadBatch(s, batch);
    ReadView(s, batch, read);
    RestsText(s, batch, read);
    ProcessSplit(s, batch);
    if s.m.local !in s.m.trusted {
      IdleTrust(s, batch, read);
    }
    if !read.m.suspended {
      var synced := Step(read, Syncs);
      SyncKeeps(read.m, read.look.owner, read.look.text);
      DecodeEmpty();
      SameText(synced);
    }
  }

  lemma WelcomedIsMember(s: State, mail: Mail, x: SteamId)
    requires Good(s.m) && IsId(mail.from) && Welcome(s, mail, x)
    ensures s.m.IsCoordinator() && mail.from == x && x in Receive(s, mail.from, mail.message).m.roster
  {
    AdmitSplit(s, x, mail.message.code, mail.message.address);
    AssignKeeps(s.m.roster, x, mail.message.address);
  }

  lemma {:induction false} WelcomedByCoordinator(s: State, batch: seq<Mail>, x: SteamId)
    requires Good(s.m) && FromOthers(s.m, batch) && Welcomes(s, batch, x)
    ensures s.m.IsCoordinator() && x in Run(s, Deliveries(batch)).m.roster && x != s.m.local
    decreases |batch|
  {
    hide Good, Welcome, Receive, ReadLook, ReadSent;
    var one, rest := Receive(s, batch[0].from, batch[0].message), batch[1..];
    ReadOne(s, batch[0]);
    assert Deliveries(batch)[1..] == Deliveries(rest);
    if Welcome(s, batch[0], x) {
      WelcomedIsMember(s, batch[0], x);
      ReadBatch(one, rest);
    } else {
      WelcomedByCoordinator(one, rest, x);
    }
  }

  /** Exactly: whom the owner, not on hold, tells that it is a member is published at the
      end of that call if and only if it isn't going. */
  lemma AnsweredIsPublished(s: State, batch: seq<Mail>, x: SteamId)
    requires OwnerView(s) && FromOthers(s.m, batch) && !s.m.suspended && Welcomes(s, batch, x)
    ensures var after := Process(s, batch);
      && Accepts(after, x) && Decode(after.look.text) == Some(after.m.roster)
      && (x in after.m.roster <==> !Going(s, batch, x))
  {
    hide Process, Accepts, Welcomes, Going;
    AcceptsExactly(s, batch, x);
    GoingExactly(s, batch, x);
    WelcomedByCoordinator(s, batch, x);
    ReadBatch(s, batch);
    OwnerCall(s, batch);
  }

  function LeaveThenAuth(x: SteamId, code: string): seq<Mail> {
    [Mail(x, Access.Leave), Mail(x, Access.Auth(code, None))]
  }

  lemma MemberIsId(m: Member, x: SteamId)
    requires Good(m) && x in m.roster
    ensures IsId(x)
  {
  }

  lemma LeaverIsHeard(s: State, x: SteamId, code: string)
    requires s.m.IsCoordinator() && x in s.m.roster && x in s.look.connected
    ensures Welcome(Receive(s, x, Access.Leave), Mail(x, Access.Auth(code, None)), x)
  {
  }

  lemma LeaverIsWelcomed(s: State, x: SteamId, code: string)
    requires OwnerView(s) && s.m.IsCoordinator()
    requires x in s.m.roster && x != s.m.local && x in s.look.connected
    ensures var batch := LeaveThenAuth(x, code);
      FromOthers(s.m, batch) && Welcomes(s, batch, x) && Going(s, batch, x)
  {
    hide Decode, Receive, Welcome;
    var leave, ask := Mail(x, Access.Leave), Mail(x, Access.Auth(code, None));
    var batch := LeaveThenAuth(x, code);
    MemberIsId(s.m, x);
    assert batch[0] == leave && batch[1] == ask && batch[1..] == [ask];
    LeaverIsHeard(s, x, code);
    assert Welcomes(Receive(s, x, Access.Leave), [ask], x);
  }

  /** Such a call: a member's LEAVE and its next AUTH are read together, in that order. It
      is told that it is a member and taken out. */
  lemma LeaveAndAuth(s: State, x: SteamId, code: string)
    requires OwnerView(s) && s.m.IsCoordinator() && !s.m.suspended
    requires x in s.m.roster && x != s.m.local && x in s.look.connected
    ensures var after := Process(s, LeaveThenAuth(x, code));
      Accepts(after, x) && x !in after.m.roster && Decode(after.look.text) == Some(after.m.roster)
  {
    hide OwnerView, Process, Decode;
    var batch := LeaveThenAuth(x, code);
    LeaverIsWelcomed(s, x, code);
    AnsweredIsPublished(s, batch, x);
  }

  // What the owner's call leaves of those that stand

  /** Nobody is recorded as leaving by a batch that doesn't say so. */
  lemma SilentStays(s: State, batch: seq<Mail>, x: SteamId)
    requires Good(s.m) && FromOthers(s.m, batch) && !SaysLeave(batch, x) && !Marked(s.m, x)
    ensures !Going(s, batch, x)
  {
    ReadBatch(s, batch);
    GoingExactly(s, batch, x);
  }

  lemma MarkedGoes(s: State, batch: seq<Mail>, x: SteamId)
    requires Marked(s.m, x)
    ensures Going(s, batch, x)
  {
  }

  lemma RestsStands(s: State, batch: seq<Mail>, after: State, x: SteamId, waits: bool, waitsOn: bool)
    requires OwnerView(s) && FromOthers(s.m, batch) && Rests(s, batch, after)
    requires StandsIn(s.m, Shown(s), waits, x) && (SaysLeave(batch, x) || waitsOn ==> waits)
    ensures StandsIn(after.m, Shown(after), waitsOn, x)
  {
    hide Going;
    if Marked(s.m, x) {
      MarkedGoes(s, batch, x);
    } else if !SaysLeave(batch, x) {
      SilentStays(s, batch, x);
    }
  }

  lemma RestsTold(s: State, batch: seq<Mail>, after: State, x: SteamId)
    requires Rests(s, batch, after) && s.m.IsCoordinator()
    requires x in Shown(s) ==> !Going(s, batch, x) && x in s.m.roster && s.m.roster[x] == Shown(s)[x]
    ensures StandsIn(after.m, Shown(after), false, x)
  {
    hide Going;
  }

  lemma GrownStands(s: State, batch: seq<Mail>, after: State, x: SteamId, waitsOn: bool)
    requires Grown(s, batch, after) && !Going(s, batch, x)
    requires x in s.m.roster || Enrols(s, batch, x) ==> !waitsOn
    ensures StandsIn(after.m, Shown(after), waitsOn, x)
  {
    hide Going, Enrols;
  }

  lemma CoordinatedStands(read: State, after: State, x: SteamId, waitsOn: bool)
    requires Coordinated(read, after) && x != read.m.local && (x in after.m.roster ==> !waitsOn)
    ensures StandsIn(after.m, Shown(after), waitsOn, x)
  {
  }

  lemma ReadLocal(s: State, batch: seq<Mail>)
    requires Good(s.m) && FromOthers(s.m, batch)
    ensures Run(s, Deliveries(batch)).m.local == s.m.local
  {
    ReadBatch(s, batch);
  }

  /** Whoever stands is published by a call that ends coordinating, and whoever is published
      by it stood if it did anything at all, or was admitted. */
  lemma CoordinatedKeeps(s: State, batch: seq<Mail>, after: State, x: SteamId, waits: bool)
    requires OwnerView(s) && FromOthers(s.m, batch) && Active(s) && x != s.m.local
    requires Coordinated(Run(s, Deliveries(batch)), after)
    requires StandsIn(s.m, Shown(s), waits, x) && (SaysLeave(batch, x) ==> waits)
    ensures x in Shown(s) ==> x in after.m.roster && after.m.roster[x] == Shown(s)[x]
    ensures x in after.m.roster && !Enrols(s, batch, x) ==> !waits
  {
    hide Going, Enrols, Good;
    GoodView(s);
    ReadAhead(s, batch, x);
    ReadLocal(s, batch);
    GoingExactly(s, batch, x);
    if Marked(s.m, x) {
      MarkedGoes(s, batch, x);
    } else if !SaysLeave(batch, x) {
      SilentStays(s, batch, x);
    }
  }

  /** What a call takes from the world for one member x: whether it is owed its address,
      heeds the owner, is told now, newly listed; and whether a LEAVE of it waits, before and
      after. */
  datatype Case = Case(owed: bool, heeds: bool, told: bool, waits: bool, waitsOn: bool)

  ghost predicate Fits(s: State, batch: seq<Mail>, x: SteamId, c: Case) {
    && OwnerView(s) && FromOthers(s.m, batch) && Active(s) && x != s.m.local
    && (c.owed || c.heeds ==> StandsIn(s.m, Shown(s), c.waits, x))
    && (c.owed ==> x in Shown(s))
    && (SaysLeave(batch, x) ==> c.waits && !c.waitsOn) && (c.waitsOn ==> c.waits)
    && (c.told ==> Welcomes(s, batch, x) && !c.waitsOn)
  }

  ghost predicate Listed(s: State, after: State, x: SteamId, c: Case) {
    x in Shown(after) && x !in Shown(s) && !c.waitsOn && x !in after.m.left
  }

  lemma OwedIsSilent(s: State, x: SteamId, c: Case)
    requires StandsIn(s.m, Shown(s), c.waits, x) && x in Shown(s)
    ensures !c.waits && !Marked(s.m, x)
  {
  }

  lemma CoordinatedNext(s: State, batch: seq<Mail>, x: SteamId, c: Case)
    requires Fits(s, batch, x, c) && (s.m.IsCoordinator() ==> FreshIn(s, batch, x, c.heeds, c.told, c.waitsOn))
    requires c.owed || c.heeds || c.told || Listed(s, Process(s, batch), x, c)
    requires Coordinated(Run(s, Deliveries(batch)), Process(s, batch))
    ensures StandsIn(Process(s, batch).m, Shown(Process(s, batch)), c.waitsOn, x)
  {
    hide Process, Going, Enrols, Welcomes, Decode, Good, StandsIn, Ahead, Active;
    var after := Process(s, batch);
    GoodView(s);
    ReadLocal(s, batch);
    if (c.owed || c.heeds) && x in after.m.roster {
      CoordinatedKeeps(s, batch, after, x, c.waits);
      EnrolsExactly(s, batch, x);
      if c.owed {
        OwedIsSilent(s, x, c);
      }
    }
    CoordinatedStands(Run(s, Deliveries(batch)), after, x, c.waitsOn);
  }

  lemma GrownNext(s: State, batch: seq<Mail>, x: SteamId, c: Case)
    requires Fits(s, batch, x, c) && FreshIn(s, batch, x, c.heeds, c.told, c.waitsOn) && s.m.suspended
    requires c.owed || c.heeds || c.told || Listed(s, Process(s, batch), x, c)
    requires Grown(s, batch, Process(s, batch)) && exists y :: Enrols(s, batch, y)
    ensures StandsIn(Process(s, batch).m, Shown(Process(s, batch)), c.waitsOn, x)
  {
    hide Process, Going, Enrols, Welcomes, Decode, Good;
    var after := Process(s, batch);
    GoodView(s);
    if c.owed && !c.heeds && !c.told {
      OwedIsSilent(s, x, c);
      SilentStays(s, batch, x);
    }
    if c.heeds && Marked(s.m, x) {
      MarkedGoes(s, batch, x);
    }
    GrownStands(s, batch, after, x, c.waitsOn);
  }

  lemma RestsNew(s: State, batch: seq<Mail>, x: SteamId, c: Case)
    requires Fits(s, batch, x, c) && (s.m.IsCoordinator() ==> FreshIn(s, batch, x, c.heeds, c.told, c.waitsOn))
    requires s.m.suspended || !(s.m.IsCoordinator() || s.look.owner.Some?)
    requires c.told || Listed(s, Process(s, batch), x, c)
    requires Rests(s, batch, Process(s, batch)) && !exists y :: Enrols(s, batch, y)
    ensures StandsIn(Process(s, batch).m, Shown(Process(s, batch)), c.waitsOn, x)
  {
    hide Process, Going, Enrols, Welcomes, Decode, Good, StandsIn;
    GoodView(s);
    WelcomedByCoordinator(s, batch, x);
    RestsTold(s, batch, Process(s, batch), x);
  }

  /** Whoever is due after a call stands, if it did nobody harm. */
  lemma StandsNext(s: State, batch: seq<Mail>, x: SteamId, c: Case)
    requires Fits(s, batch, x, c)
    requires s.m.IsCoordinator() ==> FreshIn(s, batch, x, c.heeds, c.told, c.waitsOn)
    requires c.owed || c.heeds || c.told || Listed(s, Process(s, batch), x, c)
    ensures StandsIn(Process(s, batch).m, Shown(Process(s, batch)), c.waitsOn, x)
  {
    hide Process, Going, Enrols, Welcomes, Decode, Good, StandsIn, OwnerView, Ahead, Active;
    var after := Process(s, batch);
    OwnerCall(s, batch);
    if !(s.m.suspended || !(s.m.IsCoordinator() || s.look.owner.Some?)) {
      CoordinatedNext(s, batch, x, c);
    } else if exists y :: Enrols(s, batch, y) {
      GrownNext(s, batch, x, c);
    } else if c.owed || c.heeds {
      RestsStands(s, batch, after, x, c.waits, c.waitsOn);
    } else {
      RestsNew(s, batch, x, c);
    }
  }

  lemma EnrolledIsPublished(s: State, batch: seq<Mail>, x: SteamId)
    requires OwnerView(s) && FromOthers(s.m, batch) && s.m.IsCoordinator() && Enrols(s, batch, x)
      && !SaysLeave(batch, x)
    requires Coordinated(Run(s, Deliveries(batch)), Process(s, batch))
    ensures x in Process(s, batch).m.roster
  {
    hide Process, Going, Enrols, Decode, Good;
    GoodView(s);
    ReadBatch(s, batch);
    EnrolsExactly(s, batch, x);
    SilentStays(s, batch, x);
    GoingExactly(s, batch, x);
  }

  /** And if it did, somebody is due and doesn't. */
  lemma FallsNext(s: State, batch: seq<Mail>, x: SteamId, c: Case)
    requires Fits(s, batch, x, c) && s.m.IsCoordinator() && !FreshIn(s, batch, x, c.heeds, c.told, c.waitsOn)
    ensures !StandsIn(Process(s, batch).m, Shown(Process(s, batch)), c.waitsOn, x)
  {
    hide Process, Going, Enrols, Welcomes, Decode, Good;
    var after := Process(s, batch);
    GoodView(s);
    OwnerCall(s, batch);
    EnrolsExactly(s, batch, x);
    if !s.m.suspended {
      EnrolledIsPublished(s, batch, x);
    }
    if Going(s, batch, x) {
      GoingExactly(s, batch, x);
    }
  }

  // What each step of the world keeps

  lemma FacingFacts(w: World, id: SteamId, call: Call)
    requires Base(w) && id in w.online
    ensures var s := Facing(w, id, call);
      && s.m == w.online[id].m && s.m.local == id && Good(s.m)
      && s.look.text == w.text && s.look.writable == (w.owner == id) && Shown(s) == w.Published()
      && (s.look.owner.Some? ==> s.look.owner.value == w.owner)
      && (forall x :: !Accepts(s, x))
      && (w.owner == id ==> OwnerView(s))
  {
    assert SessionOk(w, id);
  }

  lemma ArrivesFromOthers(w: World, id: SteamId, batch: seq<Mail>)
    requires id in w.online && w.online[id].m.local == id
    requires forall i :: 0 <= i < |batch| ==> Arrives(w, id, batch[i])
    ensures FromOthers(w.online[id].m, batch)
  {
  }

  lemma LeavesArrive(w: World, id: SteamId, batch: seq<Mail>, x: SteamId)
    requires forall i :: 0 <= i < |batch| ==> Arrives(w, id, batch[i])
    requires SaysLeave(batch, x)
    ensures (x, id) in w.leaves
  {
  }

  lemma AcceptedArrives(w: World, id: SteamId, batch: seq<Mail>, x: SteamId)
    requires forall i :: 0 <= i < |batch| ==> Arrives(w, id, batch[i])
    requires SaysAccepted(batch, x)
    ensures (x, id) in w.answers
  {
    var code :| Mail(x, Access.Accepted(code)) in batch;
    var i :| 0 <= i < |batch| && batch[i] == Mail(x, Access.Accepted(code));
  }

  /** A session away from the owner moves: only itself changes, and it is due afterwards only
      if it was. */
  ghost predicate MovesElsewhere(w: World, v: World, id: SteamId) {
    && v.owner == w.owner && v.text == w.text && v.saved == w.saved && w.owner != id
    && v.online.Keys == w.online.Keys + {id}
    && (forall x :: x in w.online && x != id ==> v.online[x] == w.online[x])
    && v.leaves <= w.leaves
    && (forall p :: p in v.answers ==> p in w.answers || (p.0 == id && p.1 in w.online && (p.1, id) !in v.leaves))
    && Includes(v.granted, w.granted) && v.granted.Keys <= w.granted.Keys + {id}
    && (Due(v, id) ==> Due(w, id))
  }

  lemma ElsewhereSession(w: World, v: World, id: SteamId, x: SteamId)
    requires Base(w) && MovesElsewhere(w, v, id) && SessionOk(v, id) && x in v.online
    ensures SessionOk(v, x)
  {
    hide Good, Valid, Decode, Due;
    if x != id {
      assert SessionOk(w, x);
    }
  }

  lemma ElsewhereSaved(w: World, v: World, id: SteamId, x: SteamId)
    requires Base(w) && MovesElsewhere(w, v, id) && x in v.saved
    ensures SavedOk(v, x)
  {
    hide Valid, Decode, Due;
    assert SavedOk(w, x);
  }

  lemma ElsewhereDue(w: World, v: World, id: SteamId, x: SteamId)
    requires MovesElsewhere(w, v, id) && Due(v, x)
    ensures Due(w, x)
  {
    hide Includes, Decode;
  }

  lemma StandsOn(m: Member, published: Roster, waits: bool, waitsOn: bool, x: SteamId)
    requires StandsIn(m, published, waits, x) && (waitsOn ==> waits)
    ensures StandsIn(m, published, waitsOn, x)
  {
  }

  lemma ElsewhereReady(w: World, v: World, id: SteamId)
    requires w.owner in w.online && Ready(w) && MovesElsewhere(w, v, id)
    ensures v.owner in v.online && Ready(v)
  {
    hide StandsIn, ActiveOf, Decode, Includes;
    forall x | x != v.owner && Due(v, x) && ActiveOf(v.online[v.owner].m, v.Published()) ensures Stands(v, x) {
      ElsewhereDue(w, v, id, x);
      assert Stands(w, x);
      StandsOn(w.online[w.owner].m, w.Published(), (x, w.owner) in w.leaves, (x, w.owner) in v.leaves, x);
    }
  }

  lemma ElsewhereWire(w: World, v: World, id: SteamId)
    requires Base(w) && w.online.Keys != {} && MovesElsewhere(w, v, id)
    ensures WireOk(v) && Decode(v.text).Some? && v.owner in v.online
  {
    hide SessionOk, SavedOk, Includes, Due, Decode;
  }

  lemma ElsewhereKeeps(w: World, v: World, id: SteamId)
    requires Base(w) && w.online.Keys != {} && MovesElsewhere(w, v, id)
    requires SessionOk(v, id) && Includes(v.Published(), v.granted)
    ensures Base(v) && (Ready(w) ==> Ready(v))
  {
    hide SessionOk, SavedOk, WireOk, Ready, Includes, MovesElsewhere;
    ElsewhereWire(w, v, id);
    forall x | x in v.online ensures SessionOk(v, x) {
      ElsewhereSession(w, v, id, x);
    }
    forall x | x in v.saved ensures SavedOk(v, x) {
      ElsewhereSaved(w, v, id, x);
    }
    if Ready(w) {
      ElsewhereReady(w, v, id);
    }
  }

  lemma GrantedElsewhere(w: World, id: SteamId, leaves: set<(SteamId, SteamId)>, after: State)
    requires after.look.text == w.text
    ensures Granted(w, id, leaves, after) == w.granted + Own(after.m, w.Published())
  {
    assert Newly(w, id, leaves, after.m.left, w.Published()) == map[];
    assert w.granted + map[] == w.granted;
  }

  /** A session is owed its own published address from when it joins. */
  lemma OwnKeeps(before: Member, m: Member, published: Roster, granted: Roster)
    requires Includes(published, granted) && Good(m) && KeepsPlace(before, m)
    requires before.Joined() ==> before.local in granted && granted[before.local] == before.roster[before.local]
    requires !before.Joined() && m.Joined() ==> m.roster == published
    ensures var after := granted + Own(m, published);
      && Includes(after, granted) && Includes(published, after)
      && after.Keys <= granted.Keys + {m.local}
      && (m.Joined() ==> m.local in after && after[m.local] == m.roster[m.local])
      && (!m.Joined() ==> after == granted)
  {
  }

  /** What `after` may be for a session that doesn't own the lobby. */
  ghost predicate ElsewhereResult(w: World, id: SteamId, after: State) {
    && id in w.online && w.owner != id
    && Good(after.m) && KeepsPlace(w.online[id].m, after.m) && after.look.text == w.text
    && (!w.online[id].m.Joined() && after.m.Joined() ==> after.m.roster == w.Published())
    && (!w.online[id].m.Joined() && !Heeds(w, id) ==> w.owner !in after.m.trusted && !after.m.Joined())
  }

  lemma ConcludeGranted(w: World, id: SteamId, batch: seq<Mail>, after: State)
    requires Base(w) && ElsewhereResult(w, id, after)
    ensures var granted := Conclude(w, id, batch, after).granted;
      && Includes(granted, w.granted) && Includes(w.Published(), granted)
      && granted.Keys <= w.granted.Keys + {id}
      && (after.m.Joined() ==> id in granted && granted[id] == after.m.roster[id])
      && (!after.m.Joined() ==> granted == w.granted)
  {
    assert SessionOk(w, id);
    OwnKeeps(w.online[id].m, after.m, w.Published(), w.granted);
    GrantedElsewhere(w, id, Conclude(w, id, batch, after).leaves, after);
  }

  lemma ConcludeDue(w: World, id: SteamId, batch: seq<Mail>, after: State)
    requires Base(w) && ElsewhereResult(w, id, after) && Due(Conclude(w, id, batch, after), id)
    ensures Due(w, id)
  {
    hide Good, Granted, Includes, Decode;
    ConcludeGranted(w, id, batch, after);
    assert SessionOk(w, id);
  }

  lemma ConcludeMoves(w: World, id: SteamId, batch: seq<Mail>, after: State)
    requires Base(w) && ElsewhereResult(w, id, after)
    ensures MovesElsewhere(w, Conclude(w, id, batch, after), id)
  {
    hide Base, Due, Includes, Good, Decode, Granted;
    ConcludeGranted(w, id, batch, after);
    if Due(Conclude(w, id, batch, after), id) {
      ConcludeDue(w, id, batch, after);
    }
  }

  lemma ConcludeElsewhere(w: World, id: SteamId, batch: seq<Mail>, after: State)
    requires Base(w) && ElsewhereResult(w, id, after)
    ensures var v := Conclude(w, id, batch, after);
      Base(v) && (Ready(w) ==> Ready(v)) && Includes(v.granted, w.granted)
  {
    hide Due, Ready, MovesElsewhere;
    var v := Conclude(w, id, batch, after);
    ConcludeMoves(w, id, batch, after);
    ConcludeGranted(w, id, batch, after);
    assert SessionOk(v, id) by {
      assert SessionOk(w, id);
    }
    ElsewhereKeeps(w, v, id);
  }

  lemma ElsewherePublished(w: World, s: State, after: State)
    requires s.look.text == w.text && (!s.m.Joined() && after.m.Joined() ==>
        Decode(s.look.text) == Some(after.m.roster))
    ensures !s.m.Joined() && after.m.Joined() ==> after.m.roster == w.Published()
  {
  }

  lemma ProcessElsewhereKeeps(w: World, id: SteamId, batch: seq<Mail>, call: Call)
    requires Base(w) && Possible(w, Processes(id, batch, call)) && w.owner != id
    ensures var v := ProcessIn(w, id, batch, call);
      Base(v) && (Ready(w) ==> Ready(v)) && Includes(v.granted, w.granted)
  {
    hide Base, Good, Process, Decode, SaysAccepted, Ready, Includes, Conclude;
    var s := Facing(w, id, call);
    FacingFacts(w, id, call);
    ArrivesFromOthers(w, id, batch);
    ProcessElsewhere(s, batch, w.owner);
    if SaysAccepted(batch, w.owner) {
      AcceptedArrives(w, id, batch, w.owner);
    }
    ElsewherePublished(w, s, Process(s, batch));
    ConcludeElsewhere(w, id, batch, Process(s, batch));
  }

  // The same at the owner

  /** Whoever is due before the call and stands has no LEAVE in the batch. */
  lemma DueIsSilent(w: World, id: SteamId, batch: seq<Mail>, x: SteamId)
    requires id in w.online && w.owner == id
    requires forall i :: 0 <= i < |batch| ==> Arrives(w, id, batch[i])
    ensures SaysLeave(batch, x) ==> (x, id) in w.leaves
  {
    if SaysLeave(batch, x) {
      LeavesArrive(w, id, batch, x);
    }
  }

  lemma StandingStays(s: State, batch: seq<Mail>, waits: bool, x: SteamId)
    requires OwnerView(s) && FromOthers(s.m, batch) && Active(s) && x != s.m.local && x in Shown(s)
    requires StandsIn(s.m, Shown(s), waits, x) && (SaysLeave(batch, x) ==> waits)
    ensures var shown := Shown(Process(s, batch)); x in shown && shown[x] == Shown(s)[x]
  {
    hide Process, Decode, Good, Going, Enrols;
    OwnerCall(s, batch);
    if !s.m.suspended && (s.m.IsCoordinator() || s.look.owner.Some?) {
      CoordinatedKeeps(s, batch, Process(s, batch), x, waits);
    }
  }

  lemma OwnStays(s: State, batch: seq<Mail>)
    requires OwnerView(s) && FromOthers(s.m, batch) && Active(s) && s.m.local in Shown(s)
    ensures var shown := Shown(Process(s, batch)); s.m.local in shown && shown[s.m.local] == Shown(s)[s.m.local]
  {
    hide Process, Decode, Good, Going, Enrols;
    OwnerCall(s, batch);
    if !s.m.suspended && (s.m.IsCoordinator() || s.look.owner.Some?) {
      GoodView(s);
      ReadLocal(s, batch);
      ReadAhead(s, batch, s.m.local);
    }
  }

  /** An address that is owed stays published. */
  lemma GrantedStays(w: World, id: SteamId, batch: seq<Mail>, call: Call, x: SteamId)
    requires Inv(w) && Possible(w, Processes(id, batch, call)) && w.owner == id && x in w.granted
    ensures var shown := Shown(Process(Facing(w, id, call), batch));
      x in shown && shown[x] == w.granted[x]
  {
    hide Process, Decode, Good, Going, Enrols, StandsIn, AheadOf, ActiveOf;
    var s := Facing(w, id, call);
    FacingFacts(w, id, call);
    ArrivesFromOthers(w, id, batch);
    if !Active(s) {
      IdleCall(s, batch);
    } else if x == id {
      OwnStays(s, batch);
    } else {
      assert Stands(w, x);
      DueIsSilent(w, id, batch, x);
      StandingStays(s, batch, (x, id) in w.leaves, x);
    }
  }

  lemma ReadPlace(s: State, batch: seq<Mail>)
    requires Good(s.m) && FromOthers(s.m, batch)
    ensures KeepsPlace(s.m, Run(s, Deliveries(batch)).m)
  {
    ReadBatch(s, batch);
  }

  lemma OwnerCallView(s: State, batch: seq<Mail>)
    requires OwnerView(s) && FromOthers(s.m, batch)
    ensures OwnerView(Process(s, batch)) && KeepsPlace(s.m, Process(s, batch).m)
  {
    hide Process, Decode, Good, Going, Enrols;
    if Active(s) {
      OwnerCall(s, batch);
      GoodView(s);
      ReadPlace(s, batch);
    } else {
      IdleCall(s, batch);
    }
  }

  lemma Combine(granted: Roster, added: Roster, own: Roster, published: Roster)
    requires Includes(published, granted) && Includes(published, added) && Includes(published, own)
    ensures Includes(granted + added + own, granted) && Includes(published, granted + added + own)
  {
  }

  /** What `after` may be for the session that owns the lobby. */
  ghost predicate AtOwnerResult(w: World, id: SteamId, after: State) {
    && id in w.online && w.owner == id
    && OwnerView(after) && KeepsPlace(w.online[id].m, after.m) && after.m.local == id
    && Includes(Shown(after), w.granted)
  }

  lemma OwnerGranted(w: World, id: SteamId, leaves: set<(SteamId, SteamId)>, after: State)
    requires Base(w) && AtOwnerResult(w, id, after)
    ensures var granted := Granted(w, id, leaves, after);
      && Includes(granted, w.granted) && Includes(Shown(after), granted)
      && (after.m.Joined() ==> id in granted && granted[id] == after.m.roster[id])
  {
    var published := Shown(after);
    Combine(w.granted, Newly(w, id, leaves, after.m.left, published), Own(after.m, published), published);
  }

  /** The others' sessions are as they were. */
  lemma OwnerSessions(w: World, id: SteamId, v: World, after: State, x: SteamId)
    requires Base(w) && AtOwnerResult(w, id, after)
    requires v.online == w.online[id := after] && Includes(v.granted, w.granted) && x in v.online
    requires after.m.Joined() ==> id in v.granted && v.granted[id] == after.m.roster[id]
    ensures SessionOk(v, x)
  {
    assert SessionOk(w, x);
  }

  lemma ConcludeWire(w: World, id: SteamId, batch: seq<Mail>, after: State)
    requires WireOk(w) && id in w.online
    ensures WireOk(Conclude(w, id, batch, after))
  {
    hide Granted;
  }

  lemma ConcludeSaved(w: World, v: World, x: SteamId)
    requires Base(w) && v.saved == w.saved && Includes(v.granted, w.granted) && x in v.saved
    ensures SavedOk(v, x)
  {
    assert SavedOk(w, x);
  }

  lemma ConcludeAtOwner(w: World, id: SteamId, batch: seq<Mail>, after: State)
    requires Base(w) && AtOwnerResult(w, id, after)
    ensures Base(Conclude(w, id, batch, after))
    ensures Includes(Conclude(w, id, batch, after).granted, w.granted)
  {
    hide WireOk, SessionOk, Granted, Includes;
    var v := Conclude(w, id, batch, after);
    OwnerGranted(w, id, v.leaves, after);
    ConcludeWire(w, id, batch, after);
    forall x | x in v.online ensures SessionOk(v, x) {
      OwnerSessions(w, id, v, after, x);
    }
    forall x | x in v.saved ensures SavedOk(v, x) {
      ConcludeSaved(w, v, x);
    }
  }

  lemma ProcessAtOwnerBase(w: World, id: SteamId, batch: seq<Mail>, call: Call)
    requires Inv(w) && Possible(w, Processes(id, batch, call)) && w.owner == id
    ensures Base(ProcessIn(w, id, batch, call))
    ensures Includes(ProcessIn(w, id, batch, call).granted, w.granted)
  {
    hide Process, Conclude, OwnerView, Good, Ready;
    var s := Facing(w, id, call);
    FacingFacts(w, id, call);
    ArrivesFromOthers(w, id, batch);
    OwnerCallView(s, batch);
    forall x | x in w.granted ensures x in Shown(Process(s, batch)) && Shown(Process(s, batch))[x] == w.granted[x] {
      GrantedStays(w, id, batch, call, x);
    }
    ConcludeAtOwner(w, id, batch, Process(s, batch));
  }

  /** Who is due after the owner's call. */
  lemma DueAfter(w: World, id: SteamId, batch: seq<Mail>, call: Call, x: SteamId)
    requires Base(w) && id in w.online && w.owner == id && x != id
    ensures Heeds(ProcessIn(w, id, batch, call), x) <==> Heeds(w, x) || Told(w, id, batch, call, x)
    ensures var after := Process(Facing(w, id, call), batch);
      after.m.local == id && x in ProcessIn(w, id, batch, call).granted ==>
        x in w.granted || (x in Shown(after) && x !in w.Published() && (x, id) !in Unread(w, id, batch)
            && x !in after.m.left)
  {
    hide Process, Welcomes, Accepts, Good;
    var s := Facing(w, id, call);
    FacingFacts(w, id, call);
    AcceptsExactly(s, batch, x);
  }

  /** The new state of affairs for x, in the terms of the call. */
  lemma StandsAfter(w: World, id: SteamId, batch: seq<Mail>, call: Call, x: SteamId)
    requires id in w.online && w.owner == id
    ensures var v, after := ProcessIn(w, id, batch, call), Process(Facing(w, id, call), batch);
      && v.owner == id && id in v.online && v.online[id] == after && v.Published() == Shown(after)
      && (Stands(v, x) <==> StandsIn(after.m, Shown(after), (x, id) in Unread(w, id, batch), x))
  {
    hide Process, Granted, Answered;
  }

  ghost function CaseOf(w: World, id: SteamId, batch: seq<Mail>, call: Call, x: SteamId): Case
    requires id in w.online
  {
    Case(x in w.granted, Heeds(w, x), Told(w, id, batch, call, x), (x, id) in w.leaves, (x, id) in Unread(w, id, batch))
  }

  lemma CaseFits(w: World, id: SteamId, batch: seq<Mail>, call: Call, x: SteamId)
    requires Inv(w) && Possible(w, Processes(id, batch, call)) && w.owner == id && x != id
    requires Active(Facing(w, id, call))
    ensures Fits(Facing(w, id, call), batch, x, CaseOf(w, id, batch, call, x))
  {
    hide Welcomes, Good, StandsIn, OwnerView, ActiveOf;
    FacingFacts(w, id, call);
    ArrivesFromOthers(w, id, batch);
    DueIsSilent(w, id, batch, x);
    if Due(w, x) {
      assert Stands(w, x);
    }
  }

  lemma FreshIs(w: World, id: SteamId, batch: seq<Mail>, call: Call, x: SteamId)
    requires id in w.online && w.owner == id && x != id && Facing(w, id, call).m.IsCoordinator()
    requires Fresh(w, id, batch, call)
    ensures var c := CaseOf(w, id, batch, call, x); FreshIn(Facing(w, id, call), batch, x, c.heeds, c.told, c.waitsOn)
  {
    hide Holds, Enrols, Welcomes;
  }

  lemma DueStands(w: World, id: SteamId, batch: seq<Mail>, call: Call, x: SteamId)
    requires Inv(w) && Possible(w, Processes(id, batch, call)) && w.owner == id && Fresh(w, id, batch, call)
    requires Active(Facing(w, id, call)) && x != id && Due(ProcessIn(w, id, batch, call), x)
    ensures var v := ProcessIn(w, id, batch, call); v.owner in v.online && Stands(v, x)
  {
    hide Process, ProcessIn, Fresh, StandsIn, Fits, FreshIn, Welcomes, OwnerView;
    var s := Facing(w, id, call);
    FacingFacts(w, id, call);
    ArrivesFromOthers(w, id, batch);
    StandsAfter(w, id, batch, call, x);
    CaseFits(w, id, batch, call, x);
    OwnerCallView(s, batch);
    DueAfter(w, id, batch, call, x);
    if s.m.IsCoordinator() {
      FreshIs(w, id, batch, call, x);
    }
    StandsNext(s, batch, x, CaseOf(w, id, batch, call, x));
  }

  lemma ProcessReady(w: World, id: SteamId, batch: seq<Mail>, call: Call)
    requires Inv(w) && Possible(w, Processes(id, batch, call)) && w.owner == id && Fresh(w, id, batch, call)
    ensures var v := ProcessIn(w, id, batch, call); v.owner in v.online && Ready(v)
  {
    hide Process, ProcessIn, Fresh, StandsIn, Fits, FreshIn, OwnerView;
    var s, v := Facing(w, id, call), ProcessIn(w, id, batch, call);
    StandsAfter(w, id, batch, call, id);
    FacingFacts(w, id, call);
    ArrivesFromOthers(w, id, batch);
    if !Active(s) {
      IdleCall(s, batch);
    } else {
      forall x | x != id && Due(v, x) ensures Stands(v, x) {
        DueStands(w, id, batch, call, x);
      }
    }
  }

  lemma UnfreshHeeds(s: State, batch: seq<Mail>, x: SteamId, c: Case)
    requires !FreshIn(s, batch, x, c.heeds, c.told, c.waitsOn)
    ensures c.heeds || c.told
  {
  }

  lemma OwnerCallActive(s: State, batch: seq<Mail>)
    requires OwnerView(s) && FromOthers(s.m, batch) && s.m.IsCoordinator()
    ensures Process(s, batch).m.Joined()
  {
    hide Process;
    OwnerCallView(s, batch);
  }

  lemma UnfreshFalls(w: World, id: SteamId, batch: seq<Mail>, call: Call, x: SteamId)
    requires Inv(w) && Possible(w, Processes(id, batch, call)) && w.owner == id && x != id
    requires Facing(w, id, call).m.IsCoordinator()
    requires var c := CaseOf(w, id, batch, call, x); !FreshIn(Facing(w, id, call), batch, x, c.heeds, c.told, c.waitsOn)
    ensures var v := ProcessIn(w, id, batch, call);
      v.owner == id && id in v.online && Due(v, x) && !Stands(v, x) && v.online[id].m.Joined()
  {
    hide Process, ProcessIn, StandsIn, Fits, FreshIn, Told, OwnerView, Base, Ready, Unread;
    var s := Facing(w, id, call);
    FacingFacts(w, id, call);
    ArrivesFromOthers(w, id, batch);
    StandsAfter(w, id, batch, call, x);
    CaseFits(w, id, batch, call, x);
    DueAfter(w, id, batch, call, x);
    FallsNext(s, batch, x, CaseOf(w, id, batch, call, x));
    UnfreshHeeds(s, batch, x, CaseOf(w, id, batch, call, x));
    OwnerCallActive(s, batch);
  }

  lemma ProcessUnready(w: World, id: SteamId, batch: seq<Mail>, call: Call)
    requires Inv(w) && Possible(w, Processes(id, batch, call)) && w.owner == id && !Fresh(w, id, batch, call)
    ensures var v := ProcessIn(w, id, batch, call); v.owner in v.online && !Ready(v)
  {
    hide Inv, Process, ProcessIn, Stands, FreshIn, Told, Unread, Arrives;
    var s := Facing(w, id, call);
    var x :| x in w.online && x != id
      && !FreshIn(s, batch, x, Heeds(w, x), Told(w, id, batch, call, x), (x, id) in Unread(w, id, batch));
    UnfreshFalls(w, id, batch, call, x);
  }

  // Entering the lobby

  lemma StartSync(id: SteamId, code: string, known: Roster, look: Look)
    requires IsId(id) && Valid(known) && (look.owner.Some? ==> look.owner.value != id)
    ensures var first := Start(id, code, known);
      var m := Sync(first, look.owner, look.text);
      && Good(m) && KeepsPlace(first, m) && m.local == id && m.known == known
      && (m.coordinator == 0 || Some(m.coordinator) == look.owner)
      && (known == map[] ==> m.trusted == {})
      && (!first.Joined() && m.Joined() ==> Decode(look.text) == Some(m.roster))
  {
    StartGood(id, code, known);
    SyncKeeps(Start(id, code, known), look.owner, look.text);
  }

  /** A world that only gains the session m of id. */
  ghost predicate Gains(w: World, id: SteamId, m: Member, v: World) {
    && w.owner in w.online && id !in w.online && id in v.online
    && v == w.(online := w.online[id := v.online[id]], granted := v.granted) && v.online[id].m == m
    && Includes(v.granted, w.granted) && v.granted.Keys <= w.granted.Keys + {id}
    && (id !in w.saved ==> m.trusted == {} && v.granted == w.granted)
    && (id in w.saved ==> id in w.granted)
  }

  lemma EnterMoves(w: World, id: SteamId, m: Member, v: World)
    requires WireOk(w) && Gains(w, id, m, v)
    ensures MovesElsewhere(w, v, id)
  {
  }

  lemma EnterSession(w: World, id: SteamId, known: Roster, code: string, look: Look)
    requires Base(w) && IsId(id) && look.text == w.text && (look.owner.Some? ==> look.owner.value != id)
    requires known == map[] || (id in w.saved && known == w.saved[id])
    ensures var m := Sync(Start(id, code, known), look.owner, look.text);
      var granted := w.granted + Own(m, w.Published());
      && Good(m) && m.local == id && (id in m.known ==> id in granted)
      && Includes(granted, w.granted) && Includes(w.Published(), granted) && granted.Keys <= w.granted.Keys + {id}
      && (m.Joined() ==> id in granted && granted[id] == m.roster[id])
      && (known == map[] ==> m.trusted == {} && granted == w.granted)
  {
    assert id in w.saved ==> SavedOk(w, id);
    var first := Start(id, code, known);
    StartSync(id, code, known, look);
    OwnKeeps(first, Sync(first, look.owner, look.text), w.Published(), w.granted);
  }

  lemma EnterKeeps(w: World, id: SteamId, fromSaved: bool, code: string, preferred: Option<Address>, call: Call)
    requires Base(w) && Possible(w, Enters(id, fromSaved, code, preferred, call))
    ensures var v := Enter(w, id, fromSaved, code, preferred, call);
      Base(v) && (Ready(w) ==> Ready(v)) && Includes(v.granted, w.granted)
  {
    hide Ready, Decode;
    var v := Enter(w, id, fromSaved, code, preferred, call);
    EnterSession(w, id, if fromSaved then w.saved[id] else map[], code, View(w, id, call));
    EnterMoves(w, id, v.online[id].m, v);
    ElsewhereKeeps(w, v, id);
  }

  // Going away

  /** id is gone from the lobby; its LEAVE, if it sent one, is on its way. */
  ghost predicate Departs(w: World, v: World, id: SteamId, announced: bool) {
    && id in w.online && v.online == w.online - {id}
    && (forall p :: p in v.leaves ==> (p in w.leaves && p.1 != id) || (announced && p.0 == id && p.1 in v.online))
    && (forall p :: p in v.answers ==> p in w.answers && p.1 != id)
    && v.saved == (if announced then w.saved - {id} else w.saved)
    && v.granted == (if announced then w.granted - {id} else w.granted)
    && Decode(v.text).Some? && Includes(v.Published(), v.granted)
    && (if w.owner == id then v.online.Keys != {} ==> v.owner in v.online else v.owner == w.owner && v.text == w.text)
  }

  lemma DepartsReady(w: World, v: World, id: SteamId, announced: bool)
    requires Base(w) && Departs(w, v, id, announced) && v.online.Keys != {} && w.owner != id && Ready(w)
    ensures v.owner in v.online && Ready(v)
  {
    hide StandsIn, ActiveOf, Decode, Includes, SessionOk, SavedOk;
    forall x | x != v.owner && Due(v, x) && ActiveOf(v.online[v.owner].m, v.Published()) ensures Stands(v, x) {
      assert Due(w, x) && Stands(w, x);
      StandsOn(w.online[w.owner].m, w.Published(), (x, w.owner) in w.leaves, (x, w.owner) in v.leaves, x);
    }
  }

  lemma DepartsSession(w: World, v: World, id: SteamId, announced: bool, x: SteamId)
    requires Base(w) && Departs(w, v, id, announced) && x in v.online
    ensures SessionOk(v, x)
  {
    assert SessionOk(w, x);
  }

  lemma DepartsWire(w: World, v: World, id: SteamId, announced: bool)
    requires Base(w) && Departs(w, v, id, announced)
    ensures WireOk(v) && (v.online.Keys != {} ==> v.owner in v.online)
  {
    hide SessionOk, SavedOk, Includes, Decode;
  }

  lemma DepartsKeeps(w: World, v: World, id: SteamId, announced: bool)
    requires Base(w) && Departs(w, v, id, announced)
    ensures Base(v)
  {
    hide SessionOk, WireOk;
    DepartsWire(w, v, id, announced);
    forall x | x in v.online ensures SessionOk(v, x) {
      DepartsSession(w, v, id, announced, x);
    }
    forall x | x in v.saved ensures SavedOk(v, x) {
      assert SavedOk(w, x);
    }
  }

  lemma OfflineDeparts(w: World, id: SteamId, heir: SteamId)
    requires Base(w) && Possible(w, GoesOffline(id, heir))
    ensures Departs(w, Without(w, id, heir), id, false)
  {
    hide SessionOk, SavedOk, WireOk, Decode, Includes;
  }

  /** Leaving takes out at most the one that leaves, and only the owner can do even that. */
  lemma AnnounceText(s: State)
    requires Good(s.m) && Decode(s.look.text).Some?
    ensures var text := AnnounceLeave(s).0.look.text;
      if s.look.writable && s.m.IsCoordinator() then Decode(text) == Some(s.m.roster - {s.m.local})
      else text == s.look.text
  {
    var roster := s.m.roster - {s.m.local};
    assert Valid(roster);
    DecodeInverse(roster);
  }

  /** All that is owed beside the owner's own address is in its roster when it coordinates. */
  lemma CoordinatorHas(w: World)
    requires Inv(w) && w.owner in w.online && w.online[w.owner].m.IsCoordinator()
    ensures forall x :: x in w.granted && x != w.owner ==>
      x in w.online[w.owner].m.roster && w.online[w.owner].m.roster[x] == w.granted[x]
  {
    hide Decode;
    assert SessionOk(w, w.owner);
    forall x | x in w.granted && x != w.owner
      ensures x in w.online[w.owner].m.roster && w.online[w.owner].m.roster[x] == w.granted[x]
    {
      assert Due(w, x) && Stands(w, x);
    }
  }

  lemma AnnounceDeparts(w: World, id: SteamId, told: set<SteamId>, call: Call, heir: SteamId)
    requires Inv(w) && Possible(w, Announces(id, told, call, heir))
    ensures Departs(w, Announce(w, id, told, call, heir), id, true)
  {
    hide SessionOk, SavedOk, WireOk, Decode, Good, Ready, AnnounceLeave;
    var s, v := Facing(w, id, call), Announce(w, id, told, call, heir);
    FacingFacts(w, id, call);
    AnnounceText(s);
    if w.owner == id && s.m.IsCoordinator() {
      CoordinatorHas(w);
    }
    assert Includes(v.Published(), v.granted);
  }

  // The rest

  lemma MoveKeeps(w: World, heir: SteamId)
    requires Base(w) && heir in w.online
    ensures Base(w.(owner := heir))
  {
    var v := w.(owner := heir);
    forall x | x in v.online ensures SessionOk(v, x) {
      assert SessionOk(w, x);
    }
    forall x | x in v.saved ensures SavedOk(v, x) {
      assert SavedOk(w, x);
    }
  }

  /** Nothing but what is on disk, on its way or on hold changes. */
  ghost predicate Marginal(w: World, v: World) {
    && v.owner == w.owner && v.text == w.text && v.granted == w.granted
    && v.leaves <= w.leaves && v.answers <= w.answers
    && v.online.Keys == w.online.Keys
    && (forall x :: x in w.online ==> v.online[x].m == w.online[x].m.(suspended := v.online[x].m.suspended))
    && (forall x :: x in v.saved ==>
          (x in w.saved && v.saved[x] == w.saved[x]) ||
          (x in w.online && w.online[x].m.Joined() && v.saved[x] == w.online[x].m.roster))
  }

  lemma MarginalReady(w: World, v: World)
    requires Marginal(w, v) && w.owner in w.online && Ready(w)
    ensures v.owner in v.online && Ready(v)
  {
    hide Decode;
    forall x | x != v.owner && Due(v, x) && ActiveOf(v.online[v.owner].m, v.Published()) ensures Stands(v, x) {
      assert Due(w, x) && Stands(w, x);
    }
  }

  lemma MarginalSaved(w: World, v: World, x: SteamId)
    requires Base(w) && Marginal(w, v) && x in v.saved
    ensures SavedOk(v, x)
  {
    hide Decode;
    if x in w.online {
      assert SessionOk(w, x);
    }
    assert x in w.saved ==> SavedOk(w, x);
  }

  lemma MarginalKeeps(w: World, v: World)
    requires Base(w) && Marginal(w, v)
    ensures Base(v) && (w.online.Keys != {} && Ready(w) ==> Ready(v))
  {
    hide Ready, SavedOk, Decode;
    forall x | x in v.online ensures SessionOk(v, x) {
      assert SessionOk(w, x);
    }
    forall x | x in v.saved ensures SavedOk(v, x) {
      MarginalSaved(w, v, x);
    }
    if w.online.Keys != {} && Ready(w) {
      MarginalReady(w, v);
    }
  }

  lemma PauseIs(w: World, id: SteamId, suspended: bool)
    requires id in w.online
    ensures var v := Pause(w, id, suspended);
      v == w.(online := w.online[id := v.online[id]]) && v.online[id].m == w.online[id].m.(suspended := suspended)
  {
  }

  /** The steps that touch neither the owner nor the roster. */
  lemma MarginalStep(w: World, step: WorldStep)
    requires Possible(w, step) && (step.Saves? || step.Forgets? || step.Pauses? || step.Loses?)
    ensures Marginal(w, Next(w, step))
  {
    hide Pause, Decode;
    if step.Pauses? {
      PauseIs(w, step.id, step.suspended);
    }
  }

  /** Whatever happens, harmless or not: what doesn't depend on the owner holds. */
  lemma NextBase(w: World, step: WorldStep)
    requires Inv(w) && Possible(w, step)
    ensures Base(Next(w, step))
  {
    hide Base, Ready, Granted, Pause, Enter, ProcessIn, Without, Announce;
    match step
    case Enters(id, fromSaved, code, preferred, call) => EnterKeeps(w, id, fromSaved, code, preferred, call);
    case Processes(id, batch, call) =>
      if w.owner == id {
        ProcessAtOwnerBase(w, id, batch, call);
      } else {
        ProcessElsewhereKeeps(w, id, batch, call);
      }
    case Announces(id, told, call, heir) =>
      AnnounceDeparts(w, id, told, call, heir);
      DepartsKeeps(w, Announce(w, id, told, call, heir), id, true);
    case GoesOffline(id, heir) =>
      OfflineDeparts(w, id, heir);
      DepartsKeeps(w, Without(w, id, heir), id, false);
    case Moves(heir) => MoveKeeps(w, heir);
    case _ =>
      MarginalStep(w, step);
      MarginalKeeps(w, Next(w, step));
  }

  /** Exactly the harmless steps leave an owner that can be one. */
  lemma NextReady(w: World, step: WorldStep)
    requires Inv(w) && Possible(w, step) && Next(w, step).online.Keys != {} && Base(Next(w, step))
    ensures Harmless(w, step) <==> Ready(Next(w, step))
  {
    hide Base, Ready, Granted, Pause, Enter, ProcessIn, Without, Announce, Fresh;
    match step
    case Enters(id, fromSaved, code, preferred, call) => EnterKeeps(w, id, fromSaved, code, preferred, call);
    case Processes(id, batch, call) =>
      if w.owner != id {
        ProcessElsewhereKeeps(w, id, batch, call);
      } else if Fresh(w, id, batch, call) {
        ProcessReady(w, id, batch, call);
      } else {
        ProcessUnready(w, id, batch, call);
      }
    case Announces(id, told, call, heir) =>
      AnnounceDeparts(w, id, told, call, heir);
      if w.owner != id {
        DepartsReady(w, Announce(w, id, told, call, heir), id, true);
      }
    case GoesOffline(id, heir) =>
      OfflineDeparts(w, id, heir);
      if w.owner != id {
        DepartsReady(w, Without(w, id, heir), id, false);
      }
    case Moves(heir) =>
    case _ =>
      MarginalStep(w, step);
      MarginalKeeps(w, Next(w, step));
  }

  lemma NextKeeps(w: World, step: WorldStep)
    requires Inv(w) && Enabled(w, step)
    ensures Inv(Next(w, step))
  {
    hide Base, Ready, Harmless, Possible, Next;
    NextBase(w, step);
    if Next(w, step).online.Keys != {} {
      NextReady(w, step);
    }
  }

  // The first state

  /** A call by a coordinator that reads no messages. */
  lemma QuietOwner(s: State)
    requires s.m.IsCoordinator() && s.look.owner == Some(s.m.local) && !s.m.suspended
    ensures Process(s, []) == Act(s)
  {
    hide Act;
    ProcessSplit(s, []);
    assert Run(s, Deliveries([])) == s;
    assert Step(s, Syncs) == s;
  }

  lemma ActFailures(s: State)
    requires s.m.IsCoordinator()
    ensures Act(s).book.failures == s.book.failures
  {
  }

  /** The creator's first call publishes itself. */
  lemma FirstCall(s: State)
    requires Good(s.m) && s.m.Joined() && s.look == Look(Some(s.m.local), "", true, 0.0, {}, {})
    requires s.m.coordinator == s.m.local && s.m.left == {} && !s.m.suspended
    ensures var after := Process(s, []);
      after.m == s.m && Decode(after.look.text) == Some(s.m.roster) && after.book.failures == s.book.failures
  {
    hide Good, Decode, Process, Act;
    QuietOwner(s);
    CoordinatePublishes(s);
    assert s.m.roster - Leaving(s.m) == s.m.roster;
    ActFailures(s);
  }

  lemma CreatedIs(id: SteamId, code: string)
    requires IsId(id)
    ensures var w, first: Roster := Created(id, code), map[id := FIRST_HOST];
      && w.owner == id && w.online.Keys == {id} && w.leaves == {} && w.answers == {} && w.saved == map[]
      && w.granted == first && Decode(w.text) == Some(first) && w.online[id].book.failures == map[]
      && w.online[id].m == Start(id, code, first).(coordinator := id) && Good(w.online[id].m)
  {
    var first: Roster := map[id := FIRST_HOST];
    var look := Look(Some(id), "", true, 0.0, {}, {});
    assert first.Keys == {id};
    StartGood(id, code, first);
    var s := State(Sync(Start(id, code, first), Some(id), ""), EmptyBook(None), look, multiset{}, []);
    assert s.m == Start(id, code, first).(coordinator := id);
    FirstCall(s);
  }

  lemma CreatedGood(m: Member)
    requires Good(m)
    ensures IsId(m.local) && Valid(m.known) && Valid(m.roster)
  {
  }

  /** Nobody else is due in a lobby of one. */
  lemma AloneReady(w: World)
    requires w.online.Keys == {w.owner} && w.granted.Keys <= {w.owner}
    ensures Ready(w)
  {
    hide StandsIn, ActiveOf, Decode;
  }

  lemma CreatedKeeps(id: SteamId, code: string)
    requires IsId(id)
    ensures Inv(Created(id, code))
  {
    hide Created, Good, Ready;
    CreatedIs(id, code);
    CreatedGood(Created(id, code).online[id].m);
    AloneReady(Created(id, code));
  }

  // Whole runs

  ghost predicate Leads(w: World, step: WorldStep, next: World) {
    Enabled(w, step) && next == Next(w, step)
  }

  /** A run: from each world to the next by an enabled step. */
  ghost predicate IsRun(worlds: seq<World>, steps: seq<WorldStep>) {
    && |worlds| == |steps| + 1
    && forall i :: 0 <= i < |steps| ==> Leads(worlds[i], steps[i], worlds[i + 1])
  }

  lemma Extend(worlds: seq<World>, steps: seq<WorldStep>, step: WorldStep, next: World)
    returns (longer: seq<World>, more: seq<WorldStep>)
    requires IsRun(worlds, steps) && Leads(worlds[|steps|], step, next)
    ensures IsRun(longer, more) && longer[0] == worlds[0] && longer[|more|] == next
  {
    hide Leads;
    longer, more := worlds + [next], steps + [step];
    assert longer[..|worlds|] == worlds && more[..|steps|] == steps;
    forall i | 0 <= i < |more| ensures Leads(longer[i], more[i], longer[i + 1]) {
      if i < |steps| {
        assert Leads(worlds[i], steps[i], worlds[i + 1]);
      }
    }
  }

  lemma JoinRuns(worlds: seq<World>, steps: seq<WorldStep>, rest: seq<World>, more: seq<WorldStep>)
    returns (whole: seq<World>, all: seq<WorldStep>)
    requires IsRun(worlds, steps) && IsRun(rest, more) && worlds[|steps|] == rest[0]
    ensures IsRun(whole, all) && whole[0] == worlds[0] && whole[|all|] == rest[|more|]
  {
    hide Leads;
    whole, all := worlds + rest[1..], steps + more;
    forall i | 0 <= i < |all| ensures Leads(whole[i], all[i], whole[i + 1]) {
      if i < |steps| {
        assert Leads(worlds[i], steps[i], worlds[i + 1]);
      } else {
        var j := i - |steps|;
        assert Leads(rest[j], more[j], rest[j + 1]);
        assert whole[i] == rest[j];
      }
    }
  }

  /** What the protocol is for. */
  ghost predicate Safe(w: World) {
    && Decode(w.text).Some? && Valid(w.Published())
    && (forall x :: x in w.online && w.online[x].m.Joined() ==>
          x in w.Published() && w.online[x].m.roster[w.online[x].m.local] == w.Published()[x])
    && (forall x, y :: x in w.online && y in w.online && x != y && w.online[x].m.Joined() && w.online[y].m.Joined() ==>
          w.online[x].m.roster[w.online[x].m.local] != w.online[y].m.roster[w.online[y].m.local])
    && Includes(w.Published(), w.granted)
  }

  lemma BaseSafe(w: World)
    requires Base(w)
    ensures Safe(w)
  {
    DecodeValid(w.text);
    forall x | x in w.online && w.online[x].m.Joined()
      ensures x in w.Published() && w.online[x].m.roster[w.online[x].m.local] == w.Published()[x]
    {
      assert SessionOk(w, x);
    }
  }

  lemma LeadsKeeps(w: World, step: WorldStep, v: World)
    requires Inv(w) && Leads(w, step, v)
    ensures Inv(v)
  {
    NextKeeps(w, step);
  }

  lemma {:induction false} RunInv(worlds: seq<World>, steps: seq<WorldStep>, k: nat)
    requires IsRun(worlds, steps) && Inv(worlds[0]) && k < |worlds|
    ensures Inv(worlds[k])
  {
    hide Inv, Leads;
    if k > 0 {
      RunInv(worlds, steps, k - 1);
      LeadsKeeps(worlds[k - 1], steps[k - 1], worlds[k]);
    }
  }

  /** Global safety: in every state of every run from a network's creation, the published
      roster is one-to-one, every joined session's own address is its published entry, no
      two joined sessions share an address, and every address that is owed is published. */
  lemma RosterSafety(creator: SteamId, code: string, worlds: seq<World>, steps: seq<WorldStep>, k: nat)
    requires IsId(creator) && IsRun(worlds, steps) && worlds[0] == Created(creator, code) && k < |worlds|
    ensures Safe(worlds[k])
  {
    CreatedKeeps(creator, code);
    RunInv(worlds, steps, k);
    BaseSafe(worlds[k]);
  }

  lemma NextGranted(w: World, step: WorldStep, v: World, x: SteamId)
    requires Inv(w) && Leads(w, step, v) && x in w.granted
    requires !(step.Announces? && step.id == x)
    ensures x in v.granted && v.granted[x] == w.granted[x]
  {
    hide Base, Ready, ProcessIn, Enter, Harmless, AnnounceLeave;
    match step
    case Processes(id, batch, call) =>
      if w.owner == id {
        ProcessAtOwnerBase(w, id, batch, call);
      } else {
        ProcessElsewhereKeeps(w, id, batch, call);
      }
    case Enters(id, fromSaved, code, preferred, call) => EnterKeeps(w, id, fromSaved, code, preferred, call);
    case Announces(id, told, call, heir) =>
    case GoesOffline(id, heir) =>
    case Saves(id) =>
    case Forgets(id) =>
    case Pauses(id, suspended) =>
    case Moves(heir) =>
    case Loses(leave) =>
  }

  lemma OwedIsPublished(w: World, x: SteamId)
    requires Inv(w) && x in w.granted
    ensures x in w.Published() && w.Published()[x] == w.granted[x]
  {
  }

  /** Once an address is owed to a member, it stays published for it, whether it is online
      or not, in every later state until that member announces leaving. */
  lemma {:induction false} StaysUntilLeave(worlds: seq<World>, steps: seq<WorldStep>, x: SteamId, i: nat, k: nat)
    requires IsRun(worlds, steps) && Inv(worlds[0]) && i <= k < |worlds|
    requires x in worlds[i].granted
    requires forall j :: i <= j < k ==> !(steps[j].Announces? && steps[j].id == x)
    ensures x in worlds[k].granted && worlds[k].granted[x] == worlds[i].granted[x]
    ensures x in worlds[k].Published() && worlds[k].Published()[x] == worlds[i].granted[x]
    decreases k
  {
    if i < k {
      StaysUntilLeave(worlds, steps, x, i, k - 1);
      RunInv(worlds, steps, k - 1);
      NextGranted(worlds[k - 1], steps[k - 1], worlds[k], x);
    }
    RunInv(worlds, steps, k);
    OwedIsPublished(worlds[k], x);
  }

  // Exactly when everything stays safe

  /** Whatever the network does from here on, it stays safe. */
  ghost predicate StaysSafe(w: World) {
    forall worlds: seq<World>, steps: seq<WorldStep> :: IsRun(worlds, steps) && worlds[0] == w ==> Safe(worlds[|steps|])
  }

  const QuietCall := Call(true, 0.0, {})

  lemma NothingEnrols(s: State)
    ensures forall x :: !Enrols(s, [], x)
  {
  }

  /** An owner that will write makes a call without messages: it publishes the roster ahead. */
  lemma QuietCoordinates(s: State)
    requires OwnerView(s) && Active(s) && !s.m.suspended && s.look.owner.Some?
    ensures Coordinated(s, Process(s, []))
  {
    hide Active, Ahead, OwnerView;
    OwnerCall(s, []);
    assert Run(s, Deliveries([])) == s;
  }

  /** Nothing changes that matters to x but x itself. */
  ghost predicate Frames(w: World, v: World, x: SteamId) {
    && v.owner == w.owner && v.text == w.text && v.online.Keys == w.online.Keys
    && (forall y :: y in w.online && y != x ==> v.online[y] == w.online[y])
    && w.answers <= v.answers && v.leaves <= w.leaves && (forall p :: p in w.leaves && p.1 != x ==> p in v.leaves)
  }

  lemma ConcludeFrames(w: World, id: SteamId, batch: seq<Mail>, after: State)
    requires id in w.online && after.look.text == w.text
    ensures Frames(w, Conclude(w, id, batch, after), id) && Conclude(w, id, batch, after).online[id] == after
    ensures after.m.Joined() && after.m.local in w.Published() ==>
      after.m.local in Conclude(w, id, batch, after).granted
  {
    hide Decode;
    GrantedElsewhere(w, id, Unread(w, id, batch), after);
  }

  lemma PauseFrames(w: World, id: SteamId)
    requires Base(w) && id in w.online
    ensures var v := Pause(w, id, false);
      && Leads(w, Pauses(id, false), v) && Base(v) && Frames(w, v, id)
      && v.granted == w.granted && v.saved == w.saved && v.leaves == w.leaves
      && v.online[id].m == w.online[id].m.(suspended := false)
  {
    hide Base, Pause, Ready;
    PauseIs(w, id, false);
    MarginalStep(w, Pauses(id, false));
    MarginalKeeps(w, Pause(w, id, false));
  }

  // A session that heeds the owner joins

  lemma TakesNothing(m: Member, text: string, writer: SteamId)
    requires writer !in m.trusted
    ensures TakeRoster(m, text, writer) == m
  {
  }

  /** A session that isn't joined sees the lobby. */
  lemma SeesOwner(s: State, o: SteamId)
    requires Good(s.m) && !s.m.Joined() && !s.m.suspended && s.look.owner == Some(o) && o != s.m.local
    requires Decode(s.look.text).Some? && s.m.local in Shown(s)
    ensures var after := Process(s, []);
      && after.look.text == s.look.text && after.m.local == s.m.local
      && (if o in s.m.trusted then after.m.Joined() else after.m == s.m.(coordinator := o))
  {
    hide Decode, TakeRoster, Act;
    ProcessSplit(s, []);
    assert Run(s, Deliveries([])) == s;
    DecodeEmpty();
    var now := s.m.(coordinator := o);
    if o in s.m.trusted {
      TakeMarks(now, s.look.text, o);
    } else {
      TakesNothing(now, s.look.text, o);
    }
    SameText(Step(s, Syncs));
  }

  lemma HearsAccepted(s: State, o: SteamId, code: string)
    requires s.m.coordinator == o && !s.m.IsCoordinator()
    ensures Run(s, Deliveries([Mail(o, Access.Accepted(code))])) ==
      s.(m := s.m.(trusted := s.m.trusted + {o}, code := code))
  {
    var batch := [Mail(o, Access.Accepted(code))];
    assert Deliveries(batch) == [Received(o, Access.Accepted(code))];
    assert Deliveries(batch)[1..] == [];
  }

  /** Once the owner has accepted it, it takes the published roster. */
  lemma TakesPublished(s: State, o: SteamId, code: string)
    requires Good(s.m) && !s.m.Joined() && !s.m.suspended && s.m.coordinator == o && IsId(o)
    requires s.look.owner == Some(o) && o != s.m.local
    requires Decode(s.look.text).Some? && s.m.local in Shown(s)
    ensures var after := Process(s, [Mail(o, Access.Accepted(code))]);
      after.m.Joined() && after.m.local == s.m.local && after.look.text == s.look.text
  {
    hide Decode, Process;
    var read := s.(m := s.m.(trusted := s.m.trusted + {o}, code := code));
    ProcessSplit(s, [Mail(o, Access.Accepted(code))]);
    HearsAccepted(s, o, code);
    assert read.m.roster.Keys <= read.m.trusted && 0 !in read.m.trusted;
    SeesOwner(read, o);
    ProcessSplit(read, []);
    assert Run(read, Deliveries([])) == read;
  }

  lemma QuietElsewhere(w: World, x: SteamId, batch: seq<Mail>)
    requires Base(w) && x in w.online && x != w.owner && (forall i :: 0 <= i < |batch| ==> Arrives(w, x, batch[i]))
    ensures var v := ProcessIn(w, x, batch, QuietCall);
      Leads(w, Processes(x, batch, QuietCall), v) && Base(v) && Includes(v.granted, w.granted)
  {
    hide Base, ProcessIn, Ready;
    ProcessElsewhereKeeps(w, x, batch, QuietCall);
  }

  /** x is about to join: it heeds the owner that publishes it. */
  ghost predicate Joins(w: World, x: SteamId) {
    && Base(w) && Heeds(w, x) && x in w.Published() && x !in w.granted
  }

  lemma JoinerIs(w: World, x: SteamId)
    requires Joins(w, x)
    ensures x in w.online && w.owner in w.online && x != w.owner && IsId(w.owner)
    ensures var m := w.online[x].m; Good(m) && m.local == x && !m.Joined()
  {
    assert SessionOk(w, x) && SessionOk(w, w.owner);
  }

  lemma BaseDecodes(w: World)
    requires Base(w)
    ensures Decode(w.text).Some?
  {
  }

  lemma JoinerSees(w: World, x: SteamId)
    requires Joins(w, x) && x in w.online && !w.online[x].m.suspended
    ensures var v := ProcessIn(w, x, [], QuietCall);
      && Leads(w, Processes(x, [], QuietCall), v) && Base(v) && Frames(w, v, x) && Includes(v.granted, w.granted)
      && (x in v.granted || (Joins(v, x) && (w.owner, x) in v.answers && x in v.online
          && !v.online[x].m.suspended && v.online[x].m.coordinator == w.owner))
  {
    hide Process, Decode, Good, Base, Conclude;
    JoinerIs(w, x);
    var s := Facing(w, x, QuietCall);
    FacingFacts(w, x, QuietCall);
    BaseDecodes(w);
    SeesOwner(s, w.owner);
    ConcludeFrames(w, x, [], Process(s, []));
    QuietElsewhere(w, x, []);
  }

  lemma JoinerTakes(w: World, x: SteamId)
    requires Joins(w, x) && (w.owner, x) in w.answers && x in w.online
    requires !w.online[x].m.suspended && w.online[x].m.coordinator == w.owner
    ensures var batch := [Mail(w.owner, Access.Accepted(""))];
      var v := ProcessIn(w, x, batch, QuietCall);
      && Leads(w, Processes(x, batch, QuietCall), v) && Base(v) && Frames(w, v, x) && Includes(v.granted, w.granted)
      && x in v.granted
  {
    hide Process, Decode, Good, Base, Conclude;
    JoinerIs(w, x);
    var s, batch := Facing(w, x, QuietCall), [Mail(w.owner, Access.Accepted(""))];
    FacingFacts(w, x, QuietCall);
    BaseDecodes(w);
    TakesPublished(s, w.owner, "");
    ConcludeFrames(w, x, batch, Process(s, batch));
    assert Arrives(w, x, batch[0]);
    QuietElsewhere(w, x, batch);
  }

  /** x joins, and nothing else changes that matters to it. */
  lemma JoinerJoins(w: World, x: SteamId) returns (worlds: seq<World>, steps: seq<WorldStep>)
    requires Joins(w, x)
    ensures IsRun(worlds, steps) && worlds[0] == w
    ensures var v := worlds[|steps|]; Base(v) && Frames(w, v, x) && x in v.granted
  {
    hide Base, Leads, Pause, ProcessIn, Decode, Good;
    JoinerIs(w, x);
    worlds, steps := [w], [];
    PauseFrames(w, x);
    var w1 := Pause(w, x, false);
    worlds, steps := Extend(worlds, steps, Pauses(x, false), w1);
    JoinerSees(w1, x);
    var w2 := ProcessIn(w1, x, [], QuietCall);
    worlds, steps := Extend(worlds, steps, Processes(x, [], QuietCall), w2);
    if x !in w2.granted {
      JoinerTakes(w2, x);
      var batch := [Mail(w2.owner, Access.Accepted(""))];
      worlds, steps := Extend(worlds, steps, Processes(x, batch, QuietCall), ProcessIn(w2, x, batch, QuietCall));
    }
  }

  // An owner that isn't ready

  /** The owner will write and is off hold. */
  ghost predicate Writes(w: World) {
    Base(w) && w.owner in w.online && ActiveOf(w.online[w.owner].m, w.Published()) && !w.online[w.owner].m.suspended
  }

  /** What the owner's quiet call makes of the world. */
  ghost predicate Republished(w: World, v: World)
    requires w.owner in w.online
  {
    var m := w.online[w.owner].m;
    && v.owner == w.owner && v.online.Keys == w.online.Keys && v.leaves == w.leaves && w.answers <= v.answers
    && (forall y :: y in w.online && y != w.owner ==> v.online[y] == w.online[y])
    && (forall x :: x in w.granted && x != w.owner ==> x in v.granted && v.granted[x] == w.granted[x])
    && var n := v.online[w.owner].m;
       && n.IsCoordinator() && !n.suspended && v.Published() == n.roster && n.local == w.owner
       && (forall x :: x in n.roster <==> x in AheadOf(m, w.Published()) && (x == w.owner || !Marked(m, x)))
       && (forall x :: x in n.roster ==> n.roster[x] == AheadOf(m, w.Published())[x])
       && (forall x :: x != w.owner ==> !Marked(n, x))
  }

  lemma QuietAllowed(w: World)
    requires w.owner in w.online && !w.online[w.owner].m.suspended
    ensures Enabled(w, Processes(w.owner, [], QuietCall))
    ensures Next(w, Processes(w.owner, [], QuietCall)) == ProcessIn(w, w.owner, [], QuietCall)
  {
    NothingEnrols(Facing(w, w.owner, QuietCall));
  }

  lemma GrantedBefore(w: World, id: SteamId, leaves: set<(SteamId, SteamId)>, after: State, x: SteamId)
    requires x in w.granted && x in w.Published() && x != after.m.local
    ensures x in Granted(w, id, leaves, after) && Granted(w, id, leaves, after)[x] == w.granted[x]
  {
  }

  lemma SyncHold(m: Member, owner: Option<SteamId>, text: string)
    ensures Sync(m, owner, text).suspended == m.suspended
  {
    hide Decode;
  }

  lemma QuietHold(s: State)
    ensures Process(s, []).m.suspended == s.m.suspended
  {
    hide Sync, Act;
    assert Run(s, Deliveries([])) == s;
    ProcessSplit(s, []);
    SyncHold(s.m, s.look.owner, s.look.text);
    ActSplit(Step(s, Syncs));
  }

  lemma OwnerRepublishes(w: World)
    requires Writes(w)
    ensures var v := ProcessIn(w, w.owner, [], QuietCall);
      && Leads(w, Processes(w.owner, [], QuietCall), v) && Republished(w, v)
      && v.online[w.owner] == Process(Facing(w, w.owner, QuietCall), [])
      && OwnerView(v.online[w.owner]) && Shown(v.online[w.owner]) == v.Published()
  {
    hide Process, Granted, Decode, Good, ActiveOf, AheadOf, SessionOk, SavedOk, WireOk;
    var o := w.owner;
    var s, after := Facing(w, o, QuietCall), Process(Facing(w, o, QuietCall), []);
    FacingFacts(w, o, QuietCall);
    QuietAllowed(w);
    QuietCoordinates(s);
    QuietHold(s);
    assert Unread(w, o, []) == w.leaves;
    forall x | x in w.granted && x != o
      ensures x in Granted(w, o, w.leaves, after) && Granted(w, o, w.leaves, after)[x] == w.granted[x]
    {
      GrantedBefore(w, o, w.leaves, after, x);
    }
  }

  /** Whom the owner's quiet call doesn't publish although it is owed its address. */
  lemma NotPublished(w: World, v: World, x: SteamId)
    requires x in w.granted && x in v.granted && v.granted[x] == w.granted[x]
    requires !(x in v.Published() && v.Published()[x] == w.granted[x])
    ensures !Safe(v)
  {
  }

  lemma LeaveEnrols(s: State, x: SteamId)
    ensures forall y :: !Enrols(s, [Mail(x, Access.Leave)], y)
  {
    assert [Mail(x, Access.Leave)][1..] == [];
  }

  lemma FacingView(v: World)
    requires v.owner in v.online && OwnerView(v.online[v.owner]) && Shown(v.online[v.owner]) == v.Published()
    requires v.online[v.owner].m.local == v.owner && Decode(v.text).Some?
    ensures OwnerView(Facing(v, v.owner, QuietCall)) && Good(v.online[v.owner].m)
  {
    hide Good, Decode;
  }

  lemma LeaveAllowed(v: World, x: SteamId)
    requires v.owner in v.online && Good(v.online[v.owner].m) && x != v.owner && (x, v.owner) in v.leaves
    requires !v.online[v.owner].m.suspended && x in v.online[v.owner].m.roster
    ensures var batch := [Mail(x, Access.Leave)];
      Leads(v, Processes(v.owner, batch, QuietCall), ProcessIn(v, v.owner, batch, QuietCall))
  {
    hide Process, Conclude, Good;
    MemberIsId(v.online[v.owner].m, x);
    LeaveEnrols(Facing(v, v.owner, QuietCall), x);
    assert Arrives(v, v.owner, [Mail(x, Access.Leave)][0]);
  }

  lemma LeaveTakesOut(s: State, x: SteamId)
    requires OwnerView(s) && s.m.IsCoordinator() && !s.m.suspended && x in s.m.roster && x != s.m.local
    ensures var after := Process(s, [Mail(x, Access.Leave)]);
      x !in Shown(after) && after.m.local == s.m.local
  {
    hide Process, Decode, Good;
    var batch := [Mail(x, Access.Leave)];
    GoodView(s);
    MemberIsId(s.m, x);
    assert batch[0] == Mail(x, Access.Leave) && SaysLeave(batch, x);
    OwnerCall(s, batch);
    GoingExactly(s, batch, x);
    ReadPlace(s, batch);
  }

  /** The owner reads the LEAVE of somebody it publishes. */
  lemma LeaverIsTakenOut(v: World, x: SteamId)
    requires v.owner in v.online && OwnerView(v.online[v.owner]) && Shown(v.online[v.owner]) == v.Published()
    requires var n := v.online[v.owner].m; n.IsCoordinator() && !n.suspended && x in n.roster && n.local == v.owner
    requires x != v.owner && x in v.granted && x in v.Published() && (x, v.owner) in v.leaves && Decode(v.text).Some?
    ensures var batch := [Mail(x, Access.Leave)];
      var u := ProcessIn(v, v.owner, batch, QuietCall);
      Leads(v, Processes(v.owner, batch, QuietCall), u) && !Safe(u)
  {
    hide Process, Granted, Decode, Good, Safe, OwnerView, Harmless, Active;
    var o, batch := v.owner, [Mail(x, Access.Leave)];
    var s := Facing(v, o, QuietCall);
    FacingView(v);
    LeaveAllowed(v, x);
    LeaveTakesOut(s, x);
    GrantedBefore(v, o, Unread(v, o, batch), Process(s, batch), x);
    NotPublished(v, ProcessIn(v, o, batch, QuietCall), x);
  }

  lemma HoldSame(m: Member, published: Roster, waits: bool, x: SteamId)
    ensures StandsIn(m.(suspended := false), published, waits, x) <==> StandsIn(m, published, waits, x)
    ensures ActiveOf(m.(suspended := false), published) <==> ActiveOf(m, published)
  {
  }

  lemma AwakeSame(w: World, v: World, x: SteamId)
    requires Base(w) && w.owner in w.online && Frames(w, v, w.owner) && v.leaves == w.leaves
    requires v.online[w.owner].m == w.online[w.owner].m.(suspended := false)
    ensures Stands(v, x) <==> Stands(w, x)
    ensures ActiveOf(v.online[v.owner].m, v.Published()) <==> ActiveOf(w.online[w.owner].m, w.Published())
  {
    hide StandsIn, ActiveOf, Decode, Base;
    HoldSame(w.online[w.owner].m, w.Published(), (x, w.owner) in w.leaves, x);
  }

  /** Somebody is owed its address and doesn't stand: it loses it. */
  lemma OwedBreaks(w: World, x: SteamId) returns (worlds: seq<World>, steps: seq<WorldStep>)
    requires Base(w) && w.owner in w.online && ActiveOf(w.online[w.owner].m, w.Published())
    requires x in w.granted && x != w.owner && !Stands(w, x)
    ensures IsRun(worlds, steps) && worlds[0] == w && !Safe(worlds[|steps|])
  {
    hide Leads, Pause, ProcessIn, Safe, OwnerView, Decode, SessionOk, SavedOk, WireOk;
    var o := w.owner;
    worlds, steps := [w], [];
    PauseFrames(w, o);
    var w1 := Pause(w, o, false);
    worlds, steps := Extend(worlds, steps, Pauses(o, false), w1);
    AwakeSame(w, w1, x);
    OwnerRepublishes(w1);
    var w2 := ProcessIn(w1, o, [], QuietCall);
    worlds, steps := Extend(worlds, steps, Processes(o, [], QuietCall), w2);
    if x in w2.Published() && w2.Published()[x] == w1.granted[x] {
      LeaverIsTakenOut(w2, x);
      var batch := [Mail(x, Access.Leave)];
      worlds, steps := Extend(worlds, steps, Processes(o, batch, QuietCall), ProcessIn(w2, o, batch, QuietCall));
    } else {
      NotPublished(w1, w2, x);
    }
  }

  /** Somebody that heeds the owner and is published doesn't stand: it joins first. */
  lemma HeedingBreaks(w: World, x: SteamId) returns (worlds: seq<World>, steps: seq<WorldStep>)
    requires Base(w) && w.owner in w.online && ActiveOf(w.online[w.owner].m, w.Published())
    requires Due(w, x) && x in w.Published() && x != w.owner && !Stands(w, x)
    ensures IsRun(worlds, steps) && worlds[0] == w && !Safe(worlds[|steps|])
  {
    hide Base, Leads, Safe, StandsIn, ActiveOf;
    if x in w.granted {
      worlds, steps := OwedBreaks(w, x);
    } else {
      worlds, steps := JoinerJoins(w, x);
      var v := worlds[|steps|];
      assert (x, w.owner) in v.leaves <==> (x, w.owner) in w.leaves;
      var rest, more := OwedBreaks(v, x);
      worlds, steps := JoinRuns(worlds, steps, rest, more);
    }
  }

  lemma Coordinates(m: Member, published: Roster)
    requires m.IsCoordinator()
    ensures ActiveOf(m, published)
  {
  }

  lemma RepublishedGranted(w: World, v: World, shown: Roster)
    requires Base(w) && w.owner in w.online && Republished(w, v) && Safe(v) && shown == v.Published()
    requires w.owner in w.granted ==> w.owner in shown && shown[w.owner] == w.granted[w.owner]
    ensures Includes(shown, w.granted)
  {
    hide Decode, SessionOk, SavedOk, WireOk, AheadOf;
    forall x | x in w.granted ensures x in shown && shown[x] == w.granted[x] {
      if x != w.owner {
        assert x in v.granted && v.granted[x] == w.granted[x];
      }
    }
  }

  lemma RepublishedBase(w: World)
    requires Writes(w) && Safe(ProcessIn(w, w.owner, [], QuietCall))
    ensures Base(ProcessIn(w, w.owner, [], QuietCall))
  {
    hide Process, Granted, Decode, Good, ActiveOf, AheadOf, SessionOk, SavedOk, WireOk, Conclude, Republished, Safe;
    var o := w.owner;
    var s, v := Facing(w, o, QuietCall), ProcessIn(w, o, [], QuietCall);
    FacingFacts(w, o, QuietCall);
    OwnerRepublishes(w);
    OwnerCallView(s, []);
    if o in w.granted {
      OwnStays(s, []);
    }
    RepublishedGranted(w, v, Shown(Process(s, [])));
    ConcludeAtOwner(w, o, [], Process(s, []));
  }

  /** The same if it isn't published yet but will be, with its LEAVE still on its way. */
  lemma UnlistedBreaks(w: World, x: SteamId) returns (worlds: seq<World>, steps: seq<WorldStep>)
    requires Base(w) && w.owner in w.online && ActiveOf(w.online[w.owner].m, w.Published())
    requires Heeds(w, x) && x !in w.Published() && !Stands(w, x)
    ensures IsRun(worlds, steps) && worlds[0] == w && !Safe(worlds[|steps|])
  {
    hide Base, Leads, Safe, Pause, ProcessIn, OwnerView, ActiveOf, Decode;
    var o := w.owner;
    worlds, steps := [w], [];
    PauseFrames(w, o);
    var w1 := Pause(w, o, false);
    worlds, steps := Extend(worlds, steps, Pauses(o, false), w1);
    AwakeSame(w, w1, x);
    OwnerRepublishes(w1);
    var w2 := ProcessIn(w1, o, [], QuietCall);
    worlds, steps := Extend(worlds, steps, Processes(o, [], QuietCall), w2);
    if Safe(w2) {
      RepublishedBase(w1);
      assert x in w2.Published() && Heeds(w2, x) && !Stands(w2, x);
      Coordinates(w2.online[o].m, w2.Published());
      var rest, more := HeedingBreaks(w2, x);
      worlds, steps := JoinRuns(worlds, steps, rest, more);
    }
  }

  lemma UnlistedHeeds(w: World, x: SteamId)
    requires Base(w) && Due(w, x) && x !in w.Published()
    ensures Heeds(w, x)
  {
  }

  /** From any state in which the owner can't be the owner, some run isn't safe. */
  lemma UnreadyBreaks(w: World) returns (worlds: seq<World>, steps: seq<WorldStep>)
    requires Base(w) && w.owner in w.online && !Ready(w)
    ensures IsRun(worlds, steps) && worlds[0] == w && !Safe(worlds[|steps|])
  {
    hide Base, Safe, Stands, ActiveOf, Leads;
    var x :| x != w.owner && Due(w, x) && !Stands(w, x);
    if x in w.Published() {
      worlds, steps := HeedingBreaks(w, x);
    } else {
      UnlistedHeeds(w, x);
      worlds, steps := UnlistedBreaks(w, x);
    }
  }

  lemma InvStays(w: World)
    requires Inv(w)
    ensures StaysSafe(w)
  {
    hide Base, Ready, Safe;
    forall worlds, steps | IsRun(worlds, steps) && worlds[0] == w ensures Safe(worlds[|steps|]) {
      RunInv(worlds, steps, |steps|);
      BaseSafe(worlds[|steps|]);
    }
  }

  /** Exactly: of all states in which what doesn't depend on the owner holds, everything stays
      safe from those, and only from those, in which the owner can be the owner. */
  lemma ReadyExactly(w: World)
    requires Base(w) && w.online.Keys != {}
    ensures w.owner in w.online && (StaysSafe(w) <==> Ready(w))
  {
    hide Safe, Ready;
    if Ready(w) {
      InvStays(w);
    } else {
      var worlds, steps := UnreadyBreaks(w);
      assert !StaysSafe(w);
    }
  }

  lemma LastLeaves(w: World, step: WorldStep)
    requires Possible(w, step) && (step.Announces? || step.GoesOffline?) && Next(w, step).online.Keys == {}
    ensures w.online.Keys == {step.id}
  {
    hide AnnounceLeave;
    assert w.online.Keys == Next(w, step).online.Keys + {step.id};
  }

  lemma NobodyLeaves(w: World, step: WorldStep)
    requires Possible(w, step) && !step.Announces? && !step.GoesOffline?
    ensures w.online.Keys <= Next(w, step).online.Keys && (step.Processes? ==> Next(w, step).online.Keys != {})
  {
    hide Granted, Process, Sync;
    if step.Processes? {
      assert step.id in Next(w, step).online;
    }
  }

  /** When the last one leaves, nothing can go wrong. */
  lemma EmptyHarmless(w: World, step: WorldStep)
    requires Possible(w, step) && Next(w, step).online.Keys == {}
    ensures Harmless(w, step)
  {
    hide Next, AnnounceLeave, Fresh, Ready;
    if step.Announces? || step.GoesOffline? {
      LastLeaves(w, step);
    } else {
      NobodyLeaves(w, step);
    }
  }

  /** So the theorems about runs leave out no step they could allow: whatever Steam and the
      sessions do in a state of a run, everything stays safe afterwards if and only if the
      step is harmless. */
  lemma HarmlessExactly(w: World, step: WorldStep)
    requires Inv(w) && Possible(w, step)
    ensures StaysSafe(Next(w, step)) <==> Harmless(w, step)
  {
    hide Base, Ready, Harmless, Next, Possible, StaysSafe;
    NextBase(w, step);
    if Next(w, step).online.Keys != {} {
      NextReady(w, step);
      ReadyExactly(Next(w, step));
    } else {
      EmptyHarmless(w, step);
      InvStays(Next(w, step));
    }
  }

  /** The same told of a call, and of ownership moving. */
  lemma FreshExactly(w: World, id: SteamId, batch: seq<Mail>, call: Call)
    requires Inv(w) && id in w.online && forall i :: 0 <= i < |batch| ==> Arrives(w, id, batch[i])
    ensures StaysSafe(ProcessIn(w, id, batch, call)) <==> (w.owner == id ==> Fresh(w, id, batch, call))
  {
    hide Inv, StaysSafe, Fresh, ProcessIn;
    HarmlessExactly(w, Processes(id, batch, call));
  }

  lemma MovesExactly(w: World, heir: SteamId)
    requires Inv(w) && heir in w.online
    ensures StaysSafe(w.(owner := heir)) <==> Ready(w.(owner := heir))
  {
    hide Inv, StaysSafe, Ready;
    HarmlessExactly(w, Moves(heir));
  }

  lemma SessionIs(w: World, x: SteamId)
    requires Base(w) && x in w.online
    ensures var m := w.online[x].m;
      Good(m) && m.local == x && (m.Joined() ==> x in w.granted && w.granted[x] == m.roster[x])
  {
    assert SessionOk(w, x);
  }

  /** A coordinator's Leave Network, with its LEAVE sent to whomever it is connected to, the
      next owner too, is a step of the runs: if nobody else's LEAVE waits there or is recorded
      there, and the next owner, if joined, trusts the one that leaves and saw it last. */
  lemma LeaverHandsOver(w: World, told: set<SteamId>, call: Call, heir: SteamId)
    requires Inv(w) && w.owner in w.online && w.online[w.owner].m.IsCoordinator()
    requires told <= w.online.Keys - {w.owner} && heir in w.online && heir != w.owner
    requires (forall p :: p in w.leaves ==> p.1 != heir) && w.online[heir].m.left == {}
    requires var m := w.online[heir].m; m.Joined() ==> m.coordinator == w.owner && w.owner in m.trusted
    ensures Enabled(w, Announces(w.owner, told, call, heir))
  {
    hide Decode, Good, SavedOk, WireOk;
    var step := Announces(w.owner, told, call, heir);
    assert AnnounceLeave(Facing(w, w.owner, call)).1;
    var v := Announce(w, w.owner, told, call, heir);
    SessionIs(w, heir);
    forall x | x != heir && Due(v, x) ensures Stands(v, x) {
      assert x != w.owner && (x, heir) !in v.leaves;
    }
  }

  // Why ownership must only move to a session that is ready for it

  /** o as it has read the batch, once it is the owner. */
  ghost function Reading(w: World, o: SteamId, batch: seq<Mail>, call: Call): State
    requires o in w.online
  {
    Run(Facing(w.(owner := o), o, call), Deliveries(batch))
  }

  /** The owner is replaced by o, ready or not, and o makes a call. */
  ghost function TakenOver(w: World, o: SteamId, batch: seq<Mail>, call: Call): World
    requires o in w.online
  {
    ProcessIn(w.(owner := o), o, batch, call)
  }

  /** A session trusts the owner it last saw, or already has everyone that is owed an
      address; and it has no record of anyone of them leaving. */
  ghost predicate Fit(w: World, m: Member) {
    && ((m.coordinator != m.local && m.coordinator in m.trusted) || Includes(m.roster, w.granted))
    && (forall x :: x in w.granted && x != m.local ==> !Marked(m, x))
  }

  lemma TakeoverRoster(w: World, m: Member, text: string)
    requires Base(w) && Good(m) && m.Joined() && m.local in w.granted && w.granted[m.local] == m.roster[m.local]
    requires m.coordinator != m.local ==> text == w.text
    ensures Includes(Inherited(m, text) - TakenOut(m, text), w.granted) <==> Fit(w, m)
  {
    DecodeEmpty();
    var trusts := m.coordinator != m.local && m.coordinator in m.trusted;
    assert w.text != "";
    assert Inherited(m, text) == if trusts then w.Published() else m.roster;
    var kept, out := Inherited(m, text) - TakenOut(m, text), TakenOut(m, text);
    if Fit(w, m) {
      forall x | x in w.granted ensures x in kept && kept[x] == w.granted[x] {
        assert !(x != m.local && Marked(m, x));
        assert x !in out;
      }
    } else if !trusts && !Includes(m.roster, w.granted) {
      var x :| x in w.granted && !(x in m.roster && m.roster[x] == w.granted[x]);
      assert !(x in kept && kept[x] == w.granted[x]);
    } else {
      var x :| x in w.granted && x != m.local && Marked(m, x);
      assert x !in kept;
    }
  }

  /** A joined session, not on hold, that becomes the owner leaves everyone published that is
      owed an address exactly when it is fit for it once it has read its messages. */
  lemma TakeoverKeepsEveryone(w: World, o: SteamId, batch: seq<Mail>, call: Call)
    requires Base(w) && o in w.online && w.online[o].m.Joined() && !w.online[o].m.suspended && call.readsOwner
    requires forall i :: 0 <= i < |batch| ==> Arrives(w, o, batch[i])
    ensures Includes(TakenOver(w, o, batch, call).Published(), w.granted) <==> Fit(w, Reading(w, o, batch, call).m)
  {
    hide Base, Good, Includes, Fit, Act, Arrives;
    var s, read := Facing(w.(owner := o), o, call), Reading(w, o, batch, call);
    SessionIs(w, o);
    ArrivesFromOthers(w, o, batch);
    ReadBatch(s, batch);
    ProcessSplit(s, batch);
    RunSyncAct(read);
    TakeoverPublishes(read);
    TakeoverRoster(w, read.m, read.look.text);
  }

  lemma SecondAddress(a: SteamId, b: SteamId)
    requires a != b
    ensures AssignTo(map[a := FIRST_HOST], b, None).Some?
  {
  }

  lemma FirstRead(s: State, b: SteamId)
    requires Good(s.m) && s.m.IsCoordinator() && s.m.code != "" && IsId(b) && b != s.m.local
    requires b !in s.m.roster && b !in s.book.failures && AssignTo(s.m.roster, b, None).Some?
    ensures var read := Run(s, Deliveries([Mail(b, Access.Auth(s.m.code, None))]));
      && read.m == Enrol(s.m, b, read.m.roster) && b in read.m.roster && Good(read.m)
      && KeepsPlace(s.m, read.m)
      && read.look.owner == s.look.owner && read.look.writable == s.look.writable
  {
    var mail := Mail(b, Access.Auth(s.m.code, None));
    var events := Deliveries([mail]);
    assert events == [Received(b, mail.message)];
    assert events[1..] == [];
    assert Run(s, events) == Admit(s, b, s.m.code, None);
    AdmitSplit(s, b, s.m.code, None);
    AdmitMemberKeeps(s.m, s.book, b, s.m.code, None);
    AssignKeeps(s.m.roster, b, None);
    AdmitLook(s, b, s.m.code, None);
  }

  lemma QuietCoordinator(read: State)
    requires Good(read.m) && read.m.IsCoordinator() && read.m.left == {}
    requires read.look.owner == Some(read.m.local) && read.look.writable
    ensures var after := Act(Step(read, Syncs));
      && after.m == read.m && Decode(after.look.text) == Some(read.m.roster)
  {
    var synced := Step(read, Syncs);
    assert synced == read;
    assert read.m.roster - Leaving(read.m) == read.m.roster;
    CoordinatePublishes(read);
  }

  /** A coordinator that is asked with the right code publishes the new member. */
  lemma FirstAdmission(s: State, b: SteamId)
    requires Good(s.m) && s.m.IsCoordinator() && !s.m.suspended && s.m.left == {} && s.m.code != ""
    requires s.look.owner == Some(s.m.local) && s.look.writable
    requires IsId(b) && b != s.m.local && b !in s.m.roster && b !in s.book.failures
    requires AssignTo(s.m.roster, b, None).Some?
    ensures var after := Process(s, [Mail(b, Access.Auth(s.m.code, None))]);
      && b in after.m.roster && Decode(after.look.text) == Some(after.m.roster)
      && after.m.left == {} && after.m.IsCoordinator()
  {
    var batch := [Mail(b, Access.Auth(s.m.code, None))];
    FirstRead(s, b);
    ProcessSplit(s, batch);
    QuietCoordinator(Run(s, Deliveries(batch)));
  }

  /** The creator a is the owner and as it started; it has saved just itself. */
  ghost predicate Beginning(w: World, a: SteamId, code: string) {
    var first: Roster := map[a := FIRST_HOST];
    && w.owner == a && a in w.online && w.leaves == {} && w.answers == {} && w.saved == map[a := first]
    && w.granted == first && Decode(w.text) == Some(first)
    && w.online[a].book.failures == map[] && w.online[a].m == Start(a, code, first).(coordinator := a)
    && Start(a, code, first).roster == first
  }

  lemma StaleSaves(a: SteamId, code: string) returns (w1: World)
    requires IsId(a)
    ensures Enabled(Created(a, code), Saves(a)) && w1 == Next(Created(a, code), Saves(a))
    ensures Beginning(w1, a, code) && w1.online.Keys == {a}
  {
    var first: Roster := map[a := FIRST_HOST];
    assert first.Keys == {a};
    CreatedIs(a, code);
    w1 := Next(Created(a, code), Saves(a));
  }

  /** b is in the lobby too, and hasn't joined. */
  ghost predicate Stranger(w: World, a: SteamId, b: SteamId) {
    && w.online.Keys == {a, b} && w.online[b].m.left == {} && !w.online[b].m.Joined() && w.online[b].m.coordinator == a
    && w.online[b].m.local == b && w.online[b].m.trusted == {}
  }

  lemma NoLeft(b: SteamId, code: string, look: Look)
    requires b != 0 && look.owner.Some? && look.owner.value != b
    ensures var m := Sync(Start(b, code, map[]), look.owner, look.text);
      m.left == {} && m.roster == map[] && m.coordinator == look.owner.value && m.local == b && m.trusted == {}
  {
  }

  lemma StaleEnters(a: SteamId, b: SteamId, code: string, w1: World, call: Call) returns (w2: World)
    requires IsId(b) && a != b && Beginning(w1, a, code) && w1.online.Keys == {a} && call.readsOwner
    ensures var step := Enters(b, false, code, None, call);
      Enabled(w1, step) && w2 == Next(w1, step) && Beginning(w2, a, code) && Stranger(w2, a, b)
  {
    var step := Enters(b, false, code, None, call);
    w2 := Enter(w1, b, false, code, None, call);
    var view := View(w1, b, call);
    NoLeft(b, code, view);
    assert w2.online[b].m == Sync(Start(b, code, map[]), view.owner, view.text);
    assert w2.granted == w1.granted;
  }

  lemma StaleEnabled(a: SteamId, b: SteamId, code: string, w2: World, call: Call)
    requires IsId(b) && a != b && Beginning(w2, a, code)
    ensures Enabled(w2, Processes(a, [Mail(b, Access.Auth(code, None))], call))
  {
    var batch := [Mail(b, Access.Auth(code, None))];
    assert batch[0].message.Auth?;
    assert Arrives(w2, a, batch[0]);
    assert !w2.online[a].m.suspended;
  }

  lemma StaleConcluded(a: SteamId, b: SteamId, w: World, batch: seq<Mail>, after: State)
    requires a != b && w.owner == a && Stranger(w, a, b) && w.leaves == {} && b in Granted(w, a, {}, after)
    ensures var v := Conclude(w, a, batch, after);
      v.online[a] == after && v.text == after.look.text && v.owner == a && Stranger(v, a, b) && v.leaves == {}
        && v.saved == w.saved && b in v.granted
  {
    hide Granted, Decode, Answered;
    assert Unread(w, a, batch) == {};
  }

  lemma StaleGranted(w: World, a: SteamId, b: SteamId, leaves: set<(SteamId, SteamId)>, after: State)
    requires b in w.online && leaves == {} && Decode(after.look.text) == Some(after.m.roster) && b in after.m.roster
    requires after.m.left == {} && b !in w.Published()
    ensures b in Granted(w, a, leaves, after)
  {
    assert b in Newly(w, a, leaves, after.m.left, after.m.roster);
  }

  lemma StaleAnswer(a: SteamId, b: SteamId, code: string, s: State, w: World, leaves: set<(SteamId, SteamId)>,
                    after: State)
    requires IsId(b) && a != b && code != "" && b in w.online && leaves == {} && IsId(a)
    requires s.m == Start(a, code, map[a := FIRST_HOST]).(coordinator := a) && s.m.roster == map[a := FIRST_HOST]
    requires s.book.failures == map[] && s.look.owner == Some(a) && s.look.writable
    requires Decode(w.text) == Some(s.m.roster) && after == Process(s, [Mail(b, Access.Auth(code, None))])
    ensures b in Granted(w, a, leaves, after) && after.m.IsCoordinator() && b in after.m.roster
    ensures Decode(after.look.text) == Some(after.m.roster)
  {
    StartGood(a, code, map[a := FIRST_HOST]);
    SecondAddress(a, b);
    FirstAdmission(s, b);
    StaleGranted(w, a, b, leaves, after);
  }

  lemma StaleAdmits(a: SteamId, b: SteamId, code: string, w2: World, call: Call)
    requires IsId(a) && IsId(b) && a != b && code != "" && Beginning(w2, a, code) && Stranger(w2, a, b)
    requires call.readsOwner
    ensures var w3 := ProcessIn(w2, a, [Mail(b, Access.Auth(code, None))], call);
      && w3.owner == a && Stranger(w3, a, b) && w3.leaves == {} && w3.saved == w2.saved && b in w3.granted
      && w3.online[a].m.IsCoordinator() && b in w3.online[a].m.roster && Decode(w3.text) == Some(w3.online[a].m.roster)
  {
    var batch := [Mail(b, Access.Auth(code, None))];
    var after := Process(Facing(w2, a, call), batch);
    assert Unread(w2, a, batch) == {};
    StaleAnswer(a, b, code, Facing(w2, a, call), w2, {}, after);
    StaleConcluded(a, b, w2, batch, after);
  }

  lemma StaleMember(a: SteamId, b: SteamId, code: string, look: Look)
    requires a != b && look.owner == Some(b)
    ensures var first: Roster := map[a := FIRST_HOST];
      var m := Sync(Start(a, code, first), look.owner, look.text);
      m.roster == first && m.coordinator == b && m.trusted == {a} && m.local == a && !m.suspended
  {
  }

  lemma StaleReturns(a: SteamId, b: SteamId, code: string, w3: World, call: Call) returns (w4: World, w5: World)
    requires IsId(a) && a != b && w3.owner == a && Stranger(w3, a, b) && w3.leaves == {}
    requires w3.saved == map[a := map[a := FIRST_HOST]] && b in w3.granted && call.readsOwner
    ensures Enabled(w3, GoesOffline(a, b)) && w4 == Next(w3, GoesOffline(a, b))
    ensures Enabled(w4, Enters(a, true, code, None, call)) && w5 == Next(w4, Enters(a, true, code, None, call))
    ensures a in w5.online && w5.online[a].m.Joined() && !w5.online[a].m.suspended
    ensures b in w5.granted && !Fit(w5, w5.online[a].m)
  {
    w4 := Without(w3, a, b);
    assert w4.online.Keys == {b};
    assert !ActiveOf(w4.online[b].m, w4.Published());
    w5 := Enter(w4, a, true, code, None, call);
    StaleMember(a, b, code, View(w4, a, call));
    assert b in w5.granted;
  }

  /** A joined session that isn't fit can't be the owner. */
  lemma UnfitUnready(w: World, o: SteamId)
    requires Base(w) && o in w.online && w.online[o].m.Joined() && !Fit(w, w.online[o].m)
    ensures !Ready(w.(owner := o))
  {
    hide Decode;
    var v, m := w.(owner := o), w.online[o].m;
    SessionIs(w, o);
    if x :| x in w.granted && x != o && Marked(m, x) {
      assert Due(v, x) && !Stands(v, x);
    } else {
      var x :| x in w.granted && !(x in m.roster && m.roster[x] == w.granted[x]);
      assert Due(v, x) && !Stands(v, x);
    }
  }

  lemma StaleBreaks(a: SteamId, code: string, call: Call, worlds: seq<World>, steps: seq<WorldStep>)
    requires IsId(a) && IsRun(worlds, steps) && worlds[0] == Created(a, code) && call.readsOwner
    requires var w := worlds[|steps|];
      a in w.online && w.online[a].m.Joined() && !w.online[a].m.suspended && !Fit(w, w.online[a].m)
    ensures !Includes(TakenOver(worlds[|steps|], a, [], call).Published(), worlds[|steps|].granted)
    ensures !StaysSafe(worlds[|steps|].(owner := a))
  {
    hide Base, Ready, Fit, Includes, TakenOver, Created, StaysSafe;
    var w := worlds[|steps|];
    CreatedKeeps(a, code);
    RunInv(worlds, steps, |steps|);
    TakeoverKeepsEveryone(w, a, [], call);
    assert Reading(w, a, [], call).m == w.online[a].m;
    UnfitUnready(w, a);
    MovesExactly(w, a);
  }

  /** Such a session exists: a second member enters a new network, is admitted and becomes
      the owner as the creator goes offline; the creator, restored from a copy older than
      that, is joined, doesn't trust the owner, and hasn't its roster. */
  lemma StaleCopyIsReachable(a: SteamId, b: SteamId, code: string, call: Call)
    returns (worlds: seq<World>, steps: seq<WorldStep>)
    requires IsId(a) && IsId(b) && a != b && code != "" && call.readsOwner
    ensures IsRun(worlds, steps) && worlds[0] == Created(a, code)
    ensures var w := worlds[|steps|];
      && a in w.online && w.online[a].m.Joined() && b in w.granted
      && !Includes(TakenOver(w, a, [], call).Published(), w.granted) && !StaysSafe(w.(owner := a))
  {
    hide StaysSafe;
    worlds, steps := [Created(a, code)], [];
    var w1 := StaleSaves(a, code);
    worlds, steps := Extend(worlds, steps, Saves(a), w1);
    var w2 := StaleEnters(a, b, code, w1, call);
    worlds, steps := Extend(worlds, steps, Enters(b, false, code, None, call), w2);
    StaleEnabled(a, b, code, w2, call);
    var w3 := ProcessIn(w2, a, [Mail(b, Access.Auth(code, None))], call);
    StaleAdmits(a, b, code, w2, call);
    worlds, steps := Extend(worlds, steps, Processes(a, [Mail(b, Access.Auth(code, None))], call), w3);
    var w4, w5 := StaleReturns(a, b, code, w3, call);
    worlds, steps := Extend(worlds, steps, GoesOffline(a, b), w4);
    worlds, steps := Extend(worlds, steps, Enters(a, true, code, None, call), w5);
    StaleBreaks(a, code, call, worlds, steps);
  }

  // The same for an owner on hold that answers a member that is leaving

  /** a owns and coordinates the network; b is in its roster, and leaving if so said. */
  ghost predicate Holding(w: World, a: SteamId, b: SteamId, leaving: bool) {
    && w.owner == a && a in w.online && w.online[a].m.IsCoordinator()
    && b in w.online[a].m.roster && (leaving ==> b in w.online[a].m.left)
    && Decode(w.text) == Some(w.online[a].m.roster)
  }

  lemma HeldAnnounces(a: SteamId, b: SteamId, w3: World, call: Call) returns (w4: World)
    requires a != b && Holding(w3, a, b, false) && Stranger(w3, a, b) && w3.leaves == {} && a in call.connected
    ensures var step := Announces(b, {a}, call, a); Enabled(w3, step) && w4 == Next(w3, step)
    ensures Holding(w4, a, b, false) && w4.online.Keys == {a} && w4.leaves == {(b, a)}
  {
    w4 := Announce(w3, b, {a}, call, a);
    assert AnnounceLeave(Facing(w3, b, call)).1;
    assert w4.online.Keys == {a};
    assert w4.online[a] == w3.online[a];
    assert w4.leaves == {(b, a)};
  }

  lemma HeardLeave(s: State, b: SteamId)
    requires b in s.m.roster
    ensures var batch := [Mail(b, Access.Leave)];
      Run(s, Deliveries(batch)).m == s.m.(left := s.m.left + {b}) && forall x :: !Welcomes(s, batch, x)
  {
    var batch := [Mail(b, Access.Leave)];
    assert Deliveries(batch) == [Received(b, Access.Leave)];
    assert Deliveries(batch)[1..] == [];
    assert batch[1..] == [];
  }

  lemma HeldReads(a: SteamId, b: SteamId, w5: World, call: Call)
    requires IsId(b) && a != b && Holding(w5, a, b, false) && w5.online.Keys == {a} && w5.leaves == {(b, a)}
    requires w5.online[a].m.suspended
    ensures var batch := [Mail(b, Access.Leave)];
      Enabled(w5, Processes(a, batch, call)) &&
      var w6 := ProcessIn(w5, a, batch, call);
      Holding(w6, a, b, true) && w6.online.Keys == {a} && w6.leaves == {} && w6.online[a].m.suspended
  {
    var batch := [Mail(b, Access.Leave)];
    var s := Facing(w5, a, call);
    assert Arrives(w5, a, batch[0]);
    HeardLeave(s, b);
    LeaveEnrols(s, b);
    assert Fresh(w5, a, batch, call);
    assert SaysLeave(batch, b);
    assert Unread(w5, a, batch) == {};
    ProcessSplit(s, batch);
  }

  lemma HeldReturns(a: SteamId, b: SteamId, code: string, w6: World, call: Call) returns (w7: World)
    requires IsId(b) && a != b && Holding(w6, a, b, true) && w6.online.Keys == {a} && w6.leaves == {}
    requires w6.online[a].m.suspended
    ensures var step := Enters(b, false, code, None, call); Enabled(w6, step) && w7 == Next(w6, step)
    ensures Holding(w7, a, b, true) && w7.leaves == {} && b in w7.online && w7.online[a].m.suspended
  {
    w7 := Enter(w6, b, false, code, None, call);
    assert w7.online[a] == w6.online[a];
  }

  lemma AskedIsTold(s: State, b: SteamId, code: string)
    requires s.m.IsCoordinator() && b in s.m.roster && b in s.m.left && b in s.look.connected
    ensures var batch := [Mail(b, Access.Auth(code, None))]; Welcomes(s, batch, b) && Going(s, batch, b)
  {
    hide Receive;
    var batch := [Mail(b, Access.Auth(code, None))];
    assert Welcome(s, batch[0], b);
  }

  lemma HeldFalls(s: State, batch: seq<Mail>, b: SteamId, heeds: bool)
    requires s.m.suspended && b in Shown(s) && Going(s, batch, b)
    ensures !FreshIn(s, batch, b, heeds, true, false)
  {
  }

  lemma HeldUnfresh(a: SteamId, b: SteamId, code: string, w: World, call: Call)
    requires IsId(b) && a != b && Holding(w, a, b, true) && w.leaves == {} && b in w.online && b in call.connected
    requires w.online[a].m.suspended
    ensures !Fresh(w, a, [Mail(b, Access.Auth(code, None))], call)
  {
    hide FreshIn, Decode;
    var batch := [Mail(b, Access.Auth(code, None))];
    var s := Facing(w, a, call);
    AskedIsTold(s, b, code);
    HeldFalls(s, batch, b, Heeds(w, b));
    assert Told(w, a, batch, call, b);
  }

  lemma HoldingMarks(w: World, a: SteamId, b: SteamId)
    requires Holding(w, a, b, true)
    ensures w.owner == a && a in w.online && Marked(w.online[a].m, b)
  {
  }

  lemma AsksArrive(w: World, a: SteamId, b: SteamId, code: string)
    requires IsId(b) && a != b
    ensures Arrives(w, a, Mail(b, Access.Auth(code, None)))
  {
  }

  lemma BeginningOnline(w: World, a: SteamId, code: string)
    requires Beginning(w, a, code)
    ensures a in w.online
  {
  }

  lemma NextProcess(w: World, id: SteamId, batch: seq<Mail>, call: Call)
    requires Enabled(w, Processes(id, batch, call))
    ensures id in w.online && Next(w, Processes(id, batch, call)) == ProcessIn(w, id, batch, call)
  {
  }

  lemma PauseLeads(w: World, id: SteamId, suspended: bool)
    requires id in w.online
    ensures Leads(w, Pauses(id, suspended), Pause(w, id, suspended))
  {
  }

  /** b is admitted and says that it leaves, which is on its way as a goes on hold. */
  lemma HeldBegins(a: SteamId, b: SteamId, code: string, w2: World, call: Call, worlds: seq<World>,
                   steps: seq<WorldStep>)
    returns (longer: seq<World>, more: seq<WorldStep>)
    requires IsId(a) && IsId(b) && a != b && code != "" && Beginning(w2, a, code) && Stranger(w2, a, b)
    requires IsRun(worlds, steps) && worlds[|steps|] == w2 && call.readsOwner && a in call.connected
    ensures IsRun(longer, more) && longer[0] == worlds[0]
    ensures var w := longer[|more|];
      Holding(w, a, b, false) && w.online.Keys == {a} && w.leaves == {(b, a)} && w.online[a].m.suspended
  {
    hide Beginning, Stranger, Enabled, Next, ProcessIn, Pause;
    var ask := [Mail(b, Access.Auth(code, None))];
    StaleEnabled(a, b, code, w2, call);
    StaleAdmits(a, b, code, w2, call);
    BeginningOnline(w2, a, code);
    var w3 := ProcessIn(w2, a, ask, call);
    NextProcess(w2, a, ask, call);
    longer, more := Extend(worlds, steps, Processes(a, ask, call), w3);
    var w4 := HeldAnnounces(a, b, w3, call);
    longer, more := Extend(longer, more, Announces(b, {a}, call, a), w4);
    PauseIs(w4, a, true);
    PauseLeads(w4, a, true);
    longer, more := Extend(longer, more, Pauses(a, true), Pause(w4, a, true));
  }

  /** It reads that b leaves, and b enters again. */
  lemma HeldEnds(a: SteamId, b: SteamId, code: string, call: Call, worlds: seq<World>, steps: seq<WorldStep>)
    returns (longer: seq<World>, more: seq<WorldStep>)
    requires IsId(b) && a != b && IsRun(worlds, steps)
    requires var w := worlds[|steps|];
      Holding(w, a, b, false) && w.online.Keys == {a} && w.leaves == {(b, a)} && w.online[a].m.suspended
    ensures IsRun(longer, more) && longer[0] == worlds[0]
    ensures var w := longer[|more|];
      Holding(w, a, b, true) && w.leaves == {} && b in w.online && a in w.online && w.online[a].m.suspended
  {
    hide Holding, Enabled, Next, ProcessIn;
    var w5 := worlds[|steps|];
    HeldReads(a, b, w5, call);
    var batch := [Mail(b, Access.Leave)];
    var w6 := ProcessIn(w5, a, batch, call);
    NextProcess(w5, a, batch, call);
    longer, more := Extend(worlds, steps, Processes(a, batch, call), w6);
    var w7 := HeldReturns(a, b, code, w6, call);
    longer, more := Extend(longer, more, Enters(b, false, code, None, call), w7);
    HoldingMarks(w7, a, b);
  }

  /** It is reachable: the creator admits a second member, which announces leaving, and
      reads that while on hold; the member comes back and asks again. Were it answered now,
      the network would not stay safe. */
  lemma UnfreshIsReachable(a: SteamId, b: SteamId, code: string)
    returns (worlds: seq<World>, steps: seq<WorldStep>, call: Call)
    requires IsId(a) && IsId(b) && a != b && code != ""
    ensures IsRun(worlds, steps) && worlds[0] == Created(a, code)
    ensures var w, batch := worlds[|steps|], [Mail(b, Access.Auth(code, None))];
      && w.owner == a && a in w.online && w.online[a].m.suspended && Marked(w.online[a].m, b)
      && Arrives(w, a, batch[0]) && !StaysSafe(ProcessIn(w, a, batch, call))
  {
    hide Beginning, Stranger, Holding, Enabled, Next, ProcessIn, Created, Fresh, StaysSafe, Inv, Arrives;
    call := Call(true, 0.0, {a, b});
    var ask := [Mail(b, Access.Auth(code, None))];
    worlds, steps := [Created(a, code)], [];
    var w1 := StaleSaves(a, code);
    worlds, steps := Extend(worlds, steps, Saves(a), w1);
    var w2 := StaleEnters(a, b, code, w1, call);
    worlds, steps := Extend(worlds, steps, Enters(b, false, code, None, call), w2);
    worlds, steps := HeldBegins(a, b, code, w2, call, worlds, steps);
    worlds, steps := HeldEnds(a, b, code, call, worlds, steps);
    var w := worlds[|steps|];
    HeldUnfresh(a, b, code, w, call);
    CreatedKeeps(a, code);
    RunInv(worlds, steps, |steps|);
    AsksArrive(w, a, b, code);
    HoldingMarks(w, a, b);
    FreshExactly(w, a, ask, call);
  }

  lemma LeaverGoes(w: World, a: SteamId, b: SteamId, call: Call) returns (v: World)
    requires Enabled(w, Announces(a, {b}, call, b)) && w.owner == a && a != b && b in w.online
    ensures v == Next(w, Announces(a, {b}, call, b)) && v.owner == b && b in v.online && a !in v.online
      && (a, b) in v.leaves
  {
    hide AnnounceLeave;
    v := Announce(w, a, {b}, call, b);
    assert b in {b};
  }

  /** A leaving owner's LEAVE does reach its successor in such a run. */
  lemma LeaverIsReachable(a: SteamId, b: SteamId, code: string)
    returns (worlds: seq<World>, steps: seq<WorldStep>)
    requires IsId(a) && IsId(b) && a != b && code != ""
    ensures IsRun(worlds, steps) && worlds[0] == Created(a, code)
    ensures var w := worlds[|steps|]; w.owner == b && b in w.online && a !in w.online && (a, b) in w.leaves
  {
    hide Beginning, Enabled, ProcessIn, Created, Inv, AnnounceLeave;
    var call := Call(true, 0.0, {a, b});
    var ask := [Mail(b, Access.Auth(code, None))];
    worlds, steps := [Created(a, code)], [];
    var w1 := StaleSaves(a, code);
    worlds, steps := Extend(worlds, steps, Saves(a), w1);
    var w2 := StaleEnters(a, b, code, w1, call);
    worlds, steps := Extend(worlds, steps, Enters(b, false, code, None, call), w2);
    StaleEnabled(a, b, code, w2, call);
    StaleAdmits(a, b, code, w2, call);
    BeginningOnline(w2, a, code);
    NextProcess(w2, a, ask, call);
    var w3 := ProcessIn(w2, a, ask, call);
    worlds, steps := Extend(worlds, steps, Processes(a, ask, call), w3);
    CreatedKeeps(a, code);
    RunInv(worlds, steps, |steps|);
    LeaverHandsOver(w3, {b}, call, b);
    var w4 := LeaverGoes(w3, a, b, call);
    worlds, steps := Extend(worlds, steps, Announces(a, {b}, call, b), w4);
  }
}
