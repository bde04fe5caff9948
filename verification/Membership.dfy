/**
 What a NetworkSession decides about its network: whose roster it takes, whom
 it admits, when it writes the lobby's roster, when it passes ownership on
 (src/steamlan/app/network.py). These are the functions the class in
 NetworkSession.dfy is proved against, with one session's run as a sequence of
 steps under a Steam that may show it anything.
 */
module Membership {
  import opened Basics
  import opened Ipv4
  import opened Roster
  import Access

  const AUTH_TIMEOUT := 20.0
  const MAX_FAILURES := 5
  const HAND_OFF_INTERVAL := 5.0

  const NO_MEMBERS_ONLINE: string := "Nobody from this network is online right now"
  const NO_ANSWER: string := "The network did not answer"
  const WRONG_CODE: string := "Incorrect access code"
  const NO_CODE: string := "Ask a member of the network for an invite or the access code"

  /** A session's part in the network. Ids of 0 stand for nobody. */
  datatype Member = Member(
    local: SteamId,
    known: Roster,
    roster: Roster,
    trusted: set<SteamId>,
    left: set<SteamId>,
    coordinator: SteamId,
    code: string,
    suspended: bool)
  {
    predicate Joined() { local in roster }

    predicate IsCoordinator() { Joined() && coordinator == local }
  }

  /** What it keeps about being admitted, admitting others and handing over. */
  datatype Book = Book(
    preferred: Option<Address>,
    refused: string,
    failures: map<SteamId, nat>,
    waiting: map<SteamId, real>,
    authSentTo: SteamId,
    authSentAt: real,
    handedOffAt: Option<real>)
  {
    function Failures(id: SteamId): nat { if id in failures then failures[id] else 0 }

    function Since(id: SteamId, now: real): real { if id in waiting then waiting[id] else now }
  }

  /** What Steam shows the session: the lobby's owner (None while it can't be
      read), the roster text, whether it may write it, the time, and who it is
      connected to or shares the lobby with. */
  datatype Look = Look(
    owner: Option<SteamId>,
    text: string,
    writable: bool,
    now: real,
    connected: set<SteamId>,
    peers: set<SteamId>)

  datatype Sent = Sent(to: SteamId, message: Access.Message)

  datatype HandOff = HandOff(at: real, to: SteamId)

  /** A session, what it sees, and what it has asked of Steam so far. */
  datatype State = State(m: Member, book: Book, look: Look, sent: multiset<Sent>, handOffs: seq<HandOff>)

  // Taking the roster

  function TakeRoster(m: Member, text: string, writer: SteamId): Member {
    if writer == 0 || writer !in m.trusted then m
    else if text == "" || text == Encode(m.roster) then m
    else
      var decoded := Decode(text);
      if decoded.None?
         || (m.Joined() && !(m.local in decoded.value && decoded.value[m.local] == m.roster[m.local])) then
        m
      else
        var members := decoded.value;
        m.(left := (m.left - (members.Keys - m.roster.Keys)) * members.Keys,
           roster := members,
           trusted := m.trusted + members.Keys)
  }

  function Sync(m: Member, owner: Option<SteamId>, text: string): Member {
    match owner
    case None => m
    case Some(o) =>
      var previous, now := m.coordinator, m.(coordinator := o);
      if o == m.local && m.Joined() then
        if previous != o && previous in m.trusted then TakeRoster(now, text, previous) else now
      else
        var taken := TakeRoster(now, text, o);
        if o == m.local && !taken.Joined() && m.local in m.known && text == "" then taken.(roster := m.known)
        else taken
  }

  /** A new session: it only starts with a roster when that is just itself. */
  function Start(local: SteamId, code: string, known: Roster): Member {
    Member(local, known, if known.Keys == {local} then known else map[], known.Keys, {}, 0, code, false)
  }

  function EmptyBook(preferred: Option<Address>): Book {
    Book(preferred, "", map[], map[], 0, 0.0, None)
  }

  // Writing and sending

  function Publish(s: State): State {
    var text := Encode(s.m.roster);
    if s.look.text == text || !s.look.writable then s else s.(look := s.look.(text := text))
  }

  /** `lobby.send`, whose error the callers ignore when there is no connection. */
  function Send(s: State, to: SteamId, message: Access.Message): State {
    if to in s.look.connected then s.(sent := s.sent + multiset{Sent(to, message)}) else s
  }

  function ToAll(ids: set<SteamId>, message: Access.Message): multiset<Sent> {
    multiset(set id | id in ids :: Sent(id, message))
  }

  function Accept(s: State, id: SteamId): State {
    Send(s.(book := s.book.(waiting := s.book.waiting - {id})), id, Access.Accepted(s.m.code))
  }

  function Deny(s: State, id: SteamId): State {
    var said := Send(s.(book := s.book.(waiting := s.book.waiting - {id})), id, Access.Denied);
    said.(look := said.look.(connected := said.look.connected - {id}))
  }

  function Enrol(m: Member, id: SteamId, roster: Roster): Member {
    m.(roster := roster, left := m.left - {id}, trusted := m.trusted + {id})
  }

  function Admit(s: State, id: SteamId, code: string, address: Option<Address>): State {
    var m, book := s.m, s.book;
    if id in m.roster then Accept(s, id)
    else if book.Failures(id) >= MAX_FAILURES then Deny(s, id)
    else if m.code == "" || code != m.code then
      Deny(s.(book := book.(failures := book.failures[id := book.Failures(id) + 1])), id)
    else
      match AssignTo(m.roster, id, address)
      case None => Deny(s, id)
      case Some(given) => Accept(Publish(s.(m := Enrol(m, id, given.roster))), id)
  }

  /** One control message. The latency tracker sees to the answers of pings. */
  function Receive(s: State, from: SteamId, message: Access.Message): State {
    var m := s.m;
    match message
    case Ping(n) => Send(s, from, Access.Pong(n))
    case Pong(_) => s
    case Leave => if from in m.roster then s.(m := m.(left := m.left + {from})) else s
    case Auth(code, address) => if m.IsCoordinator() then Admit(s, from, code, address) else s
    case Accepted(code) =>
      if from == m.coordinator && !m.IsCoordinator() then s.(m := m.(trusted := m.trusted + {from}, code := code))
        else s
    case Denied =>
      if from == m.coordinator && !m.IsCoordinator() && !m.Joined() then
        s.(book := s.book.(refused := if m.code != "" then WRONG_CODE else NO_CODE))
      else s
  }

  // What a session does once it has read its messages

  /** Members the coordinator takes out: those that said they leave, never itself. */
  function Leaving(m: Member): set<SteamId> { (m.left * m.roster.Keys) - {m.local} }

  function CoordinateMember(m: Member): Member { m.(roster := m.roster - Leaving(m)) }

  function Late(s: State): set<SteamId> {
    set id | id in s.look.connected && id !in s.m.roster && s.look.now - s.book.Since(id, s.look.now) > AUTH_TIMEOUT
  }

  function DismissLate(s: State): State {
    var book, look, late := s.book, s.look, Late(s);
    var strangers := look.connected - s.m.roster.Keys;
    s.(
      book := book.(
        waiting := map id | id in (book.waiting.Keys + strangers) * look.connected - late :: book.Since(id, look.now)),
      sent := s.sent + ToAll(late, Access.Denied),
      look := look.(connected := look.connected - late))
  }

  function Coordinate(s: State): State {
    DismissLate(Publish(s.(m := CoordinateMember(s.m))))
  }

  /** Members of the lobby's roster that share the lobby now. */
  function Heirs(look: Look): set<SteamId> { Decode(look.text).GetOr(map[]).Keys * look.peers }

  function HandOver(s: State): State {
    var book, look := s.book, s.look;
    if book.handedOffAt.Some? && look.now - book.handedOffAt.value < HAND_OFF_INTERVAL then s
    else
      var online := Heirs(look);
      if online == {} then s.(book := book.(refused := NO_MEMBERS_ONLINE))
      else
        s.(book := book.(handedOffAt := Some(look.now)),
           handOffs := s.handOffs + [HandOff(look.now, Least(online))])
  }

  function Check(s: State): State {
    var m, book, look := s.m, s.book, s.look;
    if book.refused != "" || m.Joined() then s
    else if m.coordinator != 0 && book.authSentTo != m.coordinator then
      if m.coordinator in look.connected then
        Send(s, m.coordinator, Access.Auth(m.code, book.preferred))
          .(book := book.(authSentTo := m.coordinator, authSentAt := look.now))
      else s
    else if book.authSentTo != 0 && look.now - book.authSentAt > AUTH_TIMEOUT
      then s.(book := book.(refused := NO_ANSWER))
    else s
  }

  function Act(s: State): State {
    if s.m.IsCoordinator() then Coordinate(s)
    else if s.m.coordinator == s.m.local then HandOver(s)
    else Check(s)
  }

  /** `announce_leave`: the second value is what it returns. */
  function AnnounceLeave(s: State): (State, bool) {
    var m := s.m;
    var told := ToAll(s.look.connected, Access.Leave);
    if m.IsCoordinator() then
      var gone := Publish(s.(m := m.(roster := m.roster - {m.local})));
      (gone.(sent := gone.sent + told), true)
    else if !m.Joined() && m.coordinator == m.local then (s, true)
    else if m.coordinator in s.look.connected then (s.(sent := s.sent + told), true)
    else (s, false)
  }

  // Runs

  /** The steps a session's life is made of until it announces leaving. `Sees`
      is Steam showing it something else, whatever that is. */
  datatype Event =
    | Sees(look: Look)
    | Received(from: SteamId, message: Access.Message)
    | Syncs
    | Acts
    | Suspends
    | Resumes

  function Step(s: State, e: Event): State {
    match e
    case Sees(look) => s.(look := look)
    case Received(from, message) => Receive(s, from, message)
    case Syncs => s.(m := Sync(s.m, s.look.owner, s.look.text))
    case Acts => Act(s)
    case Suspends => s.(m := s.m.(suspended := true))
    case Resumes =>
      s.(m := s.m.(suspended := false),
         book := if s.m.Joined() then s.book else s.book.(refused := "", authSentTo := 0))
  }

  function Run(s: State, events: seq<Event>): State
    decreases |events|
  {
    if events == [] then s else Run(Step(s, events[0]), events[1..])
  }

  lemma {:induction false} RunConcat(s: State, before: seq<Event>, after: seq<Event>)
    ensures Run(s, before + after) == Run(Run(s, before), after)
    decreases |before|
  {
    if before == [] {
      assert before + after == after;
    } else {
      assert (before + after)[1..] == before[1..] + after;
      RunConcat(Step(s, before[0]), before[1..], after);
    }
  }

  lemma RunLast(s: State, events: seq<Event>)
    requires events != []
    ensures Run(s, events) == Step(Run(s, events[..|events| - 1]), events[|events| - 1])
  {
    var k := |events| - 1;
    assert events == events[..k] + [events[k]];
    RunConcat(s, events[..k], [events[k]]);
    assert [events[k]][1..] == [];
  }

  datatype Mail = Mail(from: SteamId, message: Access.Message)

  function Deliveries(batch: seq<Mail>): seq<Event> {
    seq(|batch|, i requires 0 <= i < |batch| => Received(batch[i].from, batch[i].message))
  }

  /** `process`, once the lobby has handed over the messages in batch. */
  function Process(s: State, batch: seq<Mail>): State {
    var read := Run(s, Deliveries(batch));
    if read.m.suspended then read else Run(read, [Syncs, Acts])
  }

  // What every step keeps

  /** Member ids are Steam's: never 0, and only messages of others arrive. */
  predicate Genuine(m: Member, e: Event) {
    e.Received? ==> IsId(e.from) && e.from != m.local
  }

  ghost predicate Good(m: Member) {
    && IsId(m.local)
    && Valid(m.known) && Valid(m.roster)
    && m.known.Keys <= m.trusted && m.roster.Keys <= m.trusted
    && m.local !in m.left && 0 !in m.trusted
  }

  /** Once a member, always at the same address. */
  predicate KeepsPlace(before: Member, after: Member) {
    && after.local == before.local && after.known == before.known
    && (before.Joined() ==> after.Joined() && after.roster[after.local] == before.roster[before.local])
  }

  lemma StartGood(local: SteamId, code: string, known: Roster)
    requires IsId(local) && Valid(known)
    ensures Good(Start(local, code, known))
  {
  }

  lemma TakeKeeps(m: Member, text: string, writer: SteamId)
    requires Good(m)
    ensures Good(TakeRoster(m, text, writer)) && KeepsPlace(m, TakeRoster(m, text, writer))
  {
    DecodeValid(text);
  }

  lemma SyncKeeps(m: Member, owner: Option<SteamId>, text: string)
    requires Good(m)
    ensures Good(Sync(m, owner, text)) && KeepsPlace(m, Sync(m, owner, text))
  {
    if owner.Some? {
      TakeKeeps(m.(coordinator := owner.value), text, m.coordinator);
      TakeKeeps(m.(coordinator := owner.value), text, owner.value);
    }
  }

  /** What admitting somebody changes of the membership itself. */
  function AdmitMember(m: Member, book: Book, id: SteamId, code: string, address: Option<Address>): Member {
    if id in m.roster || book.Failures(id) >= MAX_FAILURES || m.code == "" || code != m.code then m
    else
      match AssignTo(m.roster, id, address)
      case None => m
      case Some(given) => Enrol(m, id, given.roster)
  }

  lemma AdmitSplit(s: State, id: SteamId, code: string, address: Option<Address>)
    ensures Admit(s, id, code, address).m == AdmitMember(s.m, s.book, id, code, address)
  {
  }

  lemma AdmitMemberKeeps(m: Member, book: Book, id: SteamId, code: string, address: Option<Address>)
    requires Good(m) && IsId(id) && id != m.local
    ensures Good(AdmitMember(m, book, id, code, address)) && KeepsPlace(m, AdmitMember(m, book, id, code, address))
  {
    AssignKeeps(m.roster, id, address);
  }

  lemma CoordinateMemberKeeps(m: Member)
    requires Good(m)
    ensures Good(CoordinateMember(m)) && KeepsPlace(m, CoordinateMember(m))
  {
  }

  lemma ActSplit(s: State)
    ensures Act(s).m == if s.m.IsCoordinator() then CoordinateMember(s.m) else s.m
  {
  }

  lemma StepKeeps(s: State, e: Event)
    requires Good(s.m) && Genuine(s.m, e)
    ensures Good(Step(s, e).m) && KeepsPlace(s.m, Step(s, e).m)
  {
    hide Valid, Sync, Act, Admit, CoordinateMember, AdmitMember;
    match e
    case Received(from, message) =>
      if message.Auth? && s.m.IsCoordinator() {
        AdmitSplit(s, from, message.code, message.address);
        AdmitMemberKeeps(s.m, s.book, from, message.code, message.address);
      }
    case Syncs => SyncKeeps(s.m, s.look.owner, s.look.text);
    case Acts =>
      ActSplit(s);
      CoordinateMemberKeeps(s.m);
    case _ =>
  }

  /** Whatever Steam shows a session, its roster stays one-to-one on member
      addresses, and once it has an address it keeps it. */
  lemma {:induction false} RunKeeps(s: State, events: seq<Event>)
    requires Good(s.m) && forall i :: 0 <= i < |events| ==> Genuine(s.m, events[i])
    ensures Good(Run(s, events).m) && KeepsPlace(s.m, Run(s, events).m)
    decreases |events|
  {
    if events != [] {
      StepKeeps(s, events[0]);
      var rest := events[1..];
      forall i | 0 <= i < |rest| ensures Genuine(Step(s, events[0]).m, rest[i]) {
        assert Genuine(s.m, events[i + 1]);
      }
      RunKeeps(Step(s, events[0]), rest);
    }
  }

  // What reading a batch of messages may change

  /** Who said in the batch that they leave or that they accept this session. */
  predicate SaysLeave(batch: seq<Mail>, id: SteamId) { Mail(id, Access.Leave) in batch }

  ghost predicate SaysAccepted(batch: seq<Mail>, id: SteamId) {
    exists code :: Mail(id, Access.Accepted(code)) in batch
  }

  ghost predicate FromOthers(m: Member, batch: seq<Mail>) {
    forall i :: 0 <= i < |batch| ==> IsId(batch[i].from) && batch[i].from != m.local
  }

  ghost predicate Accepts(s: State, id: SteamId) {
    exists code :: Sent(id, Access.Accepted(code)) in s.sent
  }

  ghost predicate NothingAdmitted(before: State, after: State) {
    && after.m.roster == before.m.roster && after.look.text == before.look.text
    && forall x :: Accepts(after, x) ==> Accepts(before, x)
  }

  /** A member of the roster that is recorded as leaving. */
  predicate Marked(m: Member, id: SteamId) { id in m.left && id in m.roster }

  /** What a batch may change of the membership: the roster only grows; only members that
      say so are recorded as leaving; only the owner last seen becomes trusted at anyone
      but the coordinator. */
  ghost predicate ReadMember(m: Member, batch: seq<Mail>, n: Member) {
    && n.local == m.local && n.known == m.known && n.coordinator == m.coordinator && n.suspended == m.suspended
    && m.trusted <= n.trusted
    && (forall x :: x in m.roster ==> x in n.roster && n.roster[x] == m.roster[x])
    && (forall x :: x in n.left ==> x in m.left || SaysLeave(batch, x))
    && (forall x :: Marked(n, x) && x !in m.roster ==> SaysLeave(batch, x))
    && (!m.IsCoordinator() ==> n.roster == m.roster)
    && (!m.IsCoordinator() ==> forall x :: x in n.trusted ==>
         x in m.trusted || (x == m.coordinator && SaysAccepted(batch, x)))
  }

  /** The lobby's text follows the roster when that grows, where it can be written. */
  ghost predicate ReadLook(before: State, after: State) {
    && after.look.owner == before.look.owner && after.look.writable == before.look.writable
    && (if before.look.writable && after.m.roster != before.m.roster
         then Decode(after.look.text) == Some(after.m.roster)
        else after.look.text == before.look.text)
  }

  /** Only the coordinator admits, and it only tells members of its roster that they are. */
  ghost predicate ReadSent(before: State, after: State) {
    && (!before.m.IsCoordinator() ==> NothingAdmitted(before, after))
    && (forall x :: Accepts(after, x) ==> Accepts(before, x) || x in after.m.roster)
  }

  /** Reading a batch moves `before` to `after`. */
  ghost predicate ReadFrom(before: State, batch: seq<Mail>, after: State) {
    ReadMember(before.m, batch, after.m) && ReadLook(before, after) && ReadSent(before, after)
  }

  lemma OtherMember(s: State, mail: Mail)
    requires IsId(mail.from) && mail.from != s.m.local && !(mail.message.Auth? && s.m.IsCoordinator())
    ensures ReadMember(s.m, [mail], Receive(s, mail.from, mail.message).m)
    ensures Receive(s, mail.from, mail.message).m.roster == s.m.roster
  {
    assert [mail][0] == mail;
    if mail.message.Accepted? {
      assert Mail(mail.from, Access.Accepted(mail.message.grant)) in [mail];
    }
  }

  lemma OtherSent(s: State, mail: Mail)
    requires !(mail.message.Auth? && s.m.IsCoordinator())
    ensures ReadSent(s, Receive(s, mail.from, mail.message))
  {
  }

  lemma ReadOther(s: State, mail: Mail)
    requires Good(s.m) && IsId(mail.from) && mail.from != s.m.local && !(mail.message.Auth? && s.m.IsCoordinator())
    ensures ReadFrom(s, [mail], Receive(s, mail.from, mail.message))
  {
    hide ReadMember, ReadSent, Decode;
    OtherMember(s, mail);
    OtherSent(s, mail);
  }

  lemma AdmitLook(s: State, id: SteamId, code: string, address: Option<Address>)
    ensures var look := Admit(s, id, code, address).look;
      && look.owner == s.look.owner && look.writable == s.look.writable
      && (look.text == s.look.text ||
          look.text == Publish(s.(m := AdmitMember(s.m, s.book, id, code, address))).look.text)
  {
  }

  /** The message admits its sender as a new member. */
  predicate Enrolls(s: State, mail: Mail) {
    && mail.message.Auth? && s.m.IsCoordinator() && mail.from !in s.m.roster
    && s.book.Failures(mail.from) < MAX_FAILURES && s.m.code != "" && mail.message.code == s.m.code
    && AssignTo(s.m.roster, mail.from, mail.message.address).Some?
  }

  lemma AssignValid(m: Member, id: SteamId, address: Option<Address>)
    requires Good(m) && IsId(id) && AssignTo(m.roster, id, address).Some?
    ensures Valid(AssignTo(m.roster, id, address).value.roster)
  {
    AssignKeeps(m.roster, id, address);
  }

  /** Only admitting somebody new writes the text. */
  lemma AdmitWrites(s: State, id: SteamId, code: string, address: Option<Address>)
    requires s.m.IsCoordinator()
    ensures var t, given := Admit(s, id, code, address), AssignTo(s.m.roster, id, address);
      if Enrolls(s, Mail(id, Access.Auth(code, address)))
      then t.m.roster == given.value.roster
        && t.look.text == Publish(s.(m := Enrol(s.m, id, given.value.roster))).look.text
      else t.m.roster == s.m.roster && t.look.text == s.look.text
  {
  }

  lemma AuthLook(s: State, id: SteamId, code: string, address: Option<Address>)
    requires Good(s.m) && IsId(id) && s.m.IsCoordinator()
    ensures ReadLook(s, Admit(s, id, code, address))
  {
    hide Good, Admit;
    AdmitWrites(s, id, code, address);
    AdmitLook(s, id, code, address);
    if AssignTo(s.m.roster, id, address).Some? {
      AssignValid(s.m, id, address);
      DecodeInverse(AssignTo(s.m.roster, id, address).value.roster);
    }
  }

  lemma AdmitAccepts(s: State, id: SteamId, code: string, address: Option<Address>)
    ensures forall x :: Accepts(Admit(s, id, code, address), x) ==>
      Accepts(s, x) || x in Admit(s, id, code, address).m.roster
  {
  }

  lemma AuthMember(m: Member, book: Book, mail: Mail, code: string, address: Option<Address>)
    requires Good(m) && IsId(mail.from) && mail.message == Access.Auth(code, address) && m.IsCoordinator()
    ensures ReadMember(m, [mail], AdmitMember(m, book, mail.from, code, address))
    ensures Valid(AdmitMember(m, book, mail.from, code, address).roster)
  {
    assert [mail][0] == mail;
    AssignKeeps(m.roster, mail.from, address);
  }

  lemma ReadAuth(s: State, mail: Mail, code: string, address: Option<Address>)
    requires Good(s.m) && IsId(mail.from) && mail.message == Access.Auth(code, address) && s.m.IsCoordinator()
    ensures ReadFrom(s, [mail], Admit(s, mail.from, code, address))
  {
    hide Admit, ReadMember, ReadLook;
    AdmitSplit(s, mail.from, code, address);
    AuthLook(s, mail.from, code, address);
    AdmitAccepts(s, mail.from, code, address);
    AuthMember(s.m, s.book, mail, code, address);
  }

  lemma ReadOne(s: State, mail: Mail)
    requires Good(s.m) && IsId(mail.from) && mail.from != s.m.local
    ensures ReadFrom(s, [mail], Receive(s, mail.from, mail.message))
    ensures Good(Receive(s, mail.from, mail.message).m)
  {
    hide Admit;
    StepKeeps(s, Received(mail.from, mail.message));
    if mail.message.Auth? && s.m.IsCoordinator() {
      ReadAuth(s, mail, mail.message.code, mail.message.address);
    } else {
      ReadOther(s, mail);
    }
  }

  lemma SaysMore(first: seq<Mail>, rest: seq<Mail>)
    ensures forall x :: SaysAccepted(first, x) || SaysAccepted(rest, x) ==> SaysAccepted(first + rest, x)
  {
  }

  lemma JoinMember(a: Member, first: seq<Mail>, b: Member, rest: seq<Mail>, c: Member)
    requires ReadMember(a, first, b) && ReadMember(b, rest, c)
    ensures ReadMember(a, first + rest, c)
  {
    var all := first + rest;
    assert forall mail :: mail in all <==> mail in first || mail in rest;
    SaysMore(first, rest);
  }

  lemma JoinLook(a: State, first: seq<Mail>, b: State, rest: seq<Mail>, c: State)
    requires ReadFrom(a, first, b) && ReadFrom(b, rest, c)
    ensures ReadLook(a, c)
  {
    hide Decode;
    if c.m.roster == a.m.roster {
      assert b.m.roster.Keys == a.m.roster.Keys;
      assert b.m.roster == a.m.roster;
    }
  }

  lemma ReadJoin(a: State, first: seq<Mail>, b: State, rest: seq<Mail>, c: State)
    requires ReadFrom(a, first, b) && ReadFrom(b, rest, c)
    ensures ReadFrom(a, first + rest, c)
  {
    hide ReadLook;
    JoinMember(a.m, first, b.m, rest, c.m);
    JoinLook(a, first, b, rest, c);
  }

  /** Reading messages, however many. */
  lemma {:induction false} ReadBatch(s: State, batch: seq<Mail>)
    requires Good(s.m) && FromOthers(s.m, batch)
    ensures ReadFrom(s, batch, Run(s, Deliveries(batch))) && Good(Run(s, Deliveries(batch)).m)
    decreases |batch|
  {
    if batch != [] {
      var rest := batch[1..];
      var one := Receive(s, batch[0].from, batch[0].message);
      assert Deliveries(batch)[1..] == Deliveries(rest);
      ReadOne(s, batch[0]);
      ReadBatch(one, rest);
      ReadJoin(s, [batch[0]], one, rest, Run(one, Deliveries(rest)));
      assert batch == [batch[0]] + rest;
    }
  }

  /** By what a batch says, x's leaving is recorded against its entry: it said so, before or
      in the batch, once it was in the roster. A LEAVE of somebody who isn't yet is ignored,
      and admitting somebody strikes an older one. */
  ghost predicate Going(s: State, batch: seq<Mail>, x: SteamId)
    decreases |batch|
  {
    if x in s.m.roster then x in s.m.left || SaysLeave(batch, x)
    else batch != [] && Going(Receive(s, batch[0].from, batch[0].message), batch[1..], x)
  }

  lemma ReceiveMarks(s: State, mail: Mail, x: SteamId)
    requires Good(s.m) && IsId(mail.from) && mail.from != s.m.local
    ensures var one := Receive(s, mail.from, mail.message);
      && (x in s.m.roster ==>
            x in one.m.roster && (x in one.m.left <==> x in s.m.left || mail == Mail(x, Access.Leave)))
      && (x !in s.m.roster && x in one.m.roster ==> x !in one.m.left)
      && one.m.local == s.m.local
  {
    if mail.message.Auth? && s.m.IsCoordinator() {
      AdmitSplit(s, mail.from, mail.message.code, mail.message.address);
      AssignKeeps(s.m.roster, mail.from, mail.message.address);
    }
  }

  /** That is exactly what has been recorded once the batch is read. */
  lemma {:induction false} GoingExactly(s: State, batch: seq<Mail>, x: SteamId)
    requires Good(s.m) && FromOthers(s.m, batch)
    ensures Going(s, batch, x) <==> Marked(Run(s, Deliveries(batch)).m, x)
    decreases |batch|
  {
    hide Good, Receive;
    if batch != [] {
      var one, rest := Receive(s, batch[0].from, batch[0].message), batch[1..];
      assert Deliveries(batch)[1..] == Deliveries(rest);
      ReceiveMarks(s, batch[0], x);
      ReadOne(s, batch[0]);
      GoingExactly(one, rest, x);
      assert SaysLeave(batch, x) <==> batch[0] == Mail(x, Access.Leave) || SaysLeave(rest, x);
    }
  }

  /** x asks s to be admitted and is told that it is. */
  predicate Welcome(s: State, mail: Mail, x: SteamId) {
    && mail.from == x && mail.message.Auth? && s.m.IsCoordinator() && x in s.look.connected
    && (x in s.m.roster
        || (s.book.Failures(x) < MAX_FAILURES && s.m.code != "" && mail.message.code == s.m.code
            && AssignTo(s.m.roster, x, mail.message.address).Some?))
  }

  ghost predicate Welcomes(s: State, batch: seq<Mail>, x: SteamId)
    decreases |batch|
  {
    batch != [] && (Welcome(s, batch[0], x) || Welcomes(Receive(s, batch[0].from, batch[0].message), batch[1..], x))
  }

  lemma AcceptAccepts(s: State, id: SteamId, x: SteamId)
    ensures Accepts(Accept(s, id), x) <==> Accepts(s, x) || (x == id && id in s.look.connected)
  {
    if x == id && id in s.look.connected {
      assert Sent(id, Access.Accepted(s.m.code)) in Accept(s, id).sent;
    } else {
      assert forall code :: Sent(x, Access.Accepted(code)) in Accept(s, id).sent <==>
        Sent(x, Access.Accepted(code)) in s.sent;
    }
  }

  lemma AdmitWelcomes(s: State, mail: Mail, x: SteamId)
    requires mail.message.Auth? && s.m.IsCoordinator()
    ensures Accepts(Admit(s, mail.from, mail.message.code, mail.message.address), x) <==>
      Accepts(s, x) || Welcome(s, mail, x)
  {
    hide Accept;
    var m, id := s.m, mail.from;
    if id in m.roster {
      AcceptAccepts(s, id, x);
    } else if s.book.Failures(id) < MAX_FAILURES && m.code != "" && mail.message.code == m.code {
      var given := AssignTo(m.roster, id, mail.message.address);
      if given.Some? {
        AcceptAccepts(Publish(s.(m := Enrol(m, id, given.value.roster))), id, x);
      }
    }
  }

  lemma ReceiveWelcomes(s: State, mail: Mail, x: SteamId)
    ensures Accepts(Receive(s, mail.from, mail.message), x) <==> Accepts(s, x) || Welcome(s, mail, x)
  {
    hide Admit;
    if mail.message.Auth? && s.m.IsCoordinator() {
      AdmitWelcomes(s, mail, x);
    }
  }

  /** Those, and nobody else, have been told so once the batch is read. */
  lemma {:induction false} WelcomesExactly(s: State, batch: seq<Mail>, x: SteamId)
    ensures Accepts(Run(s, Deliveries(batch)), x) <==> Accepts(s, x) || Welcomes(s, batch, x)
    decreases |batch|
  {
    hide Accepts, Admit;
    if batch != [] {
      var one := Receive(s, batch[0].from, batch[0].message);
      assert Deliveries(batch)[1..] == Deliveries(batch[1..]);
      ReceiveWelcomes(s, batch[0], x);
      WelcomesExactly(one, batch[1..], x);
    }
  }

  ghost predicate Enrols(s: State, batch: seq<Mail>, x: SteamId)
    decreases |batch|
  {
    batch != [] &&
    ((batch[0].from == x && Enrolls(s, batch[0])) || Enrols(Receive(s, batch[0].from, batch[0].message), batch[1..], x))
  }

  lemma ReceiveEnrols(s: State, mail: Mail, x: SteamId)
    requires Good(s.m) && IsId(mail.from)
    ensures x in Receive(s, mail.from, mail.message).m.roster <==>
      x in s.m.roster || (mail.from == x && Enrolls(s, mail))
  {
    if mail.message.Auth? && s.m.IsCoordinator() {
      AdmitSplit(s, mail.from, mail.message.code, mail.message.address);
      AssignKeeps(s.m.roster, mail.from, mail.message.address);
    }
  }

  lemma EnrollsStranger(s: State, mail: Mail)
    requires Enrolls(s, mail)
    ensures mail.from !in s.m.roster && s.m.IsCoordinator()
  {
  }

  /** The roster once the batch is read: as before, and those it admitted. */
  lemma {:induction false} EnrolsExactly(s: State, batch: seq<Mail>, x: SteamId)
    requires Good(s.m) && FromOthers(s.m, batch)
    ensures x in Run(s, Deliveries(batch)).m.roster <==> x in s.m.roster || Enrols(s, batch, x)
    ensures Enrols(s, batch, x) ==> x !in s.m.roster && s.m.IsCoordinator()
    decreases |batch|
  {
    hide Good, Receive, Enrolls, ReadLook, ReadSent;
    if batch != [] {
      var one, rest := Receive(s, batch[0].from, batch[0].message), batch[1..];
      assert Deliveries(batch)[1..] == Deliveries(rest);
      ReceiveEnrols(s, batch[0], x);
      ReadOne(s, batch[0]);
      EnrolsExactly(one, rest, x);
      if Enrolls(s, batch[0]) {
        EnrollsStranger(s, batch[0]);
      }
    }
  }

  // Where a roster comes from

  /** Text a session takes as its roster: attributed to an owner it trusts
      already, and agreeing with the address it has. */
  ghost predicate Takes(m: Member, text: string, writer: SteamId) {
    && writer != 0 && writer in m.trusted
    && Decode(text).Some?
    && (m.Joined() ==> m.local in Decode(text).value && Decode(text).value[m.local] == m.roster[m.local])
  }

  /** Whom a session that reads `owner` takes for the writer of the text: the
      owner, or its predecessor when the session has just taken over. */
  ghost predicate Writes(m: Member, owner: SteamId, writer: SteamId) {
    if owner == m.local && m.Joined() then writer == m.coordinator && writer != owner else writer == owner
  }

  /** A session's own saved copy, when it owns a lobby that has no roster. */
  ghost predicate Restores(m: Member, owner: Option<SteamId>, text: string) {
    owner == Some(m.local) && !m.Joined() && m.local in m.known && text == ""
  }

  /** The three ways a step may change a roster: a roster taken under the rule, one
      member admitted, or members taken out that said they leave. */
  ghost predicate RosterChange(s: State, e: Event, after: Roster) {
    var m, look := s.m, s.look;
    match e
    case Syncs =>
      || (look.owner.Some? && Decode(look.text) == Some(after)
          && exists writer :: Writes(m, look.owner.value, writer) && Takes(m, look.text, writer))
      || (Restores(m, look.owner, look.text) && after == m.known)
    case Received(from, Auth(code, _)) =>
      && m.IsCoordinator() && code == m.code && code != "" && from !in m.roster
      && after.Keys == m.roster.Keys + {from} && after - {from} == m.roster
    case Acts => m.IsCoordinator() && after == m.roster - Leaving(m)
    case _ => false
  }

  lemma SyncProvenance(s: State)
    ensures Step(s, Syncs).m.roster != s.m.roster ==> RosterChange(s, Syncs, Step(s, Syncs).m.roster)
  {
    var m, look := s.m, s.look;
    if Step(s, Syncs).m.roster != m.roster {
      var owner := look.owner.value;
      var writer := if owner == m.local && m.Joined() then m.coordinator else owner;
      assert Writes(m, owner, writer);
      if !Restores(m, look.owner, look.text) {
        assert Takes(m, look.text, writer);
      }
    }
  }

  lemma RosterProvenance(s: State, e: Event)
    requires Good(s.m) && Genuine(s.m, e)
    ensures Step(s, e).m.roster != s.m.roster ==> RosterChange(s, e, Step(s, e).m.roster)
  {
    match e
    case Received(from, message) =>
      if message.Auth? && s.m.IsCoordinator() {
        AdmitSplit(s, from, message.code, message.address);
        AssignKeeps(s.m.roster, from, message.address);
      }
    case Syncs => SyncProvenance(s);
    case Acts => ActSplit(s);
    case _ =>
  }

  /** What makes a session trust id at one step. */
  ghost predicate Grounds(s: State, e: Event, id: SteamId) {
    var m, look := s.m, s.look;
    match e
    case Received(from, Accepted(_)) => from == id == m.coordinator && !m.IsCoordinator()
    case Received(from, Auth(code, _)) => from == id && m.IsCoordinator() && code == m.code && code != ""
      && id !in m.roster
    case Syncs =>
      && look.owner.Some? && Decode(look.text).Some? && id in Decode(look.text).value
      && exists writer :: Writes(m, look.owner.value, writer) && Takes(m, look.text, writer)
    case _ => false
  }

  lemma StepGrounds(s: State, e: Event, id: SteamId)
    requires id in Step(s, e).m.trusted && id !in s.m.trusted
    ensures Grounds(s, e, id)
  {
    match e
    case Received(from, message) =>
      if message.Auth? && s.m.IsCoordinator() {
        AdmitSplit(s, from, message.code, message.address);
      }
    case Syncs =>
      var m, look := s.m, s.look;
      var owner := look.owner.value;
      var writer := if owner == m.local && m.Joined() then m.coordinator else owner;
      assert Writes(m, owner, writer) && Takes(m, look.text, writer);
    case Acts => ActSplit(s);
    case _ =>
  }

  /** Everyone a session ever comes to trust was in its saved roster, told it so as
      the owner it last saw, was admitted by it, or was listed in a roster taken
      from somebody it trusted before. */
  lemma {:induction false} TrustGrounded(s: State, events: seq<Event>, id: SteamId)
    requires s.m.trusted == s.m.known.Keys
    requires id in Run(s, events).m.trusted
    ensures id in s.m.known || exists k :: 0 <= k < |events| && Grounds(Run(s, events[..k]), events[k], id)
    decreases |events|
  {
    if events != [] {
      var k := |events| - 1;
      var before := Run(s, events[..k]);
      RunLast(s, events);
      if id in before.m.trusted {
        TrustGrounded(s, events[..k], id);
        if id !in s.m.known {
          var j :| 0 <= j < k && Grounds(Run(s, events[..k][..j]), events[..k][j], id);
          assert events[..k][..j] == events[..j] && events[..k][j] == events[j];
        }
      } else {
        StepGrounds(before, events[k], id);
      }
    }
  }

  // Taking over

  /** The roster a joined session starts coordinating from: the lobby's, when it
      trusts the previous owner and the text fits; otherwise its own copy. */
  ghost function Inherited(m: Member, text: string): Roster {
    if m.coordinator != m.local && text != "" && Takes(m, text, m.coordinator) then Decode(text).value else m.roster
  }

  /** Members it takes out: those it knows to be leaving, unless the inherited
      roster shows them admitted again. */
  ghost function TakenOut(m: Member, text: string): set<SteamId> {
    m.left * m.roster.Keys * Inherited(m, text).Keys - {m.local}
  }

  lemma RunSyncAct(s: State)
    ensures Run(s, [Syncs, Acts]) == Act(Step(s, Syncs))
  {
  }

  lemma CoordinatePublishes(s: State)
    requires Good(s.m) && s.m.IsCoordinator() && s.look.writable
    ensures Act(s).m == CoordinateMember(s.m)
    ensures Act(s).look.text == Encode(Act(s).m.roster) && Decode(Act(s).look.text) == Some(Act(s).m.roster)
  {
    CoordinateMemberKeeps(s.m);
    DecodeInverse(CoordinateMember(s.m).roster);
  }

  lemma TakeoverSync(m: Member, text: string)
    requires Good(m) && m.Joined()
    ensures var synced := Sync(m, Some(m.local), text);
      && synced.IsCoordinator() && synced.local == m.local
      && synced.roster == Inherited(m, text)
      && Leaving(synced) == TakenOut(m, text)
  {
    if m.coordinator != 0 && m.coordinator in m.trusted && text == Encode(m.roster) {
      DecodeInverse(m.roster);
    }
    assert 0 !in m.roster.Keys;
  }

  /** A joined session that finds itself the owner publishes, in that same call,
      exactly the inherited roster without those leaving. */
  lemma TakeoverPublishes(s: State)
    requires Good(s.m) && s.m.Joined() && s.look.owner == Some(s.m.local) && s.look.writable
    ensures var after := Run(s, [Syncs, Acts]);
      && after.m.roster == Inherited(s.m, s.look.text) - TakenOut(s.m, s.look.text)
      && Decode(after.look.text) == Some(after.m.roster)
  {
    var synced := Step(s, Syncs);
    RunSyncAct(s);
    SyncKeeps(s.m, s.look.owner, s.look.text);
    TakeoverSync(s.m, s.look.text);
    CoordinatePublishes(synced);
  }

  /** Nobody is lost by a takeover from a trusted owner whose roster fits. */
  lemma TakeoverLosesNobody(s: State)
    requires Good(s.m) && s.m.Joined() && s.look.owner == Some(s.m.local) && s.look.writable
    requires s.m.coordinator != s.m.local && s.look.text != "" && Takes(s.m, s.look.text, s.m.coordinator)
    ensures var members := Decode(s.look.text).value;
      Decode(Run(s, [Syncs, Acts]).look.text) == Some(members - (s.m.left * s.m.roster.Keys - {s.m.local}))
  {
    TakeoverPublishes(s);
    var members := Decode(s.look.text).value;
    assert members - TakenOut(s.m, s.look.text) == members - (s.m.left * s.m.roster.Keys - {s.m.local});
  }

  // Who writes, and how ownership is passed on

  /** The lobby's roster is only ever written by a joined session that last saw
      itself as the owner. */
  lemma OnlyCoordinatorWrites(s: State, e: Event)
    requires !e.Sees?
    ensures Step(s, e).look.text != s.look.text ==> s.m.IsCoordinator() && s.look.writable
  {
  }

  /** The lowest id of the lobby's roster that shares the lobby now. */
  ghost predicate IsHeir(look: Look, id: SteamId) {
    var members := Decode(look.text);
    && members.Some? && id in members.value && id in look.peers
    && forall x :: x in members.value && x in look.peers ==> id <= x
  }

  ghost predicate SameHandOffs(s: State, after: State) {
    after.handOffs == s.handOffs && after.book.handedOffAt == s.book.handedOffAt
  }

  lemma ReceiveHandsNothing(s: State, from: SteamId, message: Access.Message)
    ensures SameHandOffs(s, Receive(s, from, message))
  {
  }

  lemma CoordinateHandsNothing(s: State)
    ensures SameHandOffs(s, Coordinate(s))
  {
  }

  lemma CheckHandsNothing(s: State)
    ensures SameHandOffs(s, Check(s))
  {
  }

  lemma LeastIsHeir(look: Look)
    requires Heirs(look) != {}
    ensures IsHeir(look, Least(Heirs(look)))
  {
    var members := Decode(look.text);
    forall x | x in members.value && x in look.peers ensures Least(Heirs(look)) <= x {
      assert x in Heirs(look);
    }
  }

  lemma HandOverHands(s: State)
    ensures SameHandOffs(s, HandOver(s)) || (
      && (s.book.handedOffAt.Some? ==> s.look.now - s.book.handedOffAt.value >= HAND_OFF_INTERVAL)
      && HandOver(s).book.handedOffAt == Some(s.look.now)
      && exists to :: HandOver(s).handOffs == s.handOffs + [HandOff(s.look.now, to)] && IsHeir(s.look, to))
  {
    var heirs := Heirs(s.look);
    if heirs != {} {
      LeastIsHeir(s.look);
      var to := Least(heirs);
      assert IsHeir(s.look, to);
    }
  }

  /** A step passes ownership on exactly when an owner that isn't joined acts, and then
      to the lowest member, no sooner than HAND_OFF_INTERVAL after the last time. */
  lemma StepHands(s: State, e: Event)
    ensures SameHandOffs(s, Step(s, e)) || (
      && e.Acts? && !s.m.Joined() && s.m.coordinator == s.m.local
      && (s.book.handedOffAt.Some? ==> s.look.now - s.book.handedOffAt.value >= HAND_OFF_INTERVAL)
      && Step(s, e).book.handedOffAt == Some(s.look.now)
      && exists to :: Step(s, e).handOffs == s.handOffs + [HandOff(s.look.now, to)] && IsHeir(s.look, to))
  {
    match e
    case Received(from, message) => ReceiveHandsNothing(s, from, message);
    case Acts =>
      if s.m.IsCoordinator() {
        CoordinateHandsNothing(s);
      } else if s.m.coordinator == s.m.local {
        HandOverHands(s);
      } else {
        CheckHandsNothing(s);
      }
    case _ =>
  }

  ghost predicate Spaced(s: State) {
    && (s.handOffs != [] ==> s.book.handedOffAt == Some(s.handOffs[|s.handOffs| - 1].at))
    && forall i :: 0 <= i < |s.handOffs| - 1 ==> s.handOffs[i + 1].at - s.handOffs[i].at >= HAND_OFF_INTERVAL
  }

  lemma StepSpaced(s: State, e: Event)
    requires Spaced(s)
    ensures Spaced(Step(s, e))
  {
    hide Step, IsHeir;
    StepHands(s, e);
    if !SameHandOffs(s, Step(s, e)) {
      var to :| Step(s, e).handOffs == s.handOffs + [HandOff(s.look.now, to)];
    }
  }

  /** Attempts to pass ownership on are at least HAND_OFF_INTERVAL apart over any run. */
  lemma {:induction false} HandOffsSpaced(s: State, events: seq<Event>)
    requires Spaced(s)
    ensures Spaced(Run(s, events))
    decreases |events|
  {
    if events != [] {
      StepSpaced(s, events[0]);
      HandOffsSpaced(Step(s, events[0]), events[1..]);
    }
  }

  // Asking to be admitted

  /** The session waits to be admitted by somebody else and hasn't been refused. */
  predicate Waits(s: State) { !s.m.Joined() && s.m.coordinator != s.m.local && s.book.refused == "" }

  /** It asks: whoever owns the lobby is connected and hasn't been asked. */
  predicate Asks(s: State) {
    && Waits(s) && s.m.coordinator != 0 && s.m.coordinator in s.look.connected && s.book.authSentTo != s.m.coordinator
  }

  /** How many times each request to be admitted has been sent. */
  function AuthsTo(s: State, to: SteamId, code: string, address: Option<Address>): nat {
    s.sent[Sent(to, Access.Auth(code, address))]
  }

  lemma OthersAskNobody(s: State, to: SteamId, code: string, address: Option<Address>)
    ensures s.m.IsCoordinator() || s.m.coordinator == s.m.local ==>
      AuthsTo(Act(s), to, code, address) == AuthsTo(s, to, code, address)
      && Act(s).book.authSentTo == s.book.authSentTo && Act(s).book.authSentAt == s.book.authSentAt
  {
    assert forall id :: Sent(id, Access.Denied) != Sent(to, Access.Auth(code, address));
  }

  /** A session that acts sends exactly one request if it asks, to the owner it last saw and
      with its code and the address it would like, and none otherwise; and notes it. */
  lemma AsksExactly(s: State, to: SteamId, code: string, address: Option<Address>)
    ensures AuthsTo(Act(s), to, code, address) == AuthsTo(s, to, code, address) +
      if Asks(s) && to == s.m.coordinator && code == s.m.code && address == s.book.preferred then 1 else 0
    ensures var b := Act(s).book;
      if Asks(s) then b.authSentTo == s.m.coordinator && b.authSentAt == s.look.now
      else b.authSentTo == s.book.authSentTo && b.authSentAt == s.book.authSentAt
  {
    hide Coordinate, HandOver;
    OthersAskNobody(s, to, code, address);
  }

  /** Messages, the lobby and holds neither ask nor forget it, but for the end of a hold. */
  lemma OthersAsk(s: State, e: Event, to: SteamId, code: string, address: Option<Address>)
    requires !e.Acts?
    ensures AuthsTo(Step(s, e), to, code, address) == AuthsTo(s, to, code, address)
    ensures var b := Step(s, e).book;
      if e.Resumes? && !s.m.Joined() then b.authSentTo == 0
      else b.authSentTo == s.book.authSentTo && b.authSentAt == s.book.authSentAt
  {
  }

  // The same over runs

  /** Event k of a run is a request to be admitted. */
  predicate AsksAt(s: State, events: seq<Event>, k: nat) {
    k < |events| && events[k].Acts? && Asks(Run(s, events[..k]))
  }

  /** Event k makes the session forget whom it has asked. */
  predicate ForgetsAt(s: State, events: seq<Event>, k: nat) {
    k < |events| && events[k].Resumes? && !Run(s, events[..k]).m.Joined()
  }

  /** Event i is the latest request, and hasn't been forgotten. */
  ghost predicate LastAsked(s: State, events: seq<Event>, i: nat) {
    AsksAt(s, events, i) && forall k: nat :: i < k < |events| ==> !AsksAt(s, events, k) && !ForgetsAt(s, events, k)
  }

  lemma EarlierAsks(s: State, events: seq<Event>, e: Event, k: nat)
    requires k < |events|
    ensures AsksAt(s, events + [e], k) == AsksAt(s, events, k)
      && ForgetsAt(s, events + [e], k) == ForgetsAt(s, events, k)
  {
    assert (events + [e])[..k] == events[..k] && (events + [e])[k] == events[k];
  }

  lemma AsksNonzero(s: State)
    ensures Asks(s) ==> s.m.coordinator != 0
  {
  }

  lemma ActsIs(s: State)
    ensures Step(s, Acts) == Act(s)
  {
  }

  lemma LastAskedMore(s: State, before: seq<Event>, e: Event, i: nat)
    requires i < |before|
    ensures LastAsked(s, before + [e], i) <==>
      LastAsked(s, before, i) && !AsksAt(s, before + [e], |before|) && !ForgetsAt(s, before + [e], |before|)
  {
    hide AsksAt, ForgetsAt;
    var events := before + [e];
    forall k: nat | k < |before|
      ensures AsksAt(s, events, k) == AsksAt(s, before, k) && ForgetsAt(s, events, k) == ForgetsAt(s, before, k)
    {
      EarlierAsks(s, before, e, k);
    }
  }

  lemma AskedNext(s: State, before: seq<Event>, e: Event)
    requires var b := Run(s, before).book;
      && (b.authSentTo != 0 <==> exists i: nat :: LastAsked(s, before, i))
      && (forall i: nat :: LastAsked(s, before, i) ==>
            b.authSentTo == Run(s, before[..i]).m.coordinator && b.authSentAt == Run(s, before[..i]).look.now)
    ensures var events := before + [e];
      var b := Step(Run(s, before), e).book;
      && (b.authSentTo != 0 <==> exists i: nat :: LastAsked(s, events, i))
      && (forall i: nat :: LastAsked(s, events, i) ==>
            b.authSentTo == Run(s, events[..i]).m.coordinator && b.authSentAt == Run(s, events[..i]).look.now)
  {
    hide Run, Step;
    var events, at := before + [e], Run(s, before);
    assert events[..|before|] == before && events[|before|] == e;
    AsksNonzero(at);
    if e.Acts? {
      AsksExactly(at, 0, "", None);
      ActsIs(at);
    } else {
      OthersAsk(at, e, 0, "", None);
    }
    forall i: nat | i < |before| ensures events[..i] == before[..i] {
    }
    forall i: nat | i < |before| ensures LastAsked(s, events, i) <==>
        LastAsked(s, before, i) && !AsksAt(s, events, |before|) && !ForgetsAt(s, events, |before|)
    {
      LastAskedMore(s, before, e, i);
    }
    assert LastAsked(s, events, |before|) <==> AsksAt(s, events, |before|);
  }

  /** What the session has noted is the latest request: whom it asked, and when. */
  lemma {:induction false} AskedExactly(s: State, events: seq<Event>)
    requires s.book.authSentTo == 0
    ensures var b := Run(s, events).book;
      && (b.authSentTo != 0 <==> exists i: nat :: LastAsked(s, events, i))
      && (forall i: nat :: LastAsked(s, events, i) ==>
            b.authSentTo == Run(s, events[..i]).m.coordinator && b.authSentAt == Run(s, events[..i]).look.now)
    decreases |events|
  {
    hide Asks, Step;
    if events != [] {
      var before, e := events[..|events| - 1], events[|events| - 1];
      assert events == before + [e];
      RunLast(s, events);
      AskedExactly(s, before);
      AskedNext(s, before, e);
    }
  }

  lemma AsksAnother(s: State, events: seq<Event>, j: nat)
    requires AsksAt(s, events, j)
    ensures Run(s, events[..j]).book.authSentTo != Run(s, events[..j]).m.coordinator
  {
  }

  lemma AsksAtBefore(s: State, events: seq<Event>, k: nat, j: nat)
    requires k < j <= |events|
    ensures AsksAt(s, events[..j], k) == AsksAt(s, events, k) && ForgetsAt(s, events[..j], k) == ForgetsAt(s, events, k)
  {
    assert events[..j][..k] == events[..k] && events[..j][k] == events[k];
  }

  /** Once per owner: the same owner is asked again only after another one was, or after a hold
      that ended without being a member. */
  lemma AskedOnce(s: State, events: seq<Event>, i: nat, j: nat)
    requires s.book.authSentTo == 0 && i < j < |events| && AsksAt(s, events, i) && AsksAt(s, events, j)
    requires Run(s, events[..i]).m.coordinator == Run(s, events[..j]).m.coordinator
    ensures exists k: nat :: i < k < j && (AsksAt(s, events, k) || ForgetsAt(s, events, k))
  {
    hide AsksAt, ForgetsAt, Run;
    var before := events[..j];
    AsksAtBefore(s, events, i, j);
    if forall k: nat :: i < k < j ==> !AsksAt(s, events, k) && !ForgetsAt(s, events, k) {
      forall k: nat | i <= k < j
        ensures AsksAt(s, before, k) == AsksAt(s, events, k) && ForgetsAt(s, before, k) == ForgetsAt(s, events, k)
      {
        AsksAtBefore(s, events, k, j);
      }
      assert LastAsked(s, before, i);
      assert before[..i] == events[..i];
      AskedExactly(s, before);
      AsksAnother(s, events, j);
    }
  }

  lemma CheckRefuses(s: State)
    requires Waits(s)
    ensures Act(s).book.refused ==
      if s.book.authSentTo != 0 && (s.m.coordinator == 0 || s.m.coordinator == s.book.authSentTo)
         && s.look.now - s.book.authSentAt > AUTH_TIMEOUT then NO_ANSWER else ""
  {
  }

  /** Waiting ends without an answer at exactly the first act later than AUTH_TIMEOUT after the
      latest request to the owner that still is the owner. */
  lemma NoAnswerExactly(s: State, events: seq<Event>)
    requires s.book.authSentTo == 0
    ensures var at := Run(s, events);
      Waits(at) ==>
        (Act(at).book.refused == NO_ANSWER <==>
           exists i: nat :: LastAsked(s, events, i) && at.look.now - Run(s, events[..i]).look.now > AUTH_TIMEOUT
             && (at.m.coordinator == 0 || at.m.coordinator == Run(s, events[..i]).m.coordinator))
        && (Act(at).book.refused == NO_ANSWER || Act(at).book.refused == "")
  {
    hide LastAsked;
    AskedExactly(s, events);
    if Waits(Run(s, events)) {
      CheckRefuses(Run(s, events));
    }
  }

  // What a session answers, and whom it turns away

  /** The coordinator turns somebody away that asks to be admitted. */
  predicate TurnsAway(s: State, mail: Mail) {
    mail.message.Auth? && s.m.IsCoordinator() && mail.from !in s.m.roster && !Enrolls(s, mail)
  }

  /** It does so for the code it gave, which counts. */
  predicate WrongCode(s: State, mail: Mail) {
    && mail.message.Auth? && s.m.IsCoordinator() && mail.from !in s.m.roster
    && s.book.Failures(mail.from) < MAX_FAILURES
    && (s.m.code == "" || mail.message.code != s.m.code)
  }

  /** The answer to a message, if it has one. */
  function Reply(s: State, mail: Mail): Option<Access.Message> {
    if mail.message.Ping? then Some(Access.Pong(mail.message.sequence))
    else if !mail.message.Auth? || !s.m.IsCoordinator() then None
    else if TurnsAway(s, mail) then Some(Access.Denied)
    else Some(Access.Accepted(s.m.code))
  }

  lemma SendCounts(s: State, id: SteamId, message: Access.Message, to: SteamId, other: Access.Message)
    ensures Send(s, id, message).sent[Sent(to, other)] == s.sent[Sent(to, other)] +
      if id in s.look.connected && to == id && other == message then 1 else 0
    ensures Send(s, id, message).look == s.look && Send(s, id, message).book == s.book && Send(s, id, message).m == s.m
  {
  }

  lemma AcceptCounts(s: State, id: SteamId, to: SteamId, other: Access.Message)
    ensures var t := Accept(s, id);
      && t.sent[Sent(to, other)] == s.sent[Sent(to, other)] +
           (if id in s.look.connected && to == id && other == Access.Accepted(s.m.code) then 1 else 0)
      && t.look.connected == s.look.connected && t.book.failures == s.book.failures
  {
  }

  lemma DenyCounts(s: State, id: SteamId, to: SteamId, other: Access.Message)
    ensures var t := Deny(s, id);
      && t.sent[Sent(to, other)] == s.sent[Sent(to, other)] +
           (if id in s.look.connected && to == id && other == Access.Denied then 1 else 0)
      && t.look.connected == s.look.connected - {id} && t.book.failures == s.book.failures
  {
  }

  lemma AdmitReplies(s: State, mail: Mail, to: SteamId, message: Access.Message)
    requires mail.message.Auth? && s.m.IsCoordinator()
    ensures var t := Admit(s, mail.from, mail.message.code, mail.message.address);
      && t.sent[Sent(to, message)] == s.sent[Sent(to, message)] +
           (if to == mail.from && to in s.look.connected && Reply(s, mail) == Some(message) then 1 else 0)
      && t.look.connected == (if TurnsAway(s, mail) then s.look.connected - {mail.from} else s.look.connected)
      && t.book.Failures(to) == s.book.Failures(to) + (if to == mail.from && WrongCode(s, mail) then 1 else 0)
  {
    hide Accept, Deny;
    var m, id := s.m, mail.from;
    var counted := s.(book := s.book.(failures := s.book.failures[id := s.book.Failures(id) + 1]));
    AcceptCounts(s, id, to, message);
    DenyCounts(s, id, to, message);
    DenyCounts(counted, id, to, message);
    var given := AssignTo(m.roster, id, mail.message.address);
    if given.Some? {
      var enrolled := Publish(s.(m := Enrol(m, id, given.value.roster)));
      assert enrolled.sent == s.sent && enrolled.look.connected == s.look.connected && enrolled.book == s.book;
      AcceptCounts(enrolled, id, to, message);
    }
  }

  /** Exactly what a message is answered, whom it has disconnected, and what it counts. */
  lemma RepliesExactly(s: State, mail: Mail, to: SteamId, message: Access.Message)
    ensures var t := Receive(s, mail.from, mail.message);
      && t.sent[Sent(to, message)] == s.sent[Sent(to, message)] +
           (if to == mail.from && to in s.look.connected && Reply(s, mail) == Some(message) then 1 else 0)
      && t.look.connected == (if TurnsAway(s, mail) then s.look.connected - {mail.from} else s.look.connected)
      && t.book.Failures(to) == s.book.Failures(to) + (if to == mail.from && WrongCode(s, mail) then 1 else 0)
  {
    hide Admit;
    if mail.message.Auth? && s.m.IsCoordinator() {
      AdmitReplies(s, mail, to, message);
    }
    if mail.message.Ping? {
      SendCounts(s, mail.from, Access.Pong(mail.message.sequence), to, message);
    }
  }

  lemma AdmitRefuses(s: State, id: SteamId, code: string, address: Option<Address>)
    ensures Admit(s, id, code, address).book.refused == s.book.refused
  {
  }

  /** Exactly when a message refuses the session, and for what reason. */
  lemma RefusedExactly(s: State, mail: Mail)
    ensures Receive(s, mail.from, mail.message).book.refused ==
      if mail.message.Denied? && mail.from == s.m.coordinator && !s.m.Joined()
      then (if s.m.code == "" then NO_CODE else WRONG_CODE) else s.book.refused
  {
    hide Admit;
    if mail.message.Auth? && s.m.IsCoordinator() {
      AdmitRefuses(s, mail.from, mail.message.code, mail.message.address);
    }
  }

  /** How often x gave a wrong code during a run. */
  function Wrongs(s: State, events: seq<Event>, x: SteamId): nat
    decreases |events|
  {
    if events == [] then 0
    else
      var e := events[0];
      (if e.Received? && e.from == x && WrongCode(s, Mail(x, e.message)) then 1
          else 0) + Wrongs(Step(s, e), events[1..], x)
  }

  lemma OthersCount(s: State, e: Event, x: SteamId)
    requires !e.Received?
    ensures Step(s, e).book.Failures(x) == s.book.Failures(x)
  {
  }

  lemma ReceivedIs(s: State, from: SteamId, message: Access.Message)
    ensures Step(s, Received(from, message)) == Receive(s, from, message)
  {
  }

  lemma WrongIsFew(s: State, x: SteamId)
    ensures forall message :: WrongCode(s, Mail(x, message)) ==> s.book.Failures(x) < MAX_FAILURES
  {
  }

  lemma FullIsBarred(s: State, x: SteamId)
    ensures s.book.Failures(x) >= MAX_FAILURES ==> forall message :: !Enrolls(s, Mail(x, message))
  {
  }

  /** Over any run each wrong code is counted, no more than MAX_FAILURES are, and after that
      nothing admits this one any more. */
  lemma {:induction false} GuessesAreFew(s: State, events: seq<Event>, x: SteamId)
    requires s.book.Failures(x) <= MAX_FAILURES
    ensures Run(s, events).book.Failures(x) == s.book.Failures(x) + Wrongs(s, events, x) <= MAX_FAILURES
    ensures forall message :: Run(s, events).book.Failures(x) == MAX_FAILURES ==>
      !Enrolls(Run(s, events), Mail(x, message))
    decreases |events|
  {
    hide Step, WrongCode, Enrolls;
    if events != [] {
      var e := events[0];
      if e.Received? {
        RepliesExactly(s, Mail(e.from, e.message), x, Access.Denied);
        ReceivedIs(s, e.from, e.message);
      } else {
        OthersCount(s, e, x);
      }
      WrongIsFew(s, x);
      GuessesAreFew(Step(s, e), events[1..], x);
    } else {
      FullIsBarred(s, x);
    }
  }

  // What an act does beside the roster

  /** An owner that isn't joined passes ownership on exactly when HAND_OFF_INTERVAL has passed
      since it last did and somebody is there to have it; and finds nobody online exactly when
      that time has passed and nobody is. */
  lemma HandsExactly(s: State, heir: SteamId)
    requires !s.m.Joined() && s.m.coordinator == s.m.local
    ensures var may := s.book.handedOffAt.Some? ==> s.look.now - s.book.handedOffAt.value >= HAND_OFF_INTERVAL;
      && (Act(s).handOffs == s.handOffs + [HandOff(s.look.now, heir)] <==> may && IsHeir(s.look, heir))
      && (Act(s).handOffs == s.handOffs <==> !(may && exists id :: IsHeir(s.look, id)))
      && Act(s).book.refused ==
           if may && !exists id :: IsHeir(s.look, id) then NO_MEMBERS_ONLINE else s.book.refused
  {
    HandOverHands(s);
    if Heirs(s.look) != {} {
      LeastIsHeir(s.look);
    } else {
      assert forall id :: IsHeir(s.look, id) ==> id in Heirs(s.look);
    }
    assert forall h: HandOff :: s.handOffs + [h] != s.handOffs by {
      forall h: HandOff ensures s.handOffs + [h] != s.handOffs {
        assert |s.handOffs + [h]| != |s.handOffs|;
      }
    }
    assert forall a: HandOff, b: HandOff :: s.handOffs + [a] == s.handOffs + [b] ==> a == b by {
      forall a: HandOff, b: HandOff | s.handOffs + [a] == s.handOffs + [b] ensures a == b {
        assert (s.handOffs + [a])[|s.handOffs|] == (s.handOffs + [b])[|s.handOffs|];
      }
    }
  }

  /** A coordinator that acts turns a connected stranger away exactly once it has waited longer
      than AUTH_TIMEOUT since it was first seen so; otherwise it goes on waiting since then.
      Who isn't connected doesn't wait. */
  lemma StrangersExactly(s: State, x: SteamId)
    requires s.m.IsCoordinator()
    ensures var t := Act(s);
      var stranger := x in s.look.connected && !(x in s.m.roster && (x == s.m.local || x !in s.m.left));
      var late := stranger && x in s.book.waiting && s.look.now - s.book.waiting[x] > AUTH_TIMEOUT;
      && (x in t.look.connected <==> x in s.look.connected && !late)
      && t.sent[Sent(x, Access.Denied)] == s.sent[Sent(x, Access.Denied)] + (if late then 1 else 0)
      && (stranger && !late ==>
            x in t.book.waiting && t.book.waiting[x] == if x in s.book.waiting then s.book.waiting[x] else s.look.now)
      && (x !in s.look.connected || late ==> x !in t.book.waiting)
  {
    assert forall id :: id in Late(Publish(s.(m := CoordinateMember(s.m)))) ==> id in s.look.connected;
  }

  /** Leaving is announced to everybody connected, once each, whenever it can be: by the
      owner, and by anyone that is connected to it. An owner that isn't joined has nothing
      to announce, and one that is takes itself out of the text. */
  lemma AnnouncesExactly(s: State, x: SteamId)
    ensures AnnounceLeave(s).1 <==> s.m.coordinator == s.m.local || s.m.coordinator in s.look.connected
    ensures AnnounceLeave(s).0.sent[Sent(x, Access.Leave)] == s.sent[Sent(x, Access.Leave)] +
      if AnnounceLeave(s).1 && x in s.look.connected && (s.m.Joined() || s.m.coordinator != s.m.local) then 1 else 0
    ensures var t := AnnounceLeave(s).0;
      if s.m.IsCoordinator() then
        && t.m == s.m.(roster := s.m.roster - {s.m.local})
        && t.look == (if s.look.writable then s.look.(text := Encode(t.m.roster)) else s.look)
      else t.m == s.m && t.look == s.look
  {
  }

  // A hold, over runs

  /** The last of the events that begins or ends a hold begins one, or there was one before. */
  predicate Held(before: bool, events: seq<Event>) {
    if events == [] then before
    else
      var k := |events| - 1;
      if events[k].Suspends? then true else if events[k].Resumes? then false else Held(before, events[..k])
  }

  lemma StepHolds(s: State, e: Event)
    ensures Step(s, e).m.suspended <==> e.Suspends? || (s.m.suspended && !e.Resumes?)
  {
    hide Encode, AssignTo;
  }

  lemma {:induction false} HoldExactly(s: State, events: seq<Event>)
    ensures Run(s, events).m.suspended <==> Held(s.m.suspended, events)
    decreases |events|
  {
    if events != [] {
      var k := |events| - 1;
      RunLast(s, events);
      HoldExactly(s, events[..k]);
      StepHolds(Run(s, events[..k]), events[k]);
    }
  }

  lemma ReceiveHolds(s: State, mail: Mail)
    ensures var t := Receive(s, mail.from, mail.message);
      && t.m.suspended == s.m.suspended && t.m.coordinator == s.m.coordinator && t.handOffs == s.handOffs
      && t.look.owner == s.look.owner
  {
    hide Encode, AssignTo;
  }

  lemma {:induction false} ReadingHolds(s: State, batch: seq<Mail>)
    ensures var r := Run(s, Deliveries(batch));
      && r.m.suspended == s.m.suspended && r.m.coordinator == s.m.coordinator && r.handOffs == s.handOffs
      && r.look.owner == s.look.owner
    decreases |batch|
  {
    if batch != [] {
      var k := |batch| - 1;
      assert Deliveries(batch)[..k] == Deliveries(batch[..k]);
      RunLast(s, Deliveries(batch));
      ReadingHolds(s, batch[..k]);
      ReceiveHolds(Run(s, Deliveries(batch[..k])), batch[k]);
    }
  }

  lemma ActHolds(s: State)
    ensures Act(s).m.coordinator == s.m.coordinator && Act(s).m.suspended == s.m.suspended
  {
    hide Encode, Heirs;
  }

  lemma FollowHolds(m: Member, owner: Option<SteamId>, text: string)
    ensures Sync(m, owner, text).coordinator == owner.GetOr(m.coordinator)
    ensures Sync(m, owner, text).suspended == m.suspended
  {
    hide Encode;
  }

  /** A call follows the lobby's owner exactly when the session isn't on hold; on hold it only
      reads, and passes nothing on. */
  lemma CallFollows(s: State, batch: seq<Mail>)
    ensures var t := Process(s, batch);
      && t.m.suspended == s.m.suspended
      && t.m.coordinator == (if s.m.suspended || s.look.owner.None? then s.m.coordinator else s.look.owner.value)
      && (s.m.suspended ==> t.handOffs == s.handOffs)
  {
    hide Receive, Act, TakeRoster;
    ReadingHolds(s, batch);
    var read := Run(s, Deliveries(batch));
    if !s.m.suspended {
      var followed := read.(m := Sync(read.m, read.look.owner, read.look.text));
      assert [Syncs, Acts][1..] == [Acts] && [Acts][1..] == [];
      assert Run(read, [Syncs, Acts]) == Act(followed);
      FollowHolds(read.m, read.look.owner, read.look.text);
      ActHolds(followed);
    }
  }

  /** A hold that ends leaves a member as it was; anyone else has its refusal forgotten and asks
      the owner again, if connected to it, once it acts. */
  lemma ResumedAsks(s: State)
    ensures var t := Step(s, Resumes);
      && !t.m.suspended && t.m == s.m.(suspended := false) && t.look == s.look && t.sent == s.sent
      && (if s.m.Joined() then t.book == s.book
          else t.book.refused == "" && t.book == s.book.(refused := "", authSentTo := 0)
               && (Asks(t) <==> s.m.coordinator !in {0, s.m.local} && s.m.coordinator in s.look.connected))
  {
  }

  // What a session takes from others, exactly

  /** A new session has its saved copy as its roster exactly if that is just itself: then it is
      the creator of the network, and a member from the start. It trusts whom it saved. */
  lemma StartExactly(local: SteamId, code: string, known: Roster)
    ensures var m := Start(local, code, known);
      && (m.Joined() <==> known.Keys == {local}) && m.roster == (if known.Keys == {local} then known else map[])
      && m.trusted == known.Keys && m.left == {} && m.coordinator == 0 && m.code == code
  {
  }

  /** Whose word on the roster a session that sees this owner goes by; 0 for nobody's: a member
      that just became the owner goes by the one before. */
  function WriterOf(m: Member, owner: SteamId): SteamId {
    if !(owner == m.local && m.Joined()) then owner else if m.coordinator != owner then m.coordinator else 0
  }

  /** Exactly when a session takes a roster, which one, and whom it trusts and takes for leaving
      from then on. */
  lemma SyncExactly(m: Member, owner: SteamId, text: string, x: SteamId)
    ensures var t := Sync(m, Some(owner), text);
      var takes := text != "" && text != Encode(m.roster) && Takes(m, text, WriterOf(m, owner));
      && t.roster ==
         (if takes then Decode(text).value else if Restores(m, Some(owner), text) then m.known else m.roster)
      && (x in t.trusted <==> x in m.trusted || (takes && x in Decode(text).value))
      && (x in t.left <==> x in m.left && (takes ==> x in Decode(text).value && x in m.roster))
      && t.coordinator == owner && t.code == m.code && t.suspended == m.suspended
    ensures Sync(m, None, text) == m
  {
    hide Encode, Decode;
  }

  /** What a member of a network ends up with: two sessions that trust the owner they see, and
      whose addresses its text has, have the same roster once they follow it. */
  lemma FollowersAgree(m: Member, n: Member, owner: SteamId, text: string)
    requires Good(m) && Good(n) && owner != m.local && owner != n.local
    requires owner != 0 && owner in m.trusted && owner in n.trusted && Decode(text).Some?
    requires m.Joined() ==> m.local in Decode(text).value && Decode(text).value[m.local] == m.roster[m.local]
    requires n.Joined() ==> n.local in Decode(text).value && Decode(text).value[n.local] == n.roster[n.local]
    ensures text != "" ==> Sync(m, Some(owner), text).roster == Sync(n, Some(owner), text).roster == Decode(text).value
  {
    hide Encode, Decode;
    SyncExactly(m, owner, text, 0);
    SyncExactly(n, owner, text, 0);
    DecodeInverse(m.roster);
    DecodeInverse(n.roster);
  }

  /** The owner's word that this session is a member. */
  predicate TellsAccepted(m: Member, mail: Mail) {
    mail.message.Accepted? && mail.from == m.coordinator && !m.IsCoordinator()
  }

  lemma AssignGrows(r: Roster, id: SteamId, preferred: Option<Address>)
    ensures AssignTo(r, id, preferred).Some? ==> AssignTo(r, id, preferred).value.roster.Keys == r.Keys + {id}
  {
  }

  lemma AnswerKeeps(s: State, id: SteamId)
    ensures Accept(s, id).m == Deny(s, id).m == Publish(s).m == s.m
    ensures Accept(s, id).book.waiting == Deny(s, id).book.waiting == s.book.waiting - {id}
    ensures Publish(s).book == s.book
  {
  }

  lemma AdmitHeard(s: State, mail: Mail)
    requires mail.message.Auth? && s.m.IsCoordinator()
    ensures var t, m, from := Admit(s, mail.from, mail.message.code, mail.message.address), s.m, mail.from;
      && t.book.waiting == s.book.waiting - {from}
      && (if Enrolls(s, mail) then
            t.m == Enrol(m, from, t.m.roster) && t.m.roster.Keys == m.roster.Keys + {from}
          else t.m == m)
  {
    hide Accept, Deny, Publish, AssignTo;
    var id := mail.from;
    var counted := s.(book := s.book.(failures := s.book.failures[id := s.book.Failures(id) + 1]));
    AnswerKeeps(s, id);
    AnswerKeeps(counted, id);
    var given := AssignTo(s.m.roster, id, mail.message.address);
    if given.Some? {
      AssignGrows(s.m.roster, id, mail.message.address);
      var enrolled := s.(m := Enrol(s.m, id, given.value.roster));
      AnswerKeeps(enrolled, id);
      AnswerKeeps(Publish(enrolled), id);
    }
  }

  lemma EnrolsOnly(s: State, mail: Mail)
    ensures Enrolls(s, mail) ==> mail.message.Auth? && s.m.IsCoordinator()
  {
  }

  /** Exactly what a message changes of a session's part in the network: the owner's OK gives it
      the code and makes the owner trusted; a LEAVE is recorded; and an AUTH that is admitted
      makes its sender a trusted member that isn't leaving, and no longer waits. */
  lemma HeardExactly(s: State, mail: Mail, x: SteamId)
    ensures var t := Receive(s, mail.from, mail.message);
      && t.m.code == (if TellsAccepted(s.m, mail) then mail.message.grant else s.m.code)
      && (x in t.m.trusted <==>
            x in s.m.trusted || (x == mail.from && (TellsAccepted(s.m, mail) || Enrolls(s, mail))))
      && (x in t.m.left <==>
            (x in s.m.left && !(x == mail.from && Enrolls(s, mail)))
            || (x == mail.from && mail.message.Leave? && x in s.m.roster))
      && (x in t.m.roster <==> x in s.m.roster || (x == mail.from && Enrolls(s, mail)))
      && t.book.waiting ==
         (if mail.message.Auth? && s.m.IsCoordinator() then s.book.waiting - {mail.from} else s.book.waiting)
  {
    hide Admit, Enrolls;
    if mail.message.Auth? && s.m.IsCoordinator() {
      AdmitHeard(s, mail);
    }
    EnrolsOnly(s, mail);
  }
}
