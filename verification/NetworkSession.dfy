/**
 One session of a network (src/steamlan/app/network.py): the class itself. Each method
 leaves the state its function in Membership names; `look` is what Steam shows it.
 */
module NetworkSession {
  import opened Basics
  import opened Ipv4
  import opened Roster
  import Access
  import M = Membership
  import Tunnel

  /** A message the lobby handed over. */
  datatype Message = Message(from: SteamId, data: Bytes)

  /** One message: a packet changes nothing of the membership, a control message does what
      `Receive` says, and anything else is ignored. */
  function Read(s: M.State, message: Message): M.State {
    if Tunnel.PacketPayload(message.data).Some? then s
    else
      match Access.ParseMessage(Tunnel.Characters(message.data))
      case None => s
      case Some(parsed) => M.Receive(s, message.from, parsed)
  }

  /** The packet of a message, if it is one the session's roster lets in. */
  function PacketOf(s: M.State, message: Message): Option<Bytes> {
    match Tunnel.PacketPayload(message.data)
    case None => None
    case Some(packet) =>
      if Tunnel.AcceptedBy(packet, s.m.roster, message.from, s.m.local).Some? then Some(packet) else None
  }

  function ReadAll(s: M.State, messages: seq<Message>): M.State
    decreases |messages|
  {
    if messages == [] then s else ReadAll(Read(s, messages[0]), messages[1..])
  }

  function PacketsOf(s: M.State, messages: seq<Message>): seq<Bytes>
    decreases |messages|
  {
    if messages == [] then []
    else
      (match PacketOf(s, messages[0]) case Some(packet) => [packet] case None => [])
      + PacketsOf(Read(s, messages[0]), messages[1..])
  }

  lemma PacketsNext(got: seq<Bytes>, s: M.State, messages: seq<Message>)
    requires messages != []
    ensures got + PacketsOf(s, messages) ==
      (got + match PacketOf(s, messages[0]) case Some(packet) => [packet] case None => [])
      + PacketsOf(Read(s, messages[0]), messages[1..])
  {
    hide Read, PacketOf;
  }

  /** The control messages among what was handed over, in order. */
  function MailOf(messages: seq<Message>): seq<M.Mail>
    decreases |messages|
  {
    if messages == [] then []
    else
      var parsed := Access.ParseMessage(Tunnel.Characters(messages[0].data));
      (if Tunnel.PacketPayload(messages[0].data).None? && parsed.Some? then [M.Mail(messages[0].from, parsed.value)]
       else [])
      + MailOf(messages[1..])
  }

  /** Packets and anything unparsable leave no trace: reading a batch is receiving its
      control messages in order. */
  lemma {:induction false} ReadIsRun(s: M.State, messages: seq<Message>)
    ensures ReadAll(s, messages) == M.Run(s, M.Deliveries(MailOf(messages)))
    decreases |messages|
  {
    if messages != [] {
      var first, rest := messages[0], MailOf(messages[1..]);
      var parsed := Access.ParseMessage(Tunnel.Characters(first.data));
      ReadIsRun(Read(s, first), messages[1..]);
      if Tunnel.PacketPayload(first.data).None? && parsed.Some? {
        var mail := MailOf(messages);
        assert mail[1..] == rest;
        assert M.Deliveries(mail)[1..] == M.Deliveries(rest);
      } else {
        assert MailOf(messages) == rest;
      }
    }
  }

  /** `process`, once the lobby has handed the messages over: the functions of Membership,
      so all that holds over its runs holds here. */
  function Processed(s: M.State, messages: seq<Message>): M.State { M.Process(s, MailOf(messages)) }

  /** A call of `process` is a run: it receives the control messages in order, and unless the
      session is on hold it then follows the owner and acts on what it finds. */
  lemma ProcessIsRun(s: M.State, messages: seq<Message>)
    ensures Processed(s, messages) ==
      M.Run(s, M.Deliveries(MailOf(messages)) + if s.m.suspended then [] else [M.Syncs, M.Acts])
  {
    var mail := MailOf(messages);
    M.ReadingHolds(s, mail);
    M.RunConcat(s, M.Deliveries(mail), if s.m.suspended then [] else [M.Syncs, M.Acts]);
  }

  ghost predicate Genuine(s: M.State, messages: seq<Message>) {
    forall i :: 0 <= i < |messages| ==> IsId(messages[i].from) && messages[i].from != s.m.local
  }

  /** Reading a message never changes whether this session is a member, nor its address. */
  lemma ReadKeepsPlace(s: M.State, message: Message)
    requires M.Good(s.m) && IsId(message.from) && message.from != s.m.local
    ensures var t := Read(s, message);
      && M.Good(t.m) && t.m.local == s.m.local
      && Tunnel.AddressIn(t.m.roster, s.m.local) == Tunnel.AddressIn(s.m.roster, s.m.local)
  {
    var parsed := Access.ParseMessage(Tunnel.Characters(message.data));
    if Tunnel.PacketPayload(message.data).None? && parsed.Some? {
      M.StepKeeps(s, M.Received(message.from, parsed.value));
      if parsed.value.Auth? && s.m.IsCoordinator() {
        M.AdmitSplit(s, message.from, parsed.value.code, parsed.value.address);
        AssignKeeps(s.m.roster, message.from, parsed.value.address);
      }
    }
  }

  /** What may reach this member's Windows and goes no further. */
  predicate ForUs(packet: Bytes, address: Option<Address>) {
    address.Some? && Tunnel.MayWrite(packet, address.value) && Tunnel.Outgoing(packet, address).None?
  }

  lemma KeptOne(s: M.State, message: Message, packet: Bytes)
    requires PacketOf(s, message) == Some(packet)
    ensures ForUs(packet, Tunnel.AddressIn(s.m.roster, s.m.local))
  {
  }

  /** Every packet a call of `process` keeps for the adapter is one that the elevated helper
      at this session's address writes, and that this session would never send on. */
  lemma {:induction false} KeptPackets(s: M.State, messages: seq<Message>)
    requires M.Good(s.m) && Genuine(s, messages)
    ensures forall i :: 0 <= i < |PacketsOf(s, messages)| ==>
      ForUs(PacketsOf(s, messages)[i], Tunnel.AddressIn(s.m.roster, s.m.local))
    decreases |messages|
  {
    hide M.Good, Read, PacketOf, ForUs, Tunnel.AddressIn;
    if messages != [] {
      var first := PacketOf(s, messages[0]);
      var rest := PacketsOf(Read(s, messages[0]), messages[1..]);
      ReadKeepsPlace(s, messages[0]);
      KeptPackets(Read(s, messages[0]), messages[1..]);
      if first.Some? {
        KeptOne(s, messages[0], first.value);
        assert PacketsOf(s, messages) == [first.value] + rest;
      } else {
        assert PacketsOf(s, messages) == rest;
      }
    }
  }

  /** On the bytes: the message holds a packet from the address of the other member that sent
      it, for this session's address or for all. */
  predicate IsForUs(m: M.Member, message: Message) {
    var from, data := message.from, message.data;
    && data != [] && data[0] == Tunnel.PACKET_PREFIX
    && from != m.local && from in m.roster && m.local in m.roster
    && Tunnel.Deliverable(data[1..], m.roster[m.local]) && data[1..][12..16] == Packed(m.roster[from])
    && Tunnel.GoesTo(data[1..][16..20]).Some?
  }

  lemma KeptOneExactly(s: M.State, message: Message)
    ensures PacketOf(s, message) == if IsForUs(s.m, message) then Some(message.data[1..]) else None
  {
    hide Tunnel.Deliverable, Tunnel.GoesTo, Packed;
    var from, data := message.from, message.data;
    if Tunnel.PacketPayload(data).Some? && s.m.local in s.m.roster && from in s.m.roster {
      Tunnel.AcceptsExactly(data[1..], s.m.roster[from], s.m.roster[s.m.local]);
      Tunnel.DeliverableFits(data[1..], s.m.roster[s.m.local]);
    }
    if Tunnel.PacketPayload(data).Some? && s.m.local in s.m.roster {
      Tunnel.AcceptsExactly(data[1..], s.m.roster[s.m.local], s.m.roster[s.m.local]);
    }
  }

  lemma {:induction false} PacketsLast(s: M.State, messages: seq<Message>, last: Message)
    ensures PacketsOf(s, messages + [last]) ==
      PacketsOf(s, messages) + match PacketOf(ReadAll(s, messages), last) case Some(packet) => [packet] case None => []
    decreases |messages|
  {
    hide Read, PacketOf;
    if messages == [] {
      assert [last][1..] == [] && messages + [last] == [last];
    } else {
      assert (messages + [last])[1..] == messages[1..] + [last];
      PacketsLast(Read(s, messages[0]), messages[1..], last);
    }
  }

  /** Exactly which packets of a call are kept for the adapter: those for this session by the
      roster it has at their turn, unchanged and in order. */
  lemma KeptExactly(s: M.State, messages: seq<Message>, last: Message)
    ensures PacketsOf(s, messages + [last]) == PacketsOf(s, messages) +
      if IsForUs(M.Run(s, M.Deliveries(MailOf(messages))).m, last) then [last.data[1..]] else []
  {
    hide PacketOf, IsForUs, PacketsOf;
    PacketsLast(s, messages, last);
    ReadIsRun(s, messages);
    KeptOneExactly(ReadAll(s, messages), last);
  }

  lemma {:induction false} MailGenuine(s: M.State, messages: seq<Message>)
    requires Genuine(s, messages)
    ensures forall i :: 0 <= i < |M.Deliveries(MailOf(messages))| ==> M.Genuine(s.m, M.Deliveries(MailOf(messages))[i])
    decreases |messages|
  {
    if messages != [] {
      MailGenuine(s, messages[1..]);
      var rest := MailOf(messages[1..]);
      forall i | 0 <= i < |rest| ensures IsId(rest[i].from) && rest[i].from != s.m.local {
        assert M.Genuine(s.m, M.Deliveries(rest)[i]);
      }
    }
  }

  /** Whatever a session is handed in one call, its roster stays one-to-one and it keeps
      its address. */
  lemma ProcessKeeps(s: M.State, messages: seq<Message>)
    requires M.Good(s.m) && Genuine(s, messages)
    ensures M.Good(Processed(s, messages).m) && M.KeepsPlace(s.m, Processed(s, messages).m)
  {
    var mail := MailOf(messages);
    var read := M.Deliveries(mail);
    MailGenuine(s, messages);
    M.RunKeeps(s, read);
    if !M.Run(s, read).m.suspended {
      M.RunKeeps(M.Run(s, read), [M.Syncs, M.Acts]);
    }
  }

  // Loops over members

  lemma ToAllOne(ids: set<SteamId>, id: SteamId, message: Access.Message)
    requires id !in ids
    ensures M.ToAll(ids + {id}, message) == M.ToAll(ids, message) + multiset{M.Sent(id, message)}
  {
  }

  /** What the loop over strangers has done once it has passed those in done. */
  function Dismissing(s: M.State, done: set<SteamId>): M.State {
    var book, gone := s.book, M.Late(s) * done;
    s.(book := book.(waiting := map id | id in book.waiting.Keys + done - gone :: book.Since(id, s.look.now)),
       sent := s.sent + M.ToAll(gone, Access.Denied),
       look := s.look.(connected := s.look.connected - gone))
  }

  function Strangers(s: M.State): set<SteamId> { s.look.connected - s.m.roster.Keys }

  function Noted(s: M.State, id: SteamId): M.State {
    s.(book := s.book.(waiting := s.book.waiting[id := s.book.Since(id, s.look.now)]))
  }

  lemma DismissingNone(s: M.State)
    ensures Dismissing(s, {}) == s
  {
  }

  lemma DismissingOne(s: M.State, done: set<SteamId>, id: SteamId)
    requires id in Strangers(s) && id !in done
    ensures Dismissing(s, done + {id}) ==
      if id in M.Late(s) then M.Deny(Noted(Dismissing(s, done), id), id) else Noted(Dismissing(s, done), id)
    ensures id in M.Late(s) <==> s.look.now - Dismissing(s, done).book.Since(id, s.look.now) > M.AUTH_TIMEOUT
    ensures id in Dismissing(s, done).look.connected && Dismissing(s, done).look.now == s.look.now
  {
    var late := M.Late(s);
    if id in late {
      assert late * (done + {id}) == late * done + {id};
      ToAllOne(late * done, id, Access.Denied);
    } else {
      assert late * (done + {id}) == late * done;
    }
  }

  lemma DismissingAll(s: M.State)
    ensures var t := Dismissing(s, Strangers(s));
      M.DismissLate(s) == t.(book := t.book.(
        waiting := map id | id in t.book.waiting && id in s.look.connected :: t.book.waiting[id]))
  {
  }

  lemma ReceiveHold(s: M.State, mail: M.Mail)
    ensures M.Receive(s, mail.from, mail.message).m.suspended == s.m.suspended
  {
  }

  lemma {:induction false} ReadHold(s: M.State, batch: seq<M.Mail>)
    ensures M.Run(s, M.Deliveries(batch)).m.suspended == s.m.suspended
    decreases |batch|
  {
    hide M.Receive;
    if batch != [] {
      var one := M.Receive(s, batch[0].from, batch[0].message);
      assert M.Deliveries(batch)[1..] == M.Deliveries(batch[1..]);
      ReceiveHold(s, batch[0]);
      ReadHold(one, batch[1..]);
    }
  }

  lemma SuspendIs(s: M.State)
    ensures M.Step(s, M.Suspends) == s.(m := s.m.(suspended := true))
  {
  }

  lemma ResumeIs(s: M.State)
    ensures M.Step(s, M.Resumes) ==
      s.(m := s.m.(suspended := false),
         book := if s.m.Joined() then s.book else s.book.(refused := "", authSentTo := 0))
  {
  }

  /** Steam says that a member left the lobby or came, or lost its connection to Steam. */
  datatype Departure = Departure(id: SteamId, disconnected: bool)

  /** The members lost to Steam, after what it said of the others. */
  function LostAfter(lost: set<SteamId>, local: SteamId, events: seq<Departure>): set<SteamId>
    decreases |events|
  {
    if events == [] then lost
    else
      var e := events[0];
      LostAfter(if e.id == local then lost else if e.disconnected then lost + {e.id}
          else lost - {e.id}, local, events[1..])
  }

  /** Lost is exactly whose last news was that, or who was lost and of whom there was none. */
  lemma {:induction false} LostExactly(lost: set<SteamId>, local: SteamId, events: seq<Departure>, x: SteamId)
    requires x != local
    ensures x in LostAfter(lost, local, events) <==>
      || (exists i :: 0 <= i < |events| && events[i] == Departure(x, true)
            && forall j :: i < j < |events| ==> events[j].id != x)
      || (x in lost && forall i :: 0 <= i < |events| ==> events[i].id != x)
    decreases |events|
  {
    if events != [] {
      var e, rest := events[0], events[1..];
      var now := if e.id == local then lost else if e.disconnected then lost + {e.id} else lost - {e.id};
      LostExactly(now, local, rest, x);
      assert forall i :: 1 <= i < |events| ==> events[i] == rest[i - 1];
      if i :| 0 <= i < |rest| && rest[i] == Departure(x, true) && forall j :: i < j < |rest| ==> rest[j].id != x {
        assert events[i + 1] == Departure(x, true);
      }
      if i :| 0 <= i < |events| && events[i] == Departure(x, true) && forall j :: i < j < |events| ==>
        events[j].id != x {
        assert i > 0 ==> rest[i - 1] == Departure(x, true);
      }
    }
  }

  class NetworkSession {
    const local: SteamId
    const known: Roster
    const preferred: Option<Address>
    var roster: Roster
    var trusted: set<SteamId>
    var left: set<SteamId>
    var coordinator: SteamId
    var code: string
    var suspended: bool
    var refused: string
    var failures: map<SteamId, nat>
    var waiting: map<SteamId, real>
    var authSentTo: SteamId
    var authSentAt: real
    var handedOffAt: Option<real>
    var packets: seq<Bytes>  // for the local adapter
    var look: M.Look
    var lost: set<SteamId>  // members that lost their connection to Steam
    var paused: bool  // the connections to the others
    var measured: set<SteamId>  // whom the latency tracker follows
    ghost var sent: multiset<M.Sent>
    ghost var handOffs: seq<M.HandOff>

    /** What isn't part of the membership. */
    ghost function Aside(): (set<SteamId>, bool, set<SteamId>)
      reads this
    {
      (lost, paused, measured)
    }

    ghost function Part(): M.Member
      reads this
    {
      M.Member(local, known, roster, trusted, left, coordinator, code, suspended)
    }

    ghost function Book(): M.Book
      reads this
    {
      M.Book(preferred, refused, failures, waiting, authSentTo, authSentAt, handedOffAt)
    }

    ghost function State(): M.State
      reads this
    {
      M.State(Part(), Book(), look, sent, handOffs)
    }

    predicate Joined()
      reads this
    {
      local in roster
    }

    predicate IsCoordinator()
      reads this
    {
      Joined() && coordinator == local
    }

    constructor (local: SteamId, code: string, known: Roster, preferred: Option<Address>, look: M.Look)
      ensures this.look == look && packets == [] && Aside() == ({}, false, {})
      ensures State() == M.State(
        M.Sync(M.Start(local, code, known), look.owner, look.text), M.EmptyBook(preferred), look, multiset{}, [])
    {
      this.local, this.known, this.preferred, this.code, this.look := local, known, preferred, code, look;
      roster := if known.Keys == {local} then known else map[];
      trusted, left, coordinator, suspended := known.Keys, {}, 0, false;
      refused, failures, waiting := "", map[], map[];
      authSentTo, authSentAt, handedOffAt, packets := 0, 0.0, None, [];
      lost, paused, measured := {}, false, {};
      sent, handOffs := multiset{}, [];
      new;
      Sync();
    }

    /** Follow Steam's lobby owner and take the roster it wrote, if trusted. */
    method Sync()
      modifies `coordinator, `roster, `trusted, `left
      ensures State() == old(State()).(m := M.Sync(old(Part()), look.owner, look.text))
    {
      if look.owner.None? {
        return;
      }
      var owner, previous := look.owner.value, coordinator;
      coordinator := owner;
      if owner == local && Joined() {
        if previous != owner && previous in trusted {
          TakeRoster(previous);
        }
        return;
      }
      TakeRoster(owner);
      if owner == local && !Joined() && local in known && look.text == "" {
        roster := known;
      }
    }

    method TakeRoster(writer: SteamId)
      modifies `roster, `trusted, `left
      ensures State() == old(State()).(m := M.TakeRoster(old(Part()), look.text, writer))
    {
      hide Encode, Decode;
      if writer == 0 || writer !in trusted {
        return;
      }
      if look.text == "" || look.text == Encode(roster) {
        return;
      }
      var members := DecodeText(look.text);
      if members.None? || (local in roster && !(local in members.value && members.value[local] == roster[local])) {
        return;
      }
      left := left - (members.value.Keys - roster.Keys);
      left := left * members.value.Keys;
      roster := members.value;
      trusted := trusted + members.value.Keys;
    }

    method Publish()
      modifies `look
      ensures State() == M.Publish(old(State()))
    {
      var text := Encode(roster);
      if look.text == text {
        return;
      }
      if look.writable {
        look := look.(text := text);
      }
    }

    /** `lobby.send`, its error ignored. */
    method Send(to: SteamId, message: Access.Message)
      modifies `sent
      ensures State() == M.Send(old(State()), to, message)
    {
      if to in look.connected {
        sent := sent + multiset{M.Sent(to, message)};
      }
    }

    method Accept(id: SteamId)
      modifies `waiting, `sent
      ensures State() == M.Accept(old(State()), id)
    {
      waiting := waiting - {id};
      Send(id, Access.Accepted(code));
    }

    /** Answers, then disconnects. */
    method Deny(id: SteamId)
      modifies `waiting, `sent, `look
      ensures State() == M.Deny(old(State()), id)
    {
      waiting := waiting - {id};
      Send(id, Access.Denied);
      look := look.(connected := look.connected - {id});
    }

    method Admit(id: SteamId, given: string, address: Option<Address>)
      modifies `waiting, `sent, `look, `failures, `roster, `left, `trusted
      ensures State() == M.Admit(old(State()), id, given, address)
    {
      hide M.Accept, M.Deny, M.Publish, M.Enrol, AssignTo;
      if id in roster {
        Accept(id);
        return;
      }
      var tries := if id in failures then failures[id] else 0;
      if tries >= M.MAX_FAILURES {
        Deny(id);
        return;
      }
      if code == "" || given != code {
        failures := failures[id := tries + 1];
        Deny(id);
        return;
      }
      var place := Assign(roster, id, address);
      if place.None? {
        Deny(id);
        return;
      }
      Welcome(id, place.value.roster);
    }

    method Welcome(id: SteamId, members: Roster)
      modifies `waiting, `sent, `look, `roster, `left, `trusted
      ensures State() == M.Accept(M.Publish(old(State()).(m := M.Enrol(old(Part()), id, members))), id)
    {
      hide M.Accept, M.Publish;
      roster := members;
      left := left - {id};
      trusted := trusted + {id};
      Publish();
      Accept(id);
    }

    /** One control message. */
    method Receive(from: SteamId, message: Access.Message)
      modifies this
      ensures State() == M.Receive(old(State()), from, message) && packets == old(packets) && Aside() == old(Aside())
    {
      hide M.Admit, M.Send;
      match message
      case Ping(n) => Send(from, Access.Pong(n));
      case Pong(_) =>
      case Auth(given, address) =>
        if IsCoordinator() {
          Admit(from, given, address);
        }
      case _ => Note(from, message);
    }

    /** A message that needs no answer. */
    method Note(from: SteamId, message: Access.Message)
      requires message.Leave? || message.Accepted? || message.Denied?
      modifies `left, `trusted, `code, `refused
      ensures State() == M.Receive(old(State()), from, message)
    {
      if message.Leave? {
        if from in roster {
          left := left + {from};
        }
      } else if from == coordinator && !IsCoordinator() {
        if message.Accepted? {
          trusted := trusted + {from};
          code := message.grant;
        } else if !Joined() {
          refused := if code != "" then M.WRONG_CODE else M.NO_CODE;
        }
      }
    }

    /** A packet from a member is kept for the local adapter only if its source is that
        member's address and it is for this member or for everybody. */
    method ReceivePacket(from: SteamId, packet: Bytes)
      modifies `packets
      ensures State() == old(State())
      ensures packets == old(packets) + if Tunnel.AcceptedBy(packet, roster, from, local).Some? then [packet] else []
    {
      var sender := if from != local then Tunnel.AddressIn(roster, from) else None;
      if Tunnel.AcceptsPacket(packet, sender, Tunnel.AddressIn(roster, local)).Some? {
        packets := packets + [packet];
      }
    }

    method ReadMessages(messages: seq<Message>)
      modifies this
      ensures State() == ReadAll(old(State()), messages) && Aside() == old(Aside())
      ensures packets == old(packets) + PacketsOf(old(State()), messages)
    {
      for i := 0 to |messages|
        invariant ReadAll(State(), messages[i..]) == old(ReadAll(State(), messages)) && Aside() == old(Aside())
        invariant packets + PacketsOf(State(), messages[i..]) == old(packets) + old(PacketsOf(State(), messages))
      {
        ghost var s, before := State(), packets;
        assert messages[i..][1..] == messages[i + 1..];
        ReadOne(messages[i]);
        PacketsNext(before, s, messages[i..]);
      }
    }

    method ReadOne(message: Message)
      modifies this
      ensures State() == Read(old(State()), message) && Aside() == old(Aside())
      ensures packets == old(packets) +
        match PacketOf(old(State()), message) case Some(packet) => [packet] case None => []
    {
      var packet := Tunnel.PacketPayload(message.data);
      if packet.Some? {
        ReceivePacket(message.from, packet.value);
        return;
      }
      var parsed := Access.ParseMessage(Tunnel.Characters(message.data));
      if parsed.Some? {
        Receive(message.from, parsed.value);
      }
    }

    /** What Steam said of the others. */
    method NoteDepartures(events: seq<Departure>)
      modifies `lost
      ensures lost == LostAfter(old(lost), local, events)
    {
      for i := 0 to |events|
        invariant LostAfter(lost, local, events[i..]) == LostAfter(old(lost), local, events)
      {
        var e := events[i];
        assert events[i..][1..] == events[i + 1..];
        if e.id == local {
          continue;
        }
        if e.disconnected {
          lost := lost + {e.id};
        } else {
          lost := lost - {e.id};
        }
      }
    }

    method Process(messages: seq<Message>, events: seq<Departure>)
      modifies this
      ensures State() == Processed(old(State()), messages)
      ensures packets == old(packets) + PacketsOf(old(State()), messages)
      ensures Aside() ==
        if old(suspended) then old(Aside())
        else (LostAfter(old(lost), local, events), old(paused), look.connected * roster.Keys)
    {
      hide M.Act, M.Sync, M.Run;
      if !suspended {
        NoteDepartures(events);
      }
      ReadIsRun(State(), messages);
      ReadHold(State(), MailOf(messages));
      ReadMessages(messages);
      if suspended {
        return;
      }
      ghost var s := State();
      M.RunSyncAct(s);
      Sync();
      Act();
      measured := look.connected * roster.Keys;
    }

    method Act()
      modifies this
      ensures State() == M.Act(old(State())) && packets == old(packets) && Aside() == old(Aside())
    {
      hide M.Coordinate, M.HandOver, M.Check;
      if IsCoordinator() {
        Coordinate();
      } else if coordinator == local {
        HandOff();
      } else {
        MemberChecks();
      }
    }

    method Coordinate()
      modifies `roster, `look, `waiting, `sent
      ensures State() == M.Coordinate(old(State()))
    {
      RemoveLeaving();
      Publish();
      DismissLate();
    }

    method RemoveLeaving()
      modifies `roster
      ensures State() == old(State()).(m := M.CoordinateMember(old(Part())))
    {
      var todo := left * roster.Keys;
      ghost var was, all := roster, todo;
      while todo != {}
        invariant todo <= all && roster == was - (all - todo - {local})
        decreases todo
      {
        var id :| id in todo;
        todo := todo - {id};
        if id != local {
          roster := roster - {id};
        }
      }
      assert all - {} - {local} == M.Leaving(old(Part()));
    }

    method DismissLate()
      modifies `look, `waiting, `sent
      ensures State() == M.DismissLate(old(State()))
    {
      hide Dismissing, Strangers, M.DismissLate;
      ghost var s := State();
      var connected := look.connected;
      DenyLate();
      DismissingAll(s);
      waiting := map id | id in waiting && id in connected :: waiting[id];
    }

    method DenyLate()
      modifies `look, `waiting, `sent
      ensures State() == Dismissing(old(State()), Strangers(old(State())))
    {
      hide Dismissing, M.Deny, Noted, M.Late;
      ghost var s := State();
      var todo := look.connected - roster.Keys;
      DismissingNone(s);
      assert Strangers(s) - todo == {};
      while todo != {}
        invariant todo <= Strangers(s)
        invariant State() == Dismissing(s, Strangers(s) - todo)
        decreases todo
      {
        var id :| id in todo;
        DismissingOne(s, Strangers(s) - todo, id);
        assert Strangers(s) - (todo - {id}) == Strangers(s) - todo + {id};
        todo := todo - {id};
        CheckStranger(id);
      }
      assert Strangers(s) - {} == Strangers(s);
    }

    method CheckStranger(id: SteamId)
      modifies `look, `waiting, `sent
      ensures State() ==
        if look.now - old(Book()).Since(id, look.now) > M.AUTH_TIMEOUT then M.Deny(Noted(old(State()), id), id)
        else Noted(old(State()), id)
      ensures look.now == old(look.now)
    {
      var since := if id in waiting then waiting[id] else look.now;
      waiting := waiting[id := since];
      if look.now - since > M.AUTH_TIMEOUT {
        Deny(id);
      }
    }

    /** This session owns the lobby without being a member: pass ownership to one. */
    method HandOff()
      modifies `refused, `handedOffAt, `handOffs
      ensures State() == M.HandOver(old(State()))
    {
      if handedOffAt.Some? && look.now - handedOffAt.value < M.HAND_OFF_INTERVAL {
        return;
      }
      var members := DecodeText(look.text);
      var online := members.GetOr(map[]).Keys * look.peers;
      if online == {} {
        refused := M.NO_MEMBERS_ONLINE;
        return;
      }
      handedOffAt := Some(look.now);
      handOffs := handOffs + [M.HandOff(look.now, Least(online))];
    }

    method MemberChecks()
      modifies `refused, `sent, `authSentTo, `authSentAt
      ensures State() == M.Check(old(State()))
    {
      if refused != "" || Joined() {
        return;
      }
      if coordinator != 0 && authSentTo != coordinator {
        if coordinator in look.connected {
          Send(coordinator, Access.Auth(code, preferred));
          authSentTo, authSentAt := coordinator, look.now;
        }
      } else if authSentTo != 0 && look.now - authSentAt > M.AUTH_TIMEOUT {
        refused := M.NO_ANSWER;
      }
    }

    method SendLeave()
      modifies `sent
      ensures State() == old(State()).(sent := old(sent) + M.ToAll(look.connected, Access.Leave))
    {
      var todo := look.connected;
      ghost var was := sent;
      assert M.ToAll(look.connected - todo, Access.Leave) == multiset{};
      while todo != {}
        invariant todo <= look.connected && sent == was + M.ToAll(look.connected - todo, Access.Leave)
        decreases todo
      {
        var id :| id in todo;
        ToAllOne(look.connected - todo, id, Access.Leave);
        assert look.connected - todo + {id} == look.connected - (todo - {id});
        Send(id, Access.Leave);
        todo := todo - {id};
      }
      assert look.connected - {} == look.connected;
    }

    /** True once the coordinator knows this member leaves, or there is nothing to tell. */
    method AnnounceLeave() returns (told: bool)
      modifies `roster, `look, `sent
      ensures (State(), told) == M.AnnounceLeave(old(State()))
    {
      if IsCoordinator() {
        roster := roster - {local};
        Publish();
        SendLeave();
        return true;
      }
      if !Joined() && coordinator == local {
        return true;
      }
      if coordinator in look.connected {
        SendLeave();
        return true;
      }
      return false;
    }

    /** On hold the connections are paused and no round trips are measured. */
    method Suspend()
      modifies `suspended, `paused, `measured
      ensures State() == M.Step(old(State()), M.Suspends)
      ensures Aside() == if old(suspended) then old(Aside()) else (lost, true, {})
    {
      hide M.Step;
      SuspendIs(State());
      if suspended {
        return;
      }
      suspended, paused, measured := true, true, {};
    }

    method Resume()
      modifies `suspended, `lost, `paused, `refused, `authSentTo
      ensures State() == M.Step(old(State()), M.Resumes) && Aside() == ({}, false, old(measured))
    {
      hide M.Step;
      ResumeIs(State());
      suspended, lost, paused := false, {}, false;
      if !Joined() {
        refused, authSentTo := "", 0;
      }
    }

    /** Sends a packet from the local adapter; the copies that went out. */
    method SendPacket(packet: Bytes) returns (copies: seq<SteamId>)
      ensures forall id :: id in copies <==> id in Tunnel.Copied(packet, roster, local, look.connected)
      ensures forall i, j :: 0 <= i < j < |copies| ==> copies[i] != copies[j]
    {
      var recipients := PickRecipients(packet);
      copies := [];
      for i := 0 to |recipients|
        invariant forall id :: id in copies <==> id in recipients[..i] && id in look.connected
        invariant forall k, j :: 0 <= k < j < |copies| ==> copies[k] != copies[j]
      {
        if recipients[i] in look.connected {
          copies := copies + [recipients[i]];
        }
      }
    }

    method PickRecipients(packet: Bytes) returns (ids: seq<SteamId>)
      ensures ids ==
        match Tunnel.DispatchOf(packet, roster, local, look.connected) case Recipients(_, picked) => picked case _ => []
      ensures forall i, j :: 0 <= i < j < |ids| ==> ids[i] != ids[j]
    {
      var info := Tunnel.Outgoing(packet, Tunnel.AddressIn(roster, local));
      if info.None? {
        return [];
      }
      if info.value.delivery == Some(Unicast) {
        var owners := set id | id in roster && roster[id] == info.value.destination && id != local;
        return if owners == {} then [] else [Least(owners)];
      }
      var others := set id | id in look.connected && id in roster && id != local;
      SortedAscends(others);
      ids := SortedIds(others);
    }
  }
}
