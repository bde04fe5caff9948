/**
 Round-trip times to the connected members (src/steamlan/app/latency.py). Times are
 readings of one clock that never goes back.
 */
module Latency {
  import opened Basics
  import opened Roster

  type Handle = nat

  const PING_INTERVAL := 2.0
  const PING_TIMEOUT := 6.0
  const MAX_PENDING := 4
  const SMOOTHING := 0.25
  const STALE_AFTER := 8.0

  datatype Peer = Peer(
    connection: Handle,
    nextPingAt: real,
    pending: map<nat, real>,
    rtt: Option<real>,
    sampledAt: real)

  function Fresh(connection: Handle, now: real): Peer { Peer(connection, now, map[], None, 0.0) }

  function Expire(p: Peer, now: real): Peer {
    p.(pending := map s | s in p.pending && now - p.pending[s] <= PING_TIMEOUT :: p.pending[s])
  }

  /** The peer after its PING with this number went out. */
  function Pinged(p: Peer, now: real, sequence: nat): Peer {
    p.(pending := p.pending[sequence := now], nextPingAt := now + PING_INTERVAL)
  }

  function Smoothed(rtt: Option<real>, sample: real): real {
    match rtt
    case None => sample
    case Some(r) => r + SMOOTHING * (sample - r)
  }

  /** A PING that went out. */
  datatype Ping = Ping(to: SteamId, connection: Handle, at: real)

  // Spacing

  /** Later numbers were sent at least PING_INTERVAL later, and the next one will be too. */
  ghost predicate Spaced(pending: map<nat, real>, next: real) {
    && (forall s, t :: (s in pending && t in pending && s < t) ==> pending[t] - pending[s] >= PING_INTERVAL)
    && (forall s :: s in pending ==> pending[s] + PING_INTERVAL <= next)
  }

  /** What is sent PING_INTERVAL apart within a span is few. */
  lemma {:induction false} SpacedIsFew(pending: map<nat, real>, from: real, n: nat)
    requires forall s, t :: (s in pending && t in pending && s < t) ==> pending[t] - pending[s] >= PING_INTERVAL
    requires forall s :: s in pending ==> from <= pending[s] <= from + PING_INTERVAL * (n as real - 1.0)
    ensures |pending| <= n
    decreases n
  {
    if pending != map[] {
      var first := Least(pending.Keys);
      var rest, later := pending - {first}, from + PING_INTERVAL;
      assert pending[first] >= from;
      forall s | s in rest ensures later <= rest[s] <= later + PING_INTERVAL * ((n - 1) as real - 1.0) {
        assert pending[s] - pending[first] >= PING_INTERVAL;
      }
      SpacedIsFew(rest, later, n - 1);
      assert rest.Keys == pending.Keys - {first};
    }
  }

  // The smoothed RTT

  /** No less than the least of the samples and no more than the greatest. */
  ghost predicate Within(rtt: real, samples: seq<real>) {
    && (exists i :: 0 <= i < |samples| && samples[i] <= rtt)
    && (exists i :: 0 <= i < |samples| && rtt <= samples[i])
  }

  lemma SmoothedWithin(rtt: Option<real>, samples: seq<real>, sample: real)
    requires rtt.Some? ==> Within(rtt.value, samples)
    ensures Within(Smoothed(rtt, sample), samples + [sample])
  {
    var more, r := samples + [sample], Smoothed(rtt, sample);
    assert more[|samples|] == sample;
    if rtt.Some? {
      var low :| 0 <= low < |samples| && samples[low] <= rtt.value;
      var high :| 0 <= high < |samples| && rtt.value <= samples[high];
      assert more[low] == samples[low] && more[high] == samples[high];
      assert if sample <= rtt.value then sample <= r <= rtt.value else rtt.value <= r <= sample;
    }
  }

  // The tracker as a value

  /** The PINGs that went out, those whose answer counted, and the samples each peer's
      present connection gave. */
  datatype Books = Books(issued: map<nat, Ping>, counted: set<nat>, samples: map<SteamId, seq<real>>)

  datatype Tracker = Tracker(
    peers: map<SteamId, Peer>,
    sequence: nat,  // the next number
    seen: real,  // the clock's last reading
    books: Books)

  const START := Tracker(map[], 1, 0.0, Books(map[], {}, map[]))

  function Samples(books: Books, id: SteamId): seq<real> { if id in books.samples then books.samples[id] else [] }

  predicate Stays(t: Tracker, id: SteamId, connection: Handle) { id in t.peers && t.peers[id].connection == connection }

  /** `track`: a new connection starts over, and who isn't connected is forgotten. */
  function Tracked(t: Tracker, connections: map<SteamId, Handle>, now: real): Tracker {
    t.(seen := now,
       peers := map id | id in connections ::
         if Stays(t, id, connections[id]) then t.peers[id] else Fresh(connections[id], now),
       books := t.books.(samples := map id | id in connections ::
         if Stays(t, id, connections[id]) then Samples(t.books, id) else []))
  }

  predicate Calls(p: Peer, now: real) { now >= p.nextPingAt }

  /** One turn of the loop in `due`. */
  function PingOne(t: Tracker, id: SteamId): Tracker
    requires id in t.peers
  {
    var p := Expire(t.peers[id], t.seen);
    if !Calls(p, t.seen) then t.(peers := t.peers[id := p])
    else
      t.(peers := t.peers[id := Pinged(p, t.seen, t.sequence)],
         sequence := t.sequence + 1,
         books := t.books.(issued := t.books.issued[t.sequence := Ping(id, p.connection, t.seen)]))
  }

  /** The loop in `due`, over the peers in the order of the dict. */
  function PingAll(t: Tracker, order: seq<SteamId>): Tracker
    requires forall i :: 0 <= i < |order| ==> order[i] in t.peers
    decreases |order|
  {
    if order == [] then t else PingAll(PingOne(t, order[0]), order[1..])
  }

  function Pings(t: Tracker, order: seq<SteamId>): seq<(SteamId, nat)>
    requires forall i :: 0 <= i < |order| ==> order[i] in t.peers
    decreases |order|
  {
    if order == [] then []
    else
      (if Calls(t.peers[order[0]], t.seen) then [(order[0], t.sequence)] else [])
      + Pings(PingOne(t, order[0]), order[1..])
  }

  predicate Answers(t: Tracker, id: SteamId, number: nat, now: real) {
    id in t.peers && number in Expire(t.peers[id], now).pending
  }

  /** `pong`: an answer counts only if its PING still waits. */
  function Ponged(t: Tracker, id: SteamId, number: nat, now: real): Tracker {
    if id !in t.peers then t.(seen := now)
    else
      var p := Expire(t.peers[id], now);
      if number !in p.pending then t.(seen := now, peers := t.peers[id := p])
      else
        var sample := now - p.pending[number];
        t.(seen := now,
           peers := t.peers[id := p.(
             pending := p.pending - {number},
             rtt := Some(Smoothed(p.rtt, sample)),
             sampledAt := now)],
           books := t.books.(
             counted := t.books.counted + {number},
             samples := t.books.samples[id := Samples(t.books, id) + [sample]]))
  }

  // What every call keeps

  ghost predicate Known(pending: map<nat, real>, id: SteamId, connection: Handle, sequence: nat, seen: real,
                        books: Books) {
    forall s :: s in pending ==>
      && s < sequence && s !in books.counted && pending[s] <= seen
      && s in books.issued && books.issued[s] == Ping(id, connection, pending[s])
  }

  ghost predicate Sampled(rtt: Option<real>, samples: seq<real>) {
    && (rtt.Some? <==> samples != [])
    && (rtt.Some? ==> Within(rtt.value, samples))
    && (forall i :: 0 <= i < |samples| ==> 0.0 <= samples[i] <= PING_TIMEOUT)
  }

  ghost predicate PeerOk(t: Tracker, id: SteamId)
    requires id in t.peers
  {
    var p := t.peers[id];
    && Spaced(p.pending, p.nextPingAt) && |p.pending| <= MAX_PENDING
    && Known(p.pending, id, p.connection, t.sequence, t.seen, t.books)
    && Sampled(p.rtt, Samples(t.books, id))
  }

  ghost predicate Sound(t: Tracker) {
    && (forall id :: id in t.peers ==> PeerOk(t, id))
    && (forall s :: s in t.books.issued ==> s < t.sequence)
    && t.books.counted <= t.books.issued.Keys
  }

  lemma StartOk()
    ensures Sound(START)
  {
  }

  lemma TrackKeeps(t: Tracker, connections: map<SteamId, Handle>, now: real)
    requires Sound(t) && now >= t.seen
    ensures Sound(Tracked(t, connections, now))
  {
    var u := Tracked(t, connections, now);
    forall id | id in u.peers ensures PeerOk(u, id) {
      assert Stays(t, id, connections[id]) ==> PeerOk(t, id);
    }
  }

  lemma ExpireSame(p: Peer, now: real)
    ensures Expire(p, now) == p.(pending := Expire(p, now).pending)
  {
  }

  /** A PING to somebody else. */
  lemma KnownAlso(pending: map<nat, real>, id: SteamId, connection: Handle, sequence: nat, seen: real, books: Books,
                  other: Ping)
    requires Known(pending, id, connection, sequence, seen, books)
    ensures Known(pending, id, connection, sequence + 1, seen, books.(issued := books.issued[sequence := other]))
  {
  }

  lemma SoundPeer(t: Tracker, id: SteamId)
    requires Sound(t) && id in t.peers
    ensures PeerOk(t, id)
  {
  }

  lemma OtherKeeps(t: Tracker, id: SteamId, x: SteamId)
    requires Sound(t) && id in t.peers && x in t.peers && x != id
    ensures PeerOk(PingOne(t, id), x)
  {
    hide Spaced, Sampled, Sound, Known, Expire;
    SoundPeer(t, x);
    KnownAlso(t.peers[x].pending, x, t.peers[x].connection, t.sequence, t.seen, t.books,
        Ping(id, t.peers[id].connection, t.seen));
    ExpireSame(t.peers[id], t.seen);
  }

  lemma KnownBefore(pending: map<nat, real>, id: SteamId, connection: Handle, sequence: nat, seen: real, books: Books)
    requires Known(pending, id, connection, sequence, seen, books)
    ensures forall s :: s in pending ==> s < sequence && pending[s] <= seen
  {
  }

  lemma KnownExpired(p: Peer, id: SteamId, sequence: nat, seen: real, now: real, books: Books)
    requires Known(p.pending, id, p.connection, sequence, seen, books) && now >= seen
    ensures Known(Expire(p, now).pending, id, p.connection, sequence, now, books)
  {
  }

  lemma KnownPinged(pending: map<nat, real>, id: SteamId, connection: Handle, sequence: nat, seen: real, books: Books)
    requires Known(pending, id, connection, sequence, seen, books) && sequence !in books.counted
    ensures Known(pending[sequence := seen], id, connection, sequence + 1, seen,
              books.(issued := books.issued[sequence := Ping(id, connection, seen)]))
  {
  }

  lemma NewNumber(t: Tracker)
    requires Sound(t)
    ensures t.sequence !in t.books.issued && t.sequence !in t.books.counted
  {
  }

  lemma {:induction false} FewerKeys(a: set<nat>, b: set<nat>)
    requires a <= b
    ensures |a| <= |b|
  {
    if a != {} {
      var x :| x in a;
      FewerKeys(a - {x}, b - {x});
    }
  }

  lemma FewPending(p: Peer, now: real)
    requires Spaced(p.pending, p.nextPingAt) && |p.pending| <= MAX_PENDING
    ensures Spaced(Expire(p, now).pending, p.nextPingAt) && |Expire(p, now).pending| <= MAX_PENDING
  {
    assert Expire(p, now).pending.Keys <= p.pending.Keys;
    FewerKeys(Expire(p, now).pending.Keys, p.pending.Keys);
  }

  /** With a new PING sent, at most MAX_PENDING wait: trimming never removes any. */
  lemma FewPinged(p: Peer, now: real, sequence: nat)
    requires Spaced(p.pending, p.nextPingAt) && now >= p.nextPingAt
    requires forall s :: s in p.pending ==> s < sequence && p.pending[s] <= now
    ensures var after := Pinged(Expire(p, now), now, sequence);
      Spaced(after.pending, after.nextPingAt) && |after.pending| <= MAX_PENDING
  {
    SpacedIsFew(Pinged(Expire(p, now), now, sequence).pending, now - PING_TIMEOUT, MAX_PENDING);
  }

  lemma PingOneOwn(t: Tracker, id: SteamId)
    requires Sound(t) && id in t.peers
    ensures PeerOk(PingOne(t, id), id)
  {
    hide Sampled, Spaced, Sound, Known;
    assert PeerOk(t, id) by { SoundPeer(t, id); }
    var p := t.peers[id];
    FewPending(p, t.seen);
    KnownExpired(p, id, t.sequence, t.seen, t.seen, t.books);
    if Calls(p, t.seen) {
      KnownBefore(p.pending, id, p.connection, t.sequence, t.seen, t.books);
      FewPinged(p, t.seen, t.sequence);
      NewNumber(t);
      KnownPinged(Expire(p, t.seen).pending, id, p.connection, t.sequence, t.seen, t.books);
    }
  }

  lemma PingOneKeeps(t: Tracker, id: SteamId)
    requires Sound(t) && id in t.peers
    ensures Sound(PingOne(t, id))
  {
    var u := PingOne(t, id);
    assert PeerOk(t, id);
    forall x | x in u.peers ensures PeerOk(u, x) {
      if x == id {
        PingOneOwn(t, id);
      } else {
        assert PeerOk(t, x);
        OtherKeeps(t, id, x);
      }
    }
  }

  lemma KnownPonged(pending: map<nat, real>, id: SteamId, connection: Handle, sequence: nat, seen: real, books: Books,
                    number: nat, samples: map<SteamId, seq<real>>)
    requires Known(pending, id, connection, sequence, seen, books)
    ensures Known(pending - {number}, id, connection, sequence, seen,
              books.(counted := books.counted + {number}, samples := samples))
  {
  }

  lemma {:induction false} PingAllKeeps(t: Tracker, order: seq<SteamId>)
    requires Sound(t) && forall i :: 0 <= i < |order| ==> order[i] in t.peers
    ensures Sound(PingAll(t, order))
    decreases |order|
  {
    hide Sound;
    if order != [] {
      PingOneKeeps(t, order[0]);
      PingAllKeeps(PingOne(t, order[0]), order[1..]);
    }
  }

  lemma PendingIssued(t: Tracker, id: SteamId)
    requires id in t.peers && PeerOk(t, id)
    ensures forall s :: s in t.peers[id].pending ==> s in t.books.issued && t.books.issued[s].to == id
  {
  }

  lemma KnownLater(pending: map<nat, real>, id: SteamId, connection: Handle, sequence: nat, seen: real, now: real,
                   books: Books)
    requires Known(pending, id, connection, sequence, seen, books) && now >= seen
    ensures Known(pending, id, connection, sequence, now, books)
  {
  }

  /** The answer of somebody else. */
  lemma KnownApart(pending: map<nat, real>, id: SteamId, connection: Handle, sequence: nat, seen: real, books: Books,
                   number: nat, samples: map<SteamId, seq<real>>)
    requires Known(pending, id, connection, sequence, seen, books)
    requires number in books.issued && books.issued[number].to != id
    ensures Known(pending, id, connection, sequence, seen,
              books.(counted := books.counted + {number}, samples := samples))
  {
  }

  lemma PongOther(t: Tracker, id: SteamId, number: nat, now: real, x: SteamId)
    requires Sound(t) && now >= t.seen && x in t.peers && x != id
    ensures PeerOk(Ponged(t, id, number, now), x)
  {
    hide Spaced, Sampled, Sound, Known, Smoothed;
    SoundPeer(t, x);
    var p := t.peers[x];
    KnownLater(p.pending, x, p.connection, t.sequence, t.seen, now, t.books);
    if Answers(t, id, number, now) {
      SoundPeer(t, id);
      PendingIssued(t, id);
      var sample := now - t.peers[id].pending[number];
      KnownApart(p.pending, x, p.connection, t.sequence, now, t.books, number,
          t.books.samples[id := Samples(t.books, id) + [sample]]);
    }
  }

  lemma PongSampled(rtt: Option<real>, samples: seq<real>, sample: real)
    requires Sampled(rtt, samples) && 0.0 <= sample <= PING_TIMEOUT
    ensures Sampled(Some(Smoothed(rtt, sample)), samples + [sample])
  {
    SmoothedWithin(rtt, samples, sample);
  }

  lemma FewerPending(pending: map<nat, real>, next: real, number: nat)
    requires Spaced(pending, next) && number in pending
    ensures Spaced(pending - {number}, next) && |pending - {number}| <= |pending|
  {
  }

  lemma PongOwn(t: Tracker, id: SteamId, number: nat, now: real)
    requires Sound(t) && now >= t.seen && id in t.peers
    ensures PeerOk(Ponged(t, id, number, now), id)
  {
    hide Sampled, Spaced, Sound, Smoothed, Known;
    assert PeerOk(t, id) by { SoundPeer(t, id); }
    var p := Expire(t.peers[id], now);
    FewPending(t.peers[id], now);
    KnownExpired(t.peers[id], id, t.sequence, t.seen, now, t.books);
    if number in p.pending {
      var samples := Samples(t.books, id) + [now - p.pending[number]];
      FewerPending(p.pending, p.nextPingAt, number);
      KnownPonged(p.pending, id, p.connection, t.sequence, now, t.books, number, t.books.samples[id := samples]);
      KnownBefore(p.pending, id, p.connection, t.sequence, now, t.books);
      PongSampled(p.rtt, Samples(t.books, id), now - p.pending[number]);
    }
  }

  lemma PongKeeps(t: Tracker, id: SteamId, number: nat, now: real)
    requires Sound(t) && now >= t.seen
    ensures Sound(Ponged(t, id, number, now))
  {
    hide PeerOk, Smoothed;
    var u := Ponged(t, id, number, now);
    forall x | x in u.peers ensures PeerOk(u, x) {
      if x == id {
        PongOwn(t, id, number, now);
      } else {
        PongOther(t, id, number, now, x);
      }
    }
    if id in t.peers {
      SoundPeer(t, id);
      PendingIssued(t, id);
    }
  }

  // What the calls do

  /** After `due` no PING is older than PING_TIMEOUT, so no more than MAX_PENDING wait. */
  lemma {:induction false} PingAllExpires(t: Tracker, order: seq<SteamId>, id: SteamId)
    requires forall i :: 0 <= i < |order| ==> order[i] in t.peers
    requires id in t.peers
    ensures PingAll(t, order).peers.Keys == t.peers.Keys && PingAll(t, order).seen == t.seen
    ensures id in order || (forall s :: s in t.peers[id].pending ==> t.seen - t.peers[id].pending[s] <= PING_TIMEOUT)
      ==> forall s :: s in PingAll(t, order).peers[id].pending ==>
        t.seen - PingAll(t, order).peers[id].pending[s] <= PING_TIMEOUT
    decreases |order|
  {
    if order != [] {
      PingAllExpires(PingOne(t, order[0]), order[1..], id);
    }
  }

  lemma IssuedBefore(t: Tracker)
    requires Sound(t)
    ensures forall s :: s in t.books.issued ==> s < t.sequence
  {
  }

  lemma PingOneNew(t: Tracker, id: SteamId)
    requires id in t.peers && forall s :: s in t.books.issued ==> s < t.sequence
    ensures var u := PingOne(t, id);
      && u.peers.Keys == t.peers.Keys && u.sequence == t.sequence + (if Calls(t.peers[id], t.seen) then 1 else 0)
      && forall s :: s in t.books.issued ==> s in u.books.issued && u.books.issued[s] == t.books.issued[s]
  {
  }

  /** The PINGs that go out have new numbers, in order, and go to peers whose time has
      come; each is on the books with its peer and connection. */
  lemma {:induction false} PingsAreNew(t: Tracker, order: seq<SteamId>)
    requires Sound(t) && forall i :: 0 <= i < |order| ==> order[i] in t.peers
    ensures PingAll(t, order).sequence == t.sequence + |Pings(t, order)|
    ensures forall i :: 0 <= i < |Pings(t, order)| ==> Pings(t, order)[i].1 == t.sequence + i
    ensures forall s :: s in t.books.issued ==>
      s < t.sequence && s in PingAll(t, order).books.issued && PingAll(t, order).books.issued[s] == t.books.issued[s]
    decreases |order|
  {
    hide Sound, PingOne;
    IssuedBefore(t);
    if order != [] {
      PingOneKeeps(t, order[0]);
      PingOneNew(t, order[0]);
      PingsAreNew(PingOne(t, order[0]), order[1..]);
    }
  }

  /** An answer counts exactly once, and only one from the member, and over the connection,
      the PING was sent to; its sample lies between 0 and PING_TIMEOUT. */
  lemma PongCounts(t: Tracker, id: SteamId, number: nat, now: real)
    requires Sound(t) && now >= t.seen
    ensures Answers(t, id, number, now) <==> Ponged(t, id, number, now).books.counted != t.books.counted
    ensures Answers(t, id, number, now) ==>
      && number !in t.books.counted && Ponged(t, id, number, now).books.counted == t.books.counted + {number}
      && number in t.books.issued && t.books.issued[number].to == id
      && t.books.issued[number].connection == t.peers[id].connection
      && 0.0 <= now - t.books.issued[number].at <= PING_TIMEOUT
    ensures !Answers(Ponged(t, id, number, now), id, number, now)
  {
  }

  /** What is shown, if anything, lies between the least and the greatest sample of the
      present connection. */
  lemma RttWithin(t: Tracker, id: SteamId)
    requires Sound(t) && id in t.peers && t.peers[id].rtt.Some?
    ensures Within(t.peers[id].rtt.value, Samples(t.books, id)) && 0.0 <= t.peers[id].rtt.value <= PING_TIMEOUT
  {
  }

  // Whole runs

  predicate Distinct(order: seq<SteamId>) { forall i, j :: 0 <= i < j < |order| ==> order[i] != order[j] }

  datatype Call =
    | Tracks(connections: map<SteamId, Handle>, now: real)
    | Dues(order: seq<SteamId>, now: real)
    | Pongs(id: SteamId, number: nat, now: real)
    | Clears

  predicate Timely(t: Tracker, c: Call) {
    && (!c.Clears? ==> c.now >= t.seen)
    && (c.Dues? ==> Distinct(c.order) && forall i :: 0 <= i < |c.order| ==> c.order[i] in t.peers)
  }

  function Did(t: Tracker, c: Call): Tracker
    requires Timely(t, c)
  {
    match c
    case Tracks(connections, now) => Tracked(t, connections, now)
    case Dues(order, now) => PingAll(t.(seen := now), order)
    case Pongs(id, number, now) => Ponged(t, id, number, now)
    case Clears => t.(peers := map[])
  }

  predicate TimelyAll(t: Tracker, calls: seq<Call>)
    decreases |calls|
  {
    calls == [] || (Timely(t, calls[0]) && TimelyAll(Did(t, calls[0]), calls[1..]))
  }

  function After(t: Tracker, calls: seq<Call>): Tracker
    requires TimelyAll(t, calls)
    decreases |calls|
  {
    if calls == [] then t else After(Did(t, calls[0]), calls[1..])
  }

  lemma {:induction false} PingAllCounts(t: Tracker, order: seq<SteamId>)
    requires forall i :: 0 <= i < |order| ==> order[i] in t.peers
    ensures PingAll(t, order).books.counted == t.books.counted
    decreases |order|
  {
    if order != [] {
      PingAllCounts(PingOne(t, order[0]), order[1..]);
    }
  }

  lemma SeenKeeps(t: Tracker, now: real)
    requires Sound(t) && now >= t.seen
    ensures Sound(t.(seen := now))
  {
  }

  lemma DidKeeps(t: Tracker, c: Call)
    requires Sound(t) && Timely(t, c)
    ensures Sound(Did(t, c)) && t.books.counted <= Did(t, c).books.counted
  {
    match c
    case Tracks(connections, now) => TrackKeeps(t, connections, now);
    case Dues(order, now) =>
      SeenKeeps(t, now);
      PingAllKeeps(t.(seen := now), order);
      PingAllCounts(t.(seen := now), order);
    case Pongs(id, number, now) => PongKeeps(t, id, number, now);
    case Clears =>
  }

  /** Over every run with a clock that never goes back: the waiting PINGs of a peer are
      spaced and few, their numbers are its own, and what has been counted stays counted. */
  lemma {:induction false} RunKeeps(t: Tracker, calls: seq<Call>)
    requires Sound(t) && TimelyAll(t, calls)
    ensures Sound(After(t, calls)) && t.books.counted <= After(t, calls).books.counted
    decreases |calls|
  {
    hide Sound;
    if calls != [] {
      DidKeeps(t, calls[0]);
      RunKeeps(Did(t, calls[0]), calls[1..]);
    }
  }

  // The tracker that forgets nothing

  /** All that happened since a peer's present connection: the PINGs sent on it and when,
      the last of them, the answers that counted and what they measured. */
  datatype Log = Log(
    connection: Handle,
    sent: map<nat, real>,
    last: Option<real>,
    answered: set<nat>,
    samples: seq<real>,
    sampledAt: real)

  datatype Record = Record(logs: map<SteamId, Log>, next: nat)

  /** The first PING of a connection is due at once, any other PING_INTERVAL after the last. */
  predicate IsDue(log: Log, now: real) { log.last.None? || now >= log.last.value + PING_INTERVAL }

  predicate InTime(log: Log, number: nat, now: real) {
    number in log.sent && number !in log.answered && now <= log.sent[number] + PING_TIMEOUT
  }

  /** The average that gives a new sample the weight SMOOTHING and all before it the rest. */
  function Average(samples: seq<real>): real
    requires samples != []
  {
    var n := |samples| - 1;
    if n == 0 then samples[0] else (1.0 - SMOOTHING) * Average(samples[..n]) + SMOOTHING * samples[n]
  }

  function SendTo(r: Record, id: SteamId, now: real): Record
    requires id in r.logs
  {
    var log := r.logs[id];
    Record(r.logs[id := log.(sent := log.sent[r.next := now], last := Some(now))], r.next + 1)
  }

  predicate DueTo(r: Record, id: SteamId, now: real) { id in r.logs && IsDue(r.logs[id], now) }

  function SendDue(r: Record, order: seq<SteamId>, now: real): Record
    decreases |order|
  {
    if order == [] then r
    else SendDue(if DueTo(r, order[0], now) then SendTo(r, order[0], now) else r, order[1..], now)
  }

  /** What a call does to the record. Nothing in it waits, expires or is trimmed. */
  function Noted(r: Record, c: Call): Record {
    match c
    case Tracks(connections, _) =>
      r.(logs := map id | id in connections ::
        if id in r.logs && r.logs[id].connection == connections[id] then r.logs[id]
        else Log(connections[id], map[], None, {}, [], 0.0))
    case Dues(order, now) => SendDue(r, order, now)
    case Pongs(id, number, now) =>
      if id in r.logs && InTime(r.logs[id], number, now) then
        var log := r.logs[id];
        r.(logs := r.logs[id := log.(
          answered := log.answered + {number},
          samples := log.samples + [now - log.sent[number]],
          sampledAt := now)])
      else r
    case Clears => r.(logs := map[])
  }

  ghost predicate Waiting(pending: map<nat, real>, log: Log, seen: real) {
    && (forall s :: s in pending ==> s in log.sent && s !in log.answered && pending[s] == log.sent[s])
    && (forall s :: s in log.sent && InTime(log, s, seen) ==> s in pending)
  }

  ghost predicate Follows(p: Peer, log: Log, next: nat, seen: real) {
    && p.connection == log.connection && p.sampledAt == log.sampledAt
    && (forall s :: s in log.sent ==> s < next) && log.answered <= log.sent.Keys
    && Waiting(p.pending, log, seen)
    && (if log.last.Some? then p.nextPingAt == log.last.value + PING_INTERVAL else p.nextPingAt <= seen)
    && p.rtt == (if log.samples == [] then None else Some(Average(log.samples)))
  }

  ghost predicate Agrees(t: Tracker, r: Record) {
    && t.peers.Keys == r.logs.Keys && t.sequence == r.next
    && forall id :: id in t.peers ==> Follows(t.peers[id], r.logs[id], r.next, t.seen)
  }

  lemma AverageNext(samples: seq<real>, sample: real)
    ensures Average(samples + [sample]) ==
      Smoothed(if samples == [] then None else Some(Average(samples)), sample)
  {
    var more := samples + [sample];
    assert more[..|samples|] == samples && more[|samples|] == sample;
  }

  lemma FollowsLater(p: Peer, log: Log, next: nat, more: nat, seen: real, now: real)
    requires Follows(p, log, next, seen) && now >= seen && more >= next
    ensures Follows(p, log, more, now) && Follows(Expire(p, now), log, more, now)
  {
  }

  lemma SendFollows(p: Peer, log: Log, next: nat, now: real)
    requires Follows(p, log, next, now)
    ensures Follows(Pinged(p, now, next), log.(sent := log.sent[next := now], last := Some(now)), next + 1, now)
  {
  }

  lemma PingFollows(t: Tracker, r: Record, id: SteamId)
    requires Agrees(t, r) && id in t.peers
    ensures Calls(t.peers[id], t.seen) <==> DueTo(r, id, t.seen)
    ensures Agrees(PingOne(t, id), if DueTo(r, id, t.seen) then SendTo(r, id, t.seen) else r)
  {
    hide Expire, Pinged;
    var p := t.peers[id];
    forall x | x in t.peers
      ensures Follows(t.peers[x], r.logs[x], r.next + 1, t.seen)
    {
      FollowsLater(t.peers[x], r.logs[x], r.next, r.next + 1, t.seen, t.seen);
    }
    FollowsLater(p, r.logs[id], r.next, r.next, t.seen, t.seen);
    ExpireSame(p, t.seen);
    SendFollows(Expire(p, t.seen), r.logs[id], r.next, t.seen);
  }

  /** Those of order whose PING is due. */
  function DueOf(r: Record, order: seq<SteamId>, now: real): seq<SteamId> {
    if order == [] then []
    else (if DueTo(r, order[0], now) then [order[0]] else []) + DueOf(r, order[1..], now)
  }

  function Numbered(ids: seq<SteamId>, next: nat): seq<(SteamId, nat)> {
    seq(|ids|, i requires 0 <= i < |ids| => (ids[i], next + i))
  }

  lemma {:induction false} DueOfOthers(r: Record, id: SteamId, order: seq<SteamId>, now: real)
    requires id in r.logs && id !in order
    ensures DueOf(SendTo(r, id, now), order, now) == DueOf(r, order, now)
  {
    if order != [] {
      assert order[0] != id;
      DueOfOthers(r, id, order[1..], now);
    }
  }

  lemma NumberedNone(next: nat)
    ensures Numbered([], next) == []
  {
  }

  lemma NumberedFirst(id: SteamId, ids: seq<SteamId>, next: nat)
    ensures Numbered([id] + ids, next) == [(id, next)] + Numbered(ids, next + 1)
  {
  }

  lemma AgreesAbout(t: Tracker, r: Record)
    requires Agrees(t, r)
    ensures t.peers.Keys == r.logs.Keys && t.sequence == r.next
  {
  }

  lemma PingKeys(t: Tracker, id: SteamId)
    requires id in t.peers
    ensures PingOne(t, id).peers.Keys == t.peers.Keys && PingOne(t, id).seen == t.seen
  {
  }

  /** One call of `due`: a PING to everybody whose PING is due and to nobody else, in order,
      with the next numbers. */
  lemma {:induction false} PingsFollow(t: Tracker, r: Record, order: seq<SteamId>)
    requires Agrees(t, r) && Distinct(order) && forall i :: 0 <= i < |order| ==> order[i] in t.peers
    ensures Agrees(PingAll(t, order), SendDue(r, order, t.seen))
    ensures Pings(t, order) == Numbered(DueOf(r, order, t.seen), r.next)
    decreases |order|
  {
    hide Agrees, Calls, DueTo, PingOne, Numbered;
    AgreesAbout(t, r);
    if order == [] {
      NumberedNone(r.next);
    } else {
      var id, rest := order[0], order[1..];
      PingFollows(t, r, id);
      PingKeys(t, id);
      PingsFollow(PingOne(t, id), if DueTo(r, id, t.seen) then SendTo(r, id, t.seen) else r, rest);
      if DueTo(r, id, t.seen) {
        DueOfOthers(r, id, rest, t.seen);
        NumberedFirst(id, DueOf(r, rest, t.seen), r.next);
      } else {
        assert [] + DueOf(r, rest, t.seen) == DueOf(r, rest, t.seen);
      }
    }
  }

  lemma FreshFollows(connection: Handle, next: nat, now: real)
    ensures Follows(Fresh(connection, now), Log(connection, map[], None, {}, [], 0.0), next, now)
  {
  }

  lemma FollowsAbout(p: Peer, log: Log, next: nat, seen: real)
    requires Follows(p, log, next, seen)
    ensures p.connection == log.connection
  {
  }

  lemma TrackFollows(t: Tracker, r: Record, connections: map<SteamId, Handle>, now: real)
    requires Agrees(t, r) && now >= t.seen
    ensures Agrees(Tracked(t, connections, now), Noted(r, Tracks(connections, now)))
  {
    hide Follows, Fresh;
    forall x | x in connections
      ensures Follows(Tracked(t, connections, now).peers[x], Noted(r, Tracks(connections, now)).logs[x], r.next, now)
    {
      if x in t.peers {
        FollowsAbout(t.peers[x], r.logs[x], r.next, t.seen);
        FollowsLater(t.peers[x], r.logs[x], r.next, r.next, t.seen, now);
      }
      FreshFollows(connections[x], r.next, now);
    }
  }

  lemma SeenFollows(t: Tracker, r: Record, now: real)
    requires Agrees(t, r) && now >= t.seen
    ensures Agrees(t.(seen := now), r)
  {
    forall x | x in t.peers
      ensures Follows(t.peers[x], r.logs[x], r.next, now)
    {
      FollowsLater(t.peers[x], r.logs[x], r.next, r.next, t.seen, now);
    }
  }

  lemma AnswerFollows(p: Peer, log: Log, next: nat, number: nat, now: real)
    requires Follows(p, log, next, now) && number in p.pending
    ensures Follows(
      p.(pending := p.pending - {number}, rtt := Some(Smoothed(p.rtt, now - p.pending[number])), sampledAt := now),
      log.(answered := log.answered + {number}, samples := log.samples + [now - log.sent[number]], sampledAt := now),
      next, now)
  {
    AverageNext(log.samples, now - log.sent[number]);
  }

  lemma ExpiredWaits(p: Peer, log: Log, next: nat, number: nat, seen: real, now: real)
    requires Follows(p, log, next, seen) && now >= seen
    ensures number in Expire(p, now).pending <==> InTime(log, number, now)
    ensures number in Expire(p, now).pending ==> Expire(p, now).pending[number] == log.sent[number]
  {
  }

  /** An answer is taken if and only if its PING went out on the peer's present connection
      no longer than PING_TIMEOUT ago and has not been answered. */
  lemma PongFollows(t: Tracker, r: Record, id: SteamId, number: nat, now: real)
    requires Agrees(t, r) && now >= t.seen
    ensures Answers(t, id, number, now) <==> id in r.logs && InTime(r.logs[id], number, now)
    ensures Agrees(Ponged(t, id, number, now), Noted(r, Pongs(id, number, now)))
  {
    hide Smoothed, Expire, InTime, Follows;
    SeenFollows(t, r, now);
    if id in t.peers {
      var p := Expire(t.peers[id], now);
      FollowsLater(t.peers[id], r.logs[id], r.next, r.next, t.seen, now);
      ExpireSame(t.peers[id], now);
      ExpiredWaits(t.peers[id], r.logs[id], r.next, number, t.seen, now);
      if number in p.pending {
        AnswerFollows(p, r.logs[id], r.next, number, now);
      }
    }
  }

  lemma DidFollows(t: Tracker, r: Record, c: Call)
    requires Agrees(t, r) && Timely(t, c)
    ensures Agrees(Did(t, c), Noted(r, c))
  {
    match c
    case Tracks(connections, now) => TrackFollows(t, r, connections, now);
    case Dues(order, now) =>
      SeenFollows(t, r, now);
      PingsFollow(t.(seen := now), r, order);
    case Pongs(id, number, now) => PongFollows(t, r, id, number, now);
    case Clears =>
  }

  function AllNoted(r: Record, calls: seq<Call>): Record
    decreases |calls|
  {
    if calls == [] then r else AllNoted(Noted(r, calls[0]), calls[1..])
  }

  lemma {:induction false} RunFollows(t: Tracker, r: Record, calls: seq<Call>)
    requires Agrees(t, r) && TimelyAll(t, calls)
    ensures Agrees(After(t, calls), AllNoted(r, calls))
    decreases |calls|
  {
    hide Agrees, Noted, Did;
    if calls != [] {
      DidFollows(t, r, calls[0]);
      RunFollows(Did(t, calls[0]), Noted(r, calls[0]), calls[1..]);
    }
  }

  const NO_RECORD := Record(map[], 1)

  /** After every run, what the tracker answers is what the record of everything says: whom
      a PING is due to, which answers count, the average and when its last sample came.
      Forgetting what expired and keeping at most MAX_PENDING loses nothing. */
  lemma ForgettingLosesNothing(calls: seq<Call>, id: SteamId, now: real)
    requires TimelyAll(START, calls) && now >= After(START, calls).seen
    ensures var t, r := After(START, calls), AllNoted(NO_RECORD, calls);
      && (id in t.peers <==> id in r.logs)
      && (id in t.peers ==>
        && t.peers[id].connection == r.logs[id].connection
        && (Calls(t.peers[id], now) <==> IsDue(r.logs[id], now))
        && t.peers[id].rtt == (if r.logs[id].samples == [] then None else Some(Average(r.logs[id].samples)))
        && t.peers[id].sampledAt == r.logs[id].sampledAt)
      && forall number :: Answers(t, id, number, now) <==> id in r.logs && InTime(r.logs[id], number, now)
  {
    hide Answers, InTime, After, AllNoted;
    RunFollows(START, NO_RECORD, calls);
    var t, r := After(START, calls), AllNoted(NO_RECORD, calls);
    forall number
      ensures Answers(t, id, number, now) <==> id in r.logs && InTime(r.logs[id], number, now)
    {
      PongFollows(t, r, id, number, now);
    }
  }

  // The class

  /** What the tracking loop has made of the peers, with those in todo still ahead. */
  function Following(t: Tracker, connections: map<SteamId, Handle>, todo: set<SteamId>, now: real): map<SteamId, Peer> {
    map id | id in connections && (id !in todo || id in t.peers) ::
      if (id in todo && id in t.peers) || Stays(t, id, connections[id]) then t.peers[id]
        else Fresh(connections[id], now)
  }

  lemma FollowingFirst(t: Tracker, connections: map<SteamId, Handle>, now: real)
    ensures t.peers - (t.peers.Keys - connections.Keys) == Following(t, connections, connections.Keys, now)
  {
  }

  lemma FollowingNext(t: Tracker, connections: map<SteamId, Handle>, todo: set<SteamId>, id: SteamId, now: real)
    requires id in todo && todo <= connections.Keys
    ensures var before, after := Following(t, connections, todo, now), Following(t, connections, todo - {id}, now);
      after == if id !in before || before[id].connection != connections[id]
        then before[id := Fresh(connections[id], now)] else before
  {
  }

  lemma FollowingLast(t: Tracker, connections: map<SteamId, Handle>, now: real)
    ensures Following(t, connections, {}, now) == Tracked(t, connections, now).peers
  {
  }

  lemma PingOneFew(t: Tracker, id: SteamId)
    requires Sound(t) && id in t.peers
    ensures |PingOne(t, id).peers[id].pending| <= MAX_PENDING
  {
    PingOneOwn(t, id);
  }

  lemma {:induction false} PingAppend(t: Tracker, order: seq<SteamId>, id: SteamId)
    requires (forall i :: 0 <= i < |order| ==> order[i] in t.peers) && id in t.peers
    ensures PingAll(t, order).peers.Keys == t.peers.Keys && PingAll(t, order).seen == t.seen
    ensures PingAll(t, order + [id]) == PingOne(PingAll(t, order), id)
    ensures Pings(t, order + [id]) == Pings(t, order) +
      (if Calls(PingAll(t, order).peers[id], t.seen) then [(id, PingAll(t, order).sequence)] else [])
    decreases |order|
  {
    hide Calls;
    if order == [] {
      assert [id][1..] == [] && order + [id] == [id];
    } else {
      assert (order + [id])[1..] == order[1..] + [id];
      PingAppend(PingOne(t, order[0]), order[1..], id);
    }
  }

  /** Drops the lowest numbers until MAX_PENDING are left. */
  method Trim(pending: map<nat, real>) returns (kept: map<nat, real>)
    ensures |kept| == if |pending| < MAX_PENDING then |pending| else MAX_PENDING
    ensures forall s :: s in kept ==> s in pending && kept[s] == pending[s]
    ensures forall s, t :: (s in pending && s !in kept && t in kept) ==> s < t
    ensures |pending| <= MAX_PENDING ==> kept == pending
  {
    kept := pending;
    while |kept| > MAX_PENDING
      invariant |pending| <= MAX_PENDING ==> kept == pending
      invariant |pending| > MAX_PENDING ==> |kept| >= MAX_PENDING
      invariant forall s :: s in kept ==> s in pending && kept[s] == pending[s]
      invariant forall s, t :: (s in pending && s !in kept && t in kept) ==> s < t
      decreases |kept|
    {
      var least := Least(kept.Keys);
      assert (kept - {least}).Keys == kept.Keys - {least};
      kept := kept - {least};
    }
  }

  class LatencyTracker {
    var peers: map<SteamId, Peer>
    var sequence: nat
    ghost var seen: real
    ghost var books: Books

    ghost function State(): Tracker
      reads this
    {
      Tracker(peers, sequence, seen, books)
    }

    ghost predicate Valid()
      reads this
    {
      Sound(State())
    }

    constructor ()
      ensures Valid() && State() == START
    {
      peers, sequence, seen, books := map[], 1, 0.0, START.books;
      new;
      StartOk();
    }

    method Track(connections: map<SteamId, Handle>, now: real)
      requires Valid() && now >= seen
      modifies `peers, `seen, `books
      ensures Valid() && State() == Tracked(old(State()), connections, now)
    {
      hide Sound, Following, Fresh;
      TrackKeeps(State(), connections, now);
      ghost var t := State();
      FollowingFirst(t, connections, now);
      peers := peers - (peers.Keys - connections.Keys);
      var todo := connections.Keys;
      while todo != {}
        invariant todo <= connections.Keys && sequence == t.sequence
        invariant peers == Following(t, connections, todo, now)
        decreases todo
      {
        var id :| id in todo;
        FollowingNext(t, connections, todo, id, now);
        todo := todo - {id};
        if id !in peers || peers[id].connection != connections[id] {
          peers := peers[id := Fresh(connections[id], now)];
        }
      }
      FollowingLast(t, connections, now);
      seen, books := now, Tracked(t, connections, now).books;
    }

    /** The PINGs to send now; the order is that of the dict. */
    method Due(now: real) returns (pings: seq<(SteamId, nat)>, ghost order: seq<SteamId>)
      requires Valid() && now >= seen
      modifies `peers, `sequence, `seen, `books
      ensures Valid()
      ensures Distinct(order) && forall id :: id in order <==> id in old(peers)
      ensures State() == PingAll(old(State()).(seen := now), order) && pings == Pings(old(State()).(seen := now), order)
    {
      hide Sound, PingOne, Calls;
      SeenKeeps(State(), now);
      seen := now;
      ghost var t := State();
      pings, order := [], [];
      var todo := peers.Keys;
      while todo != {}
        invariant Valid() && peers.Keys == t.peers.Keys && todo <= peers.Keys
        invariant Distinct(order) && forall id :: id in order <==> id in t.peers && id !in todo
        invariant State() == PingAll(t, order) && pings == Pings(t, order)
        decreases todo
      {
        var id :| id in todo;
        todo := todo - {id};
        PingAppend(t, order, id);
        var sent := Visit(id, now);
        if sent {
          pings := pings + [(id, sequence - 1)];
        }
        order := order + [id];
      }
    }

    /** One turn of the loop. */
    method Visit(id: SteamId, now: real) returns (sent: bool)
      requires Valid() && seen == now && id in peers
      modifies `peers, `sequence, `books
      ensures Valid() && State() == PingOne(old(State()), id) && sent == Calls(old(peers)[id], now)
      ensures sent ==> sequence == old(sequence) + 1
      ensures peers.Keys == old(peers.Keys)
    {
      hide Sound;
      PingOneKeeps(State(), id);
      PingOneFew(State(), id);
      var peer := Expire(peers[id], now);
      if now < peer.nextPingAt {
        peers := peers[id := peer];
        return false;
      }
      var pending := Trim(peer.pending[sequence := now]);
      peers := peers[id := peer.(pending := pending, nextPingAt := now + PING_INTERVAL)];
      books := books.(issued := books.issued[sequence := Ping(id, peer.connection, now)]);
      sequence := sequence + 1;
      return true;
    }

    method Pong(id: SteamId, number: nat, now: real) returns (taken: bool)
      requires Valid() && now >= seen
      modifies `peers, `seen, `books
      ensures Valid() && State() == Ponged(old(State()), id, number, now)
      ensures taken <==> Answers(old(State()), id, number, now)
    {
      hide Sound, Smoothed;
      PongKeeps(State(), id, number, now);
      seen := now;
      if id !in peers {
        return false;
      }
      var peer := Expire(peers[id], now);
      if number !in peer.pending {
        peers := peers[id := peer];
        return false;
      }
      var sample := now - peer.pending[number];
      peers := peers[id := peer.(
        pending := peer.pending - {number},
        rtt := Some(Smoothed(peer.rtt, sample)),
        sampledAt := now)];
      books := books.(
        counted := books.counted + {number},
        samples := books.samples[id := Samples(books, id) + [sample]]);
      return true;
    }

    /** What is shown: None without a recent sample, otherwise a value among the samples. */
    method Rtt(id: SteamId, now: real) returns (rtt: Option<real>)
      requires Valid() && now >= seen
      ensures rtt.Some? <==> id in peers && peers[id].rtt.Some? && now - peers[id].sampledAt <= STALE_AFTER
      ensures rtt.Some? ==>
        rtt == peers[id].rtt && Within(rtt.value, Samples(books, id)) && 0.0 <= rtt.value <= PING_TIMEOUT
    {
      if id !in peers || peers[id].rtt.None? || now - peers[id].sampledAt > STALE_AFTER {
        return None;
      }
      RttWithin(State(), id);
      return peers[id].rtt;
    }

    method Clear()
      requires Valid()
      modifies `peers
      ensures Valid() && peers == map[]
    {
      peers := map[];
    }
  }
}
