/**
 What each tick and each action of the controller comes to, told by the state before it and
 by what Steam, Windows and the session answer (src/steamlan/app/controller.py).
 */
module ControlOutcomes {
  import opened Basics
  import opened Roster
  import opened Control
  import M = Membership

  // Losing the connection

  /** The helper there is has stopped. */
  predicate HelperStops(c: Control, a: Answers) { c.held.helper != 0 && a.helperFailed }

  /** A tick in a network finds the connection lost exactly if Steam isn't logged on, or says
      that it lost its servers or took this PC out; then everything is kept, on hold. It waits
      for Steam to be logged on, or begins to restore at this very time. */
  lemma LossIsNoticed(c: Control, a: Answers)
    requires Shape(c) && c.core.saved.Some? && c.core.net.Some? && c.core.link.None? && !HelperStops(c, a)
    ensures var t := Tick(c, a);
      && (t.core.link.Some? <==> !a.loggedOn || a.lost)
      && (t.core.link == Some(Reconnecting) <==> !a.loggedOn)
      && (t.core.link.Some? ==>
            && t.core.net == Some(c.core.net.value.(suspended := true, seen := a.seen))
            && t.core.saved == c.core.saved && t.held == c.held && t.core.call.None?)
      && (t.core.link == Some(RestoringNetwork) ==> t.recovery == Recovery(a.now, a.now, 0) && t.books.attempts == [])
      && (t.core.link.None? && t.core.net.Some? ==> !t.core.net.value.suspended)
  {
    assert c.goodbye.until.None? && c.core.call.None?;
  }

  /** What an attempt to get back in leaves: a request for the remembered lobby, if there is a
      socket for it and Steam takes it. */
  predicate Asked(c: Control, a: Answers, t: Control)
    requires c.core.saved.Some?
  {
    t.core.call ==
      if (c.held.socket != 0 || (a.socket.Some? && a.socket.value != 0)) && a.call.Some?
      then Some(Pending(Restore, a.call.value, a.now, c.core.saved.value.lobby, c.core.saved.value.code)) else None
  }

  // A tick in a network

  predicate TurnedAway(a: Answers) { !a.seen.joined && a.seen.refused != "" }

  /** Nobody answered, or nobody was there: a reason to come back later. */
  predicate TryLater(reason: string) { reason == M.NO_MEMBERS_ONLINE || reason == M.NO_ANSWER }

  /** What is remembered after the session was seen: as it is if joined, nothing if the
      network doesn't know this member; online unless the session is over. */
  function Remembered(saved: Option<Saved>, lobby: LobbyId, network: NetworkId, a: Answers,
                      goesOn: bool): Option<Saved> {
    if a.seen.joined then Some(Saved(lobby, network, a.seen.code, a.seen.members, goesOn))
    else if saved.None? || (a.seen.refused != "" && !TryLater(a.seen.refused)) then None
    else Some(saved.value.(online := goesOn && saved.value.online))
  }

  predicate Nothing(t: Control) {
    t.core.call.None? && t.core.net.None? && t.core.link.None? && t.goodbye.until.None? && t.held == NOTHING
  }

  /** What is said of a session that is not on hold, at the end of a tick. */
  predicate GoesOn(d: Control, a: Answers, t: Control)
    requires d.core.net.Some?
  {
    var net, goesOn := d.core.net.value, !TurnedAway(a) && !HelperStops(d, a);
    && (goesOn ==> t.core == Core(None, Some(net.(seen := a.seen)), t.core.saved, None) && t.held == d.held
                   && t.goodbye == d.goodbye)
    && (!goesOn ==> Nothing(t))
    && t.core.saved == Remembered(d.core.saved, net.lobby, d.network, a, goesOn)
    && t.network == d.network && t.abandoned == d.abandoned && t.running == d.running
  }

  lemma RefusedIs(d: Control, reason: string)
    requires d.core.call.None? && d.core.link.None? && d.goodbye.until.None?
    ensures var t := Refused(d, reason);
      && Nothing(t) && t.network == d.network && t.abandoned == d.abandoned && t.running == d.running
      && t.core.saved ==
         if d.core.saved.None? || !TryLater(reason) then None else Some(d.core.saved.value.(online := false))
  {
  }

  lemma OfflineIs(d: Control)
    requires d.core.call.None? && d.core.net.Some? && d.core.saved.Some? && d.goodbye.until.None?
    ensures var t, net := GoOfflineWith(d), d.core.net.value;
      && Nothing(t) && t.network == d.network && t.abandoned == d.abandoned && t.running == d.running
      && t.core.saved ==
         if net.seen.joined then Some(Saved(net.lobby, d.network, net.seen.code, net.seen.members, false))
         else Some(d.core.saved.value.(online := false))
  {
  }

  lemma CheckGoesOn(d: Control, a: Answers)
    requires d.core.call.None? && d.core.net.Some? && d.core.link.None? && d.goodbye.until.None?
    requires d.core.net.value.seen == a.seen
    ensures GoesOn(d, a, CheckNetwork(d, a))
  {
    hide Refused, GoOfflineWith;
    var kept := if a.seen.joined then Save(d, Some(Snapshot(d, true))) else d;
    if TurnedAway(a) {
      RefusedIs(kept, a.seen.refused);
    } else if HelperStops(d, a) && kept.core.saved.Some? {
      OfflineIs(kept);
    }
  }

  lemma RestGoesOn(d: Control, a: Answers)
    requires d.core.call.None? && d.core.net.Some? && d.core.link.None? && d.goodbye.until.None?
    requires d.core.saved.Some? ==> a.loggedOn && !a.lost
    ensures GoesOn(d, a, TickRest(d, a))
  {
    hide CheckNetwork;
    CheckGoesOn(d.(core := d.core.(net := Some(d.core.net.value.(seen := a.seen)))), a);
  }

  lemma RestOfNothing(d: Control, a: Answers)
    requires Nothing(d) && a.invite.None?
    ensures TickRest(d, a) == d
  {
  }

  /** A session with its connection goes on unless it is turned away or its adapter fails, and
      what is remembered is what it was last seen to be. */
  lemma SessionGoesOn(c: Control, a: Answers)
    requires Shape(c) && c.core.net.Some? && c.core.link.None? && c.goodbye.until.None?
    requires c.core.saved.Some? ==> a.loggedOn && !a.lost
    ensures GoesOn(c.(abandoned := c.abandoned - a.answered), a, Tick(c, a))
  {
    hide TickRest;
    RestGoesOn(TickCalls(c, a), a);
  }

  // A tick that Steam answers in

  predicate Overdue(c: Control, a: Answers)
    requires c.core.call.Some?
  {
    a.result.None? && a.now - c.core.call.value.started > CALL_TIMEOUT
  }

  predicate StillWaits(c: Control, a: Answers)
    requires c.core.call.Some?
  {
    a.result.None? && !Overdue(c, a)
  }

  /** A lobby that was asked for is entered with a session of its own and a helper for it. */
  predicate Entered(c: Control, a: Answers, t: Control, lobby: LobbyId) {
    && t.core.call.None? && t.core.link.None? && t.goodbye.until.None?
    && t.core.net == Some(Session(lobby, c.held.socket, false, a.seen))
    && t.held == Held(a.helper, c.held.socket, lobby)
  }

  lemma CallCreates(c: Control, a: Answers)
    requires c.core.call.Some? && c.core.call.value.kind.Create?
    requires a.result.Some? && a.result.value.Created? && a.result.value.marked
    ensures TickCalls(c, a) ==
      Enter(c.(core := c.core.(call := None), abandoned := c.abandoned - a.answered, network := a.newId),
          a.result.value.lobby, true, a)
  {
    hide Enter;
  }

  lemma EntersWith(c: Control, lobby: LobbyId, a: Answers)
    requires c.goodbye.until.None? && c.held.helper == 0 && c.core.call.None? && c.core.link.None?
    ensures var e := Enter(c, lobby, true, a);
      if a.helperStarts then
        && e.core == Core(None, Some(Session(lobby, c.held.socket, false, a.begun)), c.core.saved, None)
        && e.held == Held(a.helper, c.held.socket, lobby) && e.goodbye == c.goodbye && e.network == c.network
      else
        && e.core == Core(None, None, e.core.saved, None) && e.held == NOTHING && e.goodbye == c.goodbye
        && (if c.core.saved.None? then e.core.saved.None?
            else if a.begun.joined then e.core.saved == Some(Saved(lobby, c.network, a.begun.code, a.begun.members,
                false))
            else e.core.saved == Some(c.core.saved.value.(online := false)))
  {
  }

  lemma RestWaits(d: Control, a: Answers)
    requires d.core.call.Some? && d.core.net.None? && d.core.link.None? && d.goodbye.until.None?
    ensures TickRest(d, a) == d
  {
  }

  /** A new network is entered exactly if Steam made its lobby and the mark could be set, and
      the helper starts and nothing turns up at once; it gets the new id. Until Steam answers
      nothing happens, and otherwise nothing is left. */
  lemma CreationExactly(c: Control, a: Answers)
    requires Shape(c) && c.core.call.Some? && c.core.call.value.kind.Create? && a.invite.None? && a.helper != 0
    ensures var t := Tick(c, a);
      if StillWaits(c, a) then t.core == c.core && t.held == c.held
      else if a.result.Some? && a.result.value.Created? && a.result.value.marked && a.helperStarts && !TurnedAway(a)
              && !a.helperFailed then
        && Entered(c, a, t, a.result.value.lobby) && t.network == a.newId
        && t.core.saved == Remembered(None, a.result.value.lobby, a.newId, a, true)
      else Nothing(t) && (t.core.saved.Some? ==> a.seen.joined && a.helperStarts)
  {
    hide Enter, TickRest;
    var d := TickCalls(c, a);
    if StillWaits(c, a) {
      RestWaits(d, a);
    } else {
      if a.result.Some? && a.result.value.Created? && a.result.value.marked {
        CallCreates(c, a);
        EntersWith(c.(core := c.core.(call := None), abandoned := c.abandoned - a.answered, network := a.newId),
            a.result.value.lobby, a);
      }
      if d.core.net.Some? {
        RestGoesOn(d, a);
      } else {
        RestOfNothing(d, a);
      }
    }
  }

  function LetIn(c: Control, a: Answers): Control
    requires a.result.Some? && a.result.value.Entered?
  {
    c.(core := c.core.(call := None), abandoned := c.abandoned - a.answered, network := a.result.value.network)
  }

  /** The answer lets this PC into the network that is remembered. */
  predicate LetsBackIn(c: Control, a: Answers) {
    && c.core.saved.Some? && a.result.Some? && a.result.value.Entered? && a.result.value.ours
    && a.result.value.network == c.core.saved.value.network
  }

  lemma CallEnters(c: Control, a: Answers)
    requires Linked(c) && c.core.call.Some? && a.result.Some? && a.result.value.Entered? && a.result.value.ours
    requires c.core.call.value.kind.Join? || (c.core.call.value.kind.Rejoin? && LetsBackIn(c, a))
    ensures TickCalls(c, a) == Enter(LetIn(c, a), c.core.call.value.lobby, true, a)
  {
    hide Enter;
  }

  /** The same of a lobby to join: it must be one of ours. */
  lemma JoiningExactly(c: Control, a: Answers)
    requires Shape(c) && c.core.call.Some? && c.core.call.value.kind.Join? && a.invite.None? && a.helper != 0
    ensures var t := Tick(c, a);
      if StillWaits(c, a) then t.core == c.core && t.held == c.held
      else if a.result.Some? && a.result.value.Entered? && a.result.value.ours && a.helperStarts && !TurnedAway(a)
              && !a.helperFailed then
        && Entered(c, a, t, c.core.call.value.lobby) && t.network == a.result.value.network
        && t.core.saved == Remembered(None, c.core.call.value.lobby, t.network, a, true)
      else Nothing(t) && (t.core.saved.Some? ==> a.seen.joined && a.helperStarts)
  {
    hide Enter, TickRest;
    var d := TickCalls(c, a);
    if !StillWaits(c, a) {
      if a.result.Some? && a.result.value.Entered? && a.result.value.ours {
        CallEnters(c, a);
        EntersWith(LetIn(c, a), c.core.call.value.lobby, a);
      }
      if d.core.net.Some? {
        RestGoesOn(d, a);
      } else {
        RestOfNothing(d, a);
      }
    } else {
      RestWaits(d, a);
    }
  }

  /** The lobby is gone or is another's. */
  predicate SaysNoMore(c: Control, a: Answers) {
    && a.result.Some?
    && (if a.result.value.Entered? then !LetsBackIn(c, a) else a.result.value.NotEntered? && a.result.value.gone)
  }

  predicate SaysBarred(a: Answers) {
    a.result.Some? && a.result.value.NotEntered? && !a.result.value.gone && a.result.value.barred
  }

  lemma RestAsks(d: Control, a: Answers)
    requires d.core.call.None? && d.core.net.None? && d.core.link == Some(RestoringNetwork) && d.core.saved.Some?
    requires d.goodbye.until.None? && d.recovery == Recovery(a.now, a.now, 0) && d.books.attempts == [] && a.loggedOn
    ensures var t := TickRest(d, a);
      && t.core.link == Some(RestoringNetwork) && t.core.net.None? && t.core.saved == d.core.saved
      && t.recovery == Recovery(a.now, a.now + Backoff(0), 1) && t.books.attempts == [a.now] && Asked(d, a, t)
  {
  }

  /** Going back online: into the network if it is still there and Steam lets this PC in; the
      membership is forgotten if it isn't, and offline if this PC is barred. Any other failure,
      and no answer in time, is taken for a lost connection and begins a restoring stretch. */
  lemma ReturnExactly(c: Control, a: Answers)
    requires Shape(c) && c.core.call.Some? && c.core.call.value.kind.Rejoin? && a.invite.None? && a.helper != 0
    requires a.loggedOn && !a.lost
    ensures c.core.saved.Some?
    ensures var t, saved := Tick(c, a), c.core.saved.value;
      if StillWaits(c, a) then t.core == c.core && t.held == c.held
      else if LetsBackIn(c, a) then
        if a.helperStarts && !TurnedAway(a) && !a.helperFailed then
          && Entered(c, a, t, saved.lobby) && t.network == saved.network
          && t.core.saved == Remembered(Some(saved), saved.lobby, saved.network, a, true)
        else Nothing(t)
      else if SaysNoMore(c, a) then Nothing(t) && t.core.saved.None?
      else if SaysBarred(a) then Nothing(t) && t.core.saved == Some(saved.(online := false))
      else
        && t.core.link == Some(RestoringNetwork) && t.core.net.None? && t.core.saved == Some(saved)
        && t.recovery.started == a.now && t.books.attempts == [a.now]
        && (t.core.call.Some? <==> a.call.Some? && a.socket.Some? && a.socket.value != 0)
  {
    hide Enter, TickRest;
    var d := TickCalls(c, a);
    if StillWaits(c, a) {
      RestWaits(d, a);
    } else if LetsBackIn(c, a) {
      CallEnters(c, a);
      EntersWith(LetIn(c, a), c.core.call.value.lobby, a);
      if d.core.net.Some? {
        RestGoesOn(d, a);
      } else {
        RestOfNothing(d, a);
      }
    } else if SaysNoMore(c, a) || SaysBarred(a) {
      RestOfNothing(d, a);
    } else {
      RestAsks(d, a);
    }
  }

  // A tick of a restoring stretch

  /** This PC's request is out of the way: there was none, or it has failed. */
  predicate MayAsk(c: Control, a: Answers) {
    c.core.call.None? || Overdue(c, a)
    || (a.result.Some? && !LetsBackIn(c, a) && !SaysNoMore(c, a) && !SaysBarred(a))
  }

  /** The session and what is remembered are as they were, on hold. */
  predicate KeptOnHold(c: Control, a: Answers, t: Control) {
    && t.core.saved == c.core.saved && t.held.helper == c.held.helper && t.held.lobby == c.held.lobby
    && (c.core.net.None? ==> t.core.net.None?)
    && (c.core.net.Some? ==> t.core.net == Some(c.core.net.value.(suspended := true, seen := a.seen)))
  }

  /** The session that was on hold goes on, as any other does. */
  predicate GoesOnFrom(c: Control, a: Answers, t: Control)
    requires c.core.net.Some?
  {
    GoesOn(c.(core := Core(None, Some(c.core.net.value.(suspended := false)), c.core.saved, None),
              abandoned := c.abandoned - a.answered), a, t)
  }

  /** What a stretch does once nothing is asked: the session goes on if this PC is in the lobby
      after all; past RESTORE_TIMEOUT everything is let go, and the network stays remembered as
      online; otherwise the lobby is asked for when the next attempt is due. */
  predicate Tries(c: Control, a: Answers, t: Control)
    requires c.core.saved.Some?
  {
    if c.core.net.Some? && a.inLobby then
      t.core.link.None? && t.core.call.None? && GoesOnFrom(c, a, t)
    else if a.now - c.recovery.started > RESTORE_TIMEOUT then Nothing(t) && t.core.saved == c.core.saved
    else
      && t.core.link == Some(RestoringNetwork) && t.recovery.started == c.recovery.started && KeptOnHold(c, a, t)
      && (if a.now >= c.recovery.next then
            && t.recovery == Recovery(c.recovery.started, a.now + Backoff(c.recovery.attempts), c.recovery.attempts + 1)
            && t.books.attempts == c.books.attempts + [a.now] && Asked(c, a, t)
          else t.recovery == c.recovery && t.books.attempts == c.books.attempts && t.core.call.None?)
  }

  /** The tick that is left of a stretch once nothing is asked. */
  predicate OnHold(d: Control) {
    && d.core.saved.Some? && d.core.link == Some(RestoringNetwork) && d.goodbye.until.None?
    && (d.core.net.Some? ==> d.core.net.value.suspended)
    && (d.core.net.None? ==> d.held.helper == 0)
  }

  lemma AttemptAsks(d: Control, a: Answers)
    requires d.core.saved.Some? && d.core.call.None?
    ensures var t, r := Attempt(d, a), d.recovery;
      && t.core == Core(t.core.call, d.core.net, d.core.saved, d.core.link) && Asked(d, a, t)
      && t.recovery == Recovery(r.started, a.now + Backoff(r.attempts), r.attempts + 1)
      && t.books.attempts == d.books.attempts + [a.now]
      && t.held == Held(d.held.helper, t.held.socket, d.held.lobby) && t.goodbye == d.goodbye
  {
    hide Backoff;
  }

  lemma NetworkOnHold(w: Control, a: Answers)
    requires w.core.link.Some? && w.core.saved.Some? && !HelperStops(w, a)
    ensures var t := TickNetwork(w, a);
      && t == w.(core := w.core.(net := t.core.net))
      && t.core.net == (if w.core.net.None? then None else Some(w.core.net.value.(seen := a.seen)))
  {
  }

  lemma GoesOnIs(d: Control, a: Answers, t: Control)
    requires d.core.net.Some? && d.core.call.None? && d.core.link.None? && GoesOn(d, a, t)
    ensures t.core.link.None? && t.core.call.None?
  {
  }

  lemma SeenGoesOn(w: Control, a: Answers)
    requires w.core.call.None? && w.core.net.Some? && w.core.link.None? && w.goodbye.until.None?
    ensures GoesOn(w, a, CheckNetwork(w.(core := w.core.(net := Some(w.core.net.value.(seen := a.seen)))), a))
  {
    hide CheckNetwork;
    CheckGoesOn(w.(core := w.core.(net := Some(w.core.net.value.(seen := a.seen)))), a);
  }

  lemma RestRestores(d: Control, a: Answers)
    requires OnHold(d) && d.core.call.None? && a.loggedOn && d.core.net.Some? && a.inLobby
    ensures var w := d.(core := Core(None, Some(d.core.net.value.(suspended := false)), d.core.saved, None));
      GoesOn(w, a, TickRest(d, a))
  {
    hide CheckNetwork, GoesOn;
    var w := d.(core := Core(None, Some(d.core.net.value.(suspended := false)), d.core.saved, None));
    SeenGoesOn(w, a);
  }

  lemma RestGivesUp(d: Control, a: Answers)
    requires OnHold(d) && d.core.call.None? && a.loggedOn && !(d.core.net.Some? && a.inLobby) && a.invite.None?
    requires a.now - d.recovery.started > RESTORE_TIMEOUT
    ensures var t := TickRest(d, a); Nothing(t) && t.core.saved == d.core.saved
  {
  }

  lemma RestTries(c: Control, d: Control, a: Answers)
    requires OnHold(d) && d.core.call.None? && a.loggedOn && !HelperStops(d, a)
    requires a.now - d.recovery.started > RESTORE_TIMEOUT ==> a.invite.None?
    requires c.core.saved.Some? && d == c.(core := d.core, abandoned := c.abandoned - a.answered)
    requires d.core.net == c.core.net && d.core.saved == c.core.saved
    ensures Tries(c, a, TickRest(d, a))
  {
    hide Attempt, Backoff, TickNetwork, GoesOn;
    if d.core.net.Some? && a.inLobby {
      RestRestores(d, a);
      var resumed := Core(None, Some(d.core.net.value.(suspended := false)), d.core.saved, None);
      assert d.(core := resumed) == c.(core := resumed, abandoned := c.abandoned - a.answered);
      GoesOnIs(d.(core := resumed), a, TickRest(d, a));
    } else if a.now - d.recovery.started > RESTORE_TIMEOUT {
      RestGivesUp(d, a);
    } else if a.now >= d.recovery.next {
      AttemptAsks(d, a);
      NetworkOnHold(Attempt(d, a), a);
    } else {
      NetworkOnHold(d, a);
    }
  }

  /** A stretch without a request. */
  lemma StretchTries(c: Control, a: Answers)
    requires Shape(c) && c.core.link == Some(RestoringNetwork) && c.core.call.None? && a.loggedOn
    requires !HelperStops(c, a) && a.invite.None?
    ensures c.core.saved.Some? && Tries(c, a, Tick(c, a))
  {
    hide TickRest, Tries;
    RestTries(c, c.(abandoned := c.abandoned - a.answered), a);
  }

  lemma RestOnHold(c: Control, d: Control, a: Answers)
    requires OnHold(d) && d.core.call.Some? && a.loggedOn && !HelperStops(d, a)
    requires d == c.(abandoned := c.abandoned - a.answered)
    ensures var t := TickRest(d, a);
      t.core.call == c.core.call && t.core.link == c.core.link && t.recovery == c.recovery && KeptOnHold(c, a, t)
  {
    hide TickNetwork;
    NetworkOnHold(d, a);
  }

  lemma CallReenters(c: Control, a: Answers)
    requires Shape(c) && c.core.call.Some? && c.core.call.value.kind.Restore? && LetsBackIn(c, a) && c.core.net.None?
    ensures TickCalls(c, a) ==
      Enter(LetIn(c, a).(core := LetIn(c, a).core.(link := None)), c.core.call.value.lobby, true, a)
  {
    hide Enter;
  }

  /** A session just begun, in the words of Entered. */
  lemma NewGoesOn(d: Control, a: Answers)
    requires d.core.net.Some? && d.core.saved.Some? && GoesOn(d, a, TickRest(d, a))
    ensures var t, net := TickRest(d, a), d.core.net.value;
      if !TurnedAway(a) && !HelperStops(d, a) then
        && t.core == Core(None, Some(net.(seen := a.seen)), t.core.saved, None) && t.held == d.held
        && t.goodbye == d.goodbye && t.core.saved == Remembered(d.core.saved, net.lobby, d.network, a, true)
      else Nothing(t)
  {
  }

  lemma StretchReenters(c: Control, a: Answers)
    requires Shape(c) && c.core.link.Some? && c.core.call.Some? && c.core.net.None? && LetsBackIn(c, a)
    requires a.loggedOn && !a.lost && a.invite.None? && a.helper != 0
    ensures c.core.saved.Some?
    ensures var t, saved := Tick(c, a), c.core.saved.value;
      if a.helperStarts && !TurnedAway(a) && !a.helperFailed then
        Entered(c, a, t, saved.lobby) && t.core.saved == Remembered(Some(saved), saved.lobby, saved.network, a, true)
      else Nothing(t)
  {
    hide TickRest, Enter, GoesOn;
    var d := TickCalls(c, a);
    CallReenters(c, a);
    EntersWith(LetIn(c, a).(core := LetIn(c, a).core.(link := None)), c.core.call.value.lobby, a);
    if d.core.net.Some? {
      RestGoesOn(d, a);
      NewGoesOn(d, a);
    } else {
      RestOfNothing(d, a);
    }
  }

  /** A stretch that waits for Steam's answer: back in, the session that was on hold goes on, or
      a new one begins; the membership is forgotten if the lobby is gone or another's; a barred
      PC is offline, and tries again when the app starts again. */
  lemma StretchAnswered(c: Control, a: Answers)
    requires Shape(c) && c.core.link == Some(RestoringNetwork) && c.core.call.Some? && a.loggedOn && !a.lost
    requires !HelperStops(c, a) && a.invite.None? && a.helper != 0
    ensures c.core.saved.Some?
    ensures var t, saved := Tick(c, a), c.core.saved.value;
      if StillWaits(c, a) then
        t.core.call == c.core.call && t.core.link == c.core.link && t.recovery == c.recovery && KeptOnHold(c, a, t)
      else if LetsBackIn(c, a) then
        if c.core.net.Some? then GoesOnFrom(c, a, t)
        else if a.helperStarts && !TurnedAway(a) && !a.helperFailed then
          Entered(c, a, t, saved.lobby) && t.core.saved == Remembered(Some(saved), saved.lobby, saved.network, a, true)
        else Nothing(t)
      else if SaysNoMore(c, a) then Nothing(t) && t.core.saved.None?
      else if SaysBarred(a) then Nothing(t) && t.core.saved == Some(saved)
      else MayAsk(c, a) && Tries(c, a, t)
  {
    hide TickRest, Tries, Enter, GoesOn, KeptOnHold, Remembered;
    var d := TickCalls(c, a);
    if StillWaits(c, a) {
      RestOnHold(c, d, a);
    } else if LetsBackIn(c, a) {
      if c.core.net.Some? {
        RestGoesOn(d, a);
      } else {
        StretchReenters(c, a);
      }
    } else if SaysNoMore(c, a) || SaysBarred(a) {
      RestOfNothing(d, a);
    } else {
      RestTries(c, d, a);
    }
  }

  lemma RestLost(c: Control, d: Control, a: Answers)
    requires OnHold(d) && !a.loggedOn && !HelperStops(d, a)
    requires d.core.net == c.core.net && d.core.saved == c.core.saved
    requires d == c.(core := d.core, abandoned := c.abandoned - a.answered)
    ensures var t := TickRest(d, a);
      && t.core.link == Some(Reconnecting) && t.core.call.None? && KeptOnHold(c, a, t)
      && t.abandoned == d.abandoned && t.books.attempts == d.books.attempts
  {
    hide TickNetwork;
    NetworkOnHold(LoseAgain(d), a);
  }

  /** Without Steam a stretch is over and its request forgotten, whatever would have come of it;
      everything else stays on hold until Steam is back. */
  lemma StretchLost(c: Control, a: Answers)
    requires Shape(c) && c.core.link == Some(RestoringNetwork) && !a.loggedOn && !HelperStops(c, a)
    requires c.core.call.None? || a.result.None?
    ensures var t := Tick(c, a);
      && t.core.link == Some(Reconnecting) && t.core.call.None? && KeptOnHold(c, a, t)
      && t.abandoned == c.abandoned - a.answered && t.books.attempts == c.books.attempts
  {
    hide TickRest, KeptOnHold;
    RestLost(c, TickCalls(c, a), a);
  }

  lemma RestBegins(d: Control, a: Answers)
    requires d.core.link == Some(Reconnecting) && d.core.saved.Some? && d.goodbye.until.None? && a.loggedOn
    ensures TickRest(d, a) == TickRest(BeginRestoring(d, a.now), a)
  {
    hide TickNetwork, Recover;
  }

  lemma RestWaitsOn(c: Control, d: Control, a: Answers)
    requires d.core.link == Some(Reconnecting) && d.core.saved.Some? && d.goodbye.until.None? && !a.loggedOn
    requires (d.core.net.Some? ==> d.core.net.value.suspended) && !HelperStops(d, a)
    requires d == c.(abandoned := c.abandoned - a.answered)
    ensures var t := TickRest(d, a);
      && t.core.link == Some(Reconnecting) && t.core.call == c.core.call && KeptOnHold(c, a, t)
      && t.recovery == c.recovery && t.books.attempts == c.books.attempts
  {
    hide TickNetwork;
    NetworkOnHold(d, a);
  }

  /** Waiting for Steam: nothing changes until it is back, and then a stretch begins. */
  lemma WaitingExactly(c: Control, a: Answers)
    requires Shape(c) && c.core.link == Some(Reconnecting) && !HelperStops(c, a)
    ensures c.core.saved.Some?
    ensures var t := Tick(c, a);
      if a.loggedOn then Tries(c.(recovery := Recovery(a.now, a.now, 0), books := c.books.(attempts := [])), a, t)
      else
        && t.core.link == Some(Reconnecting) && t.core.call.None? && KeptOnHold(c, a, t)
        && t.recovery == c.recovery && t.books.attempts == c.books.attempts
  {
    hide Tries, TickRest;
    var d := c.(abandoned := c.abandoned - a.answered);
    if a.loggedOn {
      var begun := BeginRestoring(d, a.now);
      RestBegins(d, a);
      RestTries(c.(recovery := Recovery(a.now, a.now, 0), books := c.books.(attempts := [])), begun, a);
    } else {
      RestWaitsOn(c, d, a);
    }
  }

  /** Waiting for Steam ends at exactly the first tick that finds it logged on: the session goes
      on if this PC still is in the lobby, and otherwise a stretch begins and asks at once. */
  lemma BackIsNoticed(c: Control, a: Answers)
    requires Shape(c) && c.core.link == Some(Reconnecting) && !HelperStops(c, a)
    ensures c.core.saved.Some?
    ensures var t := Tick(c, a);
      && (t.core.link.Some? ==> t.core.saved == c.core.saved)
      && (t.core.link == Some(Reconnecting) <==> !a.loggedOn)
      && (t.core.link.None? <==> a.loggedOn && c.core.net.Some? && a.inLobby)
      && (t.core.link.None? && t.core.net.Some? ==>
           !t.core.net.value.suspended && t.core.net.value.lobby == c.core.net.value.lobby)
      && (t.core.link == Some(RestoringNetwork) ==>
            && t.recovery.started == a.now && t.recovery.next == a.now + Backoff(0)
            && t.books.attempts == [a.now] && Asked(c, a, t))
  {
    hide Tick;
    WaitingExactly(c, a);
  }

  /** An adapter that fails while the session is on hold takes this PC offline, as it does at
      any other time; a request under way is given up. */
  lemma AdapterFailsOnHold(c: Control, a: Answers)
    requires Shape(c) && c.core.link.Some? && HelperStops(c, a) && a.loggedOn && a.invite.None?
    requires c.core.call.Some? && StillWaits(c, a)
    ensures c.core.saved.Some? && c.core.net.Some?
    ensures var t, net, p := Tick(c, a), c.core.net.value, c.core.call.value;
      && Nothing(t)
      && t.core.saved == (if a.seen.joined then Some(Saved(net.lobby, c.network, a.seen.code, a.seen.members, false))
                          else Some(c.core.saved.value.(online := false)))
      && t.abandoned == (if p.call == 0 then c.abandoned - a.answered
           else (c.abandoned - a.answered)[p.call := p.lobby])
  {
  }

  // A tick of leaving

  /** Let into the lobby of the network that is being left. */
  predicate LetsSayGoodbye(c: Control, a: Answers) {
    && c.goodbye.leaving.Some? && a.result.Some? && a.result.value.Entered? && a.result.value.ours
    && a.result.value.network == c.goodbye.leaving.value.network
  }

  lemma RestSaysGoodbye(d: Control, a: Answers)
    requires d.goodbye.until.Some? && d.core.net.Some? && d.core.call.None? && d.core.link.None?
    ensures var t := TickRest(d, a);
      && t.core.saved == d.core.saved
      && (if a.told || a.now > d.goodbye.until.value then Nothing(t)
          else t == d.(core := d.core.(net := Some(d.core.net.value.(seen := a.seen)))))
  {
  }

  lemma RestWaitsToLeave(d: Control, a: Answers)
    requires d.goodbye.until.Some? && d.core.net.None? && d.core.link.None?
    ensures TickRest(d, a) == d
  {
  }

  lemma CallSaysGoodbye(c: Control, a: Answers)
    requires Shape(c) && c.goodbye.until.Some? && c.core.call.Some? && LetsSayGoodbye(c, a)
    ensures var t := TickCalls(c, a);
      && t.core == Core(None, Some(Session(c.core.call.value.lobby, c.held.socket, false, a.begun)), None, None)
      && t.held == Held(0, c.held.socket, c.core.call.value.lobby) && t.goodbye == c.goodbye
  {
  }

  /** Leaving ends as soon as the network was told, and at the latest once its time is up; and
      when its lobby can't be entered there is nobody to tell. */
  lemma FarewellExactly(c: Control, a: Answers)
    requires Shape(c) && c.goodbye.until.Some? && a.invite.None?
    ensures c.core.net.Some? <==> c.core.call.None?
    ensures var t, over := Tick(c, a), a.told || a.now > c.goodbye.until.value;
      && t.core.saved.None?
      && (if c.core.net.Some? then
            if over then Nothing(t)
            else
              && t.core == c.core.(net := Some(c.core.net.value.(seen := a.seen)))
              && t.held == c.held && t.goodbye == c.goodbye
          else if StillWaits(c, a) then t.core == c.core && t.held == c.held && t.goodbye == c.goodbye
          else if LetsSayGoodbye(c, a) && !over then
            && t.core.net == Some(Session(c.core.call.value.lobby, c.held.socket, false, a.seen)) && t.core.call.None?
            && t.held == Held(0, c.held.socket, c.core.call.value.lobby) && t.goodbye == c.goodbye
          else Nothing(t))
  {
    hide TickRest, Enter;
    var d := TickCalls(c, a);
    if c.core.net.Some? {
      RestSaysGoodbye(d, a);
    } else if StillWaits(c, a) {
      RestWaitsToLeave(d, a);
    } else if LetsSayGoodbye(c, a) {
      CallSaysGoodbye(c, a);
      RestSaysGoodbye(d, a);
    } else {
      RestOfNothing(d, a);
    }
  }

  // Actions

  /** The network that is remembered is asked for, now or as soon as Steam is there. */
  predicate GoesBack(saved: Saved, a: Answers, t: Control) {
    && t.core.saved == Some(saved.(online := true)) && t.core.net.None? && t.goodbye.until.None?
    && t.held == Held(0, t.held.socket, 0)
    && (if !a.loggedOn then t.core.link == Some(Reconnecting) && t.core.call.None?
        else if a.call.Some? && a.socket.Some? && a.socket.value != 0 then
          && t.core.call == Some(Pending(Rejoin, a.call.value, a.now, saved.lobby, saved.code))
          && t.core.link.None? && t.held.socket == a.socket.value
        else
          && t.core.link == Some(RestoringNetwork) && t.core.call.None?
          && t.recovery == Recovery(a.now, a.now, 0) && t.books.attempts == [])
  }

  /** `go_online` does something exactly to somebody who is offline. */
  lemma OnlineExactly(c: Control, a: Answers)
    requires Shape(c)
    ensures if c.running && PresenceOf(c).Offline? then GoesBack(c.core.saved.value, a, GoOnline(c, a))
      else GoOnline(c, a) == c
  {
  }

  /** Starting the app: back into the network it was online in when it stopped. */
  lemma StartExactly(c: Control, loaded: Option<Saved>, a: Answers)
    requires Stopped(c)
    ensures var t := Started(c, loaded, a);
      if c.running || !a.opens then t == c
      else if loaded.Some? && loaded.value.online then t.running && GoesBack(loaded.value, a, t)
      else t == c.(running := true, core := Core(None, None, loaded, None))
  {
  }

  /** What asking for a lobby leaves of a PC that is in no network. */
  predicate AskedFor(kind: Kind, lobby: LobbyId, code: string, a: Answers, t: Control) {
    && t.core == Core(t.core.call, None, None, None) && t.goodbye.until.None?
    && (if a.call.Some? && a.socket.Some? && a.socket.value != 0 then
          t.core.call == Some(Pending(kind, a.call.value, a.now, lobby, code)) && t.held == Held(0, a.socket.value, 0)
        else
          && t.core.call.None? && t.held == NOTHING
          && (a.socket.Some? && a.socket.value != 0 ==>
                a.socket.value in t.books.sockets.given && a.socket.value in t.books.sockets.closed))
  }

  /** Creating and joining are possible exactly from having no network and asking for none. */
  lemma AskingExactly(c: Control, lobby: LobbyId, code: string, a: Answers)
    requires Shape(c)
    ensures if c.running && Nothing(c) && c.core.saved.None? then
        AskedFor(Create, 0, "", a, CreateLobby(c, a)) && AskedFor(Join, lobby, code, a, JoinLobby(c, lobby, code, a))
      else CreateLobby(c, a) == c && JoinLobby(c, lobby, code, a) == c
  {
  }

  /** An accepted invite is followed exactly when nothing is going on: into its lobby without a
      network, back online if it is to the network this PC is offline in, and not otherwise. */
  lemma InviteExactly(c: Control, a: Answers)
    requires Shape(c) && c.running && Nothing(c)
    ensures var t, d := Tick(c, a), c.(abandoned := c.abandoned - a.answered);
      if a.invite.None? then t == d
      else if c.core.saved.None? then AskedFor(Join, a.invite.value.lobby, a.invite.value.code, a, t)
      else if a.invite.value.lobby == c.core.saved.value.lobby then GoesBack(c.core.saved.value, a, t)
      else t == d
  {
  }

  /** A request under way when its network is let go: if Steam still lets this PC in, it has
      to be left again. */
  function GivenUp(c: Control): map<ApiCall, LobbyId> {
    if c.core.call.Some? && !c.core.call.value.kind.Create? && c.core.call.value.call != 0
      then c.abandoned[c.core.call.value.call := c.core.call.value.lobby] else c.abandoned
  }

  lemma DownIs(c: Control)
    requires c.goodbye.until.None?
    ensures Nothing(Down(c)) && Down(c).core.saved == c.core.saved && Down(c).abandoned == GivenUp(c)
  {
  }

  /** Going offline lets everything go but the membership, which is as last seen. */
  lemma OfflineExactly(c: Control)
    requires Shape(c)
    ensures var t, presence := GoOffline(c), PresenceOf(c);
      if presence.Online? || presence.Connecting? || presence.Restoring? then
        && Nothing(t) && t.abandoned == GivenUp(c)
        && t.core.saved ==
           if c.core.net.Some? && c.core.net.value.seen.joined then
             Some(Saved(c.core.net.value.lobby, c.network, c.core.net.value.seen.code, c.core.net.value.seen.members,
                 false))
           else if c.core.saved.Some? then Some(c.core.saved.value.(online := false)) else None
      else t == c
  {
    hide Down;
    if c.goodbye.until.None? {
      var net, saved := c.core.net, c.core.saved;
      var kept :=
        if net.Some? && net.value.seen.joined then Some(Snapshot(c, false))
        else if saved.Some? then Some(saved.value.WithOnline(false)) else None;
      DownIs(Save(c, kept));
      assert saved.None? ==> Save(c, None) == c;
    }
  }

  /** Leaving forgets the membership at once. A member that can be heard says so first: from
      its session, from the one it is about to have, or by going in for it; it has
      FAREWELL_TIMEOUT for that. Everybody else just lets go. */
  lemma LeaveExactly(c: Control, a: Answers)
    requires Shape(c)
    ensures var t, net, until := LeaveNetwork(c, a), c.core.net, Some(a.now + FAREWELL_TIMEOUT);
      if c.goodbye.until.Some? || (c.core.saved.None? && net.None?) then t == c
      else
        && t.core.saved.None?
        && (if c.core.link.Some? then Nothing(t) && t.abandoned == GivenUp(c) && t.goodbye.leaving.None?
            else if net.Some? then
              if !a.told && (net.value.seen.joined || c.core.saved.Some?) then
                && t.core == Core(None, net, None, None) && t.held == c.held.(helper := 0)
                && t.goodbye == Goodbye(until, c.core.saved)
              else Nothing(t)
            else if c.core.call.Some? then
              && t.core == Core(Some(c.core.call.value.(kind := Farewell)), None, None, None) && t.held == c.held
              && t.goodbye == Goodbye(until, c.core.saved)
            else if c.running && a.call.Some? && a.socket.Some? && a.socket.value != 0 then
              && t.core == Core(Some(Pending(Farewell, a.call.value, a.now, c.core.saved.value.lobby,
                   c.core.saved.value.code)),
                                None, None, None)
              && t.held == Held(0, a.socket.value, 0) && t.goodbye == Goodbye(until, c.core.saved)
            else Nothing(t))
  {
  }

  /** Stopping the app keeps a membership as last seen, to go back online with. */
  lemma ShutdownExactly(c: Control)
    requires Shape(c)
    ensures var t := Shutdown(c);
      && !t.running && t.held == NOTHING
      && t.core == Core(None, None, t.core.saved, None)
      && t.core.saved ==
         if PresenceOf(c).Online? || (PresenceOf(c).Restoring? && c.core.net.Some? && c.core.net.value.seen.joined) then
           Some(Saved(c.core.net.value.lobby, c.network, c.core.net.value.seen.code, c.core.net.value.seen.members,
               true))
         else c.core.saved
  {
  }
}
