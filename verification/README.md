# SteamVirtualLAN: a verified model

SteamVirtualLAN connects friends in a virtual LAN over Steam. Members share a Steam lobby whose
owner, whoever Steam makes it, keeps a roster of members and addresses in the lobby's text;
packets travel directly between members; a controller keeps one PC online, gets it back after
a lost connection, and leaves a network for good when asked. This project models those parts and
proves what they keep over whole runs, with Steam, Windows and the clock free to answer anything
they are allowed to.

Where the program changes state step by step, the model is a class with the same fields and
methods, and each method is proved to leave the state a pure function names; what holds over runs
is proved about those functions. Where two threads interleave, the model is a step relation.

| module | models |
|---|---|
| `Roster`, `Text`, `Access`, `Ipv4` | addresses, the roster text, control messages and invites, the IPv4 header |
| `Membership`, `NetworkSession` | one session of a network against an arbitrary Steam: functions, and the class |
| `RosterProtocol` | several sessions in one lobby, as a step relation over `Membership` |
| `LobbyLinks`, `LobbySession` | the connections to the other members: functions and runs, and the class |
| `Control`, `ControlOutcomes`, `AppController` | the controller: functions, invariant, time bounds and runs; what each tick and action comes to; and the class |
| `Launcher`, `Helper` | starting and closing the elevated helper from two threads; the helper itself |
| `Tunnel` | packets: who may send, accept and write them, and where their copies go |
| `Latency`, `Checksum` | PING bookkeeping; the Internet checksum and the answer to a ping |

## What turned out to be false, or to need a condition

Each comes with a lemma at an input and with the exact condition.

- Safety of a whole network fails after some of the things Steam and the sessions may do. Which, is
  exact: `RosterProtocol.HarmlessExactly` says that after a step every continuation is safe if and
  only if the step is harmless, and the theorems about runs leave out the harmful steps and nothing
  else. There are two kinds.
  - Ownership moves, by itself or as the owner goes away, to a session that can't be the owner
    (`RosterProtocol.MovesExactly`, `RosterProtocol.ReadyExactly`). A session can be if it will never
    write; or if everybody that is owed an address, or would take its word and join, has the
    published entry in the roster it will work on, has no LEAVE recorded there, and none on its way
    there. A member that returns with an older saved copy can't:
    `RosterProtocol.StaleCopyIsReachable` is a run that gets there and loses somebody. A leaving
    owner's LEAVE to its successor does no harm (`RosterProtocol.LeaverHandsOver`,
    `RosterProtocol.LeaverIsReachable`).
  - A coordinating owner's call (`RosterProtocol.FreshExactly`): on hold it tells a member that it is
    one, or shows one that would take its word, although that one is going, its LEAVE being recorded
    against its entry once the batch is read; or it admits somebody that would take its word while an
    older LEAVE of it waits. `RosterProtocol.UnfreshIsReachable` is a run to an owner on hold whose
    answer lets a member join at an address it is then taken out of.
- "The first call after a takeover keeps every admitted member published" holds exactly when the new
  owner, once it has read its messages, trusts the owner it last saw or already has everyone, and has
  recorded nobody who is owed an address as leaving (`RosterProtocol.TakeoverKeepsEveryone`).
- "Whoever is told that it is a member is published when the call ends" fails for a LEAVE and an
  AUTH of the same member read together (`RosterProtocol.LeaveAndAuth`): the answer goes out, and
  the member is taken out in the same call. It holds exactly for those that are not going
  (`RosterProtocol.AnsweredIsPublished`). Safety is kept, because the member joins only by a
  published roster that has it.
- "Scheduled no later than RECONNECT_DELAY after the drop" fails when a resume comes later than
  that: it puts every waiting retry at its own time (`LobbyLinks.LateIsReachable`). It holds exactly
  when no resume since the drop came later (`LobbyLinks.OnTimeExactly`, and for one resume
  `LobbyLinks.ResumeOnTime`).
- Closing a peer on purpose bars it exactly if a reason is given (`LobbyLinks.DisconnectBars`). That is
  a fact about the method and no failure of the program, whose one caller always gives a reason.
- "The first tick later than 105 s after a restoring stretch began finds the link restored or given
  up" fails when the same tick begins another stretch (`Control.LateAnswerRestarts`). That happens
  exactly in two cases, told by the state before the tick and the answers in it
  (`Control.RestartsExactly`): Steam lets this PC back in and says at once that the connection is lost
  again; or restoring is given up, because this PC is barred, the time is over, or it is back without
  a session and its new helper doesn't start, and an accepted invite to the same lobby can't be asked
  for. What always holds is that the old stretch is over (`Control.RecoveryIsBounded`).
- A helper that is started for the first time after it was closed keeps its listener for good
  (`Launcher.LateStartLeaks`); `Launcher.AllClosed` says that this is the only way anything stays
  open.

## Model

| member | source | states |
|---|---|---|
| RosterProtocol.RosterSafety | src/steamlan/app/network.py:394-487 | in every state of every run of harmless steps from a network's creation: the lobby's text decodes to a one-to-one roster, each joined session's address is its published entry, no two joined sessions share one, and every admitted address is published |
| RosterProtocol.StaysUntilLeave | src/steamlan/app/network.py:451-455 | an admitted member, in the lobby or not, stays published at the same address in every later state until it announces leaving |
| RosterProtocol.HarmlessExactly | src/steamlan/app/network.py:161-183 | whatever Steam and the sessions do in a state of a run: every continuation stays safe if and only if the step is harmless, so the runs leave out nothing they could allow |
| RosterProtocol.ReadyExactly | src/steamlan/app/network.py:394-455 | of all states in which what doesn't depend on the owner holds, everything stays safe from exactly those in which, if the owner will ever write, everybody due has the published entry in the roster it works on and no LEAVE recorded or on its way there |
| RosterProtocol.MovesExactly | src/steamlan/app/network.py:405-419 | ownership moves to any session of the lobby: every continuation stays safe if and only if that session can be the owner |
| RosterProtocol.LeaverHandsOver | src/steamlan/app/network.py:209-216 | a coordinator's Leave Network, with its LEAVE sent to anybody including the next owner, is a step of the runs, if nobody else's LEAVE waits or is recorded at the next owner, and that one, if joined, trusts the leaver it last saw as the owner |
| RosterProtocol.LeaverIsReachable | src/steamlan/app/network.py:567-572 | a run from a network's creation to an owner with its predecessor's LEAVE on its way to it |
| RosterProtocol.TakeoverKeepsEveryone | src/steamlan/app/network.py:405-410 | a joined session, not on hold, that becomes the owner, ready or not, and reads any messages: it leaves everyone owed an address published if and only if it then trusts the owner it last saw or has them all, and has no record of them leaving |
| RosterProtocol.StaleCopyIsReachable | src/steamlan/app/network.py:405-419 | a run from a network's creation to a joined session whose takeover loses a member, so that moving ownership to it does not stay safe |
| RosterProtocol.FreshExactly | src/steamlan/app/network.py:161-173 | for every state of a run, caller and batch: every continuation of the call stays safe if and only if the caller isn't a coordinating owner, or the call admits nobody that takes its word with a LEAVE waiting and, on hold, neither tells nor shows anybody that is going |
| RosterProtocol.UnreadyBreaks | src/steamlan/app/network.py:451-455 | from every state in which the owner can't be the owner, a run to a state that isn't safe |
| RosterProtocol.UnfreshIsReachable | src/steamlan/app/network.py:374-380 | a run from a network's creation to an owner on hold that has a member in its roster and recorded as leaving, where answering its AUTH does not stay safe |
| RosterProtocol.AnsweredIsPublished | src/steamlan/app/network.py:451-471 | whom an owner not on hold tells that it is a member is published at the end of the call if and only if no LEAVE of it stands recorded, or is in the batch, against its entry |
| RosterProtocol.LeaveAndAuth | src/steamlan/app/network.py:466-471 | a LEAVE and an AUTH of one member read together: it is answered and taken out |
| RosterProtocol.NextKeeps | src/steamlan/app/network.py:161-183 | every harmless step of every session, and every loss, pause, arrival, departure and move of ownership, keeps the protocol's invariant |
| RosterProtocol.CreatedKeeps | src/steamlan/app/network.py:112-119 | the network its creator's first call makes satisfies the invariant |
| Membership.RunKeeps | src/steamlan/app/network.py:394-487 | one session against any Steam: its roster stays one-to-one on member addresses, and once joined it keeps its address and membership |
| Membership.StepKeeps | src/steamlan/app/network.py:161-183 | the same for one step |
| Membership.RosterProvenance | src/steamlan/app/network.py:394-439 | a session's roster changes only to text attributed to an owner already trusted, to its own saved copy when it owns a lobby without one, by admitting one member with the right code, or by taking out members that said they leave |
| Membership.TrustGrounded | src/steamlan/app/network.py:381-387 | over any run, whoever is trusted was in the saved roster, answered "accepted" as the owner last seen, was admitted by this session, or was listed in a roster taken under the same rule |
| Membership.TakeoverPublishes | src/steamlan/app/network.py:161-177 | a joined session that finds itself the owner publishes, in that same call, exactly the roster it inherits without the members recorded as leaving |
| Membership.TakeoverLosesNobody | src/steamlan/app/network.py:405-439 | from a trusted owner with a roster that fits, the published roster is the previous one minus exactly the recorded leavers |
| Membership.OnlyCoordinatorWrites | src/steamlan/app/network.py:441-449 | the lobby's text is only ever written by a joined session that last saw itself as the owner |
| Membership.StepHands | src/steamlan/app/network.py:506-521 | ownership is passed on only by an owner that isn't joined, to the lowest roster member that shares the lobby, and no sooner than HAND_OFF_INTERVAL after the last time |
| Membership.HandOffsSpaced | src/steamlan/app/network.py:506-521 | over any run the attempts to pass ownership on are HAND_OFF_INTERVAL apart |
| Membership.ReadBatch | src/steamlan/app/network.py:366-392 | what reading any batch may change: the roster only grows, and only at a coordinator; only members that say so are recorded as leaving; only the owner last seen becomes trusted elsewhere; only members of the roster are answered; the text follows the roster |
| Membership.GoingExactly | src/steamlan/app/network.py:374-387 | who is recorded as leaving against an entry once a batch is read, told from the state before and the messages |
| Membership.WelcomesExactly | src/steamlan/app/network.py:466-494 | who has been told that it is a member once a batch is read: those whose AUTH met one of the two guards at its turn |
| Membership.EnrolsExactly | src/steamlan/app/network.py:466-487 | who is in the roster once a batch is read: who was, and those whose AUTH met the guard of admission at its turn |
| Membership.StartExactly | src/steamlan/app/network.py:84-145 | a new session is a member from the start if and only if its saved copy is just itself, and trusts whom it saved |
| Membership.SyncExactly | src/steamlan/app/network.py:394-439 | exactly when a session that sees an owner takes the lobby's roster or restores its own, which one, and whom it trusts and takes for leaving from then on |
| Membership.FollowersAgree | src/steamlan/app/network.py:421-439 | two sessions that trust the owner they see, and whose addresses its text has, have the same roster once they follow it |
| Membership.HeardExactly | src/steamlan/app/network.py:366-392 | exactly what a message changes of a session's code, trust, roster, leavers and waiting strangers |
| Membership.AsksExactly | src/steamlan/app/network.py:523-533 | a call sends an AUTH, one, with the session's code and the address it had, to the coordinator, if and only if the session is neither on hold, joined, refused nor owner itself, is connected to the coordinator and has not asked it last; nobody else is ever asked |
| Membership.AskedExactly | src/steamlan/app/network.py:523-533 | over every run, what a session has noted is the latest AUTH it sent: to whom, and when |
| Membership.AskedOnce | src/steamlan/app/network.py:523-533 | over every run an owner is asked a second time only after another one was asked, or after a hold ended without being a member |
| Membership.NoAnswerExactly | src/steamlan/app/network.py:523-533 | over every run, waiting ends without an answer at exactly the first call later than AUTH_TIMEOUT after the latest AUTH to the owner |
| Membership.RepliesExactly | src/steamlan/app/network.py:366-392 | exactly what a message is answered, OK, DENIED or PONG, and to nobody but its sender; who is disconnected by it; and which wrong codes count |
| Membership.RefusedExactly | src/steamlan/app/network.py:381-387 | exactly which message refuses a session, a DENIED from the owner it last saw before it is a member, and for what reason |
| Membership.GuessesAreFew | src/steamlan/app/network.py:466-504 | over every run every wrong code of a sender is counted, MAX_FAILURES at most, and after that no code admits it |
| Membership.HandsExactly | src/steamlan/app/network.py:506-521 | an owner that isn't joined passes ownership on to an heir if and only if there is one and the interval is over, and finds nobody online if and only if there is none then |
| Membership.StrangersExactly | src/steamlan/app/network.py:451-464 | a connected stranger is sent away if and only if it has waited longer than AUTH_TIMEOUT since it was first seen; otherwise it goes on waiting since then |
| Membership.AnnouncesExactly | src/steamlan/app/network.py:209-224 | leaving can be announced exactly by the owner and by whoever is connected to it, and then to everybody connected, once each; a coordinator takes itself out of the text |
| Membership.HoldExactly | src/steamlan/app/network.py:188-207 | over every run a session is on hold if and only if the last event that begins or ends a hold began one |
| Membership.CallFollows | src/steamlan/app/network.py:161-183 | a call follows the lobby's owner if and only if the session isn't on hold, and on hold passes nothing on |
| Membership.ResumedAsks | src/steamlan/app/network.py:198-207 | a hold that ends leaves a member as it was; anyone else isn't refused any more and asks the owner again, if connected to it |
| NetworkSession.NetworkSession.constructor | src/steamlan/app/network.py:84-145 | a new session starts with its saved copy only if that is just itself, trusts the saved members, and has followed the owner once |
| NetworkSession.NetworkSession.Sync | src/steamlan/app/network.py:394-419 | the whole new membership after following the lobby's owner |
| NetworkSession.NetworkSession.TakeRoster | src/steamlan/app/network.py:421-439 | the roster, trusted set and leavers after reading the text for a writer |
| NetworkSession.NetworkSession.Publish | src/steamlan/app/network.py:441-449 | the text afterwards, unless it was the same or can't be written |
| NetworkSession.NetworkSession.Admit | src/steamlan/app/network.py:466-487 | every outcome of an AUTH: known, too many tries, wrong code, full, admitted |
| NetworkSession.NetworkSession.Accept | src/steamlan/app/network.py:489-494 | who is no longer waiting and what was sent |
| NetworkSession.NetworkSession.Deny | src/steamlan/app/network.py:496-504 | who is no longer waiting or connected and what was sent |
| NetworkSession.NetworkSession.Receive | src/steamlan/app/network.py:366-392 | the state after each kind of control message |
| NetworkSession.NetworkSession.Coordinate | src/steamlan/app/network.py:451-464 | the loops that take leavers out, dismiss late strangers and forget those gone do what the functions say |
| NetworkSession.NetworkSession.HandOff | src/steamlan/app/network.py:506-521 | when and to whom ownership is passed on |
| NetworkSession.NetworkSession.MemberChecks | src/steamlan/app/network.py:523-533 | when AUTH is sent and when waiting for the answer ends |
| NetworkSession.NetworkSession.Process | src/steamlan/app/network.py:161-183 | the state after a whole call, exactly the packets it kept for the adapter, who is lost to Steam, and whom round trips are measured to |
| NetworkSession.NetworkSession.AnnounceLeave | src/steamlan/app/network.py:209-224 | the state and answer of announcing to leave |
| NetworkSession.NetworkSession.SendLeave | src/steamlan/app/network.py:567-572 | one LEAVE to every connected member |
| NetworkSession.NetworkSession.Suspend | src/steamlan/app/network.py:188-196 | once, the hold begins, the connections are paused and no round trips are measured |
| NetworkSession.NetworkSession.Resume | src/steamlan/app/network.py:198-207 | the hold ends, nobody counts as lost, the connections go on, and a session that isn't joined asks again |
| NetworkSession.NetworkSession.NoteDepartures | src/steamlan/app/network.py:535-550 | who is lost to Steam after what it said of the others |
| NetworkSession.LostExactly | src/steamlan/app/network.py:535-550 | lost is exactly whose last news was that, or who was lost and of whom there was none |
| NetworkSession.NetworkSession.ReceivePacket | src/steamlan/app/network.py:574-581 | a packet is kept exactly if the sender's rule and this session's roster let it in |
| NetworkSession.NetworkSession.SendPacket | src/steamlan/app/network.py:230-275 | the copies go to exactly the members named, once each |
| NetworkSession.ReadIsRun | src/steamlan/app/network.py:164-171 | a batch of messages does what its control messages do in order: packets and unknown messages change nothing of the membership |
| NetworkSession.ProcessIsRun | src/steamlan/app/network.py:161-183 | a call receives its control messages in order, and unless the session is on hold it then follows the owner and acts |
| NetworkSession.ProcessKeeps | src/steamlan/app/network.py:161-183 | a call of process on any messages keeps the roster one-to-one and the session's address |
| NetworkSession.KeptPackets | src/steamlan/app/network.py:574-581 | every packet a call keeps is one the helper at this session's address writes and this session never sends on |
| NetworkSession.KeptExactly | src/steamlan/app/network.py:574-581 | exactly which packets of a call are kept, told of the bytes and the roster at their turn: those of another member, from its address, for this session's or for all; unchanged and in order |
| LobbyLinks.EveryRun | src/steamlan/steam/session.py:40-243 | over every run from a session's start: each handle is closed or the connection of exactly one peer, connected peers have one, everything received was returned once and in order or is drained, and every peer this side connects to without a connection is closed on purpose, due at once, or scheduled for exactly its time |
| LobbyLinks.RetryDiscipline | src/steamlan/steam/session.py:148-184 | told of the events alone, over every run: an initiated peer without a connection was closed on purpose and has been a member ever since, or is fresh, or waits for RECONNECT_DELAY after its last drop or for the time of a resume since |
| LobbyLinks.ConnectedExactly | src/steamlan/steam/session.py:165-184 | told of the events alone, over every run: a peer is connected if and only if since its present connection became its own an event reported that connection up, with the peer's identity or none; and it counts as having been connected if and only if that was so of any since it became a peer |
| LobbyLinks.IncomingExactly | src/steamlan/steam/session.py:186-217 | a connection that comes in becomes its peer's if and only if that one is a member, known or by the list as it is now, is the side that connects, and Steam accepts it; otherwise it is closed |
| LobbyLinks.StrayExactly | src/steamlan/steam/session.py:165-184 | of connections that are nobody's: one that is over is closed, one that comes in without an identity is closed, and every other is left alone |
| LobbyLinks.NothingUnread | src/steamlan/steam/session.py:219-243 | over every run, what has been passed on from a connection, and then what waits to be, is exactly all that Steam had for it each time it was read: in turn while its peer was connected, and once more as it was closed |
| LobbyLinks.EndsExactly | src/steamlan/steam/session.py:165-184 | exactly which events take a connection away from its peer |
| LobbyLinks.StepKeeps | src/steamlan/steam/session.py:148-217 | each event conserves the handles |
| LobbyLinks.StepTells | src/steamlan/steam/session.py:96-112 | each event conserves the messages; those of a closed connection come before those of any later one of the same peer |
| LobbyLinks.StepSchedules | src/steamlan/steam/session.py:165-184 | one event keeps the schedule; a drop sets the retry to exactly RECONNECT_DELAY later; the record of who was closed on purpose grows only by a disconnect with a reason, a failed identity or closing the session, and whoever is closed for good stays so unless closed again for no reason |
| LobbyLinks.BarredNeverConnects | src/steamlan/steam/session.py:120-124 | over any events, pauses and resumes, a peer closed on purpose is not connected to while it stays a member and is not closed again with an empty reason |
| LobbyLinks.DisconnectBars | src/steamlan/steam/session.py:120-124 | disconnecting bars a peer this side connects to if and only if a reason is given |
| LobbyLinks.ConnectsOnly | src/steamlan/steam/session.py:148-163 | connections are only started to higher SteamIDs in the lobby that have none and were not closed for good, and only while not paused |
| LobbyLinks.ConnectReaches | src/steamlan/steam/session.py:148-163 | a connecting pass leaves an initiated peer with a connection if and only if it was not closed on purpose and does not wait for a later time |
| LobbyLinks.ConnectReachesAll | src/steamlan/steam/session.py:148-163 | once RECONNECT_DELAY has passed since the drop, it has one if and only if it was not closed on purpose |
| LobbyLinks.OnTimeExactly | src/steamlan/steam/session.py:137-146 | a waiting retry is within RECONNECT_DELAY of the drop if and only if no resume since came later |
| LobbyLinks.ResumeOnTime | src/steamlan/steam/session.py:137-146 | who waits at the end of a resume is on time if and only if the resume came within RECONNECT_DELAY of the drop |
| LobbyLinks.LateIsReachable | src/steamlan/steam/session.py:137-146 | a run from a session's start to a retry later than that |
| LobbyLinks.PeersFollowList | src/steamlan/steam/session.py:68-90 | peers only ever change to the others of a member list that contains this PC |
| LobbyLinks.UpdateKeeps | src/steamlan/steam/session.py:68-90 | following a member list opens nothing, closes what left, and leaves exactly the list's others |
| LobbyLinks.Holder | src/steamlan/steam/session.py:165-171 | the peer a connection belongs to, if any |
| LobbySession.PassIsRun | src/steamlan/steam/session.py:96-112 | one call of process is a run of the session's events |
| LobbySession.PassReturnsAll | src/steamlan/steam/session.py:96-112 | after a call of process everything Steam handed over has been returned |
| LobbySession.LobbySession.constructor | src/steamlan/steam/session.py:41-63 | a new session has followed the member list once |
| LobbySession.LobbySession.UpdateMembers | src/steamlan/steam/session.py:68-90 | the whole state after reading the member list, the unreadable list included |
| LobbySession.LobbySession.Process | src/steamlan/steam/session.py:96-112 | the whole state after a call, and the messages it returns |
| LobbySession.LobbySession.Send | src/steamlan/steam/session.py:114-118 | the connection to send on exactly if the peer is connected |
| LobbySession.LobbySession.ConnectedPeers | src/steamlan/steam/session.py:65-66 | exactly the connected peers, in order |
| LobbySession.LobbySession.Disconnect | src/steamlan/steam/session.py:120-124 | the peer is closed and the rest unchanged |
| LobbySession.LobbySession.Close | src/steamlan/steam/session.py:126-130 | every peer is closed |
| LobbySession.LobbySession.Pause | src/steamlan/steam/session.py:132-135 | only the pause changes |
| LobbySession.LobbySession.Resume | src/steamlan/steam/session.py:137-146 | the list is followed and every waiting retry is due at once |
| LobbySession.LobbySession.Connect | src/steamlan/steam/session.py:148-163 | the loop connects exactly the peers that are due |
| LobbySession.LobbySession.ConnectionChanged | src/steamlan/steam/session.py:165-184 | the whole state after each kind of change |
| LobbySession.LobbySession.Accept | src/steamlan/steam/session.py:186-217 | who is accepted, replaced or rejected |
| LobbySession.LobbySession.Gather | src/steamlan/steam/session.py:219-225 | the messages of all connected peers, in order |
| LobbySession.LobbySession.ClosePeer | src/steamlan/steam/session.py:227-243 | what was read, closed and noted |
| Control.RunKeeps | src/steamlan/app/controller.py:222-1016 | from start until shutdown, over every action and tick: the fields fit together, each listen socket and helper is held or was closed exactly once, and restoring keeps its pace |
| Control.StepShape | src/steamlan/app/controller.py:436-495 | the fields' invariant over one action or tick: what may be pending beside a session, a farewell, a link, a helper, a socket |
| Control.TickShape | src/steamlan/app/controller.py:543-579 | the same over one tick, whatever is answered in it |
| Control.FinishShape | src/steamlan/app/controller.py:840-910 | the same over every answer to the pending call |
| Control.LeaveShape | src/steamlan/app/controller.py:466-495 | the same over every way of leaving |
| Control.SavedIsThere | src/steamlan/app/controller.py:270-353 | whenever the view reads the saved network, there is one |
| Control.PresenceMeans | src/steamlan/app/controller.py:270-281 | offline means a remembered network and nothing pending or held; no network means nothing remembered; restoring means on hold; online means joined, in the lobby and not on hold |
| Control.OfflineAndBack | src/steamlan/app/controller.py:447-464 | going offline and online again asks for the same lobby with the code and the members the session had |
| Control.MembershipIsKept | src/steamlan/app/controller.py:705-747 | the saved membership stays, as the same network, over one action or tick if and only if the user does not leave, Steam does not say the lobby is gone or another's, and the network knows this member |
| Control.Offsets | src/steamlan/app/controller.py:70-71 | those offsets are the sums of the backoff |
| Control.RecoveryIsBounded | src/steamlan/app/controller.py:628-661 | over every run: a restoring stretch that event i begins is over after the first tick later than 105 s after event i, whatever Steam answers; still restoring then only if that tick began another |
| Control.RequestsAreFew | src/steamlan/app/controller.py:654-661 | over every run at most nine requests to enter the lobby are made in a stretch, the k-th no sooner than 0, 2, 6, 14, 29, 44, 59, 74, 89 s after the event that began it, none later than 90 s |
| Control.RestartsExactly | src/steamlan/app/controller.py:628-661 | a tick ends one stretch and begins another if and only if Steam lets this PC back in and loses it again at once, or restoring is given up (barred, out of time, or its new helper doesn't start) and an accepted invite to the same lobby can't be asked for |
| Control.LateAnswerRestarts | src/steamlan/app/controller.py:549-566 | a run from the start to a tick later than 105 s after a stretch began that ends it and begins another |
| Control.StepStretch | src/steamlan/app/controller.py:681-685 | a stretch that begins has that event's time, and no later event of it changes when it began or takes back an attempt |
| Control.RestoringEnds | src/steamlan/app/controller.py:549-566 | the same for one tick from any state that fits together: the stretch is over, or another has just begun |
| Control.FarewellIsBounded | src/steamlan/app/controller.py:965-995 | over every run: once Leave Network is asked for at event i, the first tick later than 15 s after event i leaves no farewell |
| Control.StepFarewell | src/steamlan/app/controller.py:965-995 | only leaving sets the deadline, 15 s from then, and nothing moves it |
| Control.FarewellEnds | src/steamlan/app/controller.py:568-572 | the same from any state that fits together |
| Control.ShutdownClosesAll | src/steamlan/app/controller.py:238-250 | shutting down leaves nothing open: each socket and helper was closed exactly once |
| ControlOutcomes.LossIsNoticed | src/steamlan/app/controller.py:602-635 | a tick in a network finds the connection lost if and only if Steam isn't logged on, or says it lost its servers or took this PC out; then everything is kept on hold, and restoring begins now, or waits if Steam isn't logged on |
| ControlOutcomes.BackIsNoticed | src/steamlan/app/controller.py:628-661 | waiting ends at exactly the first tick that finds Steam logged on: the session goes on if this PC is still in the lobby, and otherwise a stretch begins and asks for it at once |
| ControlOutcomes.WaitingExactly | src/steamlan/app/controller.py:628-661 | the same with all that is kept meanwhile |
| ControlOutcomes.SessionGoesOn | src/steamlan/app/controller.py:705-747 | a tick of a session with its connection: it goes on unless it is turned away or its adapter fails, what is remembered is the network as last seen, and nothing stays held otherwise |
| ControlOutcomes.CreationExactly | src/steamlan/app/controller.py:840-963 | a new network is entered if and only if Steam made its lobby, the mark could be set, the helper starts and nothing turns up at once; otherwise nothing is left |
| ControlOutcomes.JoiningExactly | src/steamlan/app/controller.py:840-963 | the same of a lobby to join, which has to be one of ours |
| ControlOutcomes.ReturnExactly | src/steamlan/app/controller.py:840-963 | what each answer, and none in time, makes of going back online: in the network, offline, forgotten, or restoring |
| ControlOutcomes.StretchTries | src/steamlan/app/controller.py:648-661 | a stretch that waits for nothing: the session goes on if this PC is in the lobby, everything is let go past RESTORE_TIMEOUT, and the lobby is asked for exactly when the next attempt is due |
| ControlOutcomes.StretchAnswered | src/steamlan/app/controller.py:840-910 | what each answer, and none in time, makes of an attempt |
| ControlOutcomes.StretchLost | src/steamlan/app/controller.py:636-646 | Steam is lost again: the request is dropped and everything else stays on hold |
| ControlOutcomes.AdapterFailsOnHold | src/steamlan/app/controller.py:574-577 | an adapter that fails while the session is on hold takes this PC offline, and the request under way is remembered to be undone |
| ControlOutcomes.FarewellExactly | src/steamlan/app/controller.py:568-572 | every tick of leaving: it goes on until the network was told or the time is up, in the lobby or on the way there, and ends at once if that can't be entered |
| ControlOutcomes.OnlineExactly | src/steamlan/app/controller.py:436-445 | going online asks for the remembered lobby with its code, or waits for Steam, if and only if this PC is offline |
| ControlOutcomes.StartExactly | src/steamlan/app/controller.py:222-268 | a start goes back online exactly if the saved network was online |
| ControlOutcomes.AskingExactly | src/steamlan/app/controller.py:410-434 | a lobby is asked for, to create or to join, if and only if there is no network and no request |
| ControlOutcomes.InviteExactly | src/steamlan/app/controller.py:749-772 | what an accepted invite does to a PC that has nothing going on |
| ControlOutcomes.OfflineExactly | src/steamlan/app/controller.py:447-464 | going offline lets everything go but the membership as last seen, and remembers the request to undo |
| ControlOutcomes.LeaveExactly | src/steamlan/app/controller.py:466-495 | each way of leaving: who says goodbye, from where and until when, and who just lets go |
| ControlOutcomes.ShutdownExactly | src/steamlan/app/controller.py:238-250 | what is remembered when the app stops |
| Control.StepKept | src/steamlan/app/controller.py:800-804 | one action or tick conserves listen sockets and helpers |
| Control.StepTimed | src/steamlan/app/controller.py:681-685 | one action or tick keeps the pace of restoring and the age of what is pending |
| AppController.AppController.constructor | src/steamlan/app/controller.py:178-218 | nothing is held |
| AppController.AppController.Presence | src/steamlan/app/controller.py:270-281 | offline exactly if a network is remembered and nothing is pending or held, restoring exactly while a lost connection is recovered from, no network only if nothing is remembered |
| AppController.AppController.Start | src/steamlan/app/controller.py:222-268 | the state after starting with the saved network, or nothing if Steam can't be opened |
| AppController.AppController.CreateLobby | src/steamlan/app/controller.py:410-423 | the state after asking for a lobby, or failing to |
| AppController.AppController.Join | src/steamlan/app/controller.py:425-434 | the state after asking to join |
| AppController.AppController.GoOnline | src/steamlan/app/controller.py:436-445 | when and how going online starts |
| AppController.AppController.GoOffline | src/steamlan/app/controller.py:447-464 | everything stops and the membership is kept |
| AppController.AppController.LeaveNetwork | src/steamlan/app/controller.py:466-495 | the state after each way of leaving |
| AppController.AppController.Shutdown | src/steamlan/app/controller.py:238-250 | the state after exiting |
| AppController.AppController.Tick | src/steamlan/app/controller.py:534-579 | the state after one tick, and that the fields fit together |
| AppController.AppController.WatchConnection | src/steamlan/app/controller.py:628-661 | losing, losing again, restoring, giving up and trying again |
| AppController.AppController.LoseConnection | src/steamlan/app/controller.py:663-679 | everything is kept and recovery begins |
| AppController.AppController.Restored | src/steamlan/app/controller.py:687-695 | the same session carries on |
| AppController.AppController.GiveUp | src/steamlan/app/controller.py:697-703 | the call, recovery and the network are given up and nothing stays held |
| AppController.AppController.CheckNetwork | src/steamlan/app/controller.py:705-721 | what is saved, and when the network is left alone, refused or gone offline from |
| AppController.AppController.Refused | src/steamlan/app/controller.py:723-737 | which refusals forget the network |
| AppController.AppController.GoOfflineWith | src/steamlan/app/controller.py:739-747 | offline with the membership kept |
| AppController.AppController.HandleInvite | src/steamlan/app/controller.py:749-772 | what an accepted invite starts |
| AppController.AppController.OpenListenSocket | src/steamlan/app/controller.py:800-804 | at most one listen socket |
| AppController.AppController.StartJoin | src/steamlan/app/controller.py:806-818 | the pending call, or its failure |
| AppController.AppController.CallFailed | src/steamlan/app/controller.py:820-838 | what each kind of failed call does |
| AppController.AppController.Finish | src/steamlan/app/controller.py:840-910 | what each answer does |
| AppController.AppController.ForgetGone | src/steamlan/app/controller.py:912-919 | the network is forgotten |
| AppController.AppController.Enter | src/steamlan/app/controller.py:921-963 | the session, its lobby and at most one helper |
| AppController.AppController.BeginFarewell | src/steamlan/app/controller.py:965-974 | the helper is closed and the deadline set |
| AppController.AppController.Abandon | src/steamlan/app/controller.py:976-982 | the call is forgotten, and remembered only to leave its lobby again |
| AppController.AppController.Farewell | src/steamlan/app/controller.py:984-990 | the farewell ends when told or too late |
| AppController.AppController.CloseNetwork | src/steamlan/app/controller.py:997-1015 | session, lobby, socket and helper are let go |
| AppController.AppController.Snapshot | src/steamlan/app/controller.py:1019-1028 | it is of the network that is remembered already, of the lobby this PC is in, with the session's members |
| Launcher.EveryInterleaving | src/steamlan/adapter/launcher.py:115-273 | for every interleaving of the worker with poll and close: nothing is closed twice, after close and the worker's end everything but a late listener was closed exactly once, the state is never READY again, and while READY there is a connection |
| Launcher.AllClosed | src/steamlan/adapter/launcher.py:163-193 | once both are done nothing stays open if and only if the helper was not first started after being closed |
| Launcher.StateExactly | src/steamlan/adapter/launcher.py:48-53 | over every schedule the state is what the last step wrote that wrote one |
| Launcher.ReadyExactly | src/steamlan/adapter/launcher.py:115-154 | over every schedule the helper is READY if and only if a poll heard it say so and since then neither thread marked it failed nor close stopped it |
| Launcher.ReadyIsReachable | src/steamlan/adapter/launcher.py:212-243 | a schedule from the start to READY with the connection, the process and the listener there |
| Launcher.WrongStartFails | src/steamlan/adapter/launcher.py:212-243 | a start that goes wrong while nobody closes is marked FAILED, whatever went wrong, and nothing else changes |
| Launcher.LateErrorIsIgnored | src/steamlan/adapter/launcher.py:212-243 | an error that comes after close or after a failure changes nothing |
| Launcher.WrongPollFails | src/steamlan/adapter/launcher.py:245-273 | a poll that goes wrong marks the helper FAILED unless, when it looks, it is closed or has failed |
| Launcher.OverIsOver | src/steamlan/adapter/launcher.py:115-120 | a helper that failed or was stopped is never READY or STARTING again |
| Launcher.ClosedIsOver | src/steamlan/adapter/launcher.py:163-178 | once close has returned, a helper started before has failed or is stopped |
| Launcher.ClosesInOrder | src/steamlan/adapter/launcher.py:163-193 | close closes each thing at most once: the connection, then the listener, then the process |
| Launcher.WorkerNears | src/steamlan/adapter/launcher.py:212-243 | every step of the worker takes it nearer to its end, and no step of close touches it |
| Launcher.CloseNears | src/steamlan/adapter/launcher.py:163-210 | every step of a close or of a failing poll takes the caller nearer to its end, and no step of the worker touches it |
| Launcher.WorkerGoesOn | src/steamlan/adapter/launcher.py:212-243 | the worker is never stuck before its end |
| Launcher.CloseGoesOn | src/steamlan/adapter/launcher.py:163-193 | close is never stuck, and returns |
| Launcher.LateStartLeaks | src/steamlan/adapter/launcher.py:102-113 | a schedule in which a late start keeps its listener |
| Launcher.StepKeeps | src/steamlan/adapter/launcher.py:212-243 | each step of either thread keeps every handle in exactly one place |
| Helper.Channel.SendPacket | src/steamlan/adapter/helper.py:76-80 | a packet is queued unless the queue is full; nothing queued is lost or reordered and at most MAX_QUEUED_PACKETS packets wait |
| Helper.Channel.Send | src/steamlan/adapter/helper.py:73-74 | other messages are always queued |
| Helper.Channel.Take | src/steamlan/adapter/helper.py:87-92 | the oldest is written first |
| Helper.Helper.Handle | src/steamlan/adapter/helper.py:144-180 | for every message from the app: the address is set once, only to a member's address that Windows took, and confirmed; Windows gets exactly the packets that address allows; every refusal and failure |
| Helper.ParseAddressInverse | src/steamlan/adapter/protocol.py:42-50 | a body is accepted as an address exactly if it is the four bytes of a member's address |
| Helper.Helper.Read | src/steamlan/adapter/helper.py:182-190 | exactly the IPv4 packets Windows sends once there is an address are queued, unless the queue is full |
| Tunnel.RulesAgree | src/steamlan/app/tunnel.py:42-74 | on every byte string: a member takes from another exactly what that one may send that is for it or for all, with the same delivery, and the helper lets it through |
| Tunnel.OutgoingExactly | src/steamlan/app/tunnel.py:42-59 | on the bytes: a packet leaves a member if and only if it has a header, bytes 12-15 are the member's address, bytes 16-19 are another's, a broadcast's or a multicast group's, and byte 9 is not IGMP's |
| Tunnel.AcceptsExactly | src/steamlan/app/tunnel.py:62-74 | the same of taking a packet from a sender: its source is the sender's address, and it is for this member or for all |
| Tunnel.WritesExactly | src/steamlan/adapter/helper.py:51-56 | the same of what the helper writes |
| Tunnel.CopiedByBytes | src/steamlan/app/network.py:256-266 | which connected members get a copy, told of the bytes: all of the roster for a broadcast or a group, and otherwise the one whose address it is |
| Tunnel.DispatchExactly | src/steamlan/app/network.py:230-275 | why a packet goes to nobody, told of the bytes: it may not be sent, nobody else has its address, or it is for all and nobody is there |
| Tunnel.SentIsHanded | src/steamlan/app/network.py:256-284 | a copy that is sent and arrives, between members whose rosters agree on both addresses, ends at the recipient's Windows |
| Tunnel.RefusedIsGone | src/steamlan/app/network.py:574-581 | what is lost, or refused by its recipient, is off the wire and handed to nobody |
| Tunnel.CopiedExactly | src/steamlan/app/network.py:230-275 | a copy goes to exactly the connected members that would accept it |
| Tunnel.CopyIsWritten | src/steamlan/app/network.py:574-581 | a recipient whose roster agrees on both addresses accepts its copy as it was sent, and its helper writes it |
| Tunnel.AcceptedStays | src/steamlan/app/tunnel.py:42-59 | whatever is accepted is never outgoing there |
| Tunnel.HelperAgrees | src/steamlan/adapter/helper.py:51-56 | the helper writes exactly what would be accepted from some member |
| Tunnel.HelperReadsAll | src/steamlan/adapter/helper.py:182-190 | the helper passes on every packet the app could send |
| Tunnel.OneHop | src/steamlan/app/network.py:230-284 | over every run each copy stands for one reading from its sender's Windows, at most one per recipient and reading |
| Tunnel.HandedWasSent | src/steamlan/app/network.py:574-581 | each packet handed to Windows was sent, byte for byte, by the Windows of the member that owns its source address, and goes no further |
| Tunnel.KindsAreDisjoint | src/steamlan/app/tunnel.py:31-39 | no packet message parses as a control message and no control message is a packet message |
| Tunnel.PayloadInverse | src/steamlan/app/tunnel.py:31-39 | unwrapping undoes wrapping |
| Ipv4.HeaderMeaning | src/steamlan/adapter/ipv4.py:114-132 | a packet has a header if and only if its version and lengths fit, and then addresses, protocol and lengths are those its bytes spell |
| Ipv4.PackedInverse | src/steamlan/adapter/ipv4.py:127-128 | the four bytes of an address give it back |
| Latency.RunKeeps | src/steamlan/app/latency.py:52-114 | over every run with a monotone clock: a peer's waiting PINGs are PING_INTERVAL apart, at most MAX_PENDING, and its own; what has counted stays counted |
| Latency.ForgettingLosesNothing | src/steamlan/app/latency.py:52-114 | over every run the tracker answers as one that keeps every PING and sample would: whom a PING is due to, exactly which answers count, the weighted average of all samples of the connection, and when the last came |
| Latency.PingsFollow | src/steamlan/app/latency.py:66-80 | a call of due sends one PING to everybody whose PING is due and to nobody else, with consecutive numbers |
| Latency.PongFollows | src/steamlan/app/latency.py:82-95 | an answer counts if and only if its PING went out on the peer's present connection no longer than PING_TIMEOUT ago and was not answered before |
| Latency.PingAllExpires | src/steamlan/app/latency.py:66-80 | after due no PING is older than PING_TIMEOUT |
| Latency.PingsAreNew | src/steamlan/app/latency.py:66-80 | sequence numbers are new and in order across peers and connections |
| Latency.FewPinged | src/steamlan/app/latency.py:75-77 | a new PING never makes more than MAX_PENDING wait, so trimming removes nothing |
| Latency.SpacedIsFew | src/steamlan/app/latency.py:75-77 | what is spaced within a span is few |
| Latency.PongCounts | src/steamlan/app/latency.py:82-95 | a PING counts at most once, only from its own peer and connection, with a sample in [0, PING_TIMEOUT] |
| Latency.RttWithin | src/steamlan/app/latency.py:97-102 | the smoothed RTT lies between the least and greatest sample of the present connection |
| Latency.SmoothedWithin | src/steamlan/app/latency.py:93 | smoothing in a sample stays between least and greatest |
| Latency.Trim | src/steamlan/app/latency.py:75-77 | the highest MAX_PENDING numbers are left with their times, all of them if there were no more |
| Latency.LatencyTracker.Track | src/steamlan/app/latency.py:52-64 | new connections start over, absent ones are forgotten, others keep their state |
| Latency.LatencyTracker.Due | src/steamlan/app/latency.py:66-80 | the PINGs and state after the loop, for the dict's order |
| Latency.LatencyTracker.Pong | src/steamlan/app/latency.py:82-95 | the state after an answer, and whether it counted |
| Latency.LatencyTracker.Rtt | src/steamlan/app/latency.py:97-102 | a recent value among the samples, or none |
| Latency.LatencyTracker.Clear | src/steamlan/app/latency.py:108-109 | nobody is tracked |
| Roster.Assign | src/steamlan/app/roster.py:23-41 | the loop gives the preferred address if it is free, else the lowest free one |
| Roster.AssignKeeps | src/steamlan/app/roster.py:23-41 | giving an address keeps the roster valid and everyone else's address |
| Roster.AssignFails | src/steamlan/app/roster.py:23-41 | no address is given if and only if the member is new and all are taken |
| Roster.DecodeText | src/steamlan/app/roster.py:49-68 | the loop decodes as the function says |
| Roster.DecodeValid | src/steamlan/app/roster.py:49-68 | whatever decodes is one-to-one on member addresses with ids in 1..2^64-1 |
| Roster.DecodeLists | src/steamlan/app/roster.py:49-68 | exactly the listed entries are in it |
| Roster.DecodeExactly | src/steamlan/app/roster.py:49-68 | a text is a roster if and only if every part that isn't empty is an entry and no two have an id or an address in common |
| Roster.EntryExactly | src/steamlan/app/roster.py:49-68 | a part is an entry if and only if it is a SteamID in digits, "=" and an address from 10.77.0.1 to 10.77.0.254 as it is printed |
| Roster.DecodeInverse | src/steamlan/app/roster.py:44-68 | decoding undoes encoding for every valid roster |
| Roster.EncodeInjective | src/steamlan/app/network.py:424-429 | equal texts mean equal rosters |
| Roster.EncodeEmpty | src/steamlan/app/network.py:426-427 | only the empty roster has the empty text |
| Roster.RosterSize | src/steamlan/adapter/ipv4.py:14-19 | a valid roster has at most 254 entries |
| Roster.EncodeFits | src/steamlan/app/roster.py:44-46 | with ids of at most 19 digits its text is shorter than 8192 characters |
| Access.ParsePrint | src/steamlan/app/access.py:126-192 | parsing undoes printing for every message that has a text form |
| Access.ParsedIsSendable | src/steamlan/app/access.py:163-192 | only such messages are parsed, and all start with the prefix |
| Access.ReadExactly | src/steamlan/app/access.py:163-192 | exactly which texts are read as which message, and that these are all the messages there are |
| Access.InviteExactly | src/steamlan/app/access.py:96-101 | an invite is read if and only if it is the prefix, a lobby's number with blanks around it, a colon and a text taken for the code |
| Access.TypedExactly | src/steamlan/app/access.py:55-60 | a typed text is taken for a code if and only if without spaces and dashes its ten characters stand for the code's: themselves, small letters, O for 0, I and L for 1 |
| Access.LobbyIdIs | src/steamlan/app/access.py:67-88 | a lobby's id has account type 8 in bits 52 to 55 and is below 2^64 |
| Access.FormatIs | src/steamlan/app/access.py:51-52 | the dash comes after five characters |
| Access.InviteInverse | src/steamlan/app/access.py:91-101 | an invite carries the lobby and code it was made from |
| Access.NormalizeIdempotent | src/steamlan/app/access.py:55-60 | normalizing twice changes nothing more |
| Access.NormalizeFormat | src/steamlan/app/access.py:51-60 | normalizing undoes formatting |
| Text.AddressInverse | src/steamlan/app/roster.py:44-68 | parsing a dotted address undoes printing it |
| Text.AddressSpelled | src/steamlan/app/roster.py:49-68 | an address has one text |
| Checksum.Checksum | scripts/check_adapter.py:174-181 | both loops together compute the checksum |
| Checksum.Fold | scripts/check_adapter.py:179-180 | folding ends below 2^16, preserves the value modulo 65535, and gives 0 only for 0 |
| Checksum.ChecksumMeaning | scripts/check_adapter.py:174-181 | the checksum as a number, without folding |
| Checksum.SumOfBytes | scripts/check_adapter.py:174-181 | the words add up to the bytes, those at even places times 256: the padding adds nothing, and a byte left over is the high one |
| Checksum.AnsweredExactly | scripts/check_adapter.py:184-203 | exactly which packets are answered, on their bytes |
| Checksum.WrittenChecks | scripts/check_adapter.py:206-208 | written into its zeroed field, the checksum of the whole is 0, for any length |
| Checksum.EchoReply | scripts/check_adapter.py:184-219 | the two buffers come out as the function says |
| Checksum.ReplyIsValid | scripts/check_adapter.py:206-219 | every answer has valid checksums, swapped addresses, its exact length within 16 bits, and the ping's data |
| Checksum.ReplyIsDeliverable | scripts/check_adapter.py:184-219 | the answer to a ping of a member address is deliverable here as from that member |

## Left out

- Steam and Windows bindings, pipe authentication, the state file, the GUI, names and logging: foreign
  calls and presentation. Their answers are parameters, already decoded; handles are new and not 0.
- Steam errors in the middle of a tick, except those the code handles itself; times are readings of
  one clock, one a call.
- Peer: its fields are a value in the session's map rather than an object of their own, so aliasing
  of a peer that was taken out of the dict is not modelled.
- Membership: the names of members are left out; whom a session is connected to, whether those
  connections are paused, and whom the latency tracker follows are part of what it is shown or of its
  own fields rather than read from LobbySession and LatencyTracker objects; the bytes of a message
  stand as characters. For a creator the saved copy and the roster are one object in the program, so
  what changes the roster in place changes the copy too; the model keeps the copy as it was, which is
  read only by an owner that isn't joined.
- Access.NormalizeCode, Text: text is ASCII; the letters, digits and blanks Python knows beyond that are left
  out.
- RosterProtocol: one `process` call is one step, everybody sees the lobby's text as it is, and the
  runs are those of harmless steps (see above).
- AppController.AppController.Join: it is given texts that have been parsed.
- Launcher: two threads share its fields, so it is a step relation rather than a class; what poll
  does with packets and log lines, and the waits for the helper, are left out; the helper's process
  may end at any time.
- Helper.Helper.Handle: log lines, which also go through the queue, are left out.
- That every lobby Steam let us into is left again, that everybody is admitted in the end, and
  that everything is read from a closing connection: the program does not provide these.
- TrafficStats, the wording of errors, and the other scripts: they would only add easy members.
