# aloh-networking, modelled in Dafny

The project models three connected parts of the repository and proves what they keep in every interleaving of their
goroutines.

1. **Peer sessions** (`internal/domain/services/networking`, `internal/domain/repository`, `internal/domain/models`).
   `Lifecycle.dfy` is a transition system over one step per atomic statement: any number of goroutines create sessions
   (API calls, signalling messages through a singleflight, ICE reconnect loops), establish them through the credentials
   gate, reset them, and run the once-only disconnect on live, stale or replaced sessions.
   `LifecycleInvariant.dfy` and `LifecycleWaiting.dfy` hold the inductive invariant, `LifecycleTheorems.dfy` the results,
   `LifecycleCallbacks.dfy`, `LifecycleGate.dfy`, `LifecycleOrder.dfy` and `LifecycleLosers.dfy` what can and cannot
   happen late, `LifecycleLoops.dfy` how many reconnect loops there can be, `LifecycleGroups.dfy` when Connect and
   Disconnect return and with what, `LifecycleEnds.dfy` what can fail, what is closed and what the application's end
   does, `LifecycleRuns.dfy` the runs that exist, from the start or from any reachable state.
   `SessionRepository.dfy` has the session object and the identity-aware map as heap classes, and `Networking.dfy` the
   service's own routines on them, other goroutines running freely between any two statements. Every routine ensures
   `Leads(old(now), now)`: what it did, and what the others did meanwhile, is a run of the transition system.
2. **The signalling client** (`internal/client`). `Mux.dfy` (callers, reply channels, send queue, connection, control
   stream, the three workers, connection epochs), `MuxInvariant.dfy`, `MuxTheorems.dfy`, `MuxReplies.dfy` (no reply is
   lost), `MuxWorkers.dfy` (how the workers end), and `SignalingClient.dfy`, the client class with its routines against
   the same specification.
3. **The data path and the error codes**. `Wire.dfy` (tags, credentials text, sealed frames, streams), `Media.dfy`
   (dispatch and the three bounded drop-newest queues), `KeyExchange.dfy` (two-party exchange as a transition system and
   as a routine under interference), `Errors.dfy`. `Joins.dfy` ties queues and exchange to the session's lifecycle.

`Channels.dfy` models Go channels (capacity, buffered items in order, closed flag; buffered items are received after a
close) and `Sequences.dfy` subsequences. Cryptography, ICE, QUIC and the signalling server are parameters or free
choices: an AEAD is any function pair that opens what it sealed (section 2 of RFC 5116), a key agreement any commutative
one (section 6.1 of RFC 7748) with a deterministic derivation (section 2 of RFC 5869), and the server an environment
that sends any responses at any time. Only `ReaderNeverBlocks` assumes that it answers a message at most once. Timeouts
and failures of calls are free choices of the run. A panicking statement (closing a closed channel, sending on one, a
method on a nil encoder) sets a flag after which nothing runs.

A routine that waits takes a `World`: what the others do at each turn and how many turns the wait is watched; its result
says whether it returned, and if not, what it still waits for. `Valid()` of the networking service is wrapped in a
one-point quantifier, so that routines which do not look inside it are cheap to verify; `assert Unfolds(0)` unfolds it.
Statements that write the fields of a session, of the repository, of the singleflight or of the signalling client are
written out on those fields. Statements that only move a goroutine on or count it in a wait group (giving up a creation,
`go establishConnection`, the end of a wait, the API's `wg.Go`, the run loop's own branches) are steps of the transition
system taken as a whole.

## What the code does that its description does not say

* The client reports itself online before its first registration (`internal/client/signaling-client.go:87`), so requests
  made then are queued: `OnlineBeforeFirstRegistration`.
* After a lost connection each of the three workers may still be past its select when connection, encoder and decoder
  are set to nil (`internal/client/helper.go:85-91`): the sender, the reader, and `receiveSDP` with its
  `AcceptUniStream` (`222-227`). The reader may also send on a reply channel that was closed after it was looked up
  (`178-181` against `305-311`). `PanicsExactlyOnHazards` says which steps from reachable states panic, no others do;
  `SenderCanPanic`, `ReaderCanPanic`, `SdpCanPanic` and `DeliveryCanPanic` are runs that get there. A call that began
  before the assignment returns an error (`BegunCallReturns`).
* `clearPendingResponses` may close the channel of an entry that its owner has deleted meanwhile; nobody is harmed:
  `ClosesDeletedEntry`.
* A benign fault ends the reader without an error (`internal/client/helper.go:168-171`), end of stream included: the
  connection is served on, the client stays online, and nothing is decoded until something else ends the serving
  (`DeafUntilLost`, `ServesOnExactly`), with a run in `DeafHappens`.
* `registerConnect` does not compare ids (`internal/client/helper.go:134-149`): there is a way online exactly if the
  first response decoded has the expected code and readable credentials (`RegistrationExactly`), and a response with an
  id never drawn will do (`ForeignReplyAccepted`).
* `DecipherPayload` slices before it checks: it panics exactly on a frame shorter than the nonce
  (`internal/domain/e2ee/e2ee.go:47`), and `Receive` exactly on such a stream.
* `processData` panics on a media message after a teardown has closed its channel
  (`internal/domain/services/networking/helpers.go:74-89` against `126-128`), and not before: `FeedPanicsExactly`. It would
  panic on an empty message too, but both its callers return on one (`helpers.go:753-756`, `792-795`).
* `SendInEventStream` uses the encoder of every session with a connection and an event stream. The encoder is missing
  exactly while establishment stands between `helpers.go:709` and `711` (`EncoderMissingExactly`, `EncoderWindowHappens`);
  a caller that waits for ReadyChan first always finds it (`EncoderAfterReady`).
* The connected callback can follow a completed `DisconnectFromId` of the same session. For every session in the
  repository that nobody has begun to tear down, it can exactly if establishment has been started or is about to be, and
  has neither failed nor reached the handler: `LateAnnouncementExactly`, with a run from the start in
  `LateAnnouncementHappens`. Once ReadyChan is closed it cannot (`ReadyMeansAnnouncedOrNever`). Of all teardowns by
  `disconnectSession` only that of a leaving user can get ahead of it (`OnlyLeavingPrecedes`), and that user is never
  told that the peer is gone (`NeverDisconnectedAfterLeaving`). A reset after a report of the agent can take the session
  out before its connected callback as well (`AnnouncedAfterReset`).
* Callbacks of one user are not ordered across its sessions: a reset does not use up `Closing`, so a session that was
  replaced can report its user as disconnected after its replacement was announced. It can exactly if it has not done so
  yet and a teardown for a lost peer is under way, or none has begun and it has a connection or can still announce one:
  `StaleDisconnectExactly`, with a run in `StaleDisconnectHappens`. A session taken out while it waits for its
  credentials can still get them exactly if a token is there or a handler was or will be given it: `TokenComesExactly`.
* Each report of a failed agent starts a reconnect loop of its own, whatever loops there are
  (`internal/domain/services/networking/helpers.go:273-305`): `LoopsExactly`, `LoopsCounted`. Disconnected and then
  Failed for one session make two loops for its user: `TwoLoops`, `TwoLoopsHappen`.
* ReadyChan is closed on failure too, so the gate of `SendInStream` and `SendDatagram` lets failed sessions through
  (`FailedPassesTheGate`); behind it the established ones are exactly those with an event stream, the failed ones hold a
  whole key or none (`BehindTheGate`), and one without a key opens a stream on which nothing is written
  (`GateIsTheExchanges`).
* The reconnect loop takes a non-nil `Conn` for success (`helpers.go:296`), although it is set before the key exchange:
  it ends exactly on a connection and is right exactly if there is an event stream as well (`LoopEndsExactly`);
  `LoopEndsOnFailure` is a run in which it is wrong.
* `createSession` does not close the agent of a session it made and does not insert: a taken user id, an insertion that
  timed out, or any error in between (`helpers.go:243-254`, `307-310`, `320-323`). Unless it reports a failure itself,
  such an agent stays open for good, exactly if no earlier report has closed it or is about to:
  `AgentLeftOpenExactly`, with runs for each exit in `LeftOpenOnErrors` and `LeftOpenOnALoss`.
* `ErrValidation` around an error with a code of higher priority is reported under that code:
  `DoubleWrappedConstructors`.

## Model

| member | source | states |
|---|---|---|
| LifecycleWaiting.InvStep | internal/domain/services/networking/helpers.go:95-436 | Every step of every goroutine keeps the whole lifecycle invariant, loses nothing a session has, and forgets no session and no user a wait group is about |
| LifecycleWaiting.InvRun | internal/domain/services/networking/helpers.go:95-588 | The invariant holds after any run |
| LifecycleInvariant.Frame | internal/domain/services/networking/helpers.go:95-436 | A step that is right about its own goroutine, one new goroutine and one session keeps the invariant for all others |
| LifecycleInvariant.StepIsLocal | internal/domain/services/networking/helpers.go:95-588 | Every statement touches one goroutine, at most one new one, and at most one session |
| LifecycleInvariant.CreateIsLocal | internal/domain/services/networking/helpers.go:185-325 | The same for createSession, createAndEstablish and the reconnect loop |
| LifecycleInvariant.EstIsLocal | internal/domain/services/networking/helpers.go:477-588 | The same for establishConnection; its owner is the only one to write what it fills in |
| LifecycleInvariant.TearIsLocal | internal/domain/services/networking/helpers.go:95-183 | The same for resetSession and disconnectSession |
| LifecycleInvariant.MsgIsLocal | internal/domain/services/networking/helpers.go:338-407 | The same for the handling of a signalling message |
| LifecycleInvariant.EnvIsLocal | internal/domain/services/networking/network-serv.go:167-284 | The same for what the API, the ICE agent and the signalling client start |
| LifecycleInvariant.StoreDelete | internal/domain/repository/session-repo.go:42-53 | Deleting by identity keeps the repository well formed and takes nobody but that session out |
| LifecycleInvariant.EstablishedFields | internal/domain/services/networking/helpers.go:483-588 | After each statement exactly the fields up to it are set, and nothing else |
| LifecycleInvariant.EstablishedRest | internal/domain/services/networking/helpers.go:483-588 | Establishment disturbs neither a teardown under way, nor the credentials, nor the order of callbacks |
| LifecycleInvariant.FailedSession | internal/domain/services/networking/helpers.go:427-431 | On the error path ReadyChan is still open, and closing it hands the session to its reset |
| LifecycleInvariant.TornSession | internal/domain/services/networking/helpers.go:95-148 | Each statement inside Closing.Do leaves the session consistent with how far the teardown has come |
| LifecycleInvariant.MediaIsOpen | internal/domain/services/networking/helpers.go:126-128 | The media channel a teardown is about to close is open |
| LifecycleInvariant.ResetSession | internal/domain/services/networking/helpers.go:151-176 | A reset statement on any session, at any time, keeps it consistent |
| LifecycleInvariant.EnteredSession | internal/domain/services/networking/helpers.go:96 | Entering Closing.Do makes one goroutine the only one to tear the session down |
| LifecycleWaiting.FollowersGetTheirUser | internal/domain/services/networking/helpers.go:347-358 | Who shares a singleflight result gets a session of the user it asked for |
| LifecycleWaiting.PublishEnds | internal/domain/services/networking/helpers.go:347-349 | The end of a shared lookup leaves its result to everybody who waited and frees the user's slot |
| LifecycleWaiting.JoinLeads | internal/domain/services/networking/helpers.go:347-349 | A caller that finds no lookup of its user under way becomes the one leader of a new one |
| LifecycleWaiting.GroupsLeave | internal/domain/services/networking/network-serv.go:167-177 | A member leaves a wait group only once the session in its charge has settled |
| LifecycleWaiting.GroupsAim | internal/domain/services/networking/helpers.go:424-435 | From the start of its establishment a session is in the charge of the member that created it |
| LifecycleWaiting.GroupsJoin | internal/domain/services/networking/network-serv.go:259-263 | A new member and its session are counted by a group that has not been waited for |
| LifecycleWaiting.SeenReady | internal/domain/services/networking/network-serv.go:175 | Nothing is ever sent on ReadyChan: who gets past it knows that it is closed |
| LifecycleWaiting.SeenRemoved | internal/domain/services/networking/helpers.go:95-148 | Who gets past Closing.Do, having run it or not, knows that the session is out of the repository |
| LifecycleWaiting.InvAsked | internal/domain/services/networking/network-serv.go:167-206 | For each user a Connect group was asked to reach, a member is at work, or a session of that user was started, or the group failed; every step keeps this |
| LifecycleTheorems.OneSessionPerUser | internal/domain/repository/session-repo.go:29-53 | In every reachable state each entry is filed under its own user id, no user has two, and the filed sessions are exactly those added and not removed |
| LifecycleTheorems.EntriesComeAndGo | internal/domain/services/networking/helpers.go:95-183 | In any step an entry disappears only by a reset or teardown of the very session in it, alone; one appears only by an insertion of a session never inserted before under a free id |
| LifecycleTheorems.RemovedForGood | internal/domain/services/networking/helpers.go:129-183 | A session once taken out never returns, in any continuation of any run |
| LifecycleTheorems.RunGrows | internal/domain/models/session.go:12-28 | Along any run fields are written once, closed channels and handles stay closed, callbacks and requests are not taken back |
| LifecycleTheorems.FinishedMeansReadyOrGone | internal/domain/services/networking/helpers.go:414-588 | Once nobody establishes a session any more, connection, 32-byte key, event stream, encoder and decoder are in place and ReadyChan is closed, or the session is closed and out of the repository |
| LifecycleTheorems.FailedForGood | internal/domain/services/networking/helpers.go:424-433 | A session whose establishment failed stays closed and out of the repository in every continuation |
| LifecycleTheorems.OneOwner | internal/domain/services/networking/helpers.go:424-433 | No session is established by two goroutines, and none is torn down by two |
| LifecycleTheorems.OnlyWinnersEstablish | internal/domain/services/networking/helpers.go:320-324 | Only a session that won the insertion gets an establishment goroutine |
| LifecycleTheorems.GatePassedWithCredentials | internal/domain/services/networking/helpers.go:483-498 | Past the gate the session's own agent has remote credentials, from a message of its own peer |
| LifecycleTheorems.TokensCoalesce | internal/domain/services/networking/helpers.go:386-389 | At most one token waits, and only when credentials were installed on that session |
| LifecycleTheorems.ReplacementGetsCredentials | internal/domain/services/networking/helpers.go:370-389 | When credentials replace a connected session, the old one is out for good first, and whatever others do, credentials and token go only to a session created afterwards for the same user |
| LifecycleTheorems.EncoderMissingExactly | internal/domain/services/networking/network-serv.go:300-311 | A session that passes the check of SendInEventStream lacks its encoder exactly while its establishment stands between two assignments |
| LifecycleTheorems.BehindTheGate | internal/domain/services/networking/network-serv.go:338-354 | A session with a connection and a readable ReadyChan is fully established exactly if it has an event stream, and otherwise has failed with a whole key or none |
| LifecycleTheorems.EncoderAfterReady | internal/domain/services/networking/network-serv.go:300-311 | With an event stream and a readable ReadyChan the encoder is there |
| LifecycleTheorems.LoopEndsExactly | internal/domain/services/networking/helpers.go:294-302 | The reconnect loop ends on a closed ReadyChan exactly if the session has a connection, which means success exactly if it has an event stream too |
| LifecycleTheorems.CallbacksInOrder | internal/domain/services/networking/helpers.go:133-144 | A session's callbacks are a subsequence of connected, disconnected; connected only with connection, 32-byte key, event stream, encoder and decoder in place |
| LifecycleTheorems.ToldOneSide | internal/domain/services/networking/helpers.go:95-148 | A finished teardown has closed what there was to close and each media channel once, removed the session, and told either the server once or the user, never both |
| LifecycleTheorems.NeverPanics | internal/domain/services/networking/helpers.go:126-128 | In no run is ReadyChan or a media channel closed twice |
| LifecycleTheorems.ReturnedMeansRemoved | internal/domain/services/networking/helpers.go:95-148 | When any caller of disconnectSession returns, that session is out of the repository |
| LifecycleTheorems.NilMeansSettled | internal/domain/services/networking/network-serv.go:208-267 | Connect and Disconnect return nil only after each session they are about has been closed as ready, respectively removed |
| LifecycleTheorems.NilReachesEverybody | internal/domain/services/networking/network-serv.go:167-211 | When a Connect group has returned nil, each user it was asked to reach has a session that the group started and that has settled |
| LifecycleTheorems.StartedBeforeNil | internal/domain/services/networking/network-serv.go:167-211 | Every session a member of Connect's group starts is settled when the group returns nil, however the run goes on between |
| LifecycleGroups.FailsExactly | internal/domain/services/networking/network-serv.go:167-211 | In every step from a reachable state a wait group fails exactly when a member ends before its session is in the repository; a member whose session was inserted never makes it fail |
| LifecycleGroups.EndsOnErrors | internal/domain/services/networking/helpers.go:185-325 | And a member ends so only on an error return of createSession: a failed call, an insertion that timed out, a taken user id |
| LifecycleGroups.FailedExactly | internal/domain/services/networking/network-serv.go:208-211 | Over any run: a group has failed exactly if on the way a member for one of the users asked for ended before its session was inserted |
| LifecycleGroups.DisconnectsNeverFail | internal/domain/services/networking/network-serv.go:245-267 | A group of Disconnect never fails |
| LifecycleGroups.NilWhenReady | internal/domain/services/networking/network-serv.go:175-211 | From every reachable state in which all unfinished members wait for a closed ReadyChan and none has failed, nil can be returned with nobody else moving, whether the sessions are established or failed |
| LifecycleGroups.NilWithEstablished | internal/domain/services/networking/network-serv.go:167-211 | A run from the start to nil with the peer's session established |
| LifecycleGroups.NilWithFailed | internal/domain/services/networking/network-serv.go:167-211 | A run from the start to nil with the peer's session failed |
| LifecycleGroups.DisconnectCanReturn | internal/domain/services/networking/network-serv.go:245-267 | From every reachable state Disconnect can come to its end and return nil, by finishing whoever is inside Closing.Do |
| LifecycleTheorems.OneLookupPerUser | internal/domain/services/networking/helpers.go:347-349 | At most one getSession per user runs at a time |
| LifecycleTheorems.FollowersAreServed | internal/domain/services/networking/helpers.go:347-349 | Nobody waits for a lookup that has neither a result nor a leader at work |
| LifecycleCallbacks.NotAheadForGood | internal/domain/services/networking/helpers.go:575-579 | Once the announcement of a session is not ahead, the connected handler has been called or never will be, in any run |
| LifecycleCallbacks.ReadyMeansAnnouncedOrNever | internal/domain/services/networking/helpers.go:575-586 | After ReadyChan is closed, every continuation has the connected callback exactly if it was there before |
| LifecycleCallbacks.OnlyLeavingPrecedes | internal/domain/services/networking/helpers.go:133-144 | As long as the announcement is ahead, only a user who leaves can have begun or finished a teardown, and no handler was called |
| LifecycleCallbacks.NeverDisconnectedAfterLeaving | internal/domain/services/networking/helpers.go:133-144 | After a teardown by the user no continuation has a disconnected callback, and the server was told once |
| LifecycleRuns.LateAnnouncementExactly | internal/domain/services/networking/helpers.go:575-579 | From every reachable state with the session in the repository and untouched by teardowns: a run exists in which the connected callback follows a completed leave exactly if the announcement is ahead |
| LifecycleRuns.LateAnnouncementHappens | internal/domain/services/networking/helpers.go:575-579 | Such a run from the start |
| LifecycleRuns.BringToken | internal/domain/services/networking/helpers.go:338-389 | Whoever waits at the gate, in the repository, can be sent its token, whatever lookups are under way |
| LifecycleRuns.Signalled | internal/domain/services/networking/helpers.go:338-436 | From the start, one credentials message leads to a filed session at its gate with its token |
| LifecycleRuns.EncoderWindowHappens | internal/domain/services/networking/helpers.go:709-711 | A run from the start to a filed session with an event stream and no encoder |
| LifecycleRuns.FailedPassesTheGate | internal/domain/services/networking/network-serv.go:338-341 | A run from the start to a filed, failed session behind the ready gate |
| LifecycleRuns.LoopEndsOnFailure | internal/domain/services/networking/helpers.go:288-302 | A run from the start in which the reconnect loop ends on a session whose key exchange failed |
| LifecycleRuns.InsertionIsLost | internal/domain/services/networking/helpers.go:320-323 | A run from the start to a session about to lose the insertion with its agent open and no reset under way |
| LifecycleRuns.TearDownAlone | internal/domain/services/networking/helpers.go:95-148 | Nothing inside Closing.Do waits: whoever runs it can run it to its end, and the session is then removed |
| LifecycleRuns.EstablishUpTo | internal/domain/services/networking/helpers.go:477-588 | With a token there and no failing call, establishment can get to any later statement, no other goroutine moving |
| LifecycleRuns.EstablishAlone | internal/domain/services/networking/helpers.go:477-588 | In particular to its end, with everything in place |
| LifecycleLosers.LoserStaysOpen | internal/domain/services/networking/helpers.go:243-323 | A session that createSession made and does not insert, on whichever exit, never gets into the repository, and its open agent stays open in every run in which it reports nothing itself |
| LifecycleLosers.AgentLeftOpenExactly | internal/domain/services/networking/helpers.go:243-323 | The agent of a session made by createSession stays open for good exactly if the session is not inserted, the agent is open, and no reset is on its way to it |
| LifecycleLosers.LeftOpenOnErrors | internal/domain/services/networking/helpers.go:243-323 | Runs from the start: an insertion that times out, and an error before it, leave the agent open for good |
| LifecycleLosers.LeftOpenOnALoss | internal/domain/services/networking/helpers.go:320-323 | The same for an insertion that finds the user id taken |
| LifecycleOrder.DisconnectedAheadExactly | internal/domain/services/networking/helpers.go:133-144 | In every reachable state a session that was ever filed may still have its disconnected callback exactly if it has had it, or a teardown for a lost peer is under way, or none has begun and there is a connection or an announcement that can still be reached |
| LifecycleOrder.StaleDisconnectExactly | internal/domain/services/networking/helpers.go:151-183 | The same for a session out of the repository, after another session of its user has been announced |
| LifecycleOrder.StaleDisconnectHappens | internal/domain/services/networking/helpers.go:133-144 | A run from the start in which the replaced session reports its user gone after the replacement was announced |
| LifecycleOrder.AnnouncedAfterReset | internal/domain/services/networking/helpers.go:272-276 | A run from the start in which the connected callback comes after a reset has taken the session out |
| LifecycleGate.GateHolds | internal/domain/services/networking/helpers.go:483-487 | Without a token establishment stays at its gate, or ends there with the application closing, in every step of anybody |
| LifecycleGate.StarvedStep | internal/domain/services/networking/helpers.go:347-389 | Once a session out of the repository has neither a token nor anybody who was or will be given it, no step changes that |
| LifecycleGate.TokenComesExactly | internal/domain/services/networking/helpers.go:370-389 | A session taken out while it waits for its credentials can still get its token exactly if one is there, or a handler was given the session, or a lookup will hand it on |
| LifecycleEnds.FailsExactlyAt | internal/domain/services/networking/helpers.go:483-573 | In every reachable state establishment can fail exactly at its gate with the application closing, at the dial, at the key exchange and at the opening of the event stream |
| LifecycleEnds.NoFailurePastCalls | internal/domain/services/networking/helpers.go:570-586 | Once the event stream is open no run lets establishment fail |
| LifecycleEnds.EstablishedIsClosed | internal/domain/services/networking/helpers.go:95-148 | A teardown that began after connection and event stream were there has closed stream, connection and agent when it is over, whoever began it |
| LifecycleEnds.ShutdownEndsWaiting | internal/domain/services/networking/helpers.go:483-487 | From every reachable state: after the application was closed whoever waits at the gate can give up, and its session ends out of the repository |
| LifecycleEnds.ShutdownEndsLoops | internal/domain/services/networking/helpers.go:280-285 | And a reconnect loop ends at its next turn |
| LifecycleEnds.ClosedStaysClosed | internal/domain/services/networking/helpers.go:282-285 | Nobody opens the application again |
| LifecycleLoops.LoopsExactly | internal/domain/services/networking/helpers.go:273-305 | In every step from a reachable state a reconnect loop of a user starts exactly on a report of an agent of a session initiated here, and ends exactly when it sees a connection or the end of the application |
| LifecycleLoops.LoopsCounted | internal/domain/services/networking/helpers.go:273-305 | In any run a user has at most as many loops at once as there were such reports |
| LifecycleLoops.TwoLoops | internal/domain/services/networking/helpers.go:273-305 | From every reachable state two reports about one session lead to two more loops of its user |
| LifecycleLoops.TwoLoopsHappen | internal/domain/services/networking/helpers.go:273-305 | Such a run from the start |
| Joins.FeedPanicsExactly | internal/domain/services/networking/helpers.go:60-93 | In every reachable state processData panics exactly on an empty message or one for a media channel a teardown has closed; on none while no teardown has begun |
| Joins.CloseDoesNotPanic | internal/domain/services/networking/helpers.go:126-128 | The media channel a teardown closes was not closed before in the history of its queue |
| Joins.ExchangeKeepsPace | internal/domain/services/networking/helpers.go:564-568 | In any run the exchange of a session is where its owner and its fields say: to come, under way, done with the session's key, or stopped |
| Joins.GateIsTheExchanges | internal/domain/services/networking/network-serv.go:338-360 | In any run, behind the ready gate the exchange the run has made is over: done, with a key a secure stream takes, or stopped, and then the opened stream shows nothing |
| Joins.ExchangeUnderWayExactly | internal/domain/services/networking/helpers.go:564-568 | The exchange of a session with a connection is over exactly if its establishment does not stand at setupE2EE |
| SessionRepository.SessionRepo.Add | internal/domain/repository/session-repo.go:29-40 | Refused on a done context or a taken id, otherwise the session is filed and nothing else changes |
| SessionRepository.SessionRepo.Delete | internal/domain/repository/session-repo.go:42-53 | Removes exactly this object under this id, or reports not found and changes nothing |
| SessionRepository.SessionRepo.Get | internal/domain/repository/session-repo.go:55-71 | The object filed under the id, or the error that says why not |
| SessionRepository.SessionRepo.Fetch | internal/domain/repository/session-repo.go:73-90 | Every entry exactly once, or a timeout |
| SessionRepository.SessionRepo.Clear | internal/domain/repository/session-repo.go:92-106 | The map is empty afterwards, or a timeout and untouched |
| SessionRepository.PeerSession.CloseForReset | internal/domain/services/networking/helpers.go:156-176 | Each handle is closed if it was ever opened |
| SessionRepository.PeerSession.CloseForGood | internal/domain/services/networking/helpers.go:101-144 | The teardown's statements on the object; a media channel it closes has to be open |
| SessionRepository.PeerSession.Establish | internal/domain/services/networking/helpers.go:483-588 | The statements of establishConnection on the object |
| Lifecycle.RunReaches | internal/domain/services/networking/helpers.go:95-588 | A recorded trace of statements is a run of the transition system |
| Networking.LeadsKeeps | internal/domain/models/session.go:12-28 | Between two moments of any run nothing a session, a wait group or the repository's history has is lost |
| Networking.NetworkingServ.Interfere | internal/domain/services/networking/helpers.go:95-588 | Others may do anything the transition system allows, except move this goroutine |
| Networking.NetworkingServ.ResetSession | internal/domain/services/networking/helpers.go:151-183 | The session is out of the repository when it returns, under any interference; after a failed establishment it is also closed |
| Networking.NetworkingServ.ResetStatement | internal/domain/services/networking/helpers.go:156-176 | One statement of it, a step of the transition system |
| Networking.NetworkingServ.Unfile | internal/domain/services/networking/helpers.go:178-180 | The entry disappears exactly if it is this very session |
| Networking.NetworkingServ.DisconnectSession | internal/domain/services/networking/helpers.go:95-149 | When it returns, the session is out of the repository and its teardown over, whoever ran it; it does not return only while the teardown runs |
| Networking.NetworkingServ.EnterClosing | internal/domain/services/networking/helpers.go:96 | The first caller runs the teardown, any later one finds it over and the session removed |
| Networking.NetworkingServ.CloseOnce | internal/domain/services/networking/helpers.go:95-149 | A caller that finds the teardown not begun runs it with its own flag |
| Networking.NetworkingServ.Notify | internal/domain/services/networking/helpers.go:133-144 | The last statement tells one side and leaves the session removed |
| Networking.NetworkingServ.EstablishConnection | internal/domain/services/networking/helpers.go:424-588 | It ends with everything in place, the key of the exchange and the handler called if there is one, exactly if it took its token and none of its calls failed, otherwise with the session cleaned up and removed; it gives up at the gate only if the application closes, and waits there only without token and with the application open |
| Networking.NetworkingServ.Attempt | internal/domain/services/networking/helpers.go:527-573 | The next statement follows a call that succeeded; after one that failed the goroutine has ended, the session is cleaned up and removed |
| Networking.NetworkingServ.Abandon | internal/domain/services/networking/helpers.go:427-432 | ReadyChan is closed before the reset; then the session is cleaned up and removed |
| Networking.NetworkingServ.Finish | internal/domain/services/networking/helpers.go:584-586 | The last statements leave everything in place |
| Networking.NetworkingServ.CreateSession | internal/domain/services/networking/helpers.go:185-325 | A new object of the asked user and role that won the insertion; nothing only if a call failed or the user has an entry, and then the caller's own failure path |
| Networking.NetworkingServ.FileSession | internal/domain/services/networking/helpers.go:320 | The insertion files this object under its user's id |
| Networking.NetworkingServ.CreateAndEstablish | internal/domain/services/networking/helpers.go:414-436 | The session returned was filed before its establishment goroutine was started |
| Networking.NetworkingServ.SharedGetSession | internal/domain/services/networking/helpers.go:347-358 | Leader or follower, who is told is told of the result of a finished lookup of its sender, a session of that sender; with no lookup under way the caller leads, and gets no session only if a call failed or another goroutine filed one |
| Networking.NetworkingServ.LookFor | internal/domain/services/networking/helpers.go:450-462 | The repository decides: its entry is published, a missing one leads to a creation, any other error to nothing |
| Networking.NetworkingServ.GetSession | internal/domain/services/networking/helpers.go:438-475 | The leader comes out with a result to publish, found or newly created; none only if a call failed or the user has an entry |
| Networking.NetworkingServ.Replace | internal/domain/services/networking/helpers.go:370-381 | The old session is removed; its replacement is a new object of the same user |
| Networking.NetworkingServ.TargetOf | internal/domain/services/networking/helpers.go:360-381 | Credentials go to the session found if it has no connection, otherwise to a replacement, which is missing only if a call failed or the user has an entry |
| Networking.NetworkingServ.InstallCredentials | internal/domain/services/networking/helpers.go:382-389 | Credentials, then the token, both to this session |
| Networking.NetworkingServ.ProcessMessage | internal/domain/services/networking/helpers.go:360-406 | Accepted credentials equip an unconnected session, otherwise a new one, which is missing only if a call failed or the user has an entry; whatever was equipped is one of the sender, with credentials and a token |
| Networking.NetworkingServ.HandleSdp | internal/domain/services/networking/helpers.go:338-407 | Payloads too short do nothing; any other is received with exactly the credentials it spells, and its goroutine ends with the result of a lookup of its sender unless it follows one without result. Accepted credentials are installed on the session found if it has no connection at that moment, otherwise on a replacement, missing only if a call failed or the user has an entry; a state on the way has exactly them as remote credentials; nothing else installs anything |
| Networking.NetworkingServ.ConnectById | internal/domain/services/networking/network-serv.go:214-243 | Refused for oneself; nil only for a new session of that user, initiated here, that has succeeded or failed; an error only if a call failed or the user has an entry; no return only while ReadyChan is open |
| Networking.NetworkingServ.DisconnectFromId | internal/domain/services/networking/network-serv.go:269-284 | The repository's error wrapped and nothing done, or the session found under the id is removed when it returns; no return only while its teardown runs |
| Networking.NetworkingServ.Disconnect | internal/domain/services/networking/network-serv.go:245-267 | When it returns, every session found in the repository is removed |
| Networking.NetworkingServ.Precheck | internal/domain/services/networking/network-serv.go:140-165 | The three early returns of Connect and whether others have to be disconnected first |
| Networking.NetworkingServ.Connect | internal/domain/services/networking/network-serv.go:122-212 | Early returns change nothing; any other return only after every session found in the repository has been removed; with the list at hand it is an error exactly if on the way a member for one of the users asked for ended before its session was inserted, and nil means that a session of the peer and of each further receiver was started and all sessions of the call have settled |
| Networking.NetworkingServ.Wait | internal/domain/services/networking/network-serv.go:208-211 | An empty group has failed exactly if a creation has since it was filled, one of Disconnect never; without failure all its sessions are settled, none forgotten, one for each user asked for; otherwise a member is unfinished |
| Networking.NetworkingServ.SendTargets | internal/domain/services/networking/network-serv.go:329-381 | Timeout and empty repository are reported as such; otherwise exactly the filed sessions behind the gate, each once, each fully established or failed with a whole key or none |
| Networking.NetworkingServ.OnIceFailure | internal/domain/services/networking/helpers.go:272-306 | The session is removed; a reconnection counts only with a connection and a closed ReadyChan; an initiator without one has taken a turn for every plan, or waits on an open ReadyChan, or the application is closing |
| Networking.NetworkingServ.TryAgain | internal/domain/services/networking/helpers.go:280-302 | One turn of the reconnect loop: closed, or failed for a failed call, a taken id or a session without connection, and counted, or waiting, or a connection seen |
| MuxInvariant.InvStep | internal/client/helper.go:19-372 | Every step of callers, run loop, sender, reader and application keeps the multiplexer's invariant |
| MuxInvariant.InvRun | internal/client/helper.go:19-372 | It holds after any run over any number of callers and connections |
| MuxInvariant.TableCall | internal/client/helper.go:258-277 | A caller's step keeps the table of reply channels consistent |
| MuxInvariant.TableTear | internal/client/helper.go:305-312 | A step of clearing keeps it consistent; every channel it closes was open, its entry still registered or already deleted by its owner |
| MuxInvariant.WalkTear | internal/client/helper.go:305-312 | Entries the walk has not come to have an open channel, those it has dealt with are gone; every step of the walk keeps this |
| MuxInvariant.RepliesRead | internal/client/helper.go:167-182 | A response is for the caller registered under its id, or dropped |
| MuxInvariant.QueueCall | internal/client/helper.go:352-357 | Enqueueing keeps queue, message in hand and wire consecutive parts of one history |
| MuxInvariant.FlowEncode | internal/client/helper.go:198-206 | The message in hand is dealt with: on the wire or lost, in order either way |
| MuxInvariant.LinkSendRegistration | internal/client/helper.go:123-132 | A registration is the first message of its stream |
| MuxTheorems.NoOrphan | internal/client/helper.go:258-330 | In every reachable state a caller waiting for a reply has a channel that is registered under its own id and open, or one that is closed and can be received from |
| MuxTheorems.WalkReleasesEverybody | internal/client/helper.go:305-312 | At the end of the walk every caller registered at its beginning, and still waiting, has a closed channel |
| MuxTheorems.ReplyIsKept | internal/client/helper.go:358-366 | A reply buffered before the loss can still be received, whatever others do |
| MuxTheorems.WireOrder | internal/client/helper.go:123-132 | Each control stream starts with exactly one registration, and all other messages over all connections are a subsequence of the enqueue order with no id twice |
| MuxTheorems.WireConservation | internal/client/helper.go:188-213 | In every reachable state what was enqueued is, in order, what the sender has dealt with, the message in its hand and the queue; what it has dealt with is on the wire or lost, and as many are lost as encodes of the run did not reach their stream; if each did, wire, hand and queue are all of it |
| MuxTheorems.RepliesAreCorrelated | internal/client/helper.go:156-186 | A caller that succeeds returns the payload of a response with its own id and expected code, an id no other successful caller has |
| MuxReplies.NoReplyLost | internal/client/helper.go:156-186 | In every reachable state everything decoded under the id of a pending call since it registered is in its channel, the last one perhaps in the reader's hand, unless a teardown has closed the channel |
| MuxReplies.DeliveryArrives | internal/client/helper.go:178-182 | A response delivered to a waiting call with an empty channel can be received, and is what is received |
| MuxReplies.ReceiveDecides | internal/client/helper.go:358-366 | In every reachable state the first response decoded for the call since it registered decides its answer: the payload exactly with the code it expects; a drained closed channel means offline |
| MuxReplies.RequestSucceeds | internal/client/helper.go:258-277 | A run from the start in which a request is registered, sent, answered and returns the payload |
| MuxReplies.DeafUntilLost | internal/client/helper.go:168-171 | With the reader ended by a benign fault nothing is decoded in any run until the serving ends, while the flag is up |
| MuxReplies.ServesOnExactly | internal/client/helper.go:68-75 | Serving can end exactly with the context or on an error of a worker |
| MuxReplies.DeafHappens | internal/client/helper.go:168-171 | A run to such a connection |
| MuxWorkers.EndsExactly | internal/client/helper.go:156-256 | In every step: reader and SDP worker end without an error exactly on a benign fault, the sender never; all end with one exactly on a fatal fault or a cancelled context |
| MuxWorkers.CancelledWhenTearing | internal/client/helper.go:77 | The context of a connection is cancelled from the end of its serving on |
| MuxWorkers.StayOut | internal/client/helper.go:162-166 | After a cancellation a reader or SDP worker at the top of its loop begins no call in any run up to the next dial |
| MuxWorkers.SdpConservation | internal/client/helper.go:236-252 | In every reachable state the messages read by receiveSDP are those it has sent on, in order, and the one it is about to send |
| MuxWorkers.ClosingIsTrue | internal/client/helper.go:367-370 | Whoever is told that the application is closing had its message queued, and it is closing |
| MuxWorkers.LossesAreForgotten | internal/client/helper.go:81-91 | With the application open, connection and coders are gone whenever the workers are waited for |
| MuxWorkers.TeardownEnds | internal/client/helper.go:91 | From every state in which the workers are waited for and none is about to use what is gone, serveConnection can return |
| MuxWorkers.Stops | internal/client/signaling-client.go:102-126 | Between two connections the client can be stopped |
| MuxWorkers.Redials | internal/client/signaling-client.go:107-125 | And with its context open it can dial again, with the same table and queue |
| MuxTheorems.ReaderNeverBlocks | internal/client/helper.go:178-182 | If the server answered the id in the reader's hand no more often than it was sent, the one-slot reply channel is empty and the delivery can go on |
| MuxTheorems.SentAtMostOnce | internal/client/helper.go:188-213 | Without repetitions on the wire an id is sent at most once |
| MuxTheorems.OnlineMeansServed | internal/client/helper.go:43-79 | After the first connection the flag is up only while one is served or being torn down; the backoff was reset exactly on accepted registrations; the loop has ended only after its context |
| MuxTheorems.OnlineBeforeFirstRegistration | internal/client/signaling-client.go:87 | Until the first registration is accepted the client reports itself online |
| MuxTheorems.OfflineWindow | internal/client/helper.go:79-92 | In any run from an offline state up to the next connection every request begun is refused with the offline error and leaves no trace in table or queue |
| MuxTheorems.OfflineWindowOpens | internal/client/helper.go:79 | The window opens in every state in which the flag is down |
| MuxTheorems.WindowStep | internal/client/helper.go:258-330 | One step of anybody inside the window keeps it |
| MuxTheorems.PanicsExactlyOnHazards | internal/client/helper.go:81-91 | A step from a reachable state panics exactly if it is one of the hazards: a worker that begins a call on a coder or a connection set to nil, or a delivery to a channel closed since it was looked up; a hazard needs a teardown in progress, a nil one its last stage |
| MuxTheorems.SenderCanPanic | internal/client/helper.go:85-91 | A run in which the sender uses a nil encoder |
| MuxTheorems.ReaderCanPanic | internal/client/helper.go:162-168 | A run in which a reader past its select uses a nil decoder |
| MuxTheorems.SdpCanPanic | internal/client/helper.go:222-227 | A run in which receiveSDP, past its select, accepts on a nil connection |
| MuxTheorems.BegunCallReturns | internal/client/helper.go:85-91 | A run in which a decode and an accept begun before the assignment return errors and nobody panics |
| MuxTheorems.DeliveryCanPanic | internal/client/helper.go:178-181 | A run in which the reader sends on a closed reply channel |
| MuxTheorems.ClosesDeletedEntry | internal/client/helper.go:305-312 | A run in which the walk closes the channel of an entry its owner has deleted, without harm |
| MuxTheorems.RegistrationExactly | internal/client/helper.go:134-152 | In every reachable state that waits for the reply to a registration: there is a way online without a further reply exactly if it was decoded, has the expected code and readable credentials, whatever its id |
| MuxTheorems.ForeignReplyAccepted | internal/client/helper.go:134-143 | A run that goes online on a response with an id nobody has drawn |
| MuxInvariant.InvSdp | internal/client/helper.go:215-256 | Every step of receiveSDP keeps the invariant |
| SignalingClient.OthersRespect | internal/client/helper.go:156-330 | What a routine can rely on while others run |
| SignalingClient.Client.Request | internal/client/helper.go:258-330 | getPayload, sendPayload and sendCommand: refused offline with nothing registered or queued; otherwise unregistered at the end with the answer its course explains: timed out only on a full queue, or with its message queued and nothing to receive; a payload only from an own response |
| SignalingClient.Client.GetPayload | internal/client/helper.go:258-277 | A payload comes only from an own response with the code of a payload |
| SignalingClient.Client.SendCommand | internal/client/helper.go:279-330 | Success only on an own response with the code of success |
| SignalingClient.Client.Enter | internal/client/helper.go:260-262 | The online check |
| SignalingClient.Client.Store | internal/client/helper.go:263-265 | Registration under an id never drawn before |
| SignalingClient.Client.CheckResp | internal/client/helper.go:352-372 | With room in the queue the message is queued; what can be received decides the answer; a timeout or the end of the application only with nothing to receive, or before with the queue full |
| SignalingClient.Client.ClearPendingResponses | internal/client/helper.go:305-312 | Everybody who was waiting when the walk began, and still is, has a closed channel when it ends; no channel is closed twice |
| SignalingClient.Client.Release | internal/client/helper.go:306-311 | One turn of the walk for an entry already loaded, deleted meanwhile or not: its channel is closed, its id registered no more, nobody forgotten |
| SignalingClient.Client.RegisterConnect | internal/client/helper.go:95-154 | Online and backoff reset exactly when the message was sent and the first response has the expected code and readable credentials; otherwise the flag stays and the connection is forgotten |
| SignalingClient.Client.TearDown | internal/client/helper.go:77-92 | Offline from here on, flag and counts touched by nobody else; connection and coders are forgotten unless the context ended it; it returns once its workers have ended |
| SignalingClient.Client.ServeConnection | internal/client/helper.go:19-93 | It fails exactly if a call fails or the registration is not accepted, and leaves the flag alone then; a served connection ends offline; one backoff reset per accepted registration; no return only while nothing ends it or a worker runs |
| SignalingClient.Client.RunClient | internal/client/signaling-client.go:102-126 | The loop ends only after its context was cancelled, offline if anything was served |
| KeyExchange.Agreement | internal/domain/services/networking/utils.go:11-41 | A side that finishes holds the 32 bytes that the derivation makes of the secret agreed between its own private key and the other's public key; both hold the same |
| KeyExchange.MasterKeyDerives | internal/domain/e2ee/e2ee.go:57-75 | There is a key exactly if the agreement succeeds, and it is derived from that secret |
| KeyExchange.DataPhase | internal/domain/services/networking/network-serv.go:347-374 | After its exchange a side keeps its key, sends each message whole on a stream of its own in order, and accepts the peer's streams one by one |
| KeyExchange.FirstAcceptedIsKeyStream | internal/domain/services/networking/utils.go:26-30 | The stream a side accepts first is the peer's key stream, even if the peer already sends data, or has failed and opens streams without writing; later ones are data streams |
| KeyExchange.NoDeadlock | internal/domain/services/networking/utils.go:16-30 | While somebody is not finished somebody can move, and the work left shrinks |
| KeyExchange.SharedKeyIsSymmetric | internal/domain/e2ee/e2ee.go:57-75 | Both sides derive the same key, the one of the agreed secret, from their own private and the other's public key |
| KeyExchange.InvStep | internal/domain/services/networking/utils.go:11-41 | Every step of either side keeps the exchange's invariant |
| KeyExchange.Link.SetupE2EE | internal/domain/services/networking/utils.go:11-41 | The routine of one side, the other running freely: a key it returns is derived from the secret of the two key pairs; none only if the peer's key stream was missing or unfinished in the state before |
| Wire.SetFirstByte | internal/utils/utils.go:44-49 | The tag, then the data |
| Wire.Split | internal/domain/services/networking/helpers.go:363 | Space-free pieces whose joining gives the input |
| Wire.JoinInjective | internal/domain/services/networking/helpers.go:363 | There is only one such list of pieces |
| Wire.ReadCreds | internal/domain/services/networking/helpers.go:339-368 | A pair is read exactly from a credentials payload with a separator: the first two pieces of the only space-free list that joins to it |
| Wire.PrintedSpells | internal/domain/services/networking/helpers.go:248-249 | A printed pair without spaces spells itself |
| Wire.CredsRoundTrip | internal/domain/services/networking/helpers.go:248-249 | Printing and reading back yields the pair exactly when neither string holds a space |
| Wire.CipherPayload | internal/domain/e2ee/e2ee.go:36-43 | Nonce, then ciphertext and tag; the length is nonce plus payload plus tag |
| Wire.DecipherPayload | internal/domain/e2ee/e2ee.go:45-55 | It panics exactly on fewer bytes than a nonce |
| Wire.OpenAfterSeal | internal/domain/e2ee/e2ee.go:36-55 | Opening a frame gives back the sealed bytes, for every key, nonce and payload |
| Wire.OnlyFramesOpen | internal/domain/e2ee/e2ee.go:45-55 | With an authentic cipher received bytes yield a payload exactly if they are the frame of that payload |
| Wire.AssociatedDataIs | internal/domain/e2ee/e2ee.go:41 | The associated data of every frame |
| Wire.ReadAll | internal/domain/e2ee/secure-stream.go:73-81 | All written bytes in order, whatever the sizes of the reads, once the writer has closed |
| Wire.SecureStream.Send | internal/domain/e2ee/secure-stream.go:45-60 | One frame more on the stream, or an error and nothing written |
| Wire.SecureStream.Close | internal/domain/e2ee/secure-stream.go:62-71 | The stream ends, or the wrong kind of stream is reported |
| Wire.SecureStream.Receive | internal/domain/e2ee/secure-stream.go:73-84 | What the stream carried, opened; it panics exactly on fewer bytes than a nonce |
| Wire.CarryMessage | internal/domain/services/networking/network-serv.go:347-374 | Sent, closed and received, the message is the same for every byte string, and the frame is nonce plus message plus tag long |
| Media.Conservation | internal/domain/services/networking/helpers.go:31-89 | In every history delivered plus queued is what was accepted, in order; at most 100 wait; an item is dropped only with 100 waiting |
| Media.VerdictsCoverArrivals | internal/domain/services/networking/helpers.go:60-89 | Every arrival of a medium is accepted or dropped, none is in both, none is of another medium |
| Media.ChatIsImmediate | internal/domain/services/networking/helpers.go:68-73 | Chat goes to its handler at once, all of it, in order |
| Media.KeepsDraining | internal/domain/services/networking/helpers.go:31-58 | Closed or not, a queue still gives out everything it accepted |
| Media.PanicExactly | internal/domain/services/networking/helpers.go:60-93 | A history panics exactly if it feeds an empty message or touches a closed queue again |
| Media.TagSelectsBranch | internal/domain/services/networking/helpers.go:63-92 | A tagged message reaches exactly its own branch with exactly its own bytes |
| Media.MediaChannels.ProcessData | internal/domain/services/networking/helpers.go:60-93 | Queued exactly with fewer than 100 waiting, dropped exactly with 100, panicking exactly on misuse |
| Media.MediaChannels.Offer | internal/domain/services/networking/helpers.go:74-89 | The send with a default branch |
| Media.MediaChannels.Consume | internal/domain/services/networking/helpers.go:31-58 | The range loop hands over all that was accepted, and ends exactly if the channel was closed |
| Media.MediaChannels.CloseAll | internal/domain/services/networking/helpers.go:126-128 | The three closes of a teardown |
| Media.SendAndDispatch | internal/domain/services/networking/network-serv.go:317-386 | Tag, seal, stream, open and dispatch reach the matching branch with the original bytes |
| Errors.ProcessErrorPicksBest | pkg/errs/handlers/handlers-errs.go:73-88 | The code is that of the highest-priority base error occurring anywhere in the tree |
| Errors.BestRankExists | pkg/errs/handlers/handlers-errs.go:73-88 | Every tree has one |
| Errors.IsMeansLeaf | pkg/errs/app/app-errs.go:30-32 | errors.Is finds a base error exactly if it is a leaf of the tree |
| Errors.WrappingKeepsLeaves | pkg/errs/app/app-errs.go:34-39 | Any depth of operation wrapping leaves leaves and code alone |
| Errors.JoinedTakesBetter | pkg/errs/app/app-errs.go:53-59 | Of two joined errors the one with the better rank decides |
| Errors.DoubleWrappedConstructors | pkg/errs/app/app-errs.go:53-59 | What ErrInvalidJson and ErrValidation are reported as, for every inner error |
| Errors.SignallingCodeRoundTrip | internal/client/helper.go:332-343 | Codes 1 to 3 survive the mapping to errors and back under any wrapping; every other becomes internal error |
| Errors.BenignExactly | internal/utils/utils.go:51-66 | An error is benign exactly if cancellation or end of stream is among its leaves, or its first QUIC application error has code 0 |

## Left out

- QUIC, ICE, STUN/TURN, TLS, AES-GCM, X25519 and HKDF internals; of them only the laws named above are used.
- JSON encoding, event factories, callback registration, configuration, logging, environment loading: plumbing. Whether a handler is registered when it is looked up is a free choice.
- The signalling server: its package is not part of this model.
- Clocks: a timeout may fire at any time, a backoff wait has no length.
- Candidate gathering and the effect of a remote candidate; a message that carries one changes no session.
- Closing an event stream, a connection or an agent, and every other call whose error is only logged, have no further effect than to be done; a second close of one of them is harmless.
- Liveness beyond `TearDownAlone`, `EstablishUpTo`, `BringToken` and `NoDeadlock`: the wait for credentials has no deadline of its own, and a benign error ends a reader without a reconnect.
- Concurrent encoding of events on one event stream, which rests on the atomicity of the library's writes.
- The bytes of the event stream: `SecureStream.Read` and `Write` pass them through unchanged.
- The contents of `receiveSDPs`, the order of shutdown in the application, and the close of the send queue there.
- Networking.NetworkingServ.SendTargets: only the choice of sessions in SendInStream and SendDatagram; what is sent to one of them is `CarryMessage` and `SendAndDispatch`, a failing send is a disconnect by an outside caller, possible for any session behind the gate, and the slice `data[1:]` at the top, which panics on an empty message, is not modelled.
- In `Mux` the assignments of `internal/client/helper.go:85-88` are one statement, and so are those of `112-114`. What a call on the control stream writes is recorded when it returns.
- The buffer size of the send queue is a parameter of `Init`; an unbuffered queue's rendezvous is not modelled.
- A call of `sync.Map.Range` visits the entries present when it starts, also those deleted before their turn; entries stored meanwhile are visited or not in the transition system of `Mux`, there without a deletion between load and close, and not visited in `SignalingClient.Client.Walk`.
- Networking.NetworkingServ.Connect: the members of its wait group, and those of Disconnect, are added without others running in between; once added they and everybody else run freely. The session list of GetSessionsById is there before the group is opened.
- Networking.NetworkingServ.ConnectById: the single goroutine is counted as a wait group of one.
- Networking.NetworkingServ.EstablishConnection: dialling ICE and QUIC is one statement, since between the two no shared field changes; so is the key exchange, which KeyExchange treats on its own.
- Networking.NetworkingServ.CreateSession: the requests to the signalling client before Add are one free choice between success and failure.
