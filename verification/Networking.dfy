/**
 * The networking service's own routines on heap session objects, statement by statement, with every other
 * goroutine running freely between any two of them. The specification is the transition system of module Lifecycle.
 */
module Networking {
  import opened Channels
  import opened Errors
  import opened Wire
  import opened Lifecycle
  import opened LifecycleInvariant
  import opened LifecycleWaiting
  import opened LifecycleTheorems
  import opened LifecycleRuns
  import opened LifecycleGroups
  import opened SessionRepository
  import Media

  lemma NoPanic(s: State)
    requires Leads(INITIAL, s)
    ensures !s.panicked
  {
    ReachableInv(s);
  }

  /** A session taken out of the repository stays out, one in place stays as complete as it was. */
  lemma LeadsKeeps(s: State, t: State)
    requires Leads(INITIAL, s) && Leads(s, t)
    ensures Grows(s.store, t.store) && GroupsKept(s.groups, t.groups) && StoreOk(t.store)
  {
    LeadsReaches(s, t);
    var steps :| Reaches(s, steps, t);
    ReachableInv(s);
    RunGrows(s, steps, t);
  }

  /** Pids and messages are never taken back. */
  lemma MessagesStay(s: State, t: State)
    requires Leads(INITIAL, s) && Leads(s, t)
    ensures s.next <= t.next && s.messages <= t.messages
  {
    LeadsReaches(s, t);
    var steps :| Reaches(s, steps, t);
    ReachableInv(s);
    MessagesRun(s, steps, t);
  }

  lemma {:induction false} MessagesRun(s: State, steps: seq<Step>, t: State)
    requires Inv(s) && Reaches(s, steps, t)
    ensures s.next <= t.next && s.messages <= t.messages
    decreases |steps|
  {
    if steps != [] {
      var i := InvLocal(s, steps[0]);
      InvStep(s, steps[0]);
      MessagesRun(Apply(s, steps[0]), steps[1..], t);
    }
  }

  lemma KeptAlong(s: State, t: State, i: Sid)
    requires Leads(INITIAL, s) && Leads(s, t) && Known(s, i)
    ensures Known(t, i) && Kept(s.store.sessions[i], t.store.sessions[i])
    ensures (i in s.store.added ==> i in t.store.added) && (i in s.store.removed ==> i in t.store.removed)
  {
    LeadsKeeps(s, t);
  }

  /** What goroutine `me` can rely on while the others run. */
  ghost predicate Respects(me: Pid, s: State, t: State) {
    Leads(s, t) && (me in s.procs ==> me in t.procs && t.procs[me] == s.procs[me])
  }

  /** What one statement of goroutine `p` on session `i` leaves behind. */
  function Moving(s: State, p: Pid, i: Sid, x: Session, proc: Option<Proc>): State
    requires Known(s, i)
  {
    MovingStore(s, p, Put(s.store, i, x), proc)
  }

  function MovingStore(s: State, p: Pid, st: Store, proc: Option<Proc>): State {
    s.(store := st, procs := if proc.Some? then s.procs[p := proc.value] else s.procs - {p})
  }

  lemma ResetMoves(s: State, p: Pid)
    requires CanTear(s, p, StepReset)
    ensures var i, stage := s.procs[p].sid, s.procs[p].rstage; var x := s.store.sessions[i];
      ResetApply(s, p) ==
        if stage.ResetDelete? then MovingStore(s, p, DeleteIfSame(s.store, i),
                                               AfterReset(x.userId, x.initiator, s.procs[p].after))
        else Moving(s, p, i, ResetClosed(x, stage), Some(Resetting(i, NextReset(stage), s.procs[p].after)))
  {
  }

  /** The last statement of a reset; a failed establishment leaves a session cleaned up. */
  lemma ResetDeletes(s: State, p: Pid, i: Sid)
    requires Leads(INITIAL, s) && CanTear(s, p, StepReset) && i == s.procs[p].sid && s.procs[p].rstage.ResetDelete?
    ensures var x, st := s.store.sessions[i], DeleteIfSame(s.store, i);
      && ResetApply(s, p) == MovingStore(s, p, st, AfterReset(x.userId, x.initiator, s.procs[p].after))
      && (i in s.store.added ==> i in st.removed)
      && (s.procs[p].after.EndEstablishing? ==> CleanedUp(x) && i in st.removed)
    ensures !s.panicked
  {
    ReachableInv(s);
    Look(s, p, i);
    ResetMoves(s, p);
    StoreDelete(s.store, i);
  }

  lemma AdvanceMoves(s: State, p: Pid, i: Sid, stage: EstStage, key: bytes, handler: bool)
    requires Leads(INITIAL, s) && CanEstablish(s, p, Advance(key, handler)) && i == s.procs[p].sid
    requires stage == s.procs[p].stage
    ensures !s.panicked
    ensures EstApply(s, p, Advance(key, handler)) ==
      Moving(s, p, i, Established(s.store.sessions[i], stage, key, handler),
             if stage.ClosingReady? then None else Some(Establishing(i, NextStage(stage))))
    ensures stage.ClosingReady? ==> FullyEstablished(Established(s.store.sessions[i], stage, key, handler))
  {
    ReachableInv(s);
    Look(s, p, i);
  }

  lemma CloseOnErrorMoves(s: State, p: Pid, i: Sid)
    requires Leads(INITIAL, s) && CanEstablish(s, p, CloseOnError) && i == s.procs[p].sid
    ensures !s.panicked && !s.store.sessions[i].readyChan.closed
    ensures EstApply(s, p, CloseOnError) ==
      Moving(s, p, i, s.store.sessions[i].(readyChan := s.store.sessions[i].readyChan.Close()),
             Some(Resetting(i, ResetStream, EndEstablishing)))
  {
    ReachableInv(s);
    Look(s, p, i);
  }

  lemma LaunchMoves(s: State, p: Pid, i: Sid)
    requires Leads(INITIAL, s) && p in s.procs && s.procs[p].Won? && i == s.procs[p].sid && Known(s, i)
    ensures CanCreate(s, p, Launch) && p < s.next && !s.panicked
    ensures CreateApply(s, p, Launch).procs ==
      s.procs[s.next := Establishing(i, AwaitCreds)][p := LuckyProc(i, s.procs[p].why)]
    ensures CreateApply(s, p, Launch).store.added == s.store.added
  {
    ReachableInv(s);
    LaunchShape(s, p, i);
  }

  lemma AddMoves(s: State, p: Pid, i: Sid, u: Uid)
    requires Leads(INITIAL, s) && CanCreate(s, p, Add(false)) && i == s.procs[p].sid && u == s.store.sessions[i].userId
    requires u !in s.store.repo
    ensures CreateApply(s, p, Add(false)) == MovingStore(s, p, Added(s.store, i), Some(Won(i, s.procs[p].why)))
    ensures !s.panicked
  {
    NoPanic(s);
  }

  lemma TearDeletes(s: State, p: Pid, i: Sid)
    requires Leads(INITIAL, s) && CanTear(s, p, StepTear(false)) && i == s.procs[p].sid && s.procs[p].tstage.TearDelete?
    ensures var proc := s.procs[p];
      TearApply(s, p, StepTear(false)) ==
        MovingStore(s, p, DeleteIfSame(s.store, i), Some(TearingDown(i, proc.leave, TearNotify, proc.group)))
    ensures !s.panicked
  {
    TearMoves(s, p, i);
    NoPanic(s);
  }

  lemma TearMoves(s: State, p: Pid, i: Sid)
    requires Leads(INITIAL, s) && CanTear(s, p, StepTear(false)) && i == s.procs[p].sid
    requires !s.procs[p].tstage.TearNotify?
    ensures var proc := s.procs[p];
      TearApply(s, p, StepTear(false)) ==
        MovingStore(s, p, TornStore(s.store, i, proc, false),
                    Some(TearingDown(i, proc.leave, NextTear(proc.tstage), proc.group)))
    ensures var x, stage := s.store.sessions[i], s.procs[p].tstage; stage.TearMedia? ==> stage.m in x.mediaOpen
  {
    ReachableInv(s);
    Look(s, p, i);
    MediaIsOpen(s, p, i);
  }

  /** What a step from a reachable state leaves on the heap is well formed. */
  lemma NextIsGood(s: State, step: Step)
    requires Leads(INITIAL, s) && Enabled(s, step)
    ensures var t := Apply(s, step);
      && StoreOk(t.store) && !t.panicked && |s.store.sessions| <= |t.store.sessions| <= |s.store.sessions| + 1
      && forall i :: 0 <= i < |s.store.sessions| ==> Kept(s.store.sessions[i], t.store.sessions[i])
  {
    ReachableInv(s);
    var i := InvLocal(s, step);
  }

  lemma OthersRespect(s: State, step: Step, me: Pid)
    requires Leads(INITIAL, s) && Enabled(s, step) && Actor(s, step) != me
    ensures me in s.procs ==> me in Apply(s, step).procs && Apply(s, step).procs[me] == s.procs[me]
  {
    ReachableInv(s);
    var i := InvLocal(s, step);
  }

  function ViewsOf(objects: seq<PeerSession>): (views: seq<Session>)
    reads objects
    ensures |views| == |objects| && forall i :: 0 <= i < |objects| ==> views[i] == objects[i].View()
  {
    seq(|objects|, i requires 0 <= i < |objects| reads objects => objects[i].View())
  }

  /** Goroutines, wait groups, and histories of the messages received and of the repository. */
  datatype Runtime = Runtime(procs: map<Pid, Proc>, next: Pid, groups: map<Gid, Group>, messages: set<Msg>,
                             added: set<Sid>, removed: set<Sid>)

  datatype Outcome =
    | Ready        // everything is in place
    | Broken       // given up, closed and out of the repository
    | Waiting      // still at the credentials gate

  /** How far createSession's calls get: up to the object, from there to Add, and whether Add's context is done. */
  datatype Plan = Plan(signalled: bool, offered: bool, done: bool)

  /** The calls of establishConnection after its gate: the dial, the key exchange, the event stream. */
  const CALLS := 3

  /** A token waits for the establishment of this session. */
  predicate TokenThere(s: State, i: Sid) {
    Known(s, i) && s.store.sessions[i].credsChan.CanRecv()
  }

  predicate PlanFails(plan: Plan) {
    !plan.signalled || !plan.offered || plan.done
  }

  /** How the outside treats one routine: what the others do, and how long a wait is watched. */
  datatype World = World(others: nat -> seq<Step>, patience: nat)

  function RuntimeOf(t: State): Runtime {
    Runtime(t.procs, t.next, t.groups, t.messages, t.store.added, t.store.removed)
  }

  /** Goroutine `p` goes on as `proc`, or ends, having taken these sessions out of the repository. */
  function MovedOn(rt: Runtime, p: Pid, proc: Option<Proc>, deleted: set<Sid>): Runtime {
    rt.(procs := if proc.Some? then rt.procs[p := proc.value] else rt.procs - {p}, removed := rt.removed + deleted)
  }

  /** The goroutine ends, counting down its wait group if it has one. */
  function Left(rt: Runtime, p: Pid, group: Option<Gid>): Runtime {
    if group.Some? && group.value in rt.groups
    then var g := group.value;
         rt.(procs := rt.procs - {p}, groups := rt.groups[g := rt.groups[g].(live := rt.groups[g].live - {p})])
    else rt.(procs := rt.procs - {p})
  }

  lemma LeftIsLeaving(s: State, p: Pid, group: Option<Gid>)
    ensures var t := LeaveIfMember(s, p, group);
      RuntimeOf(t) == Left(RuntimeOf(s), p, group) && t.store == s.store && t.flights == s.flights
      && t.closing == s.closing
      && t.panicked == s.panicked
  {
  }

  lemma NotifyMoves(s: State, p: Pid, i: Sid, handler: bool)
    requires Leads(INITIAL, s) && CanTear(s, p, StepTear(handler)) && i == s.procs[p].sid
    requires s.procs[p].tstage.TearNotify?
    ensures var t, proc := TearApply(s, p, StepTear(handler)), s.procs[p];
      && RuntimeOf(t) == Left(RuntimeOf(s), p, proc.group) && t.flights == s.flights && t.closing == s.closing
      && !t.panicked
      && t.store == Put(s.store, i, Torn(s.store.sessions[i], TearNotify, proc.leave, handler))
    ensures i in s.store.removed && !s.panicked
  {
    ReachableInv(s);
    SeenRemoved(s, p, StepTear(handler));
    var st := Put(s.store, i, Torn(s.store.sessions[i], TearNotify, s.procs[p].leave, handler));
    LeftIsLeaving(s.(store := st), p, s.procs[p].group);
  }

  lemma EnterMoves(s: State, p: Pid, i: Sid)
    requires Leads(INITIAL, s) && CanTear(s, p, EnterOnce) && i == s.procs[p].sid
    ensures !s.panicked && (s.store.sessions[i].closing.Over? ==> i in s.store.removed)
    ensures var t, proc, x := TearApply(s, p, EnterOnce), s.procs[p], s.store.sessions[i];
      && t.flights == s.flights && t.closing == s.closing && !t.panicked
      && (if x.closing.Over? then RuntimeOf(t) == Left(RuntimeOf(s), p, proc.group) && t.store == Put(s.store, i, x)
          else t == Moving(s, p, i, x.(closing := Running(p, proc.leave)),
                           Some(TearingDown(i, proc.leave, TearStream, proc.group))))
  {
    ReachableInv(s);
    if s.store.sessions[i].closing.Over? {
      SeenRemoved(s, p, EnterOnce);
      assert Put(s.store, i, s.store.sessions[i]) == s.store;
      LeftIsLeaving(s, p, s.procs[p].group);
    }
  }

  predicate Unfolds(n: nat) {
    true
  }

  predicate IsLeading(proc: Proc, msg: Msg) {
    proc.Leading? && proc.msg == msg
  }

  predicate IsFollowing(proc: Proc, msg: Msg) {
    proc.Following? && proc.msg == msg
  }

  predicate IsPublishing(proc: Proc, msg: Msg) {
    proc.Publishing? && proc.msg == msg
  }

  lemma LeadersHaveCalls(s: State, p: Pid)
    requires Leads(INITIAL, s) && p in s.procs && (s.procs[p].Leading? || s.procs[p].Publishing?)
    ensures s.procs[p].fid < |s.flights.all| && s.flights.all[s.procs[p].fid].uid == s.procs[p].msg.sender
  {
    ReachableInv(s);
    assert FlightProcOk(p, FlightAt(s.procs, p, true), true, s.flights);
  }

  lemma FollowersHaveCalls(s: State, p: Pid)
    requires Leads(INITIAL, s) && p in s.procs && s.procs[p].Following?
    ensures s.procs[p].fid < |s.flights.all| && s.flights.all[s.procs[p].fid].uid == s.procs[p].msg.sender
  {
    ReachableInv(s);
    assert FlightProcOk(p, FlightAt(s.procs, p, false), false, s.flights);
  }

  /** The session has a connection. */
  predicate Linked(s: State, i: Sid) {
    Known(s, i) && s.store.sessions[i].links.conn
  }

  lemma SharedStep(s: State, step: Step, u: Uid, found: Option<Sid>)
    requires Inv(s) && Enabled(s, step) && Shared(s, u, found)
    ensures Shared(Apply(s, step), u, found)
  {
    var f :| 0 <= f < |s.flights.all| && s.flights.all[f].uid == u && s.flights.all[f].result == Some(found);
    match step
    case CreateStep(p, act) => CreateSpares(s, p, act);
    case MsgStep(p, act) => SharedMsg(s, p, act, f);
    case EnvStep(act) => EnvLeaves(s, act);
    case EstStep(p, act) =>
    case TearStep(p, act) => TearSpares(s, p, act);
    assert Apply(s, step).flights.all[f] == s.flights.all[f];
  }

  lemma TearSpares(s: State, p: Pid, act: TearAct)
    requires CanTear(s, p, act)
    ensures TearApply(s, p, act).flights == s.flights
  {
    if act.StepReset? {
      ResetSpares(s, p);
    }
  }

  /** The results of lookups are final. */
  lemma SharedMsg(s: State, p: Pid, act: MsgAct, f: Fid)
    requires Inv(s) && CanHandle(s, p, act) && f < |s.flights.all| && s.flights.all[f].result.Some?
    ensures f < |MsgApply(s, p, act).flights.all| && MsgApply(s, p, act).flights.all[f] == s.flights.all[f]
  {
    MsgFlightsShape(s, p, act);
    assert FlightProcOk(p, FlightAt(s.procs, p, true), true, s.flights);
    if act.Publish? {
      var u := s.procs[p].msg.sender;
      assert CurrentOk(u, s.flights.current[u], s.flights, s.procs);
    }
  }

  lemma {:induction false} SharedForGood(s: State, steps: seq<Step>, t: State, u: Uid, found: Option<Sid>)
    requires Inv(s) && Reaches(s, steps, t) && Shared(s, u, found)
    ensures Shared(t, u, found)
    decreases |steps|
  {
    if steps != [] {
      SharedStep(s, steps[0], u, found);
      InvStep(s, steps[0]);
      SharedForGood(Apply(s, steps[0]), steps[1..], t, u, found);
    }
  }

  /** A lookup of this user has ended with this result. */
  ghost predicate Shared(s: State, u: Uid, found: Option<Sid>) {
    exists f :: 0 <= f < |s.flights.all| && s.flights.all[f].uid == u && s.flights.all[f].result == Some(found)
  }

  lemma HandlersHaveSessions(s: State, p: Pid)
    requires Leads(INITIAL, s) && p in s.procs && s.procs[p].Handling?
    ensures Known(s, s.procs[p].sid) && s.store.sessions[s.procs[p].sid].userId == s.procs[p].msg.sender
    ensures s.procs[p].sid in s.store.added
  {
    ReachableInv(s);
    assert ProcOk(p, s.procs[p], s.store, s.messages);
  }

  lemma HandlesWhole(s: State, p: Pid, act: MsgAct)
    requires CanHandle(s, p, act) && !act.Offer? && (act.Install? ==> !act.ok)
    ensures var t := MsgApply(s, p, act);
      && t.store == s.store && t.flights == FlightsNext(s, p, act) && t.closing == s.closing && t.panicked == s.panicked
      && RuntimeOf(t) == MovedOn(RuntimeOf(s), p, MsgNext(s, p, act), {})
  {
    MsgShape(s, p, act);
    MsgFlightsShape(s, p, act);
    HandlingSpares(s, p, act);
  }

  lemma HandlingSpares(s: State, p: Pid, act: MsgAct)
    requires CanHandle(s, p, act)
    ensures MsgApply(s, p, act).closing == s.closing && MsgApply(s, p, act).groups == s.groups
  {
  }

  lemma OfferMoves(s: State, p: Pid, i: Sid)
    requires Leads(INITIAL, s) && CanHandle(s, p, Offer) && i == s.procs[p].sid
    ensures !s.panicked && s.store.sessions[i].credsChan.cap == 1 && !s.store.sessions[i].credsChan.closed
    ensures var x := s.store.sessions[i];
      MsgApply(s, p, Offer) == Moving(s, p, i,
                                      if x.credsChan.CanSend() then x.(credsChan := x.credsChan.Send(())) else x, None)
  {
    ReachableInv(s);
    Look(s, p, i);
    assert Put(s.store, i, s.store.sessions[i]) == s.store;
  }

  lemma ReadyMoves(s: State, p: Pid, i: Sid)
    requires Leads(INITIAL, s) && CanCreate(s, p, SeeReady) && i == s.procs[p].sid
    ensures var x := s.store.sessions[i];
      !s.panicked && x.readyChan.closed && (FullyEstablished(x) || !x.handling)
    ensures CreateApply(s, p, SeeReady).store == s.store && CreateApply(s, p, SeeReady).procs ==
      (if QuietNext(s, p, SeeReady).Some? then s.procs[p := QuietNext(s, p, SeeReady).value] else s.procs - {p})
  {
    ReachableInv(s);
    SeenReady(s, p);
    assert ProcOk(p, s.procs[p], s.store, s.messages);
    Look(s, p, i);
    QuietShape(s, p, SeeReady);
  }

  lemma EnvLeaves(s: State, act: EnvAct)
    requires CanStart(s, act)
    ensures EnvApply(s, act).store == s.store && EnvApply(s, act).flights == s.flights
    ensures EnvApply(s, act).panicked == s.panicked
    ensures EnvApply(s, act).closing == (s.closing || act.CloseApp?)
  {
  }

  lemma ReturnedSettled(s: State, g: Gid)
    requires Leads(INITIAL, s) && g in s.groups && s.groups[g].returned
    ensures forall i :: i in s.groups[g].targets ==> Settled(i, s.groups[g].connecting, s.store)
  {
    ReachableInv(s);
    forall i | i in s.groups[g].targets ensures Settled(i, s.groups[g].connecting, s.store) {
      TargetsSettled(s, g, i);
    }
  }

  class NetworkingServ {
    const id: Uid
    const sessionRepo: SessionRepo
    var objects: seq<PeerSession>      // every session object there ever was
    var sdpsGroup: Flights
    var closing: bool                  // closeCtx is done
    var runtime: Runtime
    ghost var heap: set<PeerSession>   // the objects, as a set
    ghost var now: State               // all of it as one value

    function Views(): seq<Session>
      reads this`objects, objects
    {
      ViewsOf(objects)
    }

    function Repo(): map<Uid, Sid>
      reads sessionRepo
    {
      map u | u in sessionRepo.entries :: sessionRepo.entries[u].sid
    }

    function Now(): State
      reads this`objects, this`sdpsGroup, this`closing, this`runtime
      reads objects, sessionRepo
    {
      State(Store(Views(), Repo(), runtime.added, runtime.removed), runtime.procs, runtime.next, sdpsGroup,
            runtime.groups,
            runtime.messages, closing, false)
    }

    /** Identities are positions. */
    ghost predicate Listed()
      reads this`objects, this`heap
    {
      && (forall i :: 0 <= i < |objects| ==> objects[i].sid == i && objects[i] in heap)
      && (forall o :: o in heap ==> o.sid < |objects| && objects[o.sid] == o)
    }

    /** The repository holds objects of this service only. */
    ghost predicate Shape()
      reads this`objects, this`heap, sessionRepo
    {
      Listed() && forall u :: u in sessionRepo.entries ==> sessionRepo.entries[u] in heap
    }

    /**
     * The fields are where some run of all goroutines has led, nobody having panicked. The quantifier only keeps
     * this folded in routines that do not look inside: `assert Unfolds(0)` unfolds it.
     */
    ghost predicate Valid()
      reads this, heap, objects, sessionRepo
    {
      forall n: nat {:trigger Unfolds(n)} :: Unfolds(n) ==> Shape() && now == Now() && Leads(INITIAL, now)
    }

    constructor (id: Uid)
      ensures this.id == id && Valid() && now == INITIAL && fresh(sessionRepo) && heap == {}
    {
      this.id := id;
      sessionRepo := new SessionRepo();
      objects, heap, sdpsGroup, closing := [], {}, Flights(map[], []), false;
      runtime, now := Runtime(map[], 0, map[], {}, {}, {}), INITIAL;
      LeadsRefl(INITIAL);
    }

    /** The statement just executed was `step`. */
    ghost method Executed(step: Step)
      requires Shape() && Leads(INITIAL, now) && Enabled(now, step) && Now() == Apply(now, step)
      modifies this`now
      ensures Valid() && now == Now() == Apply(old(now), step) && Leads(old(now), now)
    {
      LeadsRefl(now);
      LeadsSnoc(now, now, step);
      LeadsSnoc(INITIAL, now, step);
      now := Now();
    }

    /** The statement just executed was `step`: it wrote at most one session object. */
    ghost method Completed(t: State, step: Step, session: PeerSession, x: Session)
      requires Shape() && session in heap && |objects| == |now.store.sessions|
      requires forall j :: 0 <= j < |objects| && j != session.sid ==> objects[j].View() == now.store.sessions[j]
      requires session.View() == x && Repo() == now.store.repo
      requires sdpsGroup == t.flights && closing == t.closing && !t.panicked && runtime == RuntimeOf(t)
      requires Leads(INITIAL, now) && Enabled(now, step) && t == Apply(now, step)
      requires t.store == Put(now.store, session.sid, x)
      modifies this`now
      ensures Valid() && now == t && Leads(old(now), t)
    {
      assert Views() == now.store.sessions[session.sid := x];
      Executed(step);
    }

    function Standing(p: Pid): Option<Proc>
      reads this`runtime
    {
      if p in runtime.procs then Some(runtime.procs[p]) else None
    }

    /** The statement just executed was `step`: it filed a session or took one out. */
    ghost method Refiled(t: State, step: Step)
      requires Shape() && Leads(INITIAL, now) && Enabled(now, step) && t == Apply(now, step)
      requires Views() == t.store.sessions && Repo() == t.store.repo
      requires sdpsGroup == t.flights && closing == t.closing && !t.panicked && runtime == RuntimeOf(t)
      modifies this`now
      ensures Valid() && now == t && Leads(old(now), t)
    {
      Executed(step);
    }

    // -------------------------------------------------------------------------------------------
    // The others

    /** The heap after somebody else's statement. */
    method Become(t: State)
      requires Shape() && !t.panicked && StoreFollows(t.store)
      modifies this, sessionRepo, heap
      ensures Shape() && Now() == t && now == old(now) && old(heap) <= heap && fresh(heap - old(heap))
    {
      BecomeStore(t.store);
      sdpsGroup, closing, runtime := t.flights, t.closing, RuntimeOf(t);
    }

    /** The next store as one statement can leave it. */
    ghost predicate StoreFollows(st: Store)
      reads this`objects, objects
    {
      && |objects| <= |st.sessions| <= |objects| + 1 && (forall u :: u in st.repo ==> st.repo[u] < |st.sessions|)
      && forall i :: 0 <= i < |objects| ==> Kept(objects[i].View(), st.sessions[i])
    }

    method BecomeStore(st: Store)
      requires Shape() && StoreFollows(st)
      modifies this`objects, this`heap, sessionRepo, heap
      ensures Shape() && Views() == st.sessions && Repo() == st.repo && old(heap) <= heap && fresh(heap - old(heap))
    {
      BecomeObjects(st.sessions);
      Refile(st.repo);
    }

    method Refile(repo: map<Uid, Sid>)
      requires Listed() && forall u :: u in repo ==> repo[u] < |objects|
      modifies sessionRepo
      ensures Repo() == repo && Shape()
    {
      sessionRepo.entries := map u | u in repo :: objects[repo[u]];
    }

    method BecomeObjects(sessions: seq<Session>)
      requires Listed() && |objects| <= |sessions| <= |objects| + 1
      requires forall i :: 0 <= i < |objects| ==> Kept(objects[i].View(), sessions[i])
      modifies this`objects, this`heap, heap
      ensures Listed() && old(heap) <= heap && fresh(heap - old(heap))
      ensures Views() == sessions
    {
      OverwriteAll(sessions);
      if |objects| < |sessions| {
        Allocated(sessions[|objects|]);
      }
    }

    method OverwriteAll(sessions: seq<Session>)
      requires Listed() && |objects| <= |sessions|
      requires forall i :: 0 <= i < |objects| ==> Kept(objects[i].View(), sessions[i])
      modifies heap
      ensures Views() == sessions[..|objects|]
    {
      for i := 0 to |objects|
        invariant forall j :: i <= j < |objects| ==> objects[j].View() == old(objects[j].View())
        invariant forall j :: 0 <= j < i ==> objects[j].View() == sessions[j]
      {
        objects[i].Overwrite(sessions[i]);
      }
    }

    method Allocated(x: Session)
      requires Listed()
      modifies this`objects, this`heap
      ensures Listed() && old(heap) <= heap && fresh(heap - old(heap)) && Views() == old(Views()) + [x]
    {
      var session := new PeerSession(|objects|, x.userId, x.initiator, x.owner);
      session.Overwrite(x);
      objects, heap := objects + [session], heap + {session};
    }

    /** One statement of any goroutine. */
    method Do(step: Step)
      requires Valid() && Enabled(now, step)
      modifies this, sessionRepo, heap
      ensures Valid() && now == Apply(old(now), step) && old(heap) <= heap && fresh(heap - old(heap))
      ensures runtime.procs == now.procs && runtime.added == now.store.added
      ensures sessionRepo.entries.Keys == now.store.repo.Keys
    {
      assert Unfolds(0);
      NextIsGood(now, step);
      Become(Apply(Now(), step));
      Executed(step);
    }

    /** The others run: any statements, in any order, as far as each is possible. */
    method Interfere(me: Pid, steps: seq<Step>)
      requires Valid()
      modifies this, sessionRepo, heap
      ensures Valid() && Leads(old(now), now) && old(heap) <= heap && fresh(heap - old(heap))
      ensures me in old(runtime).procs ==> Standing(me) == old(Standing(me))
    {
      assert Unfolds(0);
      LeadsRefl(now);
      for k := 0 to |steps|
        invariant Valid() && Leads(old(now), now) && old(heap) <= heap && fresh(heap - old(heap))
        invariant runtime.procs == now.procs && Respects(me, old(now), now)
      {
        assert Unfolds(0);
        if Enabled(Now(), steps[k]) && Actor(Now(), steps[k]) != me {
          ghost var before := now;
          OthersRespect(before, steps[k], me);
          Do(steps[k]);
          LeadsSnoc(old(now), before, steps[k]);
        }
      }
    }

    // -------------------------------------------------------------------------------------------
    // resetSession

    ghost predicate At(p: Pid, session: PeerSession, proc: Proc)
      reads this`heap, this`runtime
    {
      session in heap && p in runtime.procs && runtime.procs[p] == proc
    }

    /** One of the first three statements. */
    method ResetStatement(p: Pid, session: PeerSession, stage: ResetStage, after: After)
      requires Valid() && At(p, session, Resetting(session.sid, stage, after)) && !stage.ResetDelete?
      modifies this, session
      ensures Valid() && Leads(old(now), now) && heap == old(heap)
      ensures session.View() == ResetClosed(old(session.View()), stage)
      ensures At(p, session, Resetting(session.sid, NextReset(stage), after))
    {
      assert Unfolds(0);
      ghost var s := now;
      ResetMoves(s, p);
      session.CloseForReset(stage);
      runtime := runtime.(procs := runtime.procs[p := Resetting(session.sid, NextReset(stage), after)]);
      Completed(ResetApply(s, p), TearStep(p, StepReset), session, ResetClosed(s.store.sessions[session.sid], stage));
    }

    /** sessionRepo.Delete of this very session; whatever else is filed under its user id stays. */
    method Unfile(session: PeerSession) returns (deleted: bool)
      requires Shape() && session in heap
      modifies sessionRepo
      ensures Shape() && deleted == (session.userId in old(Repo()) && old(Repo())[session.userId] == session.sid)
      ensures Repo() == if deleted then old(Repo()) - {session.userId} else old(Repo())
    {
      var err := sessionRepo.Delete(false, session.userId, session);
      deleted := err.None?;
    }

    method DeleteForReset(p: Pid, session: PeerSession, after: After)
      requires Valid() && At(p, session, Resetting(session.sid, ResetDelete, after))
      modifies this, sessionRepo
      ensures Valid() && Leads(old(now), now) && heap == old(heap) && now == Now()
      ensures CanTear(old(now), p, StepReset) && now == ResetApply(old(now), p)
    {
      assert Unfolds(0);
      ghost var s := now;
      ResetDeletes(s, p, session.sid);
      var deleted := Unfile(session);
      runtime := MovedOn(runtime, p, AfterReset(session.userId, session.initiator, after),
                         if deleted then {session.sid} else {});
      Refiled(ResetApply(s, p), TearStep(p, StepReset));
    }

    /** The last statement of a reset. */
    method ResetRepository(p: Pid, session: PeerSession, after: After)
      requires Valid() && At(p, session, Resetting(session.sid, ResetDelete, after))
      modifies this, sessionRepo
      ensures Valid() && Leads(old(now), now) && heap == old(heap)
      ensures Standing(p) == AfterReset(session.userId, session.initiator, after)
      ensures session.sid in old(runtime).added ==> session.sid in runtime.removed
      ensures after.EndEstablishing? ==> CleanedUp(session.View()) && session.sid in runtime.removed
    {
      assert Unfolds(0);
      ResetDeletes(now, p, session.sid);
      DeleteForReset(p, session, after);
    }

    /** The same, and the others after it. */
    method ResetStatementThenOthers(p: Pid, session: PeerSession, stage: ResetStage, after: After, others: seq<Step>,
                                    ghost from: State)
      requires Valid() && At(p, session, Resetting(session.sid, stage, after)) && !stage.ResetDelete?
      requires Leads(from, now)
      modifies this, sessionRepo, heap
      ensures Valid() && Leads(from, now) && At(p, session, Resetting(session.sid, NextReset(stage), after))
      ensures old(heap) <= heap && fresh(heap - old(heap))
    {
      ResetStatement(p, session, stage, after);
      LeadsTrans(from, old(now), now);
      ghost var s := now;
      Interfere(p, others);
      LeadsTrans(from, s, now);
    }

    method RepositoryStage(p: Pid, session: PeerSession, after: After, ghost from: State)
      requires Valid() && At(p, session, Resetting(session.sid, ResetDelete, after)) && Leads(from, now)
      requires Leads(INITIAL, from) && Known(from, session.sid)
      modifies this, sessionRepo
      ensures Valid() && Leads(from, now) && heap == old(heap)
      ensures Standing(p) == AfterReset(session.userId, session.initiator, after)
      ensures session.sid in from.store.added ==> session.sid in runtime.removed
      ensures after.EndEstablishing? ==> CleanedUp(session.View()) && session.sid in runtime.removed
    {
      assert Unfolds(0);
      ghost var s := now;
      ResetRepository(p, session, after);
      LeadsTrans(from, s, now);
      KeptAlong(from, s, session.sid);
    }

    method LastStages(p: Pid, session: PeerSession, after: After, others: nat -> seq<Step>, ghost from: State)
      requires Valid() && At(p, session, Resetting(session.sid, ResetAgent, after)) && Leads(from, now)
      requires Leads(INITIAL, from) && Known(from, session.sid)
      modifies this, sessionRepo, heap
      ensures Valid() && Leads(from, now) && Standing(p) == AfterReset(session.userId, session.initiator, after)
      ensures session in heap && old(heap) <= heap && fresh(heap - old(heap))
      ensures session.sid in from.store.added ==> session.sid in runtime.removed
      ensures after.EndEstablishing? ==> CleanedUp(session.View()) && session.sid in runtime.removed
    {
      assert NextReset(ResetAgent) == ResetDelete;
      ResetStatementThenOthers(p, session, ResetAgent, after, others(2), from);
      RepositoryStage(p, session, after, from);
    }

    /**
     * resetSession as a whole. When it returns, the session is out of the repository for good, and its goroutine
     * goes on with what it was reset for.
     */
    method ResetSession(p: Pid, session: PeerSession, after: After, others: nat -> seq<Step>, ghost from: State)
      requires Valid() && At(p, session, Resetting(session.sid, ResetStream, after)) && Leads(from, now)
      requires Leads(INITIAL, from) && Known(from, session.sid)
      modifies this, sessionRepo, heap
      ensures Valid() && Leads(from, now) && Standing(p) == AfterReset(session.userId, session.initiator, after)
      ensures session in heap && old(heap) <= heap && fresh(heap - old(heap))
      ensures session.sid in from.store.added ==> session.sid in runtime.removed
      ensures after.EndEstablishing? ==> CleanedUp(session.View()) && session.sid in runtime.removed
    {
      assert NextReset(ResetStream) == ResetConn && NextReset(ResetConn) == ResetAgent;
      assert NextReset(ResetAgent) == ResetDelete;
      ResetStatementThenOthers(p, session, ResetStream, after, others(0), from);
      ResetStatementThenOthers(p, session, ResetConn, after, others(1), from);
      LastStages(p, session, after, others, from);
    }

    // -------------------------------------------------------------------------------------------
    // disconnectSession

    /** A statement inside Closing.Do before the deletion; the media channel it closes is still open. */
    method TearStatement(p: Pid, session: PeerSession, leave: bool, stage: TearStage, group: Option<Gid>)
      requires Valid() && At(p, session, TearingDown(session.sid, leave, stage, group)) && !stage.TearDelete?
      requires !stage.TearNotify?
      modifies this, session
      ensures Valid() && Leads(old(now), now) && heap == old(heap)
      ensures session.View() == Torn(old(session.View()), stage, leave, false)
      ensures At(p, session, TearingDown(session.sid, leave, NextTear(stage), group))
    {
      assert Unfolds(0);
      ghost var s := now;
      TearMoves(s, p, session.sid);
      session.CloseForGood(stage, leave, false);
      runtime := runtime.(procs := runtime.procs[p := TearingDown(session.sid, leave, NextTear(stage), group)]);
      Completed(TearApply(s, p, StepTear(false)), TearStep(p, StepTear(false)), session,
                Torn(s.store.sessions[session.sid], stage, leave, false));
    }

    /** The same, and the others after it. */
    method TearStatementThenOthers(p: Pid, session: PeerSession, leave: bool, stage: TearStage, group: Option<Gid>,
                                   others: seq<Step>, ghost from: State)
      requires Valid() && At(p, session, TearingDown(session.sid, leave, stage, group)) && Leads(from, now)
      requires !stage.TearDelete? && !stage.TearNotify?
      modifies this, sessionRepo, heap
      ensures Valid() && Leads(from, now) && At(p, session, TearingDown(session.sid, leave, NextTear(stage), group))
      ensures old(heap) <= heap && fresh(heap - old(heap))
    {
      TearStatement(p, session, leave, stage, group);
      LeadsTrans(from, old(now), now);
      ghost var s := now;
      Interfere(p, others);
      LeadsTrans(from, s, now);
    }

    method TearTwoStatements(p: Pid, session: PeerSession, leave: bool, stage: TearStage, next: TearStage,
                             group: Option<Gid>,
                             first: seq<Step>, second: seq<Step>, ghost from: State)
      requires Valid() && At(p, session, TearingDown(session.sid, leave, stage, group)) && Leads(from, now)
      requires !stage.TearDelete? && !stage.TearNotify? && next == NextTear(stage) && !next.TearDelete?
      modifies this, sessionRepo, heap
      ensures Valid() && Leads(from, now) && At(p, session, TearingDown(session.sid, leave, NextTear(next), group))
      ensures old(heap) <= heap && fresh(heap - old(heap))
    {
      TearStatementThenOthers(p, session, leave, stage, group, first, from);
      TearStatementThenOthers(p, session, leave, next, group, second, from);
    }

    /** Event stream, connection and agent. */
    method CloseHandles(p: Pid, session: PeerSession, leave: bool, group: Option<Gid>, others: nat -> seq<Step>,
                        ghost from: State)
      requires Valid() && At(p, session, TearingDown(session.sid, leave, TearStream, group)) && Leads(from, now)
      modifies this, sessionRepo, heap
      ensures Valid() && Leads(from, now)
      ensures At(p, session, TearingDown(session.sid, leave, TearMedia(Media.Voice), group))
      ensures old(heap) <= heap && fresh(heap - old(heap))
    {
      assert NextTear(TearStream) == TearConn && NextTear(TearConn) == TearAgent;
      assert NextTear(TearAgent) == TearMedia(Media.Voice);
      TearTwoStatements(p, session, leave, TearStream, TearConn, group, others(0), others(1), from);
      TearStatementThenOthers(p, session, leave, TearAgent, group, others(2), from);
    }

    /** The three media channels. */
    method CloseMediaChannels(p: Pid, session: PeerSession, leave: bool, group: Option<Gid>, others: nat -> seq<Step>,
                              ghost from: State)
      requires Valid() && At(p, session, TearingDown(session.sid, leave, TearMedia(Media.Voice), group))
      requires Leads(from, now)
      modifies this, sessionRepo, heap
      ensures Valid() && Leads(from, now) && At(p, session, TearingDown(session.sid, leave, TearDelete, group))
      ensures old(heap) <= heap && fresh(heap - old(heap))
    {
      assert NextTear(TearMedia(Media.Voice)) == TearMedia(Media.Webcam);
      assert NextTear(TearMedia(Media.Webcam)) == TearMedia(Media.Screen);
      assert NextTear(TearMedia(Media.Screen)) == TearDelete;
      TearTwoStatements(p, session, leave, TearMedia(Media.Voice), TearMedia(Media.Webcam), group, others(3),
                        others(4), from);
      TearStatementThenOthers(p, session, leave, TearMedia(Media.Screen), group, others(5), from);
    }

    method TearRepository(p: Pid, session: PeerSession, leave: bool, group: Option<Gid>)
      requires Valid() && At(p, session, TearingDown(session.sid, leave, TearDelete, group))
      modifies this, sessionRepo
      ensures Valid() && Leads(old(now), now) && heap == old(heap)
      ensures At(p, session, TearingDown(session.sid, leave, TearNotify, group))
    {
      assert Unfolds(0);
      ghost var s := now;
      TearDeletes(s, p, session.sid);
      var deleted := Unfile(session);
      runtime := MovedOn(runtime, p, Some(TearingDown(session.sid, leave, TearNotify, group)),
                         if deleted then {session.sid} else {});
      Refiled(TearApply(s, p, StepTear(false)), TearStep(p, StepTear(false)));
    }

    /** DeleteFromSession, or the user's handler; then the return from Closing.Do. */
    method Notify(p: Pid, session: PeerSession, leave: bool, group: Option<Gid>, handler: bool)
      requires Valid() && At(p, session, TearingDown(session.sid, leave, TearNotify, group))
      modifies this, session
      ensures Valid() && Leads(old(now), now) && heap == old(heap)
      ensures p !in runtime.procs && session.sid in runtime.removed && session.closing == Over(leave)
    {
      assert Unfolds(0);
      ghost var s := now;
      NotifyMoves(s, p, session.sid, handler);
      session.CloseForGood(TearNotify, leave, handler);
      runtime := Left(runtime, p, group);
      Completed(TearApply(s, p, StepTear(handler)), TearStep(p, StepTear(handler)), session,
                Torn(s.store.sessions[session.sid], TearNotify, leave, handler));
    }

    /** Closing.Do is entered first, or found done. */
    method EnterClosing(p: Pid, session: PeerSession, leave: bool, group: Option<Gid>) returns (first: bool)
      requires Valid() && At(p, session, Disconnecting(session.sid, leave, group)) && !session.closing.Running?
      modifies this, session
      ensures Valid() && Leads(old(now), now) && heap == old(heap) && session in heap
      ensures first == old(session.closing).Fresh?
      ensures first ==> At(p, session, TearingDown(session.sid, leave, TearStream, group))
      ensures !first ==> p !in runtime.procs && session.sid in runtime.removed && session.closing.Over?
    {
      assert Unfolds(0);
      ghost var s := now;
      EnterMoves(s, p, session.sid);
      first := session.closing.Fresh?;
      if first {
        session.closing := Running(p, leave);
        runtime := runtime.(procs := runtime.procs[p := TearingDown(session.sid, leave, TearStream, group)]);
      } else {
        runtime := Left(runtime, p, group);
      }
      Completed(TearApply(s, p, EnterOnce), TearStep(p, EnterOnce), session, session.View());
    }

    /** The last two statements. */
    method Leave(p: Pid, session: PeerSession, leave: bool, group: Option<Gid>, handler: bool, others: seq<Step>,
                 ghost from: State)
      requires Valid() && At(p, session, TearingDown(session.sid, leave, TearDelete, group)) && Leads(from, now)
      modifies this, sessionRepo, heap
      ensures Valid() && Leads(from, now) && session in heap && old(heap) <= heap && fresh(heap - old(heap))
      ensures p !in runtime.procs && session.sid in runtime.removed && session.closing == Over(leave)
    {
      TearRepositoryThenOthers(p, session, leave, group, others, from);
      ghost var s := now;
      Notify(p, session, leave, group, handler);
      LeadsTrans(from, s, now);
    }

    method TearRepositoryThenOthers(p: Pid, session: PeerSession, leave: bool, group: Option<Gid>, others: seq<Step>,
                                    ghost from: State)
      requires Valid() && At(p, session, TearingDown(session.sid, leave, TearDelete, group)) && Leads(from, now)
      modifies this, sessionRepo, heap
      ensures Valid() && Leads(from, now) && At(p, session, TearingDown(session.sid, leave, TearNotify, group))
      ensures old(heap) <= heap && fresh(heap - old(heap))
    {
      TearRepository(p, session, leave, group);
      LeadsTrans(from, old(now), now);
      ghost var s := now;
      Interfere(p, others);
      LeadsTrans(from, s, now);
    }

    /** sync.Once makes later callers wait for the first; `w.patience` is how long this one is watched. */
    method AwaitClosing(p: Pid, session: PeerSession, leave: bool, group: Option<Gid>, w: World, ghost from: State)
      requires Valid() && At(p, session, Disconnecting(session.sid, leave, group)) && Leads(from, now)
      modifies this, sessionRepo, heap
      ensures Valid() && Leads(from, now) && At(p, session, Disconnecting(session.sid, leave, group))
      ensures old(heap) <= heap && fresh(heap - old(heap))
    {
      var turn := 0;
      while turn < w.patience && session.closing.Running?
        invariant Valid() && Leads(from, now) && At(p, session, Disconnecting(session.sid, leave, group))
        invariant old(heap) <= heap && fresh(heap - old(heap))
      {
        ghost var s := now;
        Interfere(p, w.others(turn));
        LeadsTrans(from, s, now);
        turn := turn + 1;
      }
    }

    /**
     * disconnectSession as a whole, whoever else calls it on the same session: when it returns, the session is out
     * of the repository, and exactly one caller has run the teardown. No channel is closed twice on the way.
     */
    method DisconnectSession(p: Pid, session: PeerSession, leave: bool, group: Option<Gid>, handler: bool, w: World,
                             ghost from: State)
      returns (returned: bool)
      requires Valid() && At(p, session, Disconnecting(session.sid, leave, group)) && Leads(from, now)
      modifies this, sessionRepo, heap
      ensures Valid() && Leads(from, now) && session in heap && old(heap) <= heap && fresh(heap - old(heap))
      ensures returned ==> p !in runtime.procs && session.sid in runtime.removed && session.closing.Over?
      ensures !returned ==> At(p, session, Disconnecting(session.sid, leave, group)) && session.closing.Running?
    {
      AwaitClosing(p, session, leave, group, w, from);
      if session.closing.Running? {
        return false;
      }
      CloseOnce(p, session, leave, group, handler, w, from);
      returned := true;
    }

    method CloseOnce(p: Pid, session: PeerSession, leave: bool, group: Option<Gid>, handler: bool, w: World,
                     ghost from: State)
      requires Valid() && At(p, session, Disconnecting(session.sid, leave, group)) && !session.closing.Running?
      requires Leads(from, now)
      modifies this, sessionRepo, heap
      ensures Valid() && Leads(from, now) && session in heap && old(heap) <= heap && fresh(heap - old(heap))
      ensures p !in runtime.procs && session.sid in runtime.removed && session.closing.Over?
      ensures old(session.closing).Fresh? ==> session.closing == Over(leave)
    {
      var first := EnterClosing(p, session, leave, group);
      LeadsTrans(from, old(now), now);
      if first {
        CloseFirst(p, session, leave, group, handler, w, from);
      }
    }

    method CloseFirst(p: Pid, session: PeerSession, leave: bool, group: Option<Gid>, handler: bool, w: World,
                      ghost from: State)
      requires Valid() && At(p, session, TearingDown(session.sid, leave, TearStream, group)) && Leads(from, now)
      modifies this, sessionRepo, heap
      ensures Valid() && Leads(from, now) && session in heap && old(heap) <= heap && fresh(heap - old(heap))
      ensures p !in runtime.procs && session.sid in runtime.removed && session.closing == Over(leave)
    {
      CloseHandles(p, session, leave, group, w.others, from);
      CloseMediaChannels(p, session, leave, group, w.others, from);
      Leave(p, session, leave, group, handler, w.others(0), from);
    }

    // -------------------------------------------------------------------------------------------
    // establishConnection

    /** The next statement, successful. */
    method EstablishStatement(p: Pid, session: PeerSession, stage: EstStage, key: bytes, handler: bool)
      requires Valid() && At(p, session, Establishing(session.sid, stage))
      requires (stage.AwaitCreds? ==> session.credsChan.CanRecv()) && (stage.KeyExchanging? ==> |key| == KEY_SIZE)
      modifies this, session
      ensures Valid() && Leads(old(now), now) && heap == old(heap) && session in heap
      ensures session.View() == Established(old(session.View()), stage, key, handler)
      ensures Standing(p) == if stage.ClosingReady? then None else Some(Establishing(session.sid, NextStage(stage)))
      ensures stage.ClosingReady? ==> FullyEstablished(session.View())
    {
      assert Unfolds(0);
      ghost var s := now;
      AdvanceMoves(s, p, session.sid, stage, key, handler);
      session.Establish(stage, key, handler);
      runtime := MovedOn(runtime, p, if stage.ClosingReady? then None else Some(Establishing(session.sid,
          NextStage(stage))), {});
      Completed(EstApply(s, p, Advance(key, handler)), EstStep(p, Advance(key, handler)), session,
                Established(s.store.sessions[session.sid], stage, key, handler));
    }

    /** The same, and the others after it. */
    method EstablishThenOthers(p: Pid, session: PeerSession, stage: EstStage, key: bytes, handler: bool,
                               others: seq<Step>, ghost from: State)
      requires Valid() && At(p, session, Establishing(session.sid, stage)) && Leads(from, now) && !stage.ClosingReady?
      requires (stage.AwaitCreds? ==> session.credsChan.CanRecv()) && (stage.KeyExchanging? ==> |key| == KEY_SIZE)
      modifies this, sessionRepo, heap
      ensures Valid() && Leads(from, now) && At(p, session, Establishing(session.sid, NextStage(stage)))
      ensures old(heap) <= heap && fresh(heap - old(heap))
      ensures stage.KeyExchanging? ==> session.links.key == key
      ensures stage.Announcing? && handler ==> Connected in session.callbacks
    {
      EstablishStatement(p, session, stage, key, handler);
      LeadsTrans(from, old(now), now);
      ghost var s := now;
      WhatItDid(old(session.View()), stage, key, handler);
      Snapshot(s, session);
      Interfere(p, others);
      LeadsTrans(from, s, now);
      KeptSince(s, session);
    }

    lemma WhatItDid(x: Session, stage: EstStage, key: bytes, handler: bool)
      requires stage.AwaitCreds? ==> x.credsChan.CanRecv()
      ensures stage.KeyExchanging? ==> Established(x, stage, key, handler).links.key == key
      ensures stage.Announcing? && handler ==> Connected in Established(x, stage, key, handler).callbacks
    {
      assert (x.callbacks + [Connected])[|x.callbacks|] == Connected;
    }

    lemma Snapshot(s: State, session: PeerSession)
      requires Valid() && s == now && session in heap
      ensures Leads(INITIAL, s) && Leads(s, s) && Known(s, session.sid)
      ensures s.store.sessions[session.sid] == session.View()
    {
      assert Unfolds(0);
      LeadsRefl(s);
    }

    /** Nothing a session had is lost while others run. */
    lemma KeptSince(s: State, session: PeerSession)
      requires Valid() && session in heap && Leads(INITIAL, s) && Leads(s, now) && Known(s, session.sid)
      ensures var x := s.store.sessions[session.sid];
        && (x.links.key != [] ==> session.links.key == x.links.key)
        && (Connected in x.callbacks ==> Connected in session.callbacks)
    {
      assert Unfolds(0);
      KeptAlong(s, now, session.sid);
      assert now.store.sessions[session.sid] == session.View();
      var x := s.store.sessions[session.sid];
      assert forall k :: 0 <= k < |x.callbacks| ==> session.callbacks[k] == x.callbacks[k];
    }

    /** close(session.ReadyChan) on the error path: it is still open. */
    method CloseReadyOnError(p: Pid, session: PeerSession)
      requires Valid() && At(p, session, Failing(session.sid))
      modifies this, session
      ensures Valid() && Leads(old(now), now) && heap == old(heap)
      ensures At(p, session, Resetting(session.sid, ResetStream, EndEstablishing))
    {
      assert Unfolds(0);
      ghost var s := now;
      CloseOnErrorMoves(s, p, session.sid);
      session.readyChan := session.readyChan.Close();
      runtime := MovedOn(runtime, p, Some(Resetting(session.sid, ResetStream, EndEstablishing)), {});
      Completed(EstApply(s, p, CloseOnError), EstStep(p, CloseOnError), session, session.View());
    }

    /** Where establishConnection can return an error. */
    predicate CanGiveUp(stage: EstStage)
      reads this`closing
    {
      match stage
      case AwaitCreds => closing
      case Dialing => true
      case KeyExchanging => true
      case OpeningEvents => true
      case _ => false
    }

    /** A call has failed, or the application closes: the error is returned and the others go on. */
    method ReturnError(p: Pid, session: PeerSession, stage: EstStage, others: seq<Step>, ghost from: State)
      requires Valid() && At(p, session, Establishing(session.sid, stage)) && CanGiveUp(stage) && Leads(from, now)
      modifies this, sessionRepo, heap
      ensures Valid() && Leads(from, now) && At(p, session, Failing(session.sid))
      ensures old(heap) <= heap && fresh(heap - old(heap))
    {
      assert Unfolds(0);
      NoPanic(now);
      ghost var s := now;
      Do(EstStep(p, Fail));
      LeadsSnoc(from, s, EstStep(p, Fail));
      s := now;
      Interfere(p, others);
      LeadsTrans(from, s, now);
    }

    /** The error path of createAndEstablish's goroutine. */
    method Abandon(p: Pid, session: PeerSession, w: World, ghost from: State)
      requires Valid() && At(p, session, Failing(session.sid)) && Leads(from, now) && Leads(INITIAL, from)
      requires Known(from, session.sid)
      modifies this, sessionRepo, heap
      ensures Valid() && Leads(from, now) && session in heap && old(heap) <= heap && fresh(heap - old(heap))
      ensures p !in runtime.procs && CleanedUp(session.View()) && session.sid in runtime.removed
    {
      CloseReadyOnError(p, session);
      LeadsTrans(from, old(now), now);
      ResetSession(p, session, EndEstablishing, w.others, from);
    }

    /** How establishment ends, Waiting apart. */
    ghost predicate Ended(p: Pid, session: PeerSession, outcome: Outcome)
      reads this`runtime, session
    {
      && p !in runtime.procs
      && (if outcome.Ready? then FullyEstablished(session.View())
          else outcome.Broken? && CleanedUp(session.View()) && session.sid in runtime.removed)
    }

    method GiveUp(p: Pid, session: PeerSession, stage: EstStage, w: World, ghost from: State) returns (outcome: Outcome)
      requires Valid() && At(p, session, Establishing(session.sid, stage)) && CanGiveUp(stage)
      requires Leads(from, now) && Leads(INITIAL, from) && Known(from, session.sid)
      modifies this, sessionRepo, heap
      ensures Valid() && Leads(from, now) && session in heap && old(heap) <= heap && fresh(heap - old(heap))
      ensures Ended(p, session, outcome) && outcome.Broken?
    {
      ReturnError(p, session, stage, w.others(0), from);
      Abandon(p, session, w, from);
      outcome := Broken;
    }

    /** The gate: a token, or the end of the application; `w.patience` is how long it is watched. */
    method AwaitCredentials(p: Pid, session: PeerSession, w: World, ghost from: State)
      requires Valid() && At(p, session, Establishing(session.sid, AwaitCreds)) && Leads(from, now)
      modifies this, sessionRepo, heap
      ensures Valid() && Leads(from, now) && At(p, session, Establishing(session.sid, AwaitCreds))
      ensures old(heap) <= heap && fresh(heap - old(heap))
    {
      var turn := 0;
      while turn < w.patience && !session.credsChan.CanRecv() && !closing
        invariant Valid() && Leads(from, now) && At(p, session, Establishing(session.sid, AwaitCreds))
        invariant old(heap) <= heap && fresh(heap - old(heap))
      {
        ghost var s := now;
        Interfere(p, w.others(turn));
        LeadsTrans(from, s, now);
        turn := turn + 1;
      }
    }

    /**
     * establishConnection with the goroutine around it. `up` says how many of its calls succeed, `key` is what the key
     * exchange yields, `tokenFirst` which case its select takes if both are ready. `passed`: it took the token; `seen`
     * is the state in which the select was decided. It ends with everything in place exactly if it passed the gate and
     * no call failed; otherwise the session ends cleaned up and out of the repository.
     */
    method EstablishConnection(p: Pid, session: PeerSession, key: bytes, up: nat, tokenFirst: bool, handler: bool,
                               w: World, ghost from: State)
      returns (outcome: Outcome, passed: bool, ghost seen: State)
      requires Valid() && At(p, session, Establishing(session.sid, AwaitCreds)) && |key| == KEY_SIZE
      requires Leads(from, now) && Leads(INITIAL, from) && Known(from, session.sid)
      modifies this, sessionRepo, heap
      ensures Valid() && Leads(from, now) && session in heap && old(heap) <= heap && fresh(heap - old(heap))
      ensures if outcome.Waiting? then At(p, session, Establishing(session.sid, AwaitCreds))
              else Ended(p, session, outcome)
      ensures Leads(from, seen) && Leads(seen, now) && Known(seen, session.sid)
      ensures passed == (TokenThere(seen, session.sid) && (tokenFirst || !seen.closing))
      ensures outcome.Waiting? <==> !TokenThere(seen, session.sid) && !seen.closing
      ensures outcome.Ready? <==> passed && up >= CALLS
      ensures outcome.Ready? ==> session.links.key == key && (handler ==> Connected in session.callbacks)
    {
      AwaitCredentials(p, session, w, from);
      seen := now;
      Decides(seen, session);
      passed := session.credsChan.CanRecv() && (tokenFirst || !closing);
      if passed {
        outcome := PassGate(p, session, key, up, handler, w, seen);
      } else if closing {
        outcome := GiveUp(p, session, AwaitCreds, w, seen);
      } else {
        outcome := Waiting;
      }
      LeadsTrans(from, seen, now);
    }

    lemma Decides(seen: State, session: PeerSession)
      requires Valid() && session in heap && seen == now
      ensures Leads(INITIAL, seen) && Leads(seen, seen) && Known(seen, session.sid) && seen.closing == closing
      ensures TokenThere(seen, session.sid) == session.credsChan.CanRecv()
    {
      assert Unfolds(0);
      LeadsRefl(seen);
      assert seen.store.sessions[session.sid] == session.View();
    }

    method PassGate(p: Pid, session: PeerSession, key: bytes, up: nat, handler: bool, w: World, ghost from: State)
      returns (outcome: Outcome)
      requires Valid() && At(p, session, Establishing(session.sid, AwaitCreds)) && |key| == KEY_SIZE
      requires session.credsChan.CanRecv()
      requires Leads(from, now) && Leads(INITIAL, from) && Known(from, session.sid)
      modifies this, sessionRepo, heap
      ensures Valid() && Leads(from, now) && session in heap && old(heap) <= heap && fresh(heap - old(heap))
      ensures Ended(p, session, outcome) && (outcome.Ready? <==> up >= CALLS)
      ensures outcome.Ready? ==> session.links.key == key && (handler ==> Connected in session.callbacks)
    {
      assert NextStage(AwaitCreds) == Dialing;
      EstablishThenOthers(p, session, AwaitCreds, key, handler, w.others(0), from);
      outcome := Dial(p, session, key, up, handler, w, from);
    }

    /** A statement that calls out: it succeeds, or the session is given up. */
    method Attempt(p: Pid, session: PeerSession, stage: EstStage, key: bytes, ok: bool, handler: bool, w: World,
                   ghost from: State)
      requires Valid() && At(p, session, Establishing(session.sid, stage)) && |key| == KEY_SIZE
      requires stage.Dialing? || stage.KeyExchanging? || stage.OpeningEvents?
      requires Leads(from, now) && Leads(INITIAL, from) && Known(from, session.sid)
      modifies this, sessionRepo, heap
      ensures Valid() && Leads(from, now) && session in heap && old(heap) <= heap && fresh(heap - old(heap))
      ensures if ok then At(p, session, Establishing(session.sid, NextStage(stage))) else Ended(p, session, Broken)
      ensures ok && stage.KeyExchanging? ==> session.links.key == key
    {
      if ok {
        EstablishThenOthers(p, session, stage, key, handler, w.others(1), from);
      } else {
        var outcome := GiveUp(p, session, stage, w, from);
      }
    }

    /** ICE, then QUIC: session.Conn. */
    method Dial(p: Pid, session: PeerSession, key: bytes, up: nat, handler: bool, w: World, ghost from: State)
      returns (outcome: Outcome)
      requires Valid() && At(p, session, Establishing(session.sid, Dialing)) && |key| == KEY_SIZE
      requires Leads(from, now) && Leads(INITIAL, from) && Known(from, session.sid)
      modifies this, sessionRepo, heap
      ensures Valid() && Leads(from, now) && session in heap && old(heap) <= heap && fresh(heap - old(heap))
      ensures Ended(p, session, outcome) && (outcome.Ready? <==> up >= CALLS)
      ensures outcome.Ready? ==> session.links.key == key && (handler ==> Connected in session.callbacks)
    {
      assert NextStage(Dialing) == KeyExchanging;
      Attempt(p, session, Dialing, key, up > 0, handler, w, from);
      if up == 0 {
        return Broken;
      }
      outcome := SetupE2EE(p, session, key, up - 1, handler, w, from);
    }

    /** setupE2EE: session.Key. */
    method SetupE2EE(p: Pid, session: PeerSession, key: bytes, up: nat, handler: bool, w: World, ghost from: State)
      returns (outcome: Outcome)
      requires Valid() && At(p, session, Establishing(session.sid, KeyExchanging)) && |key| == KEY_SIZE
      requires Leads(from, now) && Leads(INITIAL, from) && Known(from, session.sid)
      modifies this, sessionRepo, heap
      ensures Valid() && Leads(from, now) && session in heap && old(heap) <= heap && fresh(heap - old(heap))
      ensures Ended(p, session, outcome) && (outcome.Ready? <==> up >= CALLS - 1)
      ensures outcome.Ready? ==> session.links.key == key && (handler ==> Connected in session.callbacks)
    {
      assert NextStage(KeyExchanging) == OpeningEvents;
      Attempt(p, session, KeyExchanging, key, up > 0, handler, w, from);
      if up == 0 {
        return Broken;
      }
      outcome := GoOnWithKey(p, session, key, up - 1, handler, w, from);
    }

    /** The key stays what the exchange has yielded. */
    method GoOnWithKey(p: Pid, session: PeerSession, key: bytes, up: nat, handler: bool, w: World, ghost from: State)
      returns (outcome: Outcome)
      requires Valid() && At(p, session, Establishing(session.sid, OpeningEvents)) && |key| == KEY_SIZE
      requires Leads(from, now) && Leads(INITIAL, from) && Known(from, session.sid) && session.links.key == key
      modifies this, sessionRepo, heap
      ensures Valid() && Leads(from, now) && session in heap && old(heap) <= heap && fresh(heap - old(heap))
      ensures Ended(p, session, outcome) && (outcome.Ready? <==> up >= CALLS - 2)
      ensures outcome.Ready? ==> session.links.key == key && (handler ==> Connected in session.callbacks)
    {
      ghost var s := now;
      Snapshot(s, session);
      outcome := InitEventStream(p, session, key, up, handler, w, s);
      KeptSince(s, session);
      LeadsTrans(from, s, now);
    }

    /** initEventStream, up to the secure stream; nothing fails after it. */
    method InitEventStream(p: Pid, session: PeerSession, key: bytes, up: nat, handler: bool, w: World,
                           ghost from: State)
      returns (outcome: Outcome)
      requires Valid() && At(p, session, Establishing(session.sid, OpeningEvents)) && |key| == KEY_SIZE
      requires Leads(from, now) && Leads(INITIAL, from) && Known(from, session.sid)
      modifies this, sessionRepo, heap
      ensures Valid() && Leads(from, now) && session in heap && old(heap) <= heap && fresh(heap - old(heap))
      ensures Ended(p, session, outcome) && (outcome.Ready? <==> up >= CALLS - 2)
      ensures outcome.Ready? && handler ==> Connected in session.callbacks
    {
      assert NextStage(OpeningEvents) == SettingStream;
      Attempt(p, session, OpeningEvents, key, up > 0, handler, w, from);
      if up == 0 {
        return Broken;
      }
      outcome := SetEventStream(p, session, key, handler, w, from);
    }

    /** session.EventStream. */
    method SetEventStream(p: Pid, session: PeerSession, key: bytes, handler: bool, w: World, ghost from: State)
      returns (outcome: Outcome)
      requires Valid() && At(p, session, Establishing(session.sid, SettingStream)) && |key| == KEY_SIZE
      requires Leads(from, now) && Leads(INITIAL, from) && Known(from, session.sid)
      modifies this, sessionRepo, heap
      ensures Valid() && Leads(from, now) && session in heap && old(heap) <= heap && fresh(heap - old(heap))
      ensures Ended(p, session, outcome) && outcome.Ready?
      ensures handler ==> Connected in session.callbacks
    {
      assert NextStage(SettingStream) == SettingDecoder;
      EstablishThenOthers(p, session, SettingStream, key, handler, w.others(2), from);
      outcome := SetDecoder(p, session, key, handler, w, from);
    }

    /** session.EventDecoder. */
    method SetDecoder(p: Pid, session: PeerSession, key: bytes, handler: bool, w: World, ghost from: State)
      returns (outcome: Outcome)
      requires Valid() && At(p, session, Establishing(session.sid, SettingDecoder)) && |key| == KEY_SIZE
      requires Leads(from, now) && Leads(INITIAL, from) && Known(from, session.sid)
      modifies this, sessionRepo, heap
      ensures Valid() && Leads(from, now) && session in heap && old(heap) <= heap && fresh(heap - old(heap))
      ensures Ended(p, session, outcome) && outcome.Ready?
      ensures handler ==> Connected in session.callbacks
    {
      assert NextStage(SettingDecoder) == SettingEncoder;
      EstablishThenOthers(p, session, SettingDecoder, key, handler, w.others(3), from);
      outcome := SetEncoder(p, session, key, handler, w, from);
    }

    /** session.EventEncoder. */
    method SetEncoder(p: Pid, session: PeerSession, key: bytes, handler: bool, w: World, ghost from: State)
      returns (outcome: Outcome)
      requires Valid() && At(p, session, Establishing(session.sid, SettingEncoder)) && |key| == KEY_SIZE
      requires Leads(from, now) && Leads(INITIAL, from) && Known(from, session.sid)
      modifies this, sessionRepo, heap
      ensures Valid() && Leads(from, now) && session in heap && old(heap) <= heap && fresh(heap - old(heap))
      ensures Ended(p, session, outcome) && outcome.Ready?
      ensures handler ==> Connected in session.callbacks
    {
      assert NextStage(SettingEncoder) == Announcing;
      EstablishThenOthers(p, session, SettingEncoder, key, handler, w.others(4), from);
      outcome := Announce(p, session, key, handler, w, from);
    }

    /** The user's handler. */
    method Announce(p: Pid, session: PeerSession, key: bytes, handler: bool, w: World, ghost from: State)
      returns (outcome: Outcome)
      requires Valid() && At(p, session, Establishing(session.sid, Announcing)) && |key| == KEY_SIZE
      requires Leads(from, now) && Leads(INITIAL, from) && Known(from, session.sid)
      modifies this, sessionRepo, heap
      ensures Valid() && Leads(from, now) && session in heap && old(heap) <= heap && fresh(heap - old(heap))
      ensures Ended(p, session, outcome) && outcome.Ready?
      ensures handler ==> Connected in session.callbacks
    {
      assert NextStage(Announcing) == Launching;
      EstablishThenOthers(p, session, Announcing, key, handler, w.others(5), from);
      outcome := FinishTold(p, session, key, handler, w, from);
    }

    /** What has been announced stays so to the end. */
    method FinishTold(p: Pid, session: PeerSession, key: bytes, handler: bool, w: World, ghost from: State)
      returns (outcome: Outcome)
      requires Valid() && At(p, session, Establishing(session.sid, Launching)) && |key| == KEY_SIZE
      requires Leads(from, now) && Leads(INITIAL, from) && Known(from, session.sid)
      modifies this, sessionRepo, heap
      ensures Valid() && Leads(from, now) && session in heap && old(heap) <= heap && fresh(heap - old(heap))
      ensures Ended(p, session, outcome) && outcome.Ready?
      ensures Connected in old(session.callbacks) ==> Connected in session.callbacks
    {
      ghost var s := now;
      Snapshot(s, session);
      outcome := Finish(p, session, key, handler, w, s);
      KeptSince(s, session);
      LeadsTrans(from, s, now);
    }

    /** go handleConnection; close(session.ReadyChan). */
    method Finish(p: Pid, session: PeerSession, key: bytes, handler: bool, w: World, ghost from: State)
      returns (outcome: Outcome)
      requires Valid() && At(p, session, Establishing(session.sid, Launching)) && |key| == KEY_SIZE
      requires Leads(from, now) && Leads(INITIAL, from) && Known(from, session.sid)
      modifies this, sessionRepo, heap
      ensures Valid() && Leads(from, now) && session in heap && old(heap) <= heap && fresh(heap - old(heap))
      ensures Ended(p, session, outcome) && outcome.Ready?
    {
      assert NextStage(Launching) == ClosingReady;
      EstablishThenOthers(p, session, Launching, key, handler, w.others(6), from);
      ghost var s := now;
      EstablishStatement(p, session, ClosingReady, key, handler);
      LeadsTrans(from, s, now);
      outcome := Ready;
    }

    // -------------------------------------------------------------------------------------------
    // createSession, createAndEstablish

    /** The literal of the session object. */
    method NewObject(p: Pid, uid: Uid, initiator: bool, why: Purpose) returns (session: PeerSession)
      requires Valid() && Standing(p) == Some(Creating(uid, initiator, why))
      modifies this
      ensures Valid() && Leads(old(now), now) && fresh(session) && heap == old(heap) + {session}
      ensures session.View() == NewSession(uid, initiator, p) && At(p, session, Made(session.sid, why))
    {
      assert Unfolds(0);
      NoPanic(now);
      session := new PeerSession(|objects|, uid, initiator, p);
      objects, heap := objects + [session], heap + {session};
      runtime := MovedOn(runtime, p, Some(Made(session.sid, why)), {});
      assert Views() == now.store.sessions + [NewSession(uid, initiator, p)];
      Executed(CreateStep(p, Allocate));
    }

    method File(session: PeerSession)
      requires Shape() && session in heap && session.userId !in sessionRepo.entries
      modifies sessionRepo
      ensures Shape() && Repo() == old(Repo())[session.userId := session.sid]
      ensures sessionRepo.entries == old(sessionRepo.entries)[session.userId := session]
    {
      var err := sessionRepo.Add(false, session.userId, session);
    }

    /** sessionRepo.Add succeeds: the id was free. */
    method FileSession(p: Pid, session: PeerSession, why: Purpose)
      requires Valid() && At(p, session, Made(session.sid, why)) && session.userId !in sessionRepo.entries
      modifies this, sessionRepo
      ensures Valid() && Leads(old(now), now) && heap == old(heap)
      ensures At(p, session, Won(session.sid, why)) && session.sid in runtime.added
      ensures sessionRepo.entries == old(sessionRepo.entries)[session.userId := session]
    {
      assert Unfolds(0);
      AddMoves(now, p, session.sid, session.userId);
      File(session);
      runtime := MovedOn(runtime, p, Some(Won(session.sid, why)), {}).(added := runtime.added + {session.sid});
      Refiled(CreateApply(now, p, Add(false)), CreateStep(p, Add(false)));
    }

    /** createSession gives up: the caller goes on without a session. */
    method CreationFails(p: Pid, uid: Uid, why: Purpose, act: CreateAct)
      requires Valid() && CanCreate(now, p, act)
      requires CreateApply(now, p, act) == Unlucky(now, p, uid, why)
      modifies this, sessionRepo, heap
      ensures Valid() && Leads(old(now), now) && old(heap) <= heap && fresh(heap - old(heap))
      ensures Standing(p) == UnluckyProc(uid, why) && sessionRepo.entries.Keys == old(sessionRepo.entries).Keys
    {
      assert Unfolds(0);
      NoPanic(now);
      ghost var s := now;
      assert sessionRepo.entries.Keys == s.store.repo.Keys;
      UnluckyShape(s, p, uid, why);
      Do(CreateStep(p, act));
      LeadsRefl(s);
      LeadsSnoc(s, s, CreateStep(p, act));
    }

    /** go establishConnection. */
    method Launched(p: Pid, session: PeerSession, why: Purpose)
      requires Valid() && At(p, session, Won(session.sid, why))
      modifies this, sessionRepo, heap
      ensures Valid() && Leads(old(now), now) && old(heap) <= heap && fresh(heap - old(heap))
      ensures At(p, session, LuckyProc(session.sid, why)) && runtime.added == old(runtime).added
      ensures Standing(old(runtime).next) == Some(Establishing(session.sid, AwaitCreds))
    {
      assert Unfolds(0);
      ghost var s := now;
      LaunchMoves(s, p, session.sid);
      Do(CreateStep(p, Launch));
      LeadsRefl(s);
      LeadsSnoc(s, s, CreateStep(p, Launch));
    }

    /** The object is dropped, before Add or by it. */
    method DropObject(p: Pid, session: PeerSession, why: Purpose, act: CreateAct)
      requires Valid() && At(p, session, Made(session.sid, why))
      requires act.GiveUp? || (act.Add? && (act.timedOut || session.userId in sessionRepo.entries))
      modifies this, sessionRepo, heap
      ensures Valid() && Leads(old(now), now) && old(heap) <= heap && fresh(heap - old(heap))
      ensures Standing(p) == UnluckyProc(session.userId, why)
      ensures sessionRepo.entries.Keys == old(sessionRepo.entries).Keys
    {
      assert Unfolds(0);
      assert now.store.sessions[session.sid].userId == session.userId;
      CreationFails(p, session.userId, why, act);
    }

    /** createSession, on a fresh object, up to sessionRepo.Add. */
    method FileOrDrop(p: Pid, session: PeerSession, why: Purpose, plan: Plan, w: World, ghost from: State)
      returns (ok: bool)
      requires Valid() && At(p, session, Made(session.sid, why)) && Leads(from, now)
      modifies this, sessionRepo, heap
      ensures Valid() && Leads(from, now) && session in heap && old(heap) <= heap && fresh(heap - old(heap))
      ensures if ok then At(p, session, Won(session.sid, why)) && session.sid in runtime.added
              else Standing(p) == UnluckyProc(session.userId, why)
      ensures !ok ==> PlanFails(plan) || session.userId in sessionRepo.entries
    {
      if !plan.offered {
        DropObject(p, session, why, CreateAct.GiveUp);
        LeadsTrans(from, old(now), now);
        return false;
      }
      Interfere(p, w.others(1));
      LeadsTrans(from, old(now), now);
      ghost var s := now;
      if plan.done || session.userId in sessionRepo.entries {
        DropObject(p, session, why, Add(plan.done));
        ok := false;
      } else {
        FileSession(p, session, why);
        ok := true;
      }
      LeadsTrans(from, s, now);
    }

    /** createSession as a whole: a new object that won the insertion, or nothing. */
    method CreateSession(p: Pid, uid: Uid, initiator: bool, why: Purpose, plan: Plan, w: World, ghost from: State)
      returns (session: PeerSession?)
      requires Valid() && Standing(p) == Some(Creating(uid, initiator, why)) && Leads(from, now)
      modifies this, sessionRepo, heap
      ensures Valid() && Leads(from, now) && old(heap) <= heap && fresh(heap - old(heap))
      ensures if session == null then Standing(p) == UnluckyProc(uid, why)
              else fresh(session) && session.userId == uid && session.initiator == initiator
                   && At(p, session, Won(session.sid, why)) && session.sid in runtime.added
      ensures session == null ==> PlanFails(plan) || uid in sessionRepo.entries
    {
      ghost var s := now;
      if !plan.signalled {
        assert Unfolds(0);
        CreationFails(p, uid, why, CreateAct.GiveUp);
        LeadsTrans(from, s, now);
        return null;
      }
      var made := NewObject(p, uid, initiator, why);
      LeadsTrans(from, s, now);
      OfUser(made, uid, initiator, p);
      var ok := FileOrDrop(p, made, why, plan, w, from);
      session := if ok then made else null;
    }

    lemma OfUser(session: PeerSession, uid: Uid, initiator: bool, p: Pid)
      requires session.View() == NewSession(uid, initiator, p)
      ensures session.userId == uid && session.initiator == initiator
    {
    }

    /** createAndEstablish: a session, if any, was filed under its user's id before its goroutine was started. */
    method CreateAndEstablish(p: Pid, uid: Uid, initiator: bool, why: Purpose, plan: Plan, w: World, ghost from: State)
      returns (session: PeerSession?)
      requires Valid() && Standing(p) == Some(Creating(uid, initiator, why)) && Leads(from, now)
      modifies this, sessionRepo, heap
      ensures Valid() && Leads(from, now) && old(heap) <= heap && fresh(heap - old(heap))
      ensures if session == null then Standing(p) == UnluckyProc(uid, why)
              else fresh(session) && session.userId == uid && session.initiator == initiator
                   && At(p, session, LuckyProc(session.sid, why)) && session.sid in runtime.added
      ensures session == null ==> PlanFails(plan) || uid in sessionRepo.entries
    {
      session := CreateSession(p, uid, initiator, why, plan, w, from);
      if session != null {
        ghost var s := now;
        Launched(p, session, why);
        LeadsTrans(from, s, now);
      }
    }

    // -------------------------------------------------------------------------------------------
    // receiveConnects, getSession

    method Others(p: Pid, steps: seq<Step>, ghost from: State)
      requires Valid() && p in runtime.procs && Leads(from, now)
      modifies this, sessionRepo, heap
      ensures Valid() && Leads(from, now) && old(heap) <= heap && fresh(heap - old(heap))
      ensures Standing(p) == old(Standing(p))
    {
      Interfere(p, steps);
      LeadsTrans(from, old(now), now);
    }

    /** A message handler goes on as `next`, the calls of the singleflight are now `calls`; no session is written. */
    method Move(p: Pid, act: MsgAct, next: Option<Proc>, calls: Flights, ghost from: State)
      requires Valid() && CanHandle(now, p, act) && !act.Offer? && (act.Install? ==> !act.ok) && Leads(from, now)
      requires next == MsgNext(now, p, act) && calls == FlightsNext(now, p, act)
      modifies this
      ensures Valid() && Leads(from, now) && heap == old(heap)
      ensures Standing(p) == next && now.store == old(now).store && runtime.next == old(runtime).next
      ensures runtime.messages == old(runtime).messages && now.flights == sdpsGroup == calls
    {
      assert Unfolds(0);
      NoPanic(now);
      HandlesWhole(now, p, act);
      LeadsSnoc(from, now, MsgStep(p, act));
      runtime, sdpsGroup := MovedOn(runtime, p, next, {}), calls;
      Refiled(MsgApply(now, p, act), MsgStep(p, act));
    }

    /** singleflight's Do: this goroutine leads the call of its sender, or waits for the one that does. */
    method Join(p: Pid, msg: Msg, ghost from: State) returns (leads: bool)
      requires Valid() && Standing(p) == Some(Arrived(msg)) && Leads(from, now)
      modifies this
      ensures Valid() && Leads(from, now) && heap == old(heap)
      ensures leads == (msg.sender !in old(sdpsGroup).current)
      ensures Standing(p).Some?
      ensures (if leads then IsLeading(Standing(p).value, msg) else IsFollowing(Standing(p).value, msg))
    {
      assert Unfolds(0);
      leads := msg.sender !in sdpsGroup.current;
      if leads {
        var fid := |sdpsGroup.all|;
        Move(p, MsgAct.Join, Some(Leading(fid, msg)),
             Flights(sdpsGroup.current[msg.sender := fid], sdpsGroup.all + [Flight(msg.sender, p, None)]), from);
      } else {
        Move(p, MsgAct.Join, Some(Following(sdpsGroup.current[msg.sender], msg)), sdpsGroup, from);
      }
    }

    /** sessionRepo.Get; `failed` is an error before it, or its timeout. */
    method LookFor(p: Pid, msg: Msg, failed: bool, fid: Fid, ghost from: State)
      requires Valid() && Standing(p) == Some(Leading(fid, msg)) && Leads(from, now)
      modifies this
      ensures Valid() && Leads(from, now) && heap == old(heap)
      ensures Standing(p) == Some(if failed then Publishing(fid, None, msg)
                                  else if msg.sender in sessionRepo.entries
                                  then Publishing(fid, Some(sessionRepo.entries[msg.sender].sid), msg)
                                  else Creating(msg.sender, false, ForFlight(fid, msg)))
    {
      assert Unfolds(0);
      LeadersHaveCalls(now, p);
      var session, err := sessionRepo.Get(failed, msg.sender);
      if err.None? {
        Move(p, LookUp(failed), Some(Publishing(fid, Some(session.sid), msg)), sdpsGroup, from);
      } else if Errors.Is(err.value, Base(NotFound)) {
        Move(p, LookUp(failed), Some(Creating(msg.sender, false, ForFlight(fid, msg))), sdpsGroup, from);
      } else {
        Move(p, LookUp(failed), Some(Publishing(fid, None, msg)), sdpsGroup, from);
      }
    }

    /** getSession in the leader: what is in the repository, or a new session. */
    method GetSession(p: Pid, msg: Msg, failed: bool, plan: Plan, w: World, ghost from: State)
      requires Valid() && Standing(p).Some? && IsLeading(Standing(p).value, msg) && Leads(from, now)
      modifies this, sessionRepo, heap
      ensures Valid() && Leads(from, now) && old(heap) <= heap && fresh(heap - old(heap))
      ensures Standing(p).Some? && IsPublishing(Standing(p).value, msg)
      ensures Standing(p).value.found.None? ==> failed || PlanFails(plan) || msg.sender in sessionRepo.entries
    {
      var fid := Standing(p).value.fid;
      LookFor(p, msg, failed, fid, from);
      Others(p, w.others(0), from);
      if Standing(p).value.Creating? {
        var session := CreateAndEstablish(p, msg.sender, false, ForFlight(fid, msg), plan, w, from);
      }
    }

    /** The result goes to everybody who waited. */
    method Publish(p: Pid, msg: Msg, ghost from: State) returns (session: PeerSession?)
      requires Valid() && Standing(p).Some? && IsPublishing(Standing(p).value, msg) && Leads(from, now)
      modifies this, sessionRepo, heap
      ensures Valid() && Leads(from, now) && old(heap) <= heap && fresh(heap - old(heap))
      ensures Found(p, msg, session) && Shared(now, msg.sender, SidOf(session))
      ensures session == null <==> old(Standing(p)).value.found.None?
    {
      assert Unfolds(0);
      LeadersHaveCalls(now, p);
      var fid, found := Standing(p).value.fid, Standing(p).value.found;
      var calls := Flights(sdpsGroup.current - {msg.sender},
                           sdpsGroup.all[fid := sdpsGroup.all[fid].(result := Some(found))]);
      Move(p, MsgAct.Publish, if found.Some? then Some(Handling(found.value, msg)) else None, calls, from);
      session := Pick(p, msg);
      assert now.flights.all[fid].result == Some(SidOf(session));
    }

    /** The session this goroutine was handed, if any. */
    ghost predicate Found(p: Pid, msg: Msg, session: PeerSession?)
      reads this`runtime, this`heap
    {
      if session == null then p !in runtime.procs
      else session in heap && session.userId == msg.sender && At(p, session, Handling(session.sid, msg))
    }

    function SidOf(session: PeerSession?): Option<Sid> {
      if session == null then None else Some(session.sid)
    }

    method Pick(p: Pid, msg: Msg) returns (session: PeerSession?)
      requires Valid() && (Standing(p).Some? ==> Standing(p).value.Handling? && Standing(p).value.msg == msg)
      ensures Found(p, msg, session)
      ensures SidOf(session) == if Standing(p).Some? then Some(Standing(p).value.sid) else None
    {
      assert Unfolds(0);
      if Standing(p).None? {
        return null;
      }
      HandlersHaveSessions(now, p);
      session := objects[Standing(p).value.sid];
      assert session.View() == now.store.sessions[session.sid];
    }

    /** A follower waits for the leader; `w.patience` is how long it is watched. */
    method Follow(p: Pid, msg: Msg, w: World, ghost from: State) returns (session: PeerSession?, told: bool)
      requires Valid() && Standing(p).Some? && IsFollowing(Standing(p).value, msg) && Leads(from, now)
      modifies this, sessionRepo, heap
      ensures Valid() && Leads(from, now) && old(heap) <= heap && fresh(heap - old(heap))
      ensures if told then Found(p, msg, session) && Shared(now, msg.sender, SidOf(session))
              else !Told(p) && Standing(p).Some? && IsFollowing(Standing(p).value, msg)
    {
      var turn := 0;
      while turn < w.patience && !Told(p)
        invariant Valid() && Leads(from, now) && old(heap) <= heap && fresh(heap - old(heap))
        invariant Standing(p).Some? && IsFollowing(Standing(p).value, msg)
      {
        ghost var s := now;
        Interfere(p, w.others(turn));
        LeadsTrans(from, s, now);
        turn := turn + 1;
      }
      told := Told(p);
      session := null;
      if told {
        session := TakeResult(p, msg, from);
      }
    }

    /** singleflight's Do returns in a follower. */
    method TakeResult(p: Pid, msg: Msg, ghost from: State) returns (session: PeerSession?)
      requires Valid() && Told(p) && IsFollowing(Standing(p).value, msg) && Leads(from, now)
      modifies this
      ensures Valid() && Leads(from, now) && heap == old(heap)
      ensures Found(p, msg, session) && Shared(now, msg.sender, SidOf(session))
    {
      assert Unfolds(0);
      FollowersHaveCalls(now, p);
      var fid := Standing(p).value.fid;
      var found := sdpsGroup.all[fid].result.value;
      Move(p, MsgAct.Follow, if found.Some? then Some(Handling(found.value, msg)) else None, sdpsGroup, from);
      session := Pick(p, msg);
      assert now.flights.all[fid].result == Some(SidOf(session));
    }

    predicate Told(p: Pid)
      reads this`runtime, this`sdpsGroup
    {
      Standing(p).Some? && Standing(p).value.Following? && Standing(p).value.fid < |sdpsGroup.all|
      && sdpsGroup.all[Standing(p).value.fid].result.Some?
    }

    /** At some moment since `from` the user had a session in the repository. */
    ghost predicate WasFiled(from: State, u: Uid)
      reads this`now
    {
      exists t :: Leads(from, t) && Leads(t, now) && u in t.store.repo
    }

    /** Why a lookup ends without a session. */
    ghost predicate LookupFails(from: State, u: Uid, failed: bool, plan: Plan)
      reads this`now
    {
      failed || PlanFails(plan) || WasFiled(from, u)
    }

    /**
     * sdpsGroup.Do(sender, getSession): every caller that is told is told of a session of its own sender, the one the
     * lookup ended with. With no lookup of the sender under way the caller leads one, and is told of a session unless
     * a call failed or another goroutine was faster to file one.
     */
    method SharedGetSession(p: Pid, msg: Msg, failed: bool, plan: Plan, w: World, ghost from: State)
      returns (session: PeerSession?, told: bool)
      requires Valid() && Standing(p) == Some(Arrived(msg)) && Leads(from, now)
      modifies this, sessionRepo, heap
      ensures Valid() && Leads(from, now) && old(heap) <= heap && fresh(heap - old(heap))
      ensures if told then Found(p, msg, session) && Shared(now, msg.sender, SidOf(session))
              else !Told(p) && Standing(p).Some? && IsFollowing(Standing(p).value, msg)
      ensures msg.sender !in old(sdpsGroup).current ==>
        told && (session == null ==> LookupFails(from, msg.sender, failed, plan))
    {
      var leads := Join(p, msg, from);
      if leads {
        session := Lead(p, msg, failed, plan, w, from);
        told := true;
      } else {
        session, told := Follow(p, msg, w, from);
      }
    }

    method Lead(p: Pid, msg: Msg, failed: bool, plan: Plan, w: World, ghost from: State) returns (session: PeerSession?)
      requires Valid() && Standing(p).Some? && IsLeading(Standing(p).value, msg) && Leads(from, now)
      modifies this, sessionRepo, heap
      ensures Valid() && Leads(from, now) && old(heap) <= heap && fresh(heap - old(heap))
      ensures Found(p, msg, session) && Shared(now, msg.sender, SidOf(session))
      ensures session == null ==> LookupFails(from, msg.sender, failed, plan)
    {
      Others(p, w.others(2), from);
      GetSession(p, msg, failed, plan, w, from);
      ghost var s := now;
      FiledIn(s, msg.sender);
      Others(p, w.others(3), s);
      session := Publish(p, msg, s);
      LeadsTrans(from, s, now);
    }

    lemma FiledIn(s: State, u: Uid)
      requires Valid() && s == now
      ensures Leads(s, s) && (u in sessionRepo.entries <==> u in s.store.repo)
    {
      assert Unfolds(0);
      LeadsRefl(s);
    }

    /** session.Agent.SetRemoteCredentials. */
    method SetRemote(p: Pid, session: PeerSession, msg: Msg)
      requires Valid() && At(p, session, Installing(session.sid, msg)) && msg.content.NewCreds?
      modifies this, session
      ensures Valid() && Leads(old(now), now) && heap == old(heap) && At(p, session, Offering(session.sid))
      ensures session.View() == old(session.View()).(remote := Some(msg.content.creds))
    {
      assert Unfolds(0);
      NoPanic(now);
      session.remote := Some(msg.content.creds);
      runtime := MovedOn(runtime, p, Some(Offering(session.sid)), {});
      Completed(MsgApply(now, p, Install(true)), MsgStep(p, Install(true)), session, session.View());
    }

    /** `select { case session.CredsChan <- struct{}{}: default: }` */
    method OfferToken(p: Pid, session: PeerSession)
      requires Valid() && At(p, session, Offering(session.sid))
      modifies this, session
      ensures Valid() && Leads(old(now), now) && heap == old(heap) && session in heap && p !in runtime.procs
      ensures session.credsChan.CanRecv() && session.remote == old(session.remote)
    {
      assert Unfolds(0);
      OfferMoves(now, p, session.sid);
      if session.credsChan.CanSend() {
        session.credsChan := session.credsChan.Send(());
      }
      runtime := MovedOn(runtime, p, None, {});
      Completed(MsgApply(now, p, Offer), MsgStep(p, Offer), session, session.View());
    }

    /** The credentials, then the token, both to this session. */
    method InstallCredentials(p: Pid, session: PeerSession, msg: Msg, w: World, ghost from: State)
      requires Valid() && At(p, session, Installing(session.sid, msg)) && msg.content.NewCreds? && Leads(from, now)
      modifies this, sessionRepo, heap
      ensures Valid() && Leads(from, now) && old(heap) <= heap && fresh(heap - old(heap))
      ensures session in heap && p !in runtime.procs && session.credsChan.CanRecv() && session.remote.Some?
      ensures Installed(from, now, session, msg.content.creds)
    {
      SetRemote(p, session, msg);
      LeadsTrans(from, old(now), now);
      ghost var t := now;
      RemoteIs(t, session, msg.content.creds);
      Others(p, w.others(4), t);
      LeadsTrans(from, t, now);
      ghost var s := now;
      OfferersHaveRemotes(p, session);
      OfferToken(p, session);
      LeadsTrans(from, s, now);
      LeadsTrans(t, s, now);
    }

    lemma RemoteIs(t: State, session: PeerSession, creds: Credentials)
      requires Valid() && t == now && session in heap && session.remote == Some(creds)
      ensures Leads(t, t) && Known(t, session.sid) && t.store.sessions[session.sid].remote == Some(creds)
    {
      assert Unfolds(0);
      LeadsRefl(t);
      assert t.store.sessions[session.sid] == session.View();
    }

    lemma OfferersHaveRemotes(p: Pid, session: PeerSession)
      requires Valid() && At(p, session, Offering(session.sid))
      ensures session.remote.Some?
    {
      assert Unfolds(0);
      ReachableInv(now);
      assert ProcOk(p, now.procs[p], now.store, now.messages);
      assert now.store.sessions[session.sid] == session.View();
    }

    /** The session was connected before: it is reset, and a new one takes its place. */
    method Replace(p: Pid, session: PeerSession, msg: Msg, plan: Plan, w: World, ghost from: State)
      returns (replacement: PeerSession?)
      requires Valid() && At(p, session, Resetting(session.sid, ResetStream, ThenReplace(msg))) && Leads(from, now)
      requires session.sid in runtime.added
      modifies this, sessionRepo, heap
      ensures Valid() && Leads(from, now) && old(heap) <= heap && fresh(heap - old(heap))
      ensures session in heap && session.sid in runtime.removed
      ensures if replacement == null then p !in runtime.procs
              else fresh(replacement) && replacement.userId == msg.sender
                   && At(p, replacement, Installing(replacement.sid, msg))
      ensures replacement == null ==> PlanFails(plan) || msg.sender in sessionRepo.entries
    {
      ResetForReplacement(p, session, msg, w, from);
      ghost var s := now;
      LeadsRefl(s);
      replacement := CreateAndEstablish(p, msg.sender, false, ForReplace(msg), plan, w, s);
      LeadsTrans(from, s, now);
      StaysRemoved(s, session);
    }

    lemma AddedStays(p: Pid, session: PeerSession)
      requires Valid() && session in heap && session.sid in now.store.added
      ensures session.sid in runtime.added
    {
      assert Unfolds(0);
    }

    lemma StaysRemoved(s: State, session: PeerSession)
      requires Valid() && Leads(INITIAL, s) && Leads(s, now) && Known(s, session.sid) && session.sid in s.store.removed
      ensures session.sid in runtime.removed
    {
      assert Unfolds(0);
      KeptAlong(s, now, session.sid);
    }

    method ResetForReplacement(p: Pid, session: PeerSession, msg: Msg, w: World, ghost from: State)
      requires Valid() && At(p, session, Resetting(session.sid, ResetStream, ThenReplace(msg))) && Leads(from, now)
      requires session.sid in runtime.added
      modifies this, sessionRepo, heap
      ensures Valid() && Leads(from, now) && old(heap) <= heap && fresh(heap - old(heap))
      ensures session in heap && now.store.removed == runtime.removed && Leads(INITIAL, now)
      ensures session.sid in runtime.removed
      ensures Standing(p) == Some(Creating(msg.sender, false, ForReplace(msg))) && Known(now, session.sid)
    {
      assert Unfolds(0);
      ghost var s := now;
      LeadsRefl(s);
      ResetSession(p, session, ThenReplace(msg), w.others, s);
      LeadsTrans(from, s, now);
      assert Unfolds(0);
    }

    method ReplaceConnected(p: Pid, session: PeerSession, msg: Msg, plan: Plan, w: World, ghost from: State)
      returns (replacement: PeerSession?)
      requires Valid() && At(p, session, Handling(session.sid, msg)) && session.userId == msg.sender && Leads(from, now)
      requires session.links.conn && msg.content.NewCreds?
      modifies this, sessionRepo, heap
      ensures Valid() && Leads(from, now) && old(heap) <= heap && fresh(heap - old(heap))
      ensures if replacement == null then p !in runtime.procs
              else fresh(replacement) && replacement.userId == msg.sender
                   && At(p, replacement, Installing(replacement.sid, msg))
      ensures replacement == null ==> PlanFails(plan) || msg.sender in sessionRepo.entries
    {
      HandlerSees(p, session, msg);
      Move(p, Handle, Some(Resetting(session.sid, ResetStream, ThenReplace(msg))), sdpsGroup, from);
      AddedStays(p, session);
      replacement := Replace(p, session, msg, plan, w, from);
    }

    lemma HandlerSees(p: Pid, session: PeerSession, msg: Msg)
      requires Valid() && At(p, session, Handling(session.sid, msg))
      ensures Leads(INITIAL, now) && now == Now() && CanHandle(now, p, Handle)
      ensures now.procs[p] == Handling(session.sid, msg)
      ensures now.store.sessions[session.sid] == session.View() && session.sid in now.store.added
    {
      assert Unfolds(0);
      HandlersHaveSessions(now, p);
    }

    /** The session whose agent gets the credentials: the one found, or its replacement if it was connected. */
    method TargetOf(p: Pid, session: PeerSession, msg: Msg, plan: Plan, w: World, ghost from: State)
      returns (target: PeerSession?)
      requires Valid() && At(p, session, Handling(session.sid, msg)) && session.userId == msg.sender && Leads(from, now)
      modifies this, sessionRepo, heap
      ensures Valid() && Leads(from, now) && old(heap) <= heap && fresh(heap - old(heap))
      ensures if target == null then p !in runtime.procs
              else target.userId == msg.sender && At(p, target, Installing(target.sid, msg)) && msg.content.NewCreds?
      ensures !old(session.links.conn) ==> target == if msg.content.NewCreds? then session else null
      ensures old(session.links.conn) && target != null ==> fresh(target)
      ensures target == null && msg.content.NewCreds? ==> PlanFails(plan) || msg.sender in sessionRepo.entries
    {
      HandlerSees(p, session, msg);
      target := session;
      if msg.content.NewCandidate? {
        Move(p, Handle, None, sdpsGroup, from);
        target := null;
      } else if session.links.conn {
        target := ReplaceConnected(p, session, msg, plan, w, from);
      } else {
        Move(p, Handle, Some(Installing(session.sid, msg)), sdpsGroup, from);
      }
    }

    /** What follows getSession in receiveConnects. */
    method ProcessMessage(p: Pid, session: PeerSession, msg: Msg, accepted: bool, plan: Plan, w: World,
                          ghost from: State)
      returns (installed: PeerSession?)
      requires Valid() && At(p, session, Handling(session.sid, msg)) && session.userId == msg.sender && Leads(from, now)
      modifies this, sessionRepo, heap
      ensures Valid() && Leads(from, now) && old(heap) <= heap && fresh(heap - old(heap))
      ensures p !in runtime.procs && Equipped(installed, msg.sender)
      ensures accepted && msg.content.NewCreds? && !old(session.links.conn) ==> installed == session
      ensures accepted && msg.content.NewCreds? && installed == null ==>
        PlanFails(plan) || msg.sender in sessionRepo.entries
      ensures installed != null ==> accepted && msg.content.NewCreds?
      ensures installed != null ==> Installed(from, now, installed, msg.content.creds)
      ensures installed != null && old(session.links.conn) ==> fresh(installed)
    {
      installed := TargetOf(p, session, msg, plan, w, from);
      if installed != null {
        installed := InstallOrDrop(p, installed, msg, accepted, w, from);
      }
    }

    method InstallOrDrop(p: Pid, target: PeerSession, msg: Msg, accepted: bool, w: World, ghost from: State)
      returns (installed: PeerSession?)
      requires Valid() && At(p, target, Installing(target.sid, msg)) && msg.content.NewCreds?
      requires target.userId == msg.sender
      requires Leads(from, now)
      modifies this, sessionRepo, heap
      ensures Valid() && Leads(from, now) && old(heap) <= heap && fresh(heap - old(heap))
      ensures p !in runtime.procs && Equipped(installed, msg.sender) && installed == if accepted then target else null
      ensures installed != null ==> Installed(from, now, installed, msg.content.creds)
    {
      if accepted {
        InstallCredentials(p, target, msg, w, from);
        installed := target;
      } else {
        assert Unfolds(0);
        Move(p, Install(false), None, sdpsGroup, from);
        installed := null;
      }
    }

    /** Credentials and token went to the same session, one of the sender's. */
    ghost predicate Equipped(installed: PeerSession?, sender: Uid)
      reads this`heap, installed
    {
      installed != null ==>
        installed in heap && installed.userId == sender && installed.remote.Some? && installed.credsChan.CanRecv()
    }

    /** The session was there at that moment. */
    ghost predicate Met(from: State, seen: State, i: Sid)
      reads this`now
    {
      Leads(from, seen) && Leads(seen, now) && Known(seen, i)
    }

    /**
     * receiveConnects, for one message. Payloads too short are dropped before anything happens. `found` is the session
     * its lookup ended with, `seen` the state in which it was handed that session: without a connection it is the one
     * whose agent gets accepted credentials, otherwise a replacement is.
     */
    method HandleSdp(sender: Uid, payload: bytes, failed: bool, accepted: bool, plan: Plan, w: World)
      returns (installed: PeerSession?, finished: bool, found: PeerSession?, ghost seen: State)
      requires Valid()
      modifies this, sessionRepo, heap
      ensures Valid() && Leads(old(now), now) && old(heap) <= heap && fresh(heap - old(heap))
      ensures |payload| < 2 ==> finished && now == old(now) && installed == null
      ensures |payload| >= 2 ==> Heard(sender, payload)
      ensures forall creds :: Spells(payload, creds) ==> Msg(sender, NewCreds(creds)) in runtime.messages
      ensures installed != null ==> exists creds :: Spells(payload, creds) && Installed(seen, now, installed, creds)
      ensures |payload| >= 2 && finished ==> old(runtime).next !in runtime.procs && old(runtime).next < runtime.next
      ensures !finished ==> Standing(old(runtime).next).Some? && Standing(old(runtime).next).value.Following?
      ensures !finished ==> !Told(old(runtime).next)
      ensures installed != null ==> payload[0] == CREDS && SPACE in payload[1..]
      ensures finished ==> Equipped(installed, sender)
      ensures |payload| >= 2 && finished ==> Shared(now, sender, SidOf(found))
      ensures |payload| >= 2 && sender !in old(sdpsGroup).current ==>
        finished && (found == null ==> LookupFails(old(now), sender, failed, plan))
      ensures installed != null ==> found != null && accepted
      ensures found != null ==> |payload| >= 2 && Met(old(now), seen, found.sid)
      ensures found != null && payload[0] == CREDS && SPACE in payload[1..] && accepted ==>
        && (!Linked(seen, found.sid) ==> installed == found)
        && (installed == null ==> PlanFails(plan) || sender in sessionRepo.entries)
    {
      LeadsRefl(now);
      if |payload| < 2 {
        return null, true, null, now;
      }
      var creds, parts := ReadCreds(payload);
      var msg := Msg(sender, if creds.Some? then NewCreds(creds.value) else NewCandidate);
      var p := Deliver(msg);
      ghost var s := now;
      LeadsRefl(s);
      installed, finished, found, seen := Answer(p, msg, failed, accepted, plan, w, s);
      LeadsTrans(old(now), s, now);
      LeadsTrans(old(now), s, seen);
      Since(old(now), s, sender);
      StaysKnown(s);
      assert msg in runtime.messages;
    }

    lemma Since(from: State, s: State, u: Uid)
      requires Leads(from, s)
      ensures WasFiled(s, u) ==> WasFiled(from, u)
    {
      if WasFiled(s, u) {
        var t :| Leads(s, t) && Leads(t, now) && u in t.store.repo;
        LeadsTrans(from, s, t);
      }
    }

    lemma StaysKnown(s: State)
      requires Valid() && Leads(INITIAL, s) && Leads(s, now)
      ensures s.next <= runtime.next && s.messages <= runtime.messages
    {
      assert Unfolds(0);
      MessagesStay(s, now);
    }

    /** A message of this sender has been received: with the credentials its payload spells, or without any. */
    ghost predicate Heard(sender: Uid, payload: bytes)
      reads this`runtime
    {
      || (exists creds :: Spells(payload, creds) && Msg(sender, NewCreds(creds)) in runtime.messages)
      || (Msg(sender, NewCandidate) in runtime.messages && forall creds :: !Spells(payload, creds))
    }

    /** In a state on the way the remote credentials of this session's agent are exactly these. */
    ghost predicate Installed(from: State, to: State, session: PeerSession, creds: Credentials)
      reads session
    {
      exists t :: Leads(from, t) && Leads(t, to) && Known(t, session.sid)
               && t.store.sessions[session.sid].remote == Some(creds)
    }

    /** A goroutine for the message. */
    method Deliver(msg: Msg) returns (p: Pid)
      requires Valid()
      modifies this, sessionRepo, heap
      ensures Valid() && Leads(old(now), now) && old(heap) <= heap && fresh(heap - old(heap))
      ensures Standing(p) == Some(Arrived(msg)) && p == old(runtime).next && p < now.next && msg in now.messages
      ensures Leads(INITIAL, now) && sdpsGroup == old(sdpsGroup)
    {
      assert Unfolds(0);
      NoPanic(now);
      EnvLeaves(now, EnvAct.Deliver(msg));
      p := runtime.next;
      LeadsRefl(now);
      LeadsSnoc(now, now, EnvStep(EnvAct.Deliver(msg)));
      Do(EnvStep(EnvAct.Deliver(msg)));
    }

    method Answer(p: Pid, msg: Msg, failed: bool, accepted: bool, plan: Plan, w: World, ghost from: State)
      returns (installed: PeerSession?, finished: bool, found: PeerSession?, ghost seen: State)
      requires Valid() && Standing(p) == Some(Arrived(msg)) && Leads(from, now)
      modifies this, sessionRepo, heap
      ensures Valid() && Leads(from, now) && old(heap) <= heap && fresh(heap - old(heap))
      ensures finished ==> p !in runtime.procs && Equipped(installed, msg.sender)
      ensures finished ==> Shared(now, msg.sender, SidOf(found))
      ensures msg.sender !in old(sdpsGroup).current ==>
        finished && (found == null ==> LookupFails(from, msg.sender, failed, plan))
      ensures installed != null ==> msg.content.NewCreds? && found != null && accepted
      ensures installed != null ==> Installed(seen, now, installed, msg.content.creds)
      ensures Leads(from, seen) && (found != null ==> finished && Met(from, seen, found.sid))
      ensures found != null && msg.content.NewCreds? && accepted ==>
        && (!Linked(seen, found.sid) ==> installed == found)
        && (installed == null ==> PlanFails(plan) || msg.sender in sessionRepo.entries)
      ensures !finished ==> !Told(p) && Standing(p).Some? && Standing(p).value.Following?
    {
      found, finished := SharedGetSession(p, msg, failed, plan, w, from);
      installed, seen := null, now;
      if !finished {
        found := null;
      } else if found != null {
        SeenLinks(seen, found);
        installed := ProcessMessage(p, found, msg, accepted, plan, w, seen);
        LeadsTrans(from, seen, now);
        SharedStays(seen, msg.sender, Some(found.sid));
        Since(from, seen, msg.sender);
      }
    }

    lemma SeenLinks(seen: State, session: PeerSession)
      requires Valid() && session in heap && seen == now
      ensures Leads(INITIAL, seen) && Leads(seen, seen) && Known(seen, session.sid)
      ensures Linked(seen, session.sid) == session.links.conn
    {
      assert Unfolds(0);
      LeadsRefl(seen);
      assert seen.store.sessions[session.sid] == session.View();
    }

    lemma SharedStays(s: State, u: Uid, found: Option<Sid>)
      requires Valid() && Leads(INITIAL, s) && Leads(s, now) && Shared(s, u, found)
      ensures Shared(now, u, found)
    {
      LeadsReaches(s, now);
      var steps :| Reaches(s, steps, now);
      ReachableInv(s);
      SharedForGood(s, steps, now, u, found);
    }

    // -------------------------------------------------------------------------------------------
    // ConnectById, DisconnectFromId

    method AwaitReady(p: Pid, session: PeerSession, why: Purpose, w: World, ghost from: State)
      requires Valid() && At(p, session, Proc.AwaitReady(session.sid, why)) && Leads(from, now)
      modifies this, sessionRepo, heap
      ensures Valid() && Leads(from, now) && old(heap) <= heap && fresh(heap - old(heap))
      ensures At(p, session, Proc.AwaitReady(session.sid, why))
    {
      var turn := 0;
      while turn < w.patience && !session.readyChan.CanRecv()
        invariant Valid() && Leads(from, now) && At(p, session, Proc.AwaitReady(session.sid, why))
        invariant old(heap) <= heap && fresh(heap - old(heap))
      {
        Others(p, w.others(turn), from);
        turn := turn + 1;
      }
    }

    /** `<-session.ReadyChan` returns: the channel was closed, and the session has succeeded or failed. */
    method SeeReady(p: Pid, session: PeerSession, why: Purpose)
      requires Valid() && At(p, session, Proc.AwaitReady(session.sid, why)) && session.readyChan.CanRecv()
      modifies this, sessionRepo, heap
      ensures Valid() && Leads(old(now), now) && old(heap) <= heap && fresh(heap - old(heap))
      ensures session in heap && session.readyChan.closed && (FullyEstablished(session.View()) || !session.handling)
      ensures why.ForGroup? ==> p !in runtime.procs
      ensures why.ForReconnect? ==>
        Standing(p) == if session.links.conn then None else Some(Retrying(session.userId, TriesOf(why)))
    {
      assert Unfolds(0);
      ghost var s := now;
      ReadyMoves(s, p, session.sid);
      Do(CreateStep(p, CreateAct.SeeReady));
      LeadsRefl(s);
      LeadsSnoc(s, s, CreateStep(p, CreateAct.SeeReady));
      assert Unfolds(0);
      assert now.store.sessions[session.sid] == session.View();
    }

    /** Removal is by identity, so the session found is the one taken down; whatever is filed later stays. */
    method DisconnectFromId(done: bool, sessionId: Uid, handler: bool, w: World)
      returns (err: Option<Error>, returned: bool)
      requires Valid()
      modifies this, sessionRepo, heap
      ensures Valid() && Leads(old(now), now) && old(heap) <= heap && fresh(heap - old(heap))
      ensures done || sessionId !in old(sessionRepo.entries) ==>
        returned && now == old(now) &&
        err == Some(App("networkingServ.DisconnectFrom",
                        App("sessionRepository.Get", Base(if done then RequestTimeout else NotFound))))
      ensures !done && sessionId in old(sessionRepo.entries) && returned ==>
        err.None? && old(sessionRepo.entries)[sessionId].sid in runtime.removed
        && old(sessionRepo.entries)[sessionId].closing.Over?
      ensures !returned ==> sessionId in old(sessionRepo.entries)
      ensures !returned ==> old(sessionRepo.entries)[sessionId].closing.Running?
    {
      LeadsRefl(now);
      var session, e := sessionRepo.Get(done, sessionId);
      if e.Some? {
        return Some(App("networkingServ.DisconnectFrom", e.value)), true;
      }
      var p := StartDisconnecting(session);
      returned := DisconnectSession(p, session, true, None, handler, w, old(now));
      err := None;
    }

    method StartDisconnecting(session: PeerSession) returns (p: Pid)
      requires Valid() && session in sessionRepo.entries.Values
      modifies this, sessionRepo, heap
      ensures Valid() && Leads(old(now), now) && old(heap) <= heap && fresh(heap - old(heap))
      ensures At(p, session, Disconnecting(session.sid, true, None))
    {
      assert Unfolds(0);
      ghost var s := now;
      FiledIsAdded(s, session);
      p := runtime.next;
      LeadsRefl(s);
      LeadsSnoc(s, s, EnvStep(CallDisconnect(session.sid, true)));
      Do(EnvStep(CallDisconnect(session.sid, true)));
    }

    lemma FiledIsAdded(s: State, session: PeerSession)
      requires Shape() && Leads(INITIAL, s) && Now() == s && session in sessionRepo.entries.Values
      ensures !s.panicked && Known(s, session.sid) && session.sid in s.store.added && session in heap
    {
      ReachableInv(s);
      var u :| u in sessionRepo.entries && sessionRepo.entries[u] == session;
      assert s.store.repo[u] == session.sid;
    }

    /** A wait group nobody has used. */
    method NewGroup() returns (g: Gid)
      ensures g !in runtime.groups
    {
      g := 0;
      var rest := runtime.groups.Keys;
      while g in rest
        invariant rest <= runtime.groups.Keys && forall h :: h in runtime.groups && h >= g ==> h in rest
        decreases rest
      {
        rest := rest - {g};
        g := g + 1;
      }
    }

    /** One step of the API itself. */
    method Call(act: EnvAct, ghost from: State)
      requires Valid() && CanStart(now, act) && Leads(from, now)
      modifies this, sessionRepo, heap
      ensures Valid() && Leads(from, now) && old(heap) <= heap && fresh(heap - old(heap))
      ensures runtime == RuntimeOf(EnvApply(old(now), act)) && sessionRepo.entries == old(sessionRepo.entries)
    {
      assert Unfolds(0);
      NoPanic(now);
      LeadsSnoc(from, now, EnvStep(act));
      runtime := RuntimeOf(EnvApply(Now(), act));
      closing := closing || act.CloseApp?;
      EnvLeaves(now, act);
      Executed(EnvStep(act));
    }

    /** A member of a new wait group, about to create a session. */
    method StartConnecting(rid: Uid, ghost from: State) returns (p: Pid, g: Gid)
      requires Valid() && Leads(from, now)
      modifies this, sessionRepo, heap
      ensures Valid() && Leads(from, now) && old(heap) <= heap && fresh(heap - old(heap))
      ensures Standing(p) == Some(Creating(rid, true, ForGroup(g)))
    {
      assert Unfolds(0);
      g := NewGroup();
      Call(OpenGroup(g, true), from);
      assert Unfolds(0);
      p := runtime.next;
      Call(ConnectMember(g, rid), from);
    }

    /** ConnectById: nil means that the session it started has succeeded or failed. */
    method ConnectById(rid: Uid, plan: Plan, w: World)
      returns (session: PeerSession?, err: Option<Error>, returned: bool)
      requires Valid()
      modifies this, sessionRepo, heap
      ensures Valid() && Leads(old(now), now) && old(heap) <= heap && fresh(heap - old(heap))
      ensures rid == id ==> returned && now == old(now)
      ensures rid == id ==> err == Some(App("networkingServ.ConnectById", Base(ConnToHimself)))
      ensures returned && err.None? ==> session != null && fresh(session) && session.userId == rid && session.initiator
      ensures returned && err.None? ==> session.readyChan.closed
      ensures returned && err.None? ==> (FullyEstablished(session.View()) || !session.handling)
      ensures err.Some? && rid != id ==> returned && (PlanFails(plan) || rid in sessionRepo.entries)
      ensures !returned ==> session != null && fresh(session) && session.userId == rid && !session.readyChan.CanRecv()
    {
      LeadsRefl(now);
      session := null;
      if rid == id {
        return null, Some(App("networkingServ.ConnectById", Base(ConnToHimself))), true;
      }
      var p, g := StartConnecting(rid, old(now));
      session := CreateAndEstablish(p, rid, true, ForGroup(g), plan, w, old(now));
      if session == null {
        return null, Some(App("networkingServ.ConnectById",
                              App("networkingServ.createAndEstablish", Foreign("")))), true;
      }
      err := None;
      returned := WaitUntilReady(p, session, ForGroup(g), w, old(now));
    }

    method WaitUntilReady(p: Pid, session: PeerSession, why: Purpose, w: World, ghost from: State)
      returns (returned: bool)
      requires Valid() && At(p, session, Proc.AwaitReady(session.sid, why)) && Leads(from, now)
      modifies this, sessionRepo, heap
      ensures Valid() && Leads(from, now) && old(heap) <= heap && fresh(heap - old(heap))
      ensures session in heap
      ensures !returned ==> At(p, session, Proc.AwaitReady(session.sid, why)) && !session.readyChan.CanRecv()
      ensures returned ==> session.readyChan.closed && (FullyEstablished(session.View()) || !session.handling)
      ensures returned && why.ForReconnect? ==>
        Standing(p) == if session.links.conn then None else Some(Retrying(session.userId, TriesOf(why)))
    {
      AwaitReady(p, session, why, w, from);
      returned := session.readyChan.CanRecv();
      if returned {
        ghost var s := now;
        SeeReady(p, session, why);
        LeadsTrans(from, s, now);
      }
    }

    // -------------------------------------------------------------------------------------------
    // The ICE callback

    /**
     * The agent reports that its connection is lost: the session is reset, and whoever initiated it tries again, one
     * turn of the loop per plan, until one sees a connection or the application closes. What the loop sees need not
     * last. Without a reconnection it was not the initiator, or the application is closing, or the loop still waits for
     * a session, or it has taken its turn for every plan.
     */
    method OnIceFailure(session: PeerSession, plans: seq<Plan>, w: World) returns (reconnected: PeerSession?, p: Pid)
      requires Valid() && session in heap
      modifies this, sessionRepo, heap
      ensures Valid() && Leads(old(now), now) && old(heap) <= heap && fresh(heap - old(heap))
      ensures session.sid in old(runtime).added ==> session.sid in runtime.removed
      ensures reconnected != null ==> session.initiator && fresh(reconnected) && reconnected.userId == session.userId
      ensures reconnected != null ==> reconnected.links.conn && reconnected.readyChan.closed
      ensures reconnected == null && session.initiator ==> closing || StillTrying(p, session.userId, |plans|)
    {
      LeadsRefl(now);
      p := ResetOnIce(session, w);
      ghost var s := now;
      reconnected := null;
      if session.initiator {
        reconnected := Reconnect(p, session.userId, plans, w, s);
      }
      LeadsTrans(old(now), s, now);
      if session.sid in s.store.removed {
        StaysRemoved(s, session);
      }
    }

    /** The loop has taken all its turns, or waits for the session of one of them. */
    ghost predicate StillTrying(p: Pid, uid: Uid, turns: nat)
      reads this`runtime, this`heap, heap
    {
      Standing(p) == Some(Retrying(uid, turns)) || Held(p, uid)
    }

    method ResetOnIce(session: PeerSession, w: World) returns (p: Pid)
      requires Valid() && session in heap
      modifies this, sessionRepo, heap
      ensures Valid() && Leads(old(now), now) && old(heap) <= heap && fresh(heap - old(heap))
      ensures Leads(INITIAL, now) && Leads(now, now) && Known(now, session.sid) && now.store.removed == runtime.removed
      ensures session.sid in old(runtime).added ==> session.sid in runtime.removed
      ensures Standing(p) == if session.initiator then Some(Retrying(session.userId, 0)) else None
    {
      assert Unfolds(0);
      ghost var s := now;
      LeadsRefl(s);
      p := runtime.next;
      Call(IceFails(session.sid), s);
      ResetSession(p, session, EndIce, w.others, s);
      assert Unfolds(0);
      LeadsRefl(now);
    }

    method Reconnect(p: Pid, uid: Uid, plans: seq<Plan>, w: World, ghost from: State)
      returns (reconnected: PeerSession?)
      requires Valid() && Standing(p) == Some(Retrying(uid, 0)) && Leads(from, now)
      modifies this, sessionRepo, heap
      ensures Valid() && Leads(from, now) && old(heap) <= heap && fresh(heap - old(heap))
      ensures reconnected != null ==> fresh(reconnected) && reconnected in heap && reconnected.userId == uid
      ensures reconnected != null ==> reconnected.links.conn && reconnected.readyChan.closed
      ensures reconnected == null ==> closing || StillTrying(p, uid, |plans|)
    {
      for k := 0 to |plans|
        invariant Valid() && Leads(from, now) && old(heap) <= heap && fresh(heap - old(heap))
        invariant Standing(p) == Some(Retrying(uid, k))
      {
        Others(p, w.others(k), from);
        var going;
        reconnected, going := TryAgain(p, uid, k, plans[k], w, from);
        if !going {
          return;
        }
      }
      reconnected := null;
    }

    /** One turn of the loop, after its wait. */
    method TryAgain(p: Pid, uid: Uid, tries: nat, plan: Plan, w: World, ghost from: State)
      returns (session: PeerSession?, going: bool)
      requires Valid() && Standing(p) == Some(Retrying(uid, tries)) && Leads(from, now)
      modifies this, sessionRepo, heap
      ensures Valid() && Leads(from, now) && old(heap) <= heap && fresh(heap - old(heap))
      ensures going ==> Standing(p) == Some(Retrying(uid, tries + 1)) && !old(closing)
      ensures going && session == null ==> PlanFails(plan) || uid in sessionRepo.entries
      ensures going && session != null ==> session.readyChan.closed && !session.links.conn && session.userId == uid
      ensures !going && session != null ==> fresh(session) && session in heap && session.userId == uid
      ensures !going && session != null ==> session.links.conn && session.readyChan.closed
      ensures !going && session == null ==> (old(closing) && closing) || Held(p, uid)
    {
      var closed := WakeUp(p, uid, tries, from);
      if closed {
        return null, false;
      }
      var why := ForReconnect(tries + 1);
      session := CreateAndEstablish(p, uid, true, why, plan, w, from);
      if session == null {
        return null, true;
      }
      var seen := WaitUntilReady(p, session, why, w, from);
      going := seen && !session.links.conn;
      if !seen {
        session := null;
      }
    }

    /** The loop waits for a session of its user whose ReadyChan is open. */
    ghost predicate Held(p: Pid, uid: Uid)
      reads this`runtime, this`heap, heap
    {
      Standing(p).Some? && Standing(p).value.AwaitReady? && Standing(p).value.why.ForReconnect?
      && exists o :: o in heap && o.sid == Standing(p).value.sid && o.userId == uid && !o.readyChan.CanRecv()
    }

    method WakeUp(p: Pid, uid: Uid, tries: nat, ghost from: State) returns (closed: bool)
      requires Valid() && Standing(p) == Some(Retrying(uid, tries)) && Leads(from, now)
      modifies this, sessionRepo, heap
      ensures Valid() && Leads(from, now) && old(heap) <= heap && fresh(heap - old(heap))
      ensures closed == old(closing) == closing
      ensures !closed ==> Standing(p) == Some(Creating(uid, true, ForReconnect(tries + 1)))
    {
      assert Unfolds(0);
      NoPanic(now);
      closed := closing;
      QuietShape(now, p, CreateAct.Retry);
      CreateSpares(now, p, CreateAct.Retry);
      LeadsSnoc(from, now, CreateStep(p, CreateAct.Retry));
      Do(CreateStep(p, CreateAct.Retry));
      assert Unfolds(0);
    }

    // -------------------------------------------------------------------------------------------
    // Connect, Disconnect

    /** Any goroutines run while the caller of the API waits. */
    method Everybody(steps: seq<Step>, ghost from: State)
      requires Valid() && Leads(from, now)
      modifies this, sessionRepo, heap
      ensures Valid() && Leads(from, now) && old(heap) <= heap && fresh(heap - old(heap))
    {
      for k := 0 to |steps|
        invariant Valid() && Leads(from, now) && old(heap) <= heap && fresh(heap - old(heap))
      {
        assert Unfolds(0);
        if Enabled(Now(), steps[k]) {
          LeadsSnoc(from, now, steps[k]);
          Do(steps[k]);
        }
      }
    }

    /** Every session the wait group is about has settled. */
    ghost predicate AllSettled(g: Gid)
      reads this`runtime, this`now
    {
      && g in runtime.groups
      && forall i :: i in runtime.groups[g].targets ==> Settled(i, runtime.groups[g].connecting, now.store)
    }

    /** The wait group has started a session of this user, and it has succeeded or failed. */
    ghost predicate Reached(g: Gid, u: Uid)
      reads this`runtime, this`now
    {
      g in runtime.groups && exists i :: i in runtime.groups[g].targets && Settled(i, true, now.store)
                                      && now.store.sessions[i].userId == u
    }

    /**
     * Waits for a wait group; `finished`: it is empty, `ok`: no member failed. `from` is a state since which it
     * exists.
     */
    method Wait(g: Gid, w: World, ghost from: State) returns (finished: bool, ok: bool)
      requires Valid() && Leads(INITIAL, from) && Leads(from, now) && g in from.groups
      modifies this, sessionRepo, heap
      ensures Valid() && Leads(from, now) && old(heap) <= heap && fresh(heap - old(heap))
      ensures finished && ok ==> AllSettled(g) && from.groups[g].connecting == runtime.groups[g].connecting
      ensures finished && ok ==> from.groups[g].targets.Keys <= runtime.groups[g].targets.Keys
      ensures finished && ok && from.groups[g].connecting ==> forall u :: u in from.groups[g].asked ==> Reached(g, u)
      ensures finished && !from.groups[g].failed ==> (!ok <==> CreationFailed(from, now, g))
      ensures finished && !from.groups[g].connecting ==> ok
      ensures finished && ok ==> runtime.groups[g].returned
      ensures !finished ==> g in runtime.groups && runtime.groups[g].live != {}
    {
      var turn := 0;
      while turn < w.patience && g in runtime.groups && runtime.groups[g].live != {}
        invariant Valid() && Leads(from, now) && old(heap) <= heap && fresh(heap - old(heap))
      {
        Everybody(w.others(turn), from);
        turn := turn + 1;
      }
      GroupStays(from, g);
      finished := g in runtime.groups && runtime.groups[g].live == {};
      ok := finished && !runtime.groups[g].failed;
      WhyItFails(from, g);
      if ok {
        Return(g, from);
        NoneFailed(from, g);
      }
    }

    /** A group that had not failed has failed exactly if a creation has; one of Disconnect never does. */
    lemma WhyItFails(from: State, g: Gid)
      requires Valid() && Leads(INITIAL, from) && Leads(from, now) && g in from.groups && g in runtime.groups
      ensures !from.groups[g].failed ==> (runtime.groups[g].failed <==> CreationFailed(from, now, g))
      ensures !from.groups[g].connecting ==> !runtime.groups[g].failed
    {
      assert Unfolds(0);
      LeadsKeeps(from, now);
      if !from.groups[g].failed {
        FailedExactly(from, now, g);
      }
      if !from.groups[g].connecting {
        DisconnectsNeverFail(now, g);
      }
    }

    lemma NoneFailed(from: State, g: Gid)
      requires Valid() && Leads(INITIAL, from) && Leads(from, now) && g in runtime.groups && runtime.groups[g].returned
      ensures !CreationFailed(from, now, g)
    {
      assert Unfolds(0);
      ReachableInv(now);
      assert GroupOk(g, now.groups[g], now.procs, now.store);
      if CreationFailed(from, now, g) {
        ReasonMeansFailure(from, now, g);
      }
    }

    lemma GroupStays(from: State, g: Gid)
      requires Valid() && Leads(INITIAL, from) && Leads(from, now) && g in from.groups
      ensures g in runtime.groups
    {
      assert Unfolds(0);
      LeadsKeeps(from, now);
    }

    /** Some wait group has unfinished members. */
    ghost predicate SomePending()
      reads this`runtime
    {
      exists g :: g in runtime.groups && runtime.groups[g].live != {}
    }

    /** Wait returns nil. */
    method Return(g: Gid, ghost from: State)
      requires Valid() && Leads(INITIAL, from) && Leads(from, now) && g in from.groups
      requires g in runtime.groups && runtime.groups[g].live == {} && !runtime.groups[g].failed
      modifies this, sessionRepo, heap
      ensures Valid() && Leads(from, now) && old(heap) <= heap && fresh(heap - old(heap))
      ensures AllSettled(g) && from.groups[g].connecting == runtime.groups[g].connecting && runtime.groups[g].returned
      ensures from.groups[g].targets.Keys <= runtime.groups[g].targets.Keys
      ensures from.groups[g].connecting ==> forall u :: u in from.groups[g].asked ==> Reached(g, u)
    {
      assert Unfolds(0);
      Call(ReturnNil(g), from);
      assert Unfolds(0);
      LeadsKeeps(from, now);
      ReturnedSettled(now, g);
      if from.groups[g].connecting {
        forall u | u in from.groups[g].asked ensures Reached(g, u) {
          var i := NilReachesEverybody(now, g, u);
        }
      }
    }

    /** wg.Go for each session: the members are the goroutines that disconnect them. */
    method StartDisconnects(sessions: seq<PeerSession>, ghost from: State) returns (g: Gid)
      requires Valid() && Leads(from, now) && AllFiled(sessions)
      modifies this, sessionRepo, heap
      ensures Valid() && Leads(from, now) && old(heap) <= heap && fresh(heap - old(heap))
      ensures g in now.groups && !now.groups[g].connecting
      ensures forall k :: 0 <= k < |sessions| ==> sessions[k].sid in now.groups[g].targets
    {
      assert Unfolds(0);
      g := NewGroup();
      Call(OpenGroup(g, false), from);
      FillGroup(sessions, g, from);
      assert Unfolds(0);
    }

    method FillGroup(sessions: seq<PeerSession>, g: Gid, ghost from: State)
      requires Valid() && Leads(from, now) && AllFiled(sessions) && Collecting(g) && runtime.groups[g].targets == map[]
      modifies this, sessionRepo, heap
      ensures Valid() && Leads(from, now) && old(heap) <= heap && fresh(heap - old(heap))
      ensures Collecting(g) && forall k :: 0 <= k < |sessions| ==> sessions[k].sid in runtime.groups[g].targets
    {
      for k := 0 to |sessions|
        invariant Valid() && Leads(from, now) && old(heap) <= heap && fresh(heap - old(heap))
        invariant sessionRepo.entries == old(sessionRepo.entries) && Collecting(g)
        invariant runtime.groups[g].targets.Keys == Sids(sessions[..k])
      {
        assert sessions[..k + 1] == sessions[..k] + [sessions[k]];
        Member(sessions[k], g, from);
      }
      assert sessions[..|sessions|] == sessions;
    }

    function Sids(sessions: seq<PeerSession>): set<Sid> {
      set o | o in sessions :: o.sid
    }

    ghost predicate AllFiled(sessions: seq<PeerSession>)
      reads sessionRepo
    {
      && (forall k :: 0 <= k < |sessions| ==> Filed(sessions[k]))
      && forall j, k :: 0 <= j < k < |sessions| ==> sessions[j].sid != sessions[k].sid
    }

    ghost predicate Filed(session: PeerSession)
      reads sessionRepo
    {
      session in sessionRepo.entries.Values
    }

    /** A Disconnect wait group that is still being filled. */
    predicate Collecting(g: Gid)
      reads this`runtime
    {
      g in runtime.groups && !runtime.groups[g].connecting && !runtime.groups[g].returned
    }

    method Member(session: PeerSession, g: Gid, ghost from: State)
      requires Valid() && Leads(from, now) && Filed(session) && Collecting(g)
      requires session.sid !in runtime.groups[g].targets
      modifies this, sessionRepo, heap
      ensures Valid() && Leads(from, now) && old(heap) <= heap && fresh(heap - old(heap))
      ensures sessionRepo.entries == old(sessionRepo.entries) && Collecting(g)
      ensures runtime.groups[g].targets.Keys == old(runtime).groups[g].targets.Keys + {session.sid}
    {
      assert Unfolds(0);
      FiledIsAdded(now, session);
      Call(DisconnectMember(g, session.sid), from);
    }

    /** Disconnect: when it returns, every session it found is out of the repository. */
    method Disconnect(w: World) returns (returned: bool)
      requires Valid()
      modifies this, sessionRepo, heap
      ensures Valid() && Leads(old(now), now) && old(heap) <= heap && fresh(heap - old(heap))
      ensures returned ==>
        forall u :: u in old(sessionRepo.entries) ==> old(sessionRepo.entries)[u].sid in runtime.removed
      ensures !returned ==> SomePending()
    {
      LeadsRefl(now);
      var sessions, ids, err := sessionRepo.Fetch(false);
      if |sessions| == 0 {
        return true;
      }
      FiledOnce(sessions, ids);
      EveryEntryFetched(sessions, ids);
      returned := DisconnectAll(sessions, w);
    }

    /** The wait group of Disconnect. */
    method DisconnectAll(sessions: seq<PeerSession>, w: World) returns (returned: bool)
      requires Valid() && AllFiled(sessions)
      modifies this, sessionRepo, heap
      ensures Valid() && Leads(old(now), now) && old(heap) <= heap && fresh(heap - old(heap))
      ensures if returned then forall s :: s in sessions ==> s.sid in runtime.removed else SomePending()
    {
      LeadsRefl(now);
      var g := StartDisconnects(sessions, old(now));
      ghost var s := now;
      LeadsRefl(s);
      StartsLead(s);
      var finished, ok := Wait(g, w, s);
      LeadsTrans(old(now), s, now);
      returned := finished && ok;
      assert Unfolds(0);
    }

    lemma StartsLead(s: State)
      requires Valid() && s == now
      ensures Leads(INITIAL, s)
    {
      assert Unfolds(0);
    }

    lemma FiledOnce(sessions: seq<PeerSession>, ids: seq<Uid>)
      requires Valid() && |sessions| == |ids|
      requires forall k :: 0 <= k < |ids| ==>
        ids[k] in sessionRepo.entries && sessions[k] == sessionRepo.entries[ids[k]]
      requires forall j, k :: 0 <= j < k < |ids| ==> ids[j] != ids[k]
      ensures AllFiled(sessions)
    {
      assert Unfolds(0);
      ReachableInv(now);
      forall k | 0 <= k < |sessions| ensures sessions[k].userId == ids[k] && Filed(sessions[k]) {
        assert now.store.repo[ids[k]] == sessions[k].sid;
        assert now.store.sessions[sessions[k].sid] == sessions[k].View();
      }
    }

    /** The errgroup: one member for the peer, one for each other session of the peer. */
    method StartConnects(rid: Uid, receivers: seq<Uid>, ghost from: State) returns (g: Gid)
      requires Valid() && Leads(from, now)
      modifies this, sessionRepo, heap
      ensures Valid() && Leads(from, now) && old(heap) <= heap && fresh(heap - old(heap))
      ensures g in now.groups && now.groups[g].connecting && rid in now.groups[g].asked && !now.groups[g].failed
      ensures forall u :: u in receivers && u != id ==> u in now.groups[g].asked
    {
      assert Unfolds(0);
      g := NewGroup();
      Call(OpenGroup(g, true), from);
      assert Unfolds(0);
      Call(ConnectMember(g, rid), from);
      FillConnects(receivers, g, from);
    }

    method FillConnects(receivers: seq<Uid>, g: Gid, ghost from: State)
      requires Valid() && Leads(from, now) && Gathering(g)
      modifies this, sessionRepo, heap
      ensures Valid() && Leads(from, now) && old(heap) <= heap && fresh(heap - old(heap))
      ensures g in now.groups && now.groups[g].connecting && old(runtime).groups[g].asked <= now.groups[g].asked
      ensures now.groups[g].failed == old(runtime).groups[g].failed
      ensures forall u :: u in receivers && u != id ==> u in now.groups[g].asked
    {
      for k := 0 to |receivers|
        invariant Valid() && Leads(from, now) && old(heap) <= heap && fresh(heap - old(heap)) && Gathering(g)
        invariant old(runtime).groups[g].asked <= runtime.groups[g].asked
        invariant runtime.groups[g].failed == old(runtime).groups[g].failed
        invariant forall u :: u in receivers[..k] && u != id ==> u in runtime.groups[g].asked
      {
        assert receivers[..k + 1] == receivers[..k] + [receivers[k]];
        if receivers[k] != id {
          assert Unfolds(0);
          Call(ConnectMember(g, receivers[k]), from);
        }
      }
      assert receivers[..|receivers|] == receivers;
      assert Unfolds(0);
    }

    /** A Connect wait group that is still being filled. */
    predicate Gathering(g: Gid)
      reads this`runtime
    {
      g in runtime.groups && runtime.groups[g].connecting && !runtime.groups[g].returned
    }

    /**
     * The reconnection to another peer, without the checks before it; `receivers` is the answer to GetSessionsById,
     * if any.
     */
    method ConnectAll(rid: Uid, receivers: Option<seq<Uid>>, w: World, ghost from: State)
      returns (err: Option<Error>, returned: bool, g: Gid)
      requires Valid() && Leads(from, now) && Leads(INITIAL, from)
      modifies this, sessionRepo, heap
      ensures Valid() && Leads(from, now) && old(heap) <= heap && fresh(heap - old(heap))
      ensures returned && err.None? ==> AllSettled(g) && runtime.groups[g].connecting && receivers.Some?
      ensures returned && err.None? ==> Reached(g, rid) && forall u :: u in receivers.value && u != id ==> Reached(g, u)
      ensures returned && receivers.Some? ==> (err.Some? <==> CreationFailed(from, now, g))
      ensures returned && receivers.None? ==> err.Some?
      ensures returned && err.None? ==> runtime.groups[g].returned
      ensures !returned ==> SomePending()
    {
      g := StartConnects(rid, if receivers.Some? then receivers.value else [], from);
      if receivers.None? {
        return Some(App("networkingServ.Connect", Foreign(""))), true, g;
      }
      ghost var s := now;
      LeadsRefl(s);
      StartsLead(s);
      var finished, ok := Wait(g, w, s);
      LeadsTrans(from, s, now);
      SameReason(from, s, g);
      return if ok then None else Some(App("networkingServ.Connect", Foreign(""))), finished, g;
    }

    /** The group has not failed by `s`: what makes it fail comes after that. */
    lemma SameReason(from: State, s: State, g: Gid)
      requires Valid() && Leads(INITIAL, from) && Leads(from, s) && Leads(s, now) && Leads(INITIAL, s)
      requires g in s.groups && !s.groups[g].failed
      ensures CreationFailed(from, now, g) <==> CreationFailed(s, now, g)
    {
      if CreationFailed(s, now, g) {
        EarlierStill(from, s, now, g);
      }
      if CreationFailed(from, now, g) {
        ReasonMeansFailure(from, now, g);
        FailedExactly(s, now, g);
      }
    }

    /** What Connect decides from the repository: an early return, or whether others have to be disconnected first. */
    method Precheck(done: bool, rid: Uid) returns (early: Option<Option<Error>>, reconnecting: bool)
      requires Valid()
      ensures rid == id ==> early == Some(Some(Foreign("cannot connect to himself")))
      ensures rid != id && done ==>
        early == Some(Some(App("networkingServ.Connect", App("sessionRepository.Fetch", Base(RequestTimeout)))))
      ensures rid != id && !done ==> early == if rid in sessionRepo.entries then Some(None) else None
      ensures early.None? ==> (reconnecting <==> sessionRepo.entries != map[])
    {
      reconnecting := false;
      if rid == id {
        return Some(Some(Foreign("cannot connect to himself"))), false;
      }
      var current, ids, e := sessionRepo.Fetch(done);
      if e.Some? {
        return Some(Some(App("networkingServ.Connect", e.value))), false;
      }
      UsersFiled(current, ids);
      if exists k :: 0 <= k < |current| && current[k].userId == rid {
        return Some(None), false;
      }
      early, reconnecting := None, |current| > 0;
      assert reconnecting ==> ids[0] in sessionRepo.entries;
    }

    /** Everybody filed in `entries` has been taken out of the repository. */
    ghost predicate AllGone(entries: map<Uid, PeerSession>)
      reads this`runtime, set u | u in entries :: entries[u]
    {
      forall u :: u in entries ==> entries[u].sid in runtime.removed
    }

    /** The first half: everybody found in the repository is disconnected, if there is anybody. */
    method DisconnectOthers(reconnecting: bool, w: World) returns (gone: bool)
      requires Valid() && (reconnecting <==> sessionRepo.entries != map[])
      modifies this, sessionRepo, heap
      ensures Valid() && Leads(old(now), now) && old(heap) <= heap && fresh(heap - old(heap))
      ensures if gone then AllGone(old(sessionRepo.entries)) else SomePending()
    {
      LeadsRefl(now);
      gone := true;
      if reconnecting {
        gone := Disconnect(w);
      }
    }

    lemma StayGone(s: State, entries: map<Uid, PeerSession>)
      requires Valid() && Leads(INITIAL, s) && Leads(s, now)
      requires forall u :: u in entries ==> entries[u].sid in s.store.removed
      ensures AllGone(entries)
    {
      assert Unfolds(0);
      LeadsKeeps(s, now);
    }

    lemma GoneNow(s: State, entries: map<Uid, PeerSession>)
      requires Valid() && s == now && AllGone(entries)
      ensures Leads(INITIAL, s) && Leads(s, s) && forall u :: u in entries ==> entries[u].sid in s.store.removed
    {
      assert Unfolds(0);
      LeadsRefl(s);
    }

    method ConnectAfresh(reconnecting: bool, rid: Uid, receivers: Option<seq<Uid>>, w: World)
      returns (err: Option<Error>, returned: bool, g: Gid)
      requires Valid() && (reconnecting <==> sessionRepo.entries != map[])
      modifies this, sessionRepo, heap
      ensures Valid() && Leads(old(now), now) && old(heap) <= heap && fresh(heap - old(heap))
      ensures returned ==> AllGone(old(sessionRepo.entries))
      ensures returned && err.None? ==> AllSettled(g) && runtime.groups[g].connecting && receivers.Some?
      ensures returned && err.None? ==> Reached(g, rid) && forall u :: u in receivers.value && u != id ==> Reached(g, u)
      ensures returned && receivers.Some? ==> (err.Some? <==> CreationFailed(old(now), now, g))
      ensures returned && receivers.None? ==> err.Some?
      ensures !returned ==> SomePending()
    {
      StartsLead(now);
      var gone := DisconnectOthers(reconnecting, w);
      if !gone {
        return None, false, 0;
      }
      ghost var s := now;
      GoneNow(s, old(sessionRepo.entries));
      err, returned, g := ConnectAll(rid, receivers, w, s);
      LeadsTrans(old(now), s, now);
      StayGone(s, old(sessionRepo.entries));
      if returned && err.None? {
        NoneFailed(old(now), g);
      } else if returned && receivers.Some? {
        EarlierStill(old(now), s, now, g);
      }
    }

    /**
     * Connect. A peer already in the repository: nothing happens. Otherwise everybody found in the repository is
     * disconnected first, and nil means that every session the call started has succeeded or failed.
     */
    method Connect(done: bool, rid: Uid, receivers: Option<seq<Uid>>, w: World)
      returns (err: Option<Error>, returned: bool, g: Gid)
      requires Valid()
      modifies this, sessionRepo, heap
      ensures Valid() && Leads(old(now), now) && old(heap) <= heap && fresh(heap - old(heap))
      ensures rid == id || done || rid in old(sessionRepo.entries) ==> returned && now == old(now)
      ensures rid == id ==> err == Some(Foreign("cannot connect to himself"))
      ensures rid != id && !done && rid in old(sessionRepo.entries) ==> err.None?
      ensures rid != id && !done && rid !in old(sessionRepo.entries) && returned ==> AllGone(old(sessionRepo.entries))
      ensures rid !in old(sessionRepo.entries) && returned && err.None? ==>
        AllSettled(g) && runtime.groups[g].connecting && receivers.Some?
      ensures rid !in old(sessionRepo.entries) && returned && err.None? ==>
        Reached(g, rid) && forall u :: u in receivers.value && u != id ==> Reached(g, u)
      ensures rid != id && !done && rid !in old(sessionRepo.entries) && returned && receivers.Some? ==>
        (err.Some? <==> CreationFailed(old(now), now, g))
      ensures !returned ==> SomePending()
    {
      LeadsRefl(now);
      var early, reconnecting := Precheck(done, rid);
      if early.Some? {
        return early.value, true, 0;
      }
      err, returned, g := ConnectAfresh(reconnecting, rid, receivers, w);
    }

    lemma UsersFiled(sessions: seq<PeerSession>, ids: seq<Uid>)
      requires Valid() && |sessions| == |ids|
      requires forall k :: 0 <= k < |ids| ==>
        ids[k] in sessionRepo.entries && sessions[k] == sessionRepo.entries[ids[k]]
      requires forall u :: u in sessionRepo.entries <==> u in ids
      ensures forall u :: u in sessionRepo.entries <==> exists k :: 0 <= k < |sessions| && sessions[k].userId == u
    {
      assert Unfolds(0);
      ReachableInv(now);
      forall k | 0 <= k < |sessions| ensures sessions[k].userId == ids[k] {
        assert now.store.repo[ids[k]] == sessions[k].sid;
        assert now.store.sessions[sessions[k].sid] == sessions[k].View();
      }
      forall u | u in sessionRepo.entries ensures exists k :: 0 <= k < |sessions| && sessions[k].userId == u {
        var k :| 0 <= k < |ids| && ids[k] == u;
        assert sessions[k].userId == u;
      }
    }

    // -------------------------------------------------------------------------------------------
    // SendInStream, SendDatagram

    /** Behind the gate: a connection and a ReadyChan that does not block. */
    predicate Passes(session: PeerSession)
      reads session
    {
      session.links.conn && session.readyChan.CanRecv()
    }

    /**
     * The sessions a call sends to: every filed session behind the gate, each once, and none other. Each is fully
     * established, or failed with a whole key or none, in which case nothing can be sealed for it.
     */
    method SendTargets(op: string, done: bool) returns (targets: seq<PeerSession>, err: Option<Error>)
      requires Valid()
      ensures done ==> err == Some(App(op, App("sessionRepository.Fetch", Base(RequestTimeout))))
      ensures !done ==> err == if sessionRepo.entries == map[] then Some(App(op, Base(NotFound))) else None
      ensures err.Some? ==> targets == []
      ensures err.None? ==> forall s :: s in targets <==> Filed(s) && Passes(s)
      ensures forall j, k :: 0 <= j < k < |targets| ==> targets[j].sid != targets[k].sid
      ensures forall s :: s in targets ==> Sendable(s.View())
    {
      targets := [];
      var sessions, ids, e := sessionRepo.Fetch(done);
      if e.Some? {
        return [], Some(App(op, e.value));
      }
      if |sessions| == 0 {
        return [], Some(App(op, Base(NotFound)));
      }
      assert sessionRepo.entries != map[] by {
        assert ids[0] in sessionRepo.entries;
      }
      FiledOnce(sessions, ids);
      targets := Gated(sessions);
      err := None;
      EveryEntryFetched(sessions, ids);
      PassingIsSendable(targets);
    }

    /** The loop over the sessions. */
    method Gated(sessions: seq<PeerSession>) returns (targets: seq<PeerSession>)
      requires forall j, k :: 0 <= j < k < |sessions| ==> sessions[j].sid != sessions[k].sid
      ensures forall s :: s in targets <==> s in sessions && Passes(s)
      ensures forall j, k :: 0 <= j < k < |targets| ==> targets[j].sid != targets[k].sid
    {
      targets := [];
      for n := 0 to |sessions|
        invariant forall s :: s in targets <==> s in sessions[..n] && Passes(s)
        invariant forall j, k :: 0 <= j < k < |targets| ==> targets[j].sid != targets[k].sid
      {
        assert sessions[..n + 1] == sessions[..n] + [sessions[n]];
        assert forall s :: s in sessions[..n] ==> s.sid != sessions[n].sid;
        if Passes(sessions[n]) {
          assert forall j :: 0 <= j < |targets| ==> targets[j] in targets;
          targets := targets + [sessions[n]];
        }
      }
      assert sessions[..|sessions|] == sessions;
    }

    lemma EveryEntryFetched(sessions: seq<PeerSession>, ids: seq<Uid>)
      requires |sessions| == |ids| && (forall u :: u in sessionRepo.entries <==> u in ids)
      requires forall k ::
        0 <= k < |ids| ==> ids[k] in sessionRepo.entries && sessions[k] == sessionRepo.entries[ids[k]]
      ensures forall s :: s in sessions <==> Filed(s)
    {
      forall s | Filed(s) ensures s in sessions {
        var u :| u in sessionRepo.entries && sessionRepo.entries[u] == s;
        var k :| 0 <= k < |ids| && ids[k] == u;
        assert sessions[k] == s;
      }
    }

    lemma PassingIsSendable(targets: seq<PeerSession>)
      requires Valid() && forall s :: s in targets ==> Filed(s) && Passes(s)
      ensures forall s :: s in targets ==> Sendable(s.View())
    {
      assert Unfolds(0);
      forall s | s in targets ensures Sendable(s.View()) {
        FiledIsAdded(now, s);
        assert now.store.sessions[s.sid] == s.View();
        BehindTheGate(now, s.sid);
      }
    }
  }
}
