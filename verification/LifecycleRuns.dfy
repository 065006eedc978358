/** Runs that exist: what a goroutine can do on its own, and how far any reachable state can be driven. */
module LifecycleRuns {
  import opened Channels
  import opened Wire
  import opened Media
  import opened Lifecycle
  import opened LifecycleInvariant
  import opened LifecycleWaiting
  import opened LifecycleTheorems
  import opened LifecycleCallbacks

  // ---------------------------------------------------------------------------------------------
  // One step

  /** Goroutines that do not move stay where they are. */
  ghost predicate OthersStay(s: State, t: State, p: Pid) {
    s.next <= t.next && forall k :: k in s.procs && k != p ==> k in t.procs && t.procs[k] == s.procs[k]
  }

  lemma Go(s: State, step: Step) returns (t: State)
    requires Reachable(s) && Enabled(s, step)
    ensures t == Lifecycle.Apply(s, step) && Reachable(t) && Leads(s, t)
    ensures OthersStay(s, t, Actor(s, step))
  {
    t := Lifecycle.Apply(s, step);
    LeadsRefl(s);
    LeadsSnoc(s, s, step);
    LeadsSnoc(Lifecycle.INITIAL, s, step);
    ReachableInv(s);
    var i := InvLocal(s, step);
  }

  lemma PanicFree(s: State)
    requires Reachable(s)
    ensures !s.panicked
  {
    ReachableInv(s);
  }

  // ---------------------------------------------------------------------------------------------
  // Teardown

  function StagesLeft(stage: TearStage): nat {
    match stage
    case TearStream => 7 case TearConn => 6 case TearAgent => 5
    case TearMedia(Voice) => 4 case TearMedia(Webcam) => 3 case TearMedia(Screen) => 2
    case TearDelete => 1 case TearNotify => 0
  }

  lemma TornKeeps(st: Store, i: Sid, proc: Proc, handler: bool)
    requires i < |st.sessions| && proc.TearingDown?
    ensures var st' := TornStore(st, i, proc, handler);
      && |st'.sessions| == |st.sessions| && st'.sessions[i].links == st.sessions[i].links
      && (proc.leave ==> st'.sessions[i].callbacks == st.sessions[i].callbacks)
      && (proc.tstage.TearNotify? ==> st'.sessions[i].closing == Over(proc.leave) && st'.removed == st.removed)
  {
  }

  /** One statement inside Closing.Do. */
  lemma TearsOn(s: State, p: Pid, i: Sid, leave: bool, stage: TearStage) returns (t: State)
    requires Reachable(s) && p in s.procs && s.procs[p] == TearingDown(i, leave, stage, None)
    ensures Known(s, i) && Reachable(t) && Leads(s, t)
    ensures t.procs == if stage.TearNotify? then s.procs - {p}
                       else s.procs[p := TearingDown(i, leave, NextTear(stage), None)]
    ensures Known(t, i) && t.store.sessions[i].links == s.store.sessions[i].links
    ensures leave ==> t.store.sessions[i].callbacks == s.store.sessions[i].callbacks
    ensures stage.TearNotify? ==> i in t.store.removed && t.store.sessions[i].closing == Over(leave)
  {
    ReachableInv(s);
    assert ProcOk(p, s.procs[p], s.store, s.messages);
    Look(s, p, i);
    MediaIsOpen(s, p, i);
    TearShape(s, p, i, false);
    TornKeeps(s.store, i, s.procs[p], false);
    if stage.TearNotify? {
      SeenRemoved(s, p, StepTear(false));
    }
    t := Go(s, TearStep(p, StepTear(false)));
  }

  /** Nothing inside Closing.Do waits for anybody: whoever runs it can run it to the end. */
  lemma {:induction false} TearDownAlone(s: State, p: Pid, i: Sid, leave: bool, stage: TearStage) returns (t: State)
    requires Reachable(s) && p in s.procs && s.procs[p] == TearingDown(i, leave, stage, None)
    ensures Reachable(t) && Leads(s, t) && t.procs == s.procs - {p}
    ensures Known(s, i) && Known(t, i) && i in t.store.removed && t.store.sessions[i].closing == Over(leave)
    ensures t.store.sessions[i].links == s.store.sessions[i].links
    ensures leave ==> t.store.sessions[i].callbacks == s.store.sessions[i].callbacks
    decreases StagesLeft(stage)
  {
    t := TearsOn(s, p, i, leave, stage);
    if !stage.TearNotify? {
      var s' := t;
      t := TearDownAlone(s', p, i, leave, NextTear(stage));
      LeadsTrans(s, s', t);
    }
  }

  // ---------------------------------------------------------------------------------------------
  // Establishment

  /** The session's establishment stands at `stage`, past its gate or with a token there. */
  ghost predicate Poised(s: State, q: Pid, i: Sid, stage: EstStage) {
    && Reachable(s) && Known(s, i) && q in s.procs && s.procs[q] == Establishing(i, stage)
    && (stage.AwaitCreds? ==> s.store.sessions[i].credsChan.CanRecv())
  }

  /** Establishment touches neither the repository nor what a teardown of the session has done. */
  predicate SameTeardown(s: State, t: State, i: Sid) {
    && t.groups == s.groups && Known(s, i) && Known(t, i)
    && t.store.repo == s.store.repo && t.store.removed == s.store.removed
    && t.store.sessions[i].closing == s.store.sessions[i].closing
    && t.store.sessions[i].userId == s.store.sessions[i].userId
  }

  /** One statement of establishConnection. */
  lemma EstablishesOn(s: State, q: Pid, i: Sid, stage: EstStage, key: bytes) returns (t: State)
    requires Poised(s, q, i, stage) && |key| == KEY_SIZE
    ensures Reachable(t) && Leads(s, t) && OthersStay(s, t, q) && SameTeardown(s, t, i)
    ensures if stage.ClosingReady? then Known(t, i) && q !in t.procs && FullyEstablished(t.store.sessions[i])
            else Poised(t, q, i, NextStage(stage))
  {
    ReachableInv(s);
    Look(s, q, i);
    AdvanceShape(s, q, i, key, true);
    EstMembers(s, q, Advance(key, true));
    t := Go(s, EstStep(q, Advance(key, true)));
  }

  /** Once a token is there and no call fails, establishment can get to any later statement. */
  lemma {:induction false} EstablishUpTo(s: State, q: Pid, i: Sid, stage: EstStage, goal: EstStage, key: bytes)
    returns (t: State)
    requires Poised(s, q, i, stage) && |key| == KEY_SIZE && Rank(stage) <= Rank(goal)
    ensures Poised(t, q, i, goal) && Leads(s, t) && OthersStay(s, t, q) && SameTeardown(s, t, i)
    decreases Rank(goal) - Rank(stage)
  {
    if stage == goal {
      LeadsRefl(s);
      t := s;
    } else {
      var s' := EstablishesOn(s, q, i, stage, key);
      t := EstablishUpTo(s', q, i, NextStage(stage), goal, key);
      LeadsTrans(s, s', t);
    }
  }

  /** In particular to its end, with everything in place. */
  lemma EstablishAlone(s: State, q: Pid, i: Sid, stage: EstStage, key: bytes) returns (t: State)
    requires Poised(s, q, i, stage) && |key| == KEY_SIZE
    ensures Reachable(t) && Leads(s, t) && OthersStay(s, t, q) && SameTeardown(s, t, i)
    ensures Known(t, i) && q !in t.procs && FullyEstablished(t.store.sessions[i])
  {
    var s' := EstablishUpTo(s, q, i, stage, ClosingReady, key);
    t := EstablishesOn(s', q, i, ClosingReady, key);
    LeadsTrans(s, s', t);
  }

  // ---------------------------------------------------------------------------------------------
  // A token for a session that waits at its gate

  /** Session `i` is in the repository, untouched by any teardown, and waits for its credentials. */
  ghost predicate Waits(s: State, q: Pid, i: Sid) {
    && Reachable(s) && Known(s, i) && q in s.procs && s.procs[q] == Establishing(i, AwaitCreds)
    && s.store.sessions[i].closing.Fresh?
    && s.store.sessions[i].userId in s.store.repo && s.store.repo[s.store.sessions[i].userId] == i
  }

  /** A step of another goroutine that leaves the session alone and the repository as it is. */
  ghost predicate Spares(s: State, t: State, i: Sid) {
    && Known(s, i) && Known(t, i) && t.store.repo == s.store.repo
    && t.store.sessions[i].closing == s.store.sessions[i].closing
    && t.store.sessions[i].userId == s.store.sessions[i].userId
  }

  lemma StillWaits(s: State, t: State, p: Pid, q: Pid, i: Sid)
    requires Waits(s, q, i) && Reachable(t) && OthersStay(s, t, p) && p != q && Spares(s, t, i)
    ensures Waits(t, q, i)
  {
  }

  /** A message handler's step that writes no session. */
  lemma GoHandling(s: State, p: Pid, act: MsgAct, q: Pid, i: Sid) returns (t: State)
    requires Waits(s, q, i) && p != q && CanHandle(s, p, act) && !act.Offer? && !act.Install?
    ensures Waits(t, q, i) && Leads(s, t) && OthersStay(s, t, p)
    ensures t.procs == if MsgNext(s, p, act).Some? then s.procs[p := MsgNext(s, p, act).value] else s.procs - {p}
    ensures t.store == s.store && t.flights == FlightsNext(s, p, act) && t.groups == s.groups
  {
    PanicFree(s);
    MsgShape(s, p, act);
    MsgMembers(s, p, act);
    MsgFlightsShape(s, p, act);
    t := Go(s, MsgStep(p, act));
    StillWaits(s, t, p, q, i);
  }

  /** A creating goroutine gives up. */
  lemma GoGivingUp(s: State, p: Pid, q: Pid, i: Sid) returns (t: State)
    requires Waits(s, q, i) && p != q && p in s.procs && (s.procs[p].Creating? || s.procs[p].Made?)
    requires s.procs[p].why.ForFlight?
    ensures Waits(t, q, i) && Leads(s, t) && OthersStay(s, t, p) && t.flights == s.flights
    ensures p in t.procs && t.procs[p] == Publishing(s.procs[p].why.fid, None, s.procs[p].why.msg)
  {
    PanicFree(s);
    UnluckyShape(s, p, UidOf(s, s.procs[p]), s.procs[p].why);
    t := Go(s, CreateStep(p, GiveUp));
    StillWaits(s, t, p, q, i);
  }

  lemma CreateSpares(s: State, p: Pid, act: CreateAct)
    requires CanCreate(s, p, act)
    ensures CreateApply(s, p, act).closing == s.closing && CreateApply(s, p, act).flights == s.flights
  {
  }

  /** The groups once the member's session has its goroutine. */
  function AimedAt(groups: map<Gid, Group>, why: Purpose, p: Pid, i: Sid): map<Gid, Group> {
    if why.ForGroup? && why.gid in groups
    then groups[why.gid := groups[why.gid].(targets := groups[why.gid].targets[i := p])] else groups
  }

  /** A goroutine that won the insertion starts the establishment. */
  lemma GoLaunching(s: State, p: Pid) returns (t: State)
    requires Reachable(s) && p in s.procs && s.procs[p].Won?
    ensures var j := s.procs[p].sid;
      && Known(s, j) && Reachable(t) && Leads(s, t) && OthersStay(s, t, p) && t.flights == s.flights
      && t.closing == s.closing && t.groups == AimedAt(s.groups, s.procs[p].why, p, j)
      && t.store == Put(s.store, j, s.store.sessions[j].(owner := s.next))
      && t.procs == s.procs[s.next := Establishing(j, AwaitCreds)][p := LuckyProc(j, s.procs[p].why)] && p < s.next
  {
    ReachableInv(s);
    assert ProcOk(p, s.procs[p], s.store, s.messages);
    LaunchShape(s, p, s.procs[p].sid);
    CreateSpares(s, p, Launch);
    t := Go(s, CreateStep(p, Launch));
  }

  /** Whoever leads the lookup of a user can bring it to its end. */
  lemma ToPublishing(s: State, l: Pid, q: Pid, i: Sid, u: Uid) returns (t: State)
    requires Waits(s, q, i) && l != q && FlightAt(s.procs, l, true).Some?
    requires FlightAt(s.procs, l, true).value.1.sender == u
    ensures Waits(t, q, i) && Leads(s, t) && OthersStay(s, t, l) && t.flights == s.flights
    ensures l in t.procs && t.procs[l].Publishing? && t.procs[l].msg.sender == u
  {
    ReachableInv(s);
    assert FlightProcOk(l, FlightAt(s.procs, l, true), true, s.flights);
    match s.procs[l]
    case Leading(_, _) => t := GoHandling(s, l, LookUp(true), q, i);
    case Creating(_, _, _) => t := GoGivingUp(s, l, q, i);
    case Made(_, _) => t := GoGivingUp(s, l, q, i);
    case Won(j, _) =>
      OwnersDiffer(s, l, j, q, i);
      t := GoLaunching(s, l);
      StillWaits(s, t, l, q, i);
    case Publishing(_, _, _) => LeadsRefl(s); t := s;
  }

  lemma OwnersDiffer(s: State, l: Pid, j: Sid, q: Pid, i: Sid)
    requires Reachable(s) && l in s.procs && Owns(s.procs[l], j) && q in s.procs && Owns(s.procs[q], i) && l != q
    ensures i != j
  {
    if i == j {
      OneOwner(s, i, l, q);
    }
  }

  /** Nobody's teardown moves. */
  ghost predicate TeardownsStay(s: State, t: State) {
    forall k :: k in s.procs && s.procs[k].TearingDown? ==> k in t.procs && t.procs[k] == s.procs[k]
  }

  /** No lookup of the session's user is under way any more. */
  lemma FreeFlight(s: State, q: Pid, i: Sid) returns (t: State)
    requires Waits(s, q, i)
    ensures Waits(t, q, i) && Leads(s, t) && t.store.sessions[i].userId !in t.flights.current
    ensures TeardownsStay(s, t)
  {
    var u := s.store.sessions[i].userId;
    if u !in s.flights.current {
      LeadsRefl(s);
      t := s;
    } else {
      var l := LeaderOf(s, q, u);
      var s' := ToPublishing(s, l, q, i, u);
      KeepsUser(s, s', i);
      LeadersFlight(s', l);
      t := GoHandling(s', l, Publish, q, i);
      LeadsTrans(s, s', t);
    }
  }

  lemma LeaderOf(s: State, q: Pid, u: Uid) returns (l: Pid)
    requires Reachable(s) && u in s.flights.current && q in s.procs && s.procs[q].Establishing?
    ensures l != q && FlightAt(s.procs, l, true).Some? && FlightAt(s.procs, l, true).value.1.sender == u
  {
    ReachableInv(s);
    var f := s.flights.current[u];
    assert CurrentOk(u, f, s.flights, s.procs);
    l := s.flights.all[f].leader;
    assert FlightProcOk(l, FlightAt(s.procs, l, true), true, s.flights);
  }

  lemma LeadersFlight(s: State, l: Pid)
    requires Reachable(s) && l in s.procs && s.procs[l].Publishing?
    ensures s.procs[l].fid < |s.flights.all|
  {
    ReachableInv(s);
    assert FlightProcOk(l, FlightAt(s.procs, l, true), true, s.flights);
  }

  lemma KeepsUser(s: State, t: State, i: Sid)
    requires Reachable(s) && Leads(s, t) && Known(s, i)
    ensures Known(t, i) && t.store.sessions[i].userId == s.store.sessions[i].userId
  {
    ReachableInv(s);
    LeadsReaches(s, t);
    var steps :| Reaches(s, steps, t);
    RunGrows(s, steps, t);
  }

  /** The handler that was given session `i` installs the credentials and offers the token. */
  lemma Installs(s: State, p: Pid, q: Pid, i: Sid, msg: Msg) returns (t: State)
    requires Waits(s, q, i) && p != q && p in s.procs && s.procs[p] == Handling(i, msg) && msg.content.NewCreds?
    ensures Waits(t, q, i) && Leads(s, t) && OthersStay(s, t, p) && t.store.sessions[i].credsChan.CanRecv()
    ensures t.groups == s.groups
  {
    NoConnectionYet(s, q, i);
    var s1 := GoHandling(s, p, Handle, q, i);
    var s2 := GoInstalling(s1, p, q, i, msg);
    t := GoOffering(s2, p, q, i);
    LeadsTrans(s, s1, s2);
    LeadsTrans(s, s2, t);
  }

  lemma NoConnectionYet(s: State, q: Pid, i: Sid)
    requires Waits(s, q, i)
    ensures !s.store.sessions[i].links.conn
  {
    ReachableInv(s);
    assert ProcOk(q, s.procs[q], s.store, s.messages);
    Look(s, q, i);
  }

  lemma GoInstalling(s: State, p: Pid, q: Pid, i: Sid, msg: Msg) returns (t: State)
    requires Waits(s, q, i) && p != q && p in s.procs && s.procs[p] == Installing(i, msg) && msg.content.NewCreds?
    ensures Waits(t, q, i) && Leads(s, t) && OthersStay(s, t, p) && p in t.procs && t.procs[p] == Offering(i)
    ensures t.groups == s.groups
  {
    PanicFree(s);
    MsgShape(s, p, Install(true));
    MsgMembers(s, p, Install(true));
    t := Go(s, MsgStep(p, Install(true)));
    StillWaits(s, t, p, q, i);
  }

  lemma GoOffering(s: State, p: Pid, q: Pid, i: Sid) returns (t: State)
    requires Waits(s, q, i) && p != q && p in s.procs && s.procs[p] == Offering(i)
    ensures Waits(t, q, i) && Leads(s, t) && OthersStay(s, t, p) && t.store.sessions[i].credsChan.CanRecv()
    ensures t.groups == s.groups
  {
    PanicFree(s);
    ReachableInv(s);
    Look(s, p, i);
    OfferShape(s, p, i);
    MsgMembers(s, p, Offer);
    t := Go(s, MsgStep(p, Offer));
    StillWaits(s, t, p, q, i);
  }

  /** A credentials message arrives and no lookup of its sender is under way: its handler leads one. */
  lemma Arrives(s: State, q: Pid, i: Sid, msg: Msg) returns (t: State, p: Pid)
    requires Waits(s, q, i) && msg.sender !in s.flights.current
    ensures Waits(t, q, i) && Leads(s, t) && OthersStay(s, t, p) && p !in s.procs && p != q
    ensures p in t.procs && t.procs[p].Leading? && t.procs[p].msg == msg && t.procs[p].fid < |t.flights.all|
    ensures t.store == s.store && t.groups == s.groups
  {
    PanicFree(s);
    PidIsNew(s);
    p := s.next;
    EnvShape(s, EnvAct.Deliver(msg));
    var s1 := Go(s, EnvStep(EnvAct.Deliver(msg)));
    StillWaits(s, s1, p, q, i);
    t := GoHandling(s1, p, Join, q, i);
    LeadsTrans(s, s1, t);
  }

  lemma PidIsNew(s: State)
    requires Reachable(s)
    ensures s.next !in s.procs
  {
    ReachableInv(s);
  }

  /** Its handler finds session `i` in the repository. */
  lemma Finds(s: State, q: Pid, i: Sid, msg: Msg) returns (t: State, p: Pid)
    requires Waits(s, q, i) && msg.sender == s.store.sessions[i].userId && msg.sender !in s.flights.current
    ensures Waits(t, q, i) && Leads(s, t) && OthersStay(s, t, p) && p !in s.procs && p != q
    ensures p in t.procs && t.procs[p] == Handling(i, msg) && t.groups == s.groups
  {
    var s1;
    s1, p := Arrives(s, q, i, msg);
    var s2 := GoHandling(s1, p, LookUp(false), q, i);
    LeadersFlight(s2, p);
    t := GoHandling(s2, p, Publish, q, i);
    LeadsTrans(s, s1, s2);
    LeadsTrans(s, s2, t);
  }

  /** With no lookup of its user under way, the session's token is a few statements of a new handler away. */
  lemma SendToken(s: State, q: Pid, i: Sid, creds: Credentials) returns (t: State)
    requires Waits(s, q, i) && s.store.sessions[i].userId !in s.flights.current
    ensures Leads(s, t) && Poised(t, q, i, AwaitCreds) && Waits(t, q, i) && AllStay(s, t) && t.groups == s.groups
  {
    var msg := Msg(s.store.sessions[i].userId, NewCreds(creds));
    var s', p := Finds(s, q, i, msg);
    t := Installs(s', p, q, i, msg);
    LeadsTrans(s, s', t);
  }

  ghost predicate AllStay(s: State, t: State) {
    forall k :: k in s.procs ==> k in t.procs && t.procs[k] == s.procs[k]
  }

  /** Whoever waits at the gate, in the repository, can be sent its token. */
  lemma BringToken(s: State, q: Pid, i: Sid, creds: Credentials) returns (t: State)
    requires Waits(s, q, i)
    ensures Leads(s, t) && Poised(t, q, i, AwaitCreds) && Waits(t, q, i) && TeardownsStay(s, t)
  {
    var s' := FreeFlight(s, q, i);
    t := SendToken(s', q, i, creds);
    LeadsTrans(s, s', t);
  }

  // ---------------------------------------------------------------------------------------------
  // Leaving before the announcement

  /** A user's DisconnectFromId is called and enters Closing.Do first. */
  lemma LeavingStarts(s: State, i: Sid) returns (t: State, p: Pid)
    requires Reachable(s) && Known(s, i) && i in s.store.added && s.store.sessions[i].closing.Fresh?
    ensures Reachable(t) && Leads(s, t) && OthersStay(s, t, p) && p !in s.procs
    ensures p in t.procs && t.procs[p] == TearingDown(i, true, TearStream, None)
    ensures Known(t, i) && t.store.sessions[i].callbacks == s.store.sessions[i].callbacks
  {
    PanicFree(s);
    PidIsNew(s);
    p := s.next;
    EnvShape(s, CallDisconnect(i, true));
    var s' := Go(s, EnvStep(CallDisconnect(i, true)));
    PanicFree(s');
    EnterShape(s', p, i);
    t := Go(s', TearStep(p, EnterOnce));
    LeadsTrans(s, s', t);
  }

  /** The announcement itself. */
  lemma Announce(s: State, q: Pid, i: Sid) returns (t: State)
    requires Poised(s, q, i, Announcing)
    ensures Reachable(t) && Leads(s, t) && OthersStay(s, t, q) && SameTeardown(s, t, i)
    ensures t.store.sessions[i].callbacks == s.store.sessions[i].callbacks + [Connected]
  {
    PanicFree(s);
    AdvanceShape(s, q, i, [], true);
    EstMembers(s, q, Advance([], true));
    t := Go(s, EstStep(q, Advance([], true)));
  }

  /** `t1`: the user has left and has been told nothing; `t2`: the user is told that the peer is connected. */
  ghost predicate LateAnnouncement(s: State, t1: State, t2: State, i: Sid) {
    && Leads(s, t1) && Leads(t1, t2) && Known(t1, i) && Known(t2, i)
    && t1.store.sessions[i].closing == Over(true) && i in t1.store.removed
    && Connected !in t1.store.sessions[i].callbacks && Connected in t2.store.sessions[i].callbacks
  }

  lemma ConnectedAfterLeaving(s: State, q: Pid, i: Sid) returns (t1: State, t2: State)
    requires Poised(s, q, i, Announcing) && s.store.sessions[i].closing.Fresh?
    ensures LateAnnouncement(s, t1, t2, i)
  {
    AnnouncerAhead(s, q, i, Announcing);
    OnlyLeavingPrecedes(s, i);
    var s', p := LeavingStarts(s, i);
    t1 := TearDownAlone(s', p, i, true, TearStream);
    LeadsTrans(s, s', t1);
    t2 := Announce(t1, q, i);
  }

  lemma AnnouncerAhead(s: State, q: Pid, i: Sid, stage: EstStage)
    requires Poised(s, q, i, stage) && Rank(stage) <= 7
    ensures Ahead(s, i) && i in s.store.added
  {
    ReachableInv(s);
    assert ProcOk(q, s.procs[q], s.store, s.messages);
    Look(s, q, i);
  }

  /** From wherever the announcement is ahead, establishment can be brought past its gate. */
  lemma ToPoised(s: State, i: Sid) returns (t: State, q: Pid, stage: EstStage)
    requires Reachable(s) && Ahead(s, i) && i in s.store.repo.Values && s.store.sessions[i].closing.Fresh?
    ensures Leads(s, t) && Poised(t, q, i, stage) && Rank(stage) <= 7 && t.store.sessions[i].closing.Fresh?
  {
    q := s.store.sessions[i].owner;
    FiledUnderItsUser(s, i);
    if s.procs[q].Won? {
      var s' := GoLaunching(s, q);
      q := s.next;
      t := BringToken(s', q, i, ([], []));
      LeadsTrans(s, s', t);
      stage := AwaitCreds;
    } else {
      stage := s.procs[q].stage;
      if stage.AwaitCreds? {
        t := BringToken(s, q, i, ([], []));
      } else {
        LeadsRefl(s);
        t := s;
      }
    }
  }

  lemma FiledUnderItsUser(s: State, i: Sid)
    requires Reachable(s) && i in s.store.repo.Values
    ensures Known(s, i) && s.store.sessions[i].userId in s.store.repo && s.store.repo[s.store.sessions[i].userId] == i
    ensures i in s.store.added
  {
    ReachableInv(s);
  }

  /**
   * The connected callback does not mean that the session is still there. For every session in the repository that
   * nobody has begun to tear down: a user who leaves now can be told afterwards that the peer is connected exactly if
   * the announcement is still ahead.
   */
  lemma LateAnnouncementExactly(s: State, i: Sid)
    requires Reachable(s) && i in s.store.repo.Values && Known(s, i) && s.store.sessions[i].closing.Fresh?
    ensures Ahead(s, i) <==> exists t1, t2 :: LateAnnouncement(s, t1, t2, i)
  {
    if Ahead(s, i) {
      var s1, q, stage := ToPoised(s, i);
      var s2 := EstablishUpTo(s1, q, i, stage, Announcing, seq(KEY_SIZE, _ => 0));
      var t1, t2 := ConnectedAfterLeaving(s2, q, i);
      LeadsTrans(s, s1, s2);
      LeadsTrans(s, s2, t1);
      assert LateAnnouncement(s, t1, t2, i);
    } else {
      forall t1, t2 ensures !LateAnnouncement(s, t1, t2, i) {
        if LateAnnouncement(s, t1, t2, i) {
          LeadsTrans(s, t1, t2);
          AnnouncedByNow(s, i, t1);
          AnnouncedByNow(s, i, t2);
        }
      }
    }
  }

  lemma AnnouncedByNow(s: State, i: Sid, t: State)
    requires Reachable(s) && i in s.store.repo.Values && Known(s, i) && !Ahead(s, i) && Leads(s, t)
    ensures Known(t, i)
    ensures Connected in t.store.sessions[i].callbacks <==> Connected in s.store.sessions[i].callbacks
  {
    FiledUnderItsUser(s, i);
    ReachableInv(s);
    LeadsReaches(s, t);
    var more :| Reaches(s, more, t);
    NotAheadForGood(s, more, t, i);
  }

  // ---------------------------------------------------------------------------------------------
  // A new session

  lemma GoAllocating(s: State, p: Pid) returns (t: State)
    requires Reachable(s) && p in s.procs && s.procs[p].Creating?
    ensures Reachable(t) && Leads(s, t) && OthersStay(s, t, p) && t.flights == s.flights && t.closing == s.closing
    ensures t.groups == s.groups
    ensures var i := |s.store.sessions|;
      && t.procs == s.procs[p := Made(i, s.procs[p].why)] && t.store.repo == s.store.repo
      && Known(t, i) && t.store.sessions[i] == NewSession(s.procs[p].uid, s.procs[p].initiator, p)
  {
    PanicFree(s);
    CreateSpares(s, p, Allocate);
    t := Go(s, CreateStep(p, Allocate));
  }

  lemma GoAdding(s: State, p: Pid) returns (t: State)
    requires Reachable(s) && p in s.procs && s.procs[p].Made? && Known(s, s.procs[p].sid)
    requires s.store.sessions[s.procs[p].sid].userId !in s.store.repo
    ensures Reachable(t) && Leads(s, t) && OthersStay(s, t, p) && t.flights == s.flights && t.closing == s.closing
    ensures t.procs == s.procs[p := Won(s.procs[p].sid, s.procs[p].why)]
    ensures t.store == Added(s.store, s.procs[p].sid) && t.groups == s.groups
  {
    PanicFree(s);
    AddShape(s, p, s.procs[p].sid);
    CreateSpares(s, p, Add(false));
    t := Go(s, CreateStep(p, Add(false)));
  }

  /** A free user id: the session is made, filed and sent on its way. */
  lemma Creates(s: State, p: Pid, uid: Uid, initiator: bool, why: Purpose) returns (t: State, q: Pid, i: Sid)
    requires Reachable(s) && p in s.procs && s.procs[p] == Creating(uid, initiator, why) && uid !in s.store.repo
    ensures Waits(t, q, i) && Leads(s, t) && OthersStay(s, t, p) && t.flights == s.flights && t.closing == s.closing
    ensures t.procs == s.procs[q := Establishing(i, AwaitCreds)][p := LuckyProc(i, why)]
    ensures q !in s.procs && i !in s.store.added && t.groups == AimedAt(s.groups, why, p, i)
    ensures t.store.sessions[i].userId == uid && t.store.sessions[i].initiator == initiator
    ensures t.store.repo == s.store.repo[uid := i]
  {
    i := |s.store.sessions|;
    var s1 := GoAllocating(s, p);
    var s2 := GoAdding(s1, p);
    q := s2.next;
    t := LaunchNew(s2, p, i);
    LeadsTrans(s, s1, s2);
    LeadsTrans(s, s2, t);
    NotYetAdded(s);
    PidsBelow(s);
  }

  lemma LaunchNew(s: State, p: Pid, i: Sid) returns (t: State)
    requires Reachable(s) && p in s.procs && s.procs[p].Won? && s.procs[p].sid == i && Known(s, i)
    requires s.store.sessions[i].closing.Fresh?
    requires s.store.sessions[i].userId in s.store.repo && s.store.repo[s.store.sessions[i].userId] == i
    ensures Waits(t, s.next, i) && Leads(s, t) && OthersStay(s, t, p) && t.flights == s.flights
    ensures t.closing == s.closing
    ensures t.procs == s.procs[s.next := Establishing(i, AwaitCreds)][p := LuckyProc(i, s.procs[p].why)] && p < s.next
    ensures t.store.sessions[i].userId == s.store.sessions[i].userId
    ensures t.store.sessions[i].initiator == s.store.sessions[i].initiator
    ensures t.store.repo == s.store.repo && t.groups == AimedAt(s.groups, s.procs[p].why, p, i)
  {
    t := GoLaunching(s, p);
  }

  lemma NotYetAdded(s: State)
    requires Reachable(s)
    ensures |s.store.sessions| !in s.store.added
  {
    ReachableInv(s);
  }

  lemma PidsBelow(s: State)
    requires Reachable(s)
    ensures forall k :: k in s.procs ==> k < s.next
  {
    ReachableInv(s);
  }

  /** From the start, a single credentials message leads to a session at its gate with its token. */
  lemma Signalled(msg: Msg) returns (t: State, q: Pid, i: Sid)
    requires msg.content.NewCreds?
    ensures Leads(Lifecycle.INITIAL, t) && Poised(t, q, i, AwaitCreds) && Waits(t, q, i)
    ensures t.store.sessions[i].userId == msg.sender
  {
    LeadsRefl(Lifecycle.INITIAL);
    var p := 0;
    var s1 := LookedUp(msg);
    var s2;
    s2, q, i := Creates(s1, p, msg.sender, false, ForFlight(0, msg));
    LeadersFlight(s2, p);
    var s3 := GoHandling(s2, p, Publish, q, i);
    t := Installs(s3, p, q, i, msg);
    LeadsTrans(Lifecycle.INITIAL, s1, s2);
    LeadsTrans(Lifecycle.INITIAL, s2, s3);
    LeadsTrans(Lifecycle.INITIAL, s3, t);
    KeepsUser(s2, s3, i);
    KeepsUser(s3, t, i);
  }

  /** The message has arrived, its handler leads the lookup of its sender and has found nothing. */
  lemma LookedUp(msg: Msg) returns (t: State)
    ensures Reachable(t) && Leads(Lifecycle.INITIAL, t)
    ensures t.procs == map[0 := Creating(msg.sender, false, ForFlight(0, msg))]
    ensures t.store == Lifecycle.INITIAL.store
  {
    LeadsRefl(Lifecycle.INITIAL);
    var s1 := Go(Lifecycle.INITIAL, EnvStep(EnvAct.Deliver(msg)));
    var s2 := Go(s1, MsgStep(0, Join));
    t := Go(s2, MsgStep(0, LookUp(false)));
    LeadsTrans(Lifecycle.INITIAL, s1, s2);
    LeadsTrans(Lifecycle.INITIAL, s2, t);
  }

  // ---------------------------------------------------------------------------------------------
  // What is reached from the start

  const SOME_KEY: bytes := seq(KEY_SIZE, _ => 0)

  /**
   * A session about to be announced, with a user who leaves first and is told afterwards that the peer is connected.
   */
  lemma LateAnnouncementHappens(msg: Msg) returns (s: State, t1: State, t2: State, i: Sid)
    requires msg.content.NewCreds?
    ensures Leads(Lifecycle.INITIAL, s) && i in s.store.repo.Values && LateAnnouncement(s, t1, t2, i)
  {
    var q;
    s, q, i := Signalled(msg);
    var s' := EstablishUpTo(s, q, i, AwaitCreds, Announcing, SOME_KEY);
    t1, t2 := ConnectedAfterLeaving(s', q, i);
    LeadsTrans(s, s', t1);
  }

  /** A session in the repository with a connection and an event stream, but no encoder yet. */
  lemma EncoderWindowHappens(msg: Msg) returns (t: State, i: Sid)
    requires msg.content.NewCreds?
    ensures Leads(Lifecycle.INITIAL, t) && Known(t, i) && i in t.store.repo.Values
    ensures t.store.sessions[i].links.conn && t.store.sessions[i].links.eventStream
    ensures !t.store.sessions[i].links.encoder
  {
    var s, q;
    s, q, i := Signalled(msg);
    t := EstablishUpTo(s, q, i, AwaitCreds, SettingDecoder, SOME_KEY);
    LeadsTrans(Lifecycle.INITIAL, s, t);
    LinksOf(t, q, i, SettingDecoder);
  }

  lemma LinksOf(t: State, q: Pid, i: Sid, stage: EstStage)
    requires Poised(t, q, i, stage)
    ensures LinksAt(t.store.sessions[i].links, Rank(stage)) && !t.store.sessions[i].readyChan.closed
    ensures t.store.sessions[i].readyChan.buf == []
  {
    ReachableInv(t);
    assert ProcOk(q, t.procs[q], t.store, t.messages);
    Look(t, q, i);
  }

  /**
   * A call of establishment fails after the connection was set: ReadyChan is closed on a session that is still filed.
   */
  lemma FailsBehindTheGate(s: State, q: Pid, i: Sid, stage: EstStage) returns (t: State)
    requires Poised(s, q, i, stage) && Rank(stage) <= 2
    ensures Reachable(t) && Leads(s, t) && OthersStay(s, t, q) && Known(t, i) && t.store.repo == s.store.repo
    ensures t.groups == s.groups
    ensures var x := t.store.sessions[i];
      x.links.conn && x.readyChan.closed && !x.links.eventStream && x.links.key == []
      && x.userId == s.store.sessions[i].userId
  {
    var s1 := EstablishUpTo(s, q, i, stage, KeyExchanging, SOME_KEY);
    LinksOf(s1, q, i, KeyExchanging);
    PanicFree(s1);
    EstMembers(s1, q, Fail);
    var s2 := Go(s1, EstStep(q, Fail));
    PanicFree(s2);
    EstMembers(s2, q, CloseOnError);
    t := Go(s2, EstStep(q, CloseOnError));
    LeadsTrans(s, s1, s2);
    LeadsTrans(s, s2, t);
  }

  /** A failed session in the repository behind the gate of SendInStream. */
  lemma FailedPassesTheGate(msg: Msg) returns (t: State, i: Sid)
    requires msg.content.NewCreds?
    ensures Leads(Lifecycle.INITIAL, t) && Known(t, i) && i in t.store.repo.Values
    ensures t.store.sessions[i].links.conn && t.store.sessions[i].readyChan.CanRecv()
    ensures !FullyEstablished(t.store.sessions[i])
  {
    var s, q;
    s, q, i := Signalled(msg);
    t := FailsBehindTheGate(s, q, i, AwaitCreds);
    LeadsTrans(Lifecycle.INITIAL, s, t);
  }

  // ---------------------------------------------------------------------------------------------
  // The reconnect loop takes a failed session for a success

  /** The rest of a reset. */
  lemma {:induction false} ResetAlone(s: State, r: Pid, i: Sid, stage: ResetStage, after: After) returns (t: State)
    requires Reachable(s) && r in s.procs && s.procs[r] == Resetting(i, stage, after) && Known(s, i)
    ensures Reachable(t) && Leads(s, t) && OthersStay(s, t, r) && t.closing == s.closing && t.flights == s.flights
    ensures Known(t, i)
    ensures var next := AfterReset(s.store.sessions[i].userId, s.store.sessions[i].initiator, after);
      t.procs == if next.Some? then s.procs[r := next.value] else s.procs - {r}
    ensures t.store.repo == DeleteIfSame(s.store, i).repo
    decreases ResetsLeft(stage)
  {
    PanicFree(s);
    ResetSpares(s, r);
    if stage.ResetDelete? {
      ResetShape(s, r, i);
      t := Go(s, TearStep(r, StepReset));
    } else {
      var s' := Go(s, TearStep(r, StepReset));
      t := ResetAlone(s', r, i, NextReset(stage), after);
      LeadsTrans(s, s', t);
    }
  }

  function ResetsLeft(stage: ResetStage): nat {
    match stage case ResetStream => 3 case ResetConn => 2 case ResetAgent => 1 case ResetDelete => 0
  }

  lemma ResetSpares(s: State, r: Pid)
    requires CanTear(s, r, StepReset)
    ensures ResetApply(s, r).closing == s.closing && ResetApply(s, r).flights == s.flights
    ensures var i, stage := s.procs[r].sid, s.procs[r].rstage;
      !stage.ResetDelete? ==>
        && ResetApply(s, r).procs == s.procs[r := Resetting(i, NextReset(stage), s.procs[r].after)]
        && ResetApply(s, r).store == Put(s.store, i, ResetClosed(s.store.sessions[i], stage))
  {
  }

  /** A user connects to `u`; the ICE connection fails; the loop makes a new session and waits for it. */
  lemma Reconnects(u: Uid) returns (t: State, p: Pid, q: Pid, i: Sid)
    ensures Reachable(t) && Leads(Lifecycle.INITIAL, t) && Waits(t, q, i) && t.store.sessions[i].userId == u
    ensures p != q && p in t.procs && t.procs[p] == AwaitReady(i, ForReconnect(1)) && u !in t.flights.current
  {
    var s1, first := ConnectsOnce(u);
    var s2 := LosesIce(s1, first, u);
    p := s1.next;
    t, q, i := Creates(s2, p, u, true, ForReconnect(1));
    LeadsTrans(Lifecycle.INITIAL, s1, s2);
    LeadsTrans(Lifecycle.INITIAL, s2, t);
  }

  lemma ConnectsOnce(u: Uid) returns (t: State, i: Sid)
    ensures Reachable(t) && Leads(Lifecycle.INITIAL, t) && Known(t, i) && !t.closing
    ensures t.flights == Lifecycle.INITIAL.flights
    ensures t.store.repo == map[u := i] && t.store.sessions[i].userId == u && t.store.sessions[i].initiator
  {
    LeadsRefl(Lifecycle.INITIAL);
    var s1 := Go(Lifecycle.INITIAL, EnvStep(OpenGroup(0, true)));
    var s2 := Go(s1, EnvStep(ConnectMember(0, u)));
    var q;
    t, q, i := Creates(s2, 0, u, true, ForGroup(0));
    LeadsTrans(Lifecycle.INITIAL, s1, s2);
    LeadsTrans(Lifecycle.INITIAL, s2, t);
  }

  lemma LosesIce(s: State, i: Sid, u: Uid) returns (t: State)
    requires Reachable(s) && Known(s, i) && !s.closing && s.store.repo == map[u := i]
    requires s.store.sessions[i].userId == u && s.store.sessions[i].initiator
    ensures Reachable(t) && Leads(s, t) && t.flights == s.flights && t.store.repo == map[]
    ensures s.next in t.procs && t.procs[s.next] == Creating(u, true, ForReconnect(1))
  {
    PanicFree(s);
    var p := s.next;
    EnvShape(s, IceFails(i));
    EnvSpares(s, IceFails(i));
    var s1 := Go(s, EnvStep(IceFails(i)));
    var s2 := ResetAlone(s1, p, i, ResetStream, EndIce);
    PanicFree(s2);
    QuietShape(s2, p, Retry);
    CreateSpares(s2, p, Retry);
    t := Go(s2, CreateStep(p, Retry));
    LeadsTrans(s, s1, s2);
    LeadsTrans(s, s2, t);
  }

  lemma EnvSpares(s: State, act: EnvAct)
    requires CanStart(s, act) && !act.CloseApp?
    ensures EnvApply(s, act).closing == s.closing && EnvApply(s, act).flights == s.flights
  {
  }

  /** The loop ends, reconnected as it seems, on a session whose key exchange has failed. */
  lemma LoopEndsOnFailure(u: Uid, creds: Credentials) returns (s: State, p: Pid)
    ensures Leads(Lifecycle.INITIAL, s) && Enabled(s, CreateStep(p, SeeReady)) && s.procs[p].why == ForReconnect(1)
    ensures p !in Lifecycle.Apply(s, CreateStep(p, SeeReady)).procs
    ensures !FullyEstablished(s.store.sessions[s.procs[p].sid])
  {
    var s1, q, i;
    s1, p, q, i := Reconnects(u);
    var s2 := SendToken(s1, q, i, creds);
    s := FailsBehindTheGate(s2, q, i, AwaitCreds);
    LeadsTrans(Lifecycle.INITIAL, s1, s2);
    LeadsTrans(Lifecycle.INITIAL, s2, s);
    PanicFree(s);
    LoopEndsExactly(s, p);
  }

  /** Two goroutines create sessions of the same user: the second is about to lose the insertion, with an open agent. */
  lemma InsertionIsLost(u: Uid) returns (s: State, p: Pid)
    ensures Leads(Lifecycle.INITIAL, s) && Enabled(s, CreateStep(p, Add(false))) && s.procs[p].Made?
    ensures var x := s.store.sessions[s.procs[p].sid]; x.userId == u && u in s.store.repo && !x.closed.agent
    ensures forall k :: k in s.procs ==> !s.procs[k].Resetting?
  {
    LeadsRefl(Lifecycle.INITIAL);
    var s1 := Go(Lifecycle.INITIAL, EnvStep(OpenGroup(0, true)));
    var s2 := Go(s1, EnvStep(ConnectMember(0, u)));
    var s3 := Go(s2, EnvStep(ConnectMember(0, u)));
    var s4, q, i := Creates(s3, 0, u, true, ForGroup(0));
    p := 1;
    s := GoAllocating(s4, p);
    PanicFree(s);
    LeadsTrans(Lifecycle.INITIAL, s1, s2);
    LeadsTrans(Lifecycle.INITIAL, s2, s3);
    LeadsTrans(Lifecycle.INITIAL, s3, s4);
    LeadsTrans(Lifecycle.INITIAL, s4, s);
  }
}
