/** Whether a session that waits for its credentials can still get its token. */
module LifecycleGate {
  import opened Channels
  import opened Wire
  import opened Lifecycle
  import opened LifecycleInvariant
  import opened LifecycleWaiting
  import opened LifecycleTheorems
  import opened LifecycleCallbacks
  import opened LifecycleRuns

  // ---------------------------------------------------------------------------------------------
  // Goroutines that are not the session's owner

  /** It does not become the owner, and leaves connection and key alone. */
  ghost predicate Bystands(s: State, t: State, p: Pid, i: Sid) {
    Known(s, i) && (p in s.procs ==> !Owns(s.procs[p], i)) ==>
      && Known(t, i) && (p in t.procs ==> !Owns(t.procs[p], i))
      && t.store.sessions[i].links == s.store.sessions[i].links
      && t.store.sessions[i].owner == s.store.sessions[i].owner
  }

  lemma CreateBystands(s: State, p: Pid, act: CreateAct, i: Sid)
    requires CanCreate(s, p, act)
    ensures Bystands(s, CreateApply(s, p, act), p, i)
  {
    var proc := s.procs[p];
    match act
    case GiveUp => UnluckyShape(s, p, UidOf(s, proc), proc.why);
    case Add(_) => UnluckyShape(s, p, s.store.sessions[proc.sid].userId, proc.why);
    case Launch => LaunchShape(s, p, proc.sid);
    case SeeReady => QuietShape(s, p, act);
    case Retry => QuietShape(s, p, act);
    case Allocate =>
  }

  lemma EstBystands(s: State, p: Pid, act: EstAct, i: Sid)
    requires CanEstablish(s, p, act)
    ensures Bystands(s, EstApply(s, p, act), p, i)
  {
  }

  lemma ResetBystands(s: State, p: Pid, i: Sid)
    requires CanTear(s, p, StepReset)
    ensures Bystands(s, ResetApply(s, p), p, i)
  {
    if s.procs[p].rstage.ResetDelete? {
      ResetShape(s, p, s.procs[p].sid);
    }
  }

  lemma TearBystands(s: State, p: Pid, act: TearAct, i: Sid)
    requires Inv(s) && CanTear(s, p, act)
    ensures Bystands(s, TearApply(s, p, act), p, i)
  {
    match act
    case StepReset => ResetBystands(s, p, i);
    case EnterOnce => EnterShape(s, p, s.procs[p].sid);
    case StepTear(handler) => StepTearBystands(s, p, handler, i);
  }

  lemma StepTearBystands(s: State, p: Pid, handler: bool, i: Sid)
    requires Inv(s) && CanTear(s, p, StepTear(handler))
    ensures Bystands(s, TearApply(s, p, StepTear(handler)), p, i)
  {
    var j := s.procs[p].sid;
    MediaIsOpen(s, p, j);
    TearShape(s, p, j, handler);
    TornStoreKeeps(s.store, j, s.procs[p], handler);
  }

  lemma TornStoreKeeps(st: Store, j: Sid, proc: Proc, handler: bool)
    requires j < |st.sessions| && proc.TearingDown?
    ensures var st' := TornStore(st, j, proc, handler);
      && |st'.sessions| == |st.sessions|
      && forall i :: 0 <= i < |st.sessions| ==>
           st'.sessions[i].links == st.sessions[i].links && st'.sessions[i].owner == st.sessions[i].owner
  {
  }

  lemma MsgBystands(s: State, p: Pid, act: MsgAct, i: Sid)
    requires CanHandle(s, p, act)
    ensures Bystands(s, MsgApply(s, p, act), p, i)
  {
    MsgShape(s, p, act);
    if act.Offer? {
      OfferShape(s, p, s.procs[p].sid);
    }
  }

  lemma StepBystands(s: State, step: Step, i: Sid)
    requires Inv(s) && Enabled(s, step)
    ensures Bystands(s, Apply(s, step), Actor(s, step), i)
  {
    match step
    case CreateStep(p, act) => CreateBystands(s, p, act, i);
    case EstStep(p, act) => EstBystands(s, p, act, i);
    case TearStep(p, act) => TearBystands(s, p, act, i);
    case MsgStep(p, act) => MsgBystands(s, p, act, i);
    case EnvStep(act) => EnvShape(s, act);
  }

  // ---------------------------------------------------------------------------------------------
  // At the gate

  /** The session waits at its gate, or its goroutine has not been started. */
  predicate AtGate(s: State, i: Sid) {
    Known(s, i) &&
    var q := s.store.sessions[i].owner;
    q in s.procs && (s.procs[q] == Establishing(i, AwaitCreds) || (s.procs[q].Won? && s.procs[q].sid == i))
  }

  /** No token waits for the session. */
  predicate NoToken(s: State, i: Sid) {
    Known(s, i) && s.store.sessions[i].credsChan.buf == []
  }

  /** Without a token nobody gets past: establishment stays at its gate, or fails there once the application closes. */
  lemma GateHolds(s: State, step: Step, i: Sid)
    requires Inv(s) && Enabled(s, step) && AtGate(s, i) && NoToken(s, i)
    ensures AtGate(Apply(s, step), i) || (s.closing && !Ahead(Apply(s, step), i))
    ensures Known(Apply(s, step), i) && !(exists p :: p in s.procs && s.procs[p] == Establishing(i, Dialing))
  {
    var q := s.store.sessions[i].owner;
    Look(s, q, i);
    forall p | p in s.procs ensures s.procs[p] != Establishing(i, Dialing) {
      assert ProcOk(p, s.procs[p], s.store, s.messages);
    }
    var k := InvLocal(s, step);
    if Actor(s, step) == q {
      OwnersStep(s, step, q, i);
    } else {
      if Actor(s, step) in s.procs {
        assert ProcOk(Actor(s, step), s.procs[Actor(s, step)], s.store, s.messages);
      }
      StepBystands(s, step, i);
    }
  }

  lemma OwnersStep(s: State, step: Step, q: Pid, i: Sid)
    requires Inv(s) && Enabled(s, step) && AtGate(s, i) && NoToken(s, i) && Before(s, q, i)
    requires q == s.store.sessions[i].owner && q == Actor(s, step)
    ensures AtGate(Apply(s, step), i) || (s.closing && !Ahead(Apply(s, step), i))
  {
    match step
    case CreateStep(p, act) => LaunchShape(s, p, i);
    case EstStep(p, act) =>
    case _ =>
  }

  // ---------------------------------------------------------------------------------------------
  // Who can bring a token

  /** The goroutine was given the session and credentials for it, or will pass the session on to others. */
  predicate Carries(fl: Flights, proc: Proc, i: Sid) {
    match proc
    case Won(j, why) => i == j && (why.ForFlight? || why.ForReplace?)
    case Publishing(_, found, _) => found == Some(i)
    case Following(f, msg) => msg.content.NewCreds? && f < |fl.all| && fl.all[f].result == Some(Some(i))
    case Handling(j, msg) => i == j && msg.content.NewCreds?
    case Installing(j, _) => i == j
    case Offering(j) => i == j
    case _ => false
  }

  /** A token is there, or somebody is on the way with one. */
  ghost predicate TokenComes(s: State, i: Sid) {
    !NoToken(s, i) || exists p :: p in s.procs && Carries(s.flights, s.procs[p], i)
  }

  /** Taken out, without a token and without anybody to bring one. */
  ghost predicate Starved(s: State, i: Sid) {
    Known(s, i) && i in s.store.removed && !TokenComes(s, i)
  }

  /** The step gives nobody a token, or the session. */
  ghost predicate BringsNothing(s: State, t: State, i: Sid) {
    && NoToken(t, i) && forall p :: p in t.procs ==> !Carries(t.flights, t.procs[p], i)
  }

  lemma CreateBringsNothing(s: State, p: Pid, act: CreateAct, i: Sid)
    requires Inv(s) && CanCreate(s, p, act) && Starved(s, i)
    ensures BringsNothing(s, CreateApply(s, p, act), i)
  {
    var proc := s.procs[p];
    CreateSpares(s, p, act);
    match act
    case Allocate =>
    case GiveUp => UnluckyShape(s, p, UidOf(s, proc), proc.why);
    case Add(timedOut) => AddBringsNothing(s, p, timedOut, i);
    case Launch => LaunchShape(s, p, proc.sid);
    case _ => QuietShape(s, p, act);
  }

  lemma AddBringsNothing(s: State, p: Pid, timedOut: bool, i: Sid)
    requires Inv(s) && CanCreate(s, p, Add(timedOut)) && Starved(s, i)
    ensures BringsNothing(s, CreateApply(s, p, Add(timedOut)), i)
  {
    var j, why := s.procs[p].sid, s.procs[p].why;
    var v := s.store.sessions[j].userId;
    CreateSpares(s, p, Add(timedOut));
    assert ProcOk(p, s.procs[p], s.store, s.messages);
    Look(s, p, j);
    if timedOut || v in s.store.repo {
      UnluckyShape(s, p, v, why);
    } else {
      AddShape(s, p, j);
    }
  }

  lemma EstBringsNothing(s: State, p: Pid, act: EstAct, i: Sid)
    requires Inv(s) && CanEstablish(s, p, act) && Starved(s, i)
    ensures BringsNothing(s, EstApply(s, p, act), i)
  {
    EstLeavesCalls(s, p, act);
    if act.Advance? {
      var j := s.procs[p].sid;
      assert ProcOk(p, s.procs[p], s.store, s.messages);
      Look(s, p, j);
      AdvanceShape(s, p, j, act.key, act.handler);
      EstablishedTokens(s.store.sessions[j], s.procs[p].stage, act.key, act.handler);
    }
  }

  lemma EstLeavesCalls(s: State, p: Pid, act: EstAct)
    requires CanEstablish(s, p, act)
    ensures EstApply(s, p, act).flights == s.flights
  {
  }

  lemma EstablishedTokens(x: Session, stage: EstStage, key: bytes, handler: bool)
    requires stage.AwaitCreds? ==> x.credsChan.CanRecv()
    ensures x.credsChan.buf == [] ==> Established(x, stage, key, handler).credsChan.buf == []
  {
  }

  lemma ResetBringsNothing(s: State, p: Pid, i: Sid)
    requires CanTear(s, p, StepReset) && Starved(s, i)
    ensures BringsNothing(s, ResetApply(s, p), i)
  {
    ResetSpares(s, p);
    if s.procs[p].rstage.ResetDelete? {
      ResetShape(s, p, s.procs[p].sid);
    }
  }

  lemma TearBringsNothing(s: State, p: Pid, act: TearAct, i: Sid)
    requires Inv(s) && CanTear(s, p, act) && Starved(s, i)
    ensures BringsNothing(s, TearApply(s, p, act), i)
  {
    match act
    case StepReset => ResetBringsNothing(s, p, i);
    case EnterOnce => EnterShape(s, p, s.procs[p].sid);
    case StepTear(handler) => StepTearBringsNothing(s, p, handler, i);
  }

  lemma StepTearBringsNothing(s: State, p: Pid, handler: bool, i: Sid)
    requires Inv(s) && CanTear(s, p, StepTear(handler)) && Starved(s, i)
    ensures BringsNothing(s, TearApply(s, p, StepTear(handler)), i)
  {
    var j := s.procs[p].sid;
    MediaIsOpen(s, p, j);
    TearShape(s, p, j, handler);
    TornStoreTokens(s.store, j, s.procs[p], handler);
    TearLeavesCalls(s, p, handler);
  }

  lemma TornStoreTokens(st: Store, j: Sid, proc: Proc, handler: bool)
    requires j < |st.sessions| && proc.TearingDown?
    ensures var st' := TornStore(st, j, proc, handler);
      && |st'.sessions| == |st.sessions|
      && forall i :: 0 <= i < |st.sessions| ==> st'.sessions[i].credsChan == st.sessions[i].credsChan
  {
  }

  lemma TearLeavesCalls(s: State, p: Pid, handler: bool)
    requires CanTear(s, p, StepTear(handler))
    ensures TearApply(s, p, StepTear(handler)).flights == s.flights
  {
  }

  lemma MsgBringsNothing(s: State, p: Pid, act: MsgAct, i: Sid)
    requires Inv(s) && CanHandle(s, p, act) && Starved(s, i)
    ensures BringsNothing(s, MsgApply(s, p, act), i)
  {
    MsgShape(s, p, act);
    MsgFlightsShape(s, p, act);
    assert FlightProcOk(p, FlightAt(s.procs, p, true), true, s.flights);
    if act.Offer? {
      OfferShape(s, p, s.procs[p].sid);
    }
    if act.Join? && s.procs[p].msg.sender in s.flights.current {
      var u := s.procs[p].msg.sender;
      assert CurrentOk(u, s.flights.current[u], s.flights, s.procs);
    }
  }

  lemma StarvedStep(s: State, step: Step, i: Sid)
    requires Inv(s) && Enabled(s, step) && Starved(s, i)
    ensures Starved(Apply(s, step), i)
  {
    var k := InvLocal(s, step);
    match step
    case CreateStep(p, act) => CreateBringsNothing(s, p, act, i);
    case EstStep(p, act) => EstBringsNothing(s, p, act, i);
    case TearStep(p, act) => TearBringsNothing(s, p, act, i);
    case MsgStep(p, act) => MsgBringsNothing(s, p, act, i);
    case EnvStep(act) => EnvShape(s, act);
  }

  lemma {:induction false} StarvedRun(s: State, more: seq<Step>, t: State, i: Sid)
    requires Inv(s) && Reaches(s, more, t) && Starved(s, i)
    ensures Starved(t, i)
    decreases |more|
  {
    if more != [] {
      StarvedStep(s, more[0], i);
      InvStep(s, more[0]);
      StarvedRun(Apply(s, more[0]), more[1..], t, i);
    }
  }

  // ---------------------------------------------------------------------------------------------
  // How it comes

  /** The session's goroutine waits at the gate; no teardown has begun. The session need not be filed. */
  ghost predicate Stands(s: State, q: Pid, i: Sid) {
    && Reachable(s) && Known(s, i) && q in s.procs && s.procs[q] == Establishing(i, AwaitCreds)
    && s.store.sessions[i].closing.Fresh?
  }

  /** A message handler's step that writes no session. */
  lemma Handles(s: State, p: Pid, act: MsgAct, q: Pid, i: Sid) returns (t: State)
    requires Stands(s, q, i) && p != q && CanHandle(s, p, act) && !act.Offer? && !act.Install?
    ensures Stands(t, q, i) && Leads(s, t) && OthersStay(s, t, p)
    ensures t.procs == if MsgNext(s, p, act).Some? then s.procs[p := MsgNext(s, p, act).value] else s.procs - {p}
    ensures t.flights == FlightsNext(s, p, act)
  {
    PanicFree(s);
    MsgShape(s, p, act);
    MsgFlightsShape(s, p, act);
    t := Go(s, MsgStep(p, act));
  }

  lemma FromOffering(s: State, p: Pid, q: Pid, i: Sid) returns (t: State)
    requires Stands(s, q, i) && p in s.procs && s.procs[p] == Offering(i)
    ensures Stands(t, q, i) && Leads(s, t) && t.store.sessions[i].credsChan.CanRecv()
  {
    PanicFree(s);
    ReachableInv(s);
    Look(s, p, i);
    OfferShape(s, p, i);
    t := Go(s, MsgStep(p, Offer));
  }

  lemma FromInstalling(s: State, p: Pid, q: Pid, i: Sid) returns (t: State)
    requires Stands(s, q, i) && p in s.procs && s.procs[p].Installing? && s.procs[p].sid == i
    ensures Stands(t, q, i) && Leads(s, t) && t.store.sessions[i].credsChan.CanRecv()
  {
    PanicFree(s);
    ReachableInv(s);
    assert ProcOk(p, s.procs[p], s.store, s.messages);
    MsgShape(s, p, Install(true));
    var s' := Go(s, MsgStep(p, Install(true)));
    t := FromOffering(s', p, q, i);
    LeadsTrans(s, s', t);
  }

  lemma FromHandling(s: State, p: Pid, q: Pid, i: Sid) returns (t: State)
    requires Stands(s, q, i) && p in s.procs && s.procs[p].Handling? && s.procs[p].sid == i
    requires s.procs[p].msg.content.NewCreds?
    ensures Stands(t, q, i) && Leads(s, t) && t.store.sessions[i].credsChan.CanRecv()
  {
    NotConnectedYet(s, q, i);
    var s' := Handles(s, p, Handle, q, i);
    t := FromInstalling(s', p, q, i);
    LeadsTrans(s, s', t);
  }

  lemma NotConnectedYet(s: State, q: Pid, i: Sid)
    requires Stands(s, q, i)
    ensures !s.store.sessions[i].links.conn && s.store.sessions[i].owner == q && i in s.store.added
  {
    ReachableInv(s);
    assert ProcOk(q, s.procs[q], s.store, s.messages);
    Look(s, q, i);
  }

  lemma FromFollowing(s: State, p: Pid, q: Pid, i: Sid) returns (t: State)
    requires Stands(s, q, i) && p in s.procs && s.procs[p].Following? && Carries(s.flights, s.procs[p], i)
    ensures Stands(t, q, i) && Leads(s, t) && t.store.sessions[i].credsChan.CanRecv()
  {
    var s' := Handles(s, p, Follow, q, i);
    t := FromHandling(s', p, q, i);
    LeadsTrans(s, s', t);
  }

  /** The leader has not published the session yet: a new message with credentials joins its call. */
  lemma FromPublishing(s: State, p: Pid, q: Pid, i: Sid) returns (t: State)
    requires Stands(s, q, i) && p in s.procs && s.procs[p].Publishing? && s.procs[p].found == Some(i)
    ensures Stands(t, q, i) && Leads(s, t) && t.store.sessions[i].credsChan.CanRecv()
  {
    var s1, m := JoinsCall(s, p, q, i);
    LeadersFlight(s1, p);
    var s2 := Handles(s1, p, Publish, q, i);
    t := FromFollowing(s2, m, q, i);
    LeadsTrans(s, s1, s2);
    LeadsTrans(s, s2, t);
  }

  lemma CallOfLeader(s: State, p: Pid)
    requires Reachable(s) && p in s.procs && s.procs[p].Publishing?
    ensures s.procs[p].msg.sender in s.flights.current && s.flights.current[s.procs[p].msg.sender] == s.procs[p].fid
    ensures s.procs[p].fid < |s.flights.all|
  {
    ReachableInv(s);
    assert FlightProcOk(p, FlightAt(s.procs, p, true), true, s.flights);
  }

  lemma JoinsCall(s: State, p: Pid, q: Pid, i: Sid) returns (t: State, m: Pid)
    requires Stands(s, q, i) && p in s.procs && s.procs[p].Publishing?
    ensures Stands(t, q, i) && Leads(s, t) && OthersStay(s, t, m) && m !in s.procs && t.flights == s.flights
    ensures m in t.procs && t.procs[m].Following? && t.procs[m].fid == s.procs[p].fid
    ensures t.procs[m].msg.content.NewCreds?
  {
    var msg := Msg(s.procs[p].msg.sender, NewCreds(([], [])));
    CallOfLeader(s, p);
    PanicFree(s);
    PidIsNew(s);
    m := s.next;
    EnvShape(s, EnvAct.Deliver(msg));
    EnvSpares(s, EnvAct.Deliver(msg));
    var s' := Go(s, EnvStep(EnvAct.Deliver(msg)));
    t := Handles(s', m, Join, q, i);
    LeadsTrans(s, s', t);
  }

  /** Whoever carries the session can bring its token. */
  lemma FromCarrier(s: State, p: Pid, q: Pid, i: Sid) returns (t: State)
    requires Stands(s, q, i) && p in s.procs && Carries(s.flights, s.procs[p], i) && !s.procs[p].Won?
    ensures Stands(t, q, i) && Leads(s, t) && t.store.sessions[i].credsChan.CanRecv()
  {
    match s.procs[p]
    case Publishing(_, _, _) => t := FromPublishing(s, p, q, i);
    case Following(_, _) => t := FromFollowing(s, p, q, i);
    case Handling(_, _) => t := FromHandling(s, p, q, i);
    case Installing(_, _) => t := FromInstalling(s, p, q, i);
    case Offering(_) => t := FromOffering(s, p, q, i);
  }

  /** Its goroutine is started if it is not yet; whoever carries the session still does. */
  lemma ToStanding(s: State, i: Sid) returns (t: State, q: Pid)
    requires Reachable(s) && AtGate(s, i) && s.store.sessions[i].closing.Fresh? && TokenComes(s, i)
    ensures Leads(s, t) && Stands(t, q, i)
    ensures !NoToken(t, i) || exists p :: p in t.procs && Carries(t.flights, t.procs[p], i) && !t.procs[p].Won?
  {
    q := s.store.sessions[i].owner;
    ReachableInv(s);
    forall p | p in s.procs && s.procs[p].Won? && s.procs[p].sid == i ensures p == q {
      assert ProcOk(p, s.procs[p], s.store, s.messages);
    }
    if s.procs[q].Won? {
      t := GoLaunching(s, q);
      if NoToken(s, i) {
        var p :| p in s.procs && Carries(s.flights, s.procs[p], i);
        assert p in t.procs && Carries(t.flights, t.procs[p], i) && !t.procs[p].Won?;
      }
      q := s.next;
    } else {
      LeadsRefl(s);
      t := s;
    }
  }

  lemma GateOpens(s: State, i: Sid) returns (t: State, q: Pid)
    requires Reachable(s) && AtGate(s, i) && s.store.sessions[i].closing.Fresh? && TokenComes(s, i)
    ensures Leads(s, t) && Stands(t, q, i) && Poised(t, q, i, AwaitCreds)
  {
    var s';
    s', q := ToStanding(s, i);
    if NoToken(s', i) {
      var p :| p in s'.procs && Carries(s'.flights, s'.procs[p], i) && !s'.procs[p].Won?;
      t := FromCarrier(s', p, q, i);
      LeadsTrans(s, s', t);
    } else {
      t := s';
    }
  }

  /**
   * A session that was taken out of the repository while it waits for its credentials, for every reachable state: it
   * can still get its token exactly if a handler was given it before, or will be by a lookup that has ended.
   */
  lemma TokenComesExactly(s: State, i: Sid)
    requires Reachable(s) && AtGate(s, i) && s.store.sessions[i].closing.Fresh? && i in s.store.removed
    ensures (exists t :: Leads(s, t) && Known(t, i) && !NoToken(t, i)) <==> TokenComes(s, i)
  {
    if TokenComes(s, i) {
      var t, q := GateOpens(s, i);
      Filled(t, i);
    } else {
      ReachableInv(s);
      forall t | Leads(s, t) ensures NoToken(t, i) {
        LeadsReaches(s, t);
        var more :| Reaches(s, more, t);
        StarvedRun(s, more, t, i);
      }
    }
  }

  lemma Filled(t: State, i: Sid)
    requires Reachable(t) && Known(t, i) && t.store.sessions[i].credsChan.CanRecv()
    ensures !NoToken(t, i)
  {
    ReachableInv(t);
    Look(t, 0, i);
  }
}
