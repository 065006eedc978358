/** The reconnect loops of one user: what starts one, what ends one, and how many there can be. */
module LifecycleLoops {
  import opened Channels
  import opened Lifecycle
  import opened LifecycleInvariant
  import opened LifecycleWaiting
  import opened LifecycleTheorems
  import opened LifecycleRuns

  predicate Concerns(st: Store, i: Sid, u: Uid) {
    i < |st.sessions| && st.sessions[i].userId == u
  }

  /** The goroutine is a reconnect loop for user `u`, or the reset that turns into one. */
  predicate InLoop(st: Store, proc: Proc, u: Uid) {
    match proc
    case Retrying(v, _) => v == u
    case Creating(v, _, why) => v == u && why.ForReconnect?
    case Made(i, why) => why.ForReconnect? && Concerns(st, i, u)
    case Won(i, why) => why.ForReconnect? && Concerns(st, i, u)
    case AwaitReady(i, why) => !why.ForGroup? && Concerns(st, i, u)   // only groups and loops wait for ReadyChan
    case Resetting(i, _, after) => after.EndIce? && Concerns(st, i, u) && st.sessions[i].initiator
    case _ => false
  }

  ghost predicate Loops(s: State, p: Pid, u: Uid) {
    p in s.procs && InLoop(s.store, s.procs[p], u)
  }

  /** The agent of a session that this side initiated reports a failed connection. */
  predicate Reports(s: State, step: Step, u: Uid) {
    match step
    case EnvStep(IceFails(i)) => Concerns(s.store, i, u) && s.store.sessions[i].initiator
    case _ => false
  }

  /** The loop sees a connection behind ReadyChan, or the application's end. */
  predicate Quits(s: State, step: Step, p: Pid)
    requires Enabled(s, step)
  {
    match step
    case CreateStep(q, SeeReady) => q == p && s.store.sessions[s.procs[q].sid].links.conn
    case CreateStep(q, Retry) => q == p && s.closing
    case _ => false
  }

  // ---------------------------------------------------------------------------------------------

  /** Users and roles of sessions do not change. */
  lemma SameInLoop(st: Store, st': Store, proc: Proc, u: Uid, p: Pid, messages: set<Msg>)
    requires Grows(st, st') && ProcOk(p, proc, st, messages)
    ensures InLoop(st', proc, u) <==> InLoop(st, proc, u)
  {
  }

  /** What a goroutine's own step does to its being a loop. */
  ghost predicate Turns(s: State, t: State, p: Pid, quits: bool, u: Uid) {
    p in s.procs ==> (Loops(t, p, u) <==> Loops(s, p, u) && !quits)
  }

  lemma AllocateTurns(s: State, p: Pid, u: Uid)
    requires CanCreate(s, p, Allocate)
    ensures Turns(s, CreateApply(s, p, Allocate), p, false, u)
  {
  }

  lemma UnluckyTurns(s: State, t: State, p: Pid, uid: Uid, why: Purpose, u: Uid)
    requires p in s.procs && t.store == s.store && Moved(s, t, p, UnluckyProc(uid, why))
    requires InLoop(s.store, s.procs[p], u) <==> why.ForReconnect? && uid == u
    ensures Turns(s, t, p, false, u)
  {
  }

  lemma AddTurns(s: State, p: Pid, timedOut: bool, u: Uid)
    requires CanCreate(s, p, Add(timedOut))
    ensures Turns(s, CreateApply(s, p, Add(timedOut)), p, false, u)
  {
    var i, why := s.procs[p].sid, s.procs[p].why;
    var v := s.store.sessions[i].userId;
    if timedOut || v in s.store.repo {
      UnluckyShape(s, p, v, why);
      UnluckyTurns(s, CreateApply(s, p, Add(timedOut)), p, v, why, u);
    } else {
      AddShape(s, p, i);
    }
  }

  lemma CreateTurns(s: State, p: Pid, act: CreateAct, u: Uid)
    requires Inv(s) && CanCreate(s, p, act) && !s.panicked
    ensures Turns(s, CreateApply(s, p, act), p, Quits(s, CreateStep(p, act), p), u)
  {
    var proc := s.procs[p];
    assert ProcOk(p, proc, s.store, s.messages);
    match act
    case Allocate => AllocateTurns(s, p, u);
    case GiveUp =>
      UnluckyShape(s, p, UidOf(s, proc), proc.why);
      UnluckyTurns(s, CreateApply(s, p, act), p, UidOf(s, proc), proc.why, u);
    case Add(timedOut) => AddTurns(s, p, timedOut, u);
    case Launch => LaunchShape(s, p, proc.sid);
    case SeeReady => QuietShape(s, p, act);
    case Retry => QuietShape(s, p, act);
  }

  lemma EstTurns(s: State, p: Pid, act: EstAct, u: Uid)
    requires Inv(s) && CanEstablish(s, p, act)
    ensures Turns(s, EstApply(s, p, act), p, false, u)
  {
  }

  lemma ResetTurns(s: State, p: Pid, u: Uid)
    requires CanTear(s, p, StepReset)
    ensures Turns(s, ResetApply(s, p), p, false, u)
  {
    if s.procs[p].rstage.ResetDelete? {
      ResetShape(s, p, s.procs[p].sid);
    } else {
      ResetSpares(s, p);
    }
  }

  lemma TearTurns(s: State, p: Pid, act: TearAct, u: Uid)
    requires Inv(s) && CanTear(s, p, act)
    ensures Turns(s, TearApply(s, p, act), p, false, u)
  {
    match act
    case StepReset => ResetTurns(s, p, u);
    case EnterOnce => EnterShape(s, p, s.procs[p].sid);
    case StepTear(handler) =>
      MediaIsOpen(s, p, s.procs[p].sid);
      TearShape(s, p, s.procs[p].sid, handler);
  }

  lemma MsgTurns(s: State, p: Pid, act: MsgAct, u: Uid)
    requires CanHandle(s, p, act)
    ensures Turns(s, MsgApply(s, p, act), p, false, u)
  {
    MsgShape(s, p, act);
  }

  lemma OwnStepTurns(s: State, step: Step, u: Uid)
    requires Inv(s) && Enabled(s, step) && !step.EnvStep?
    ensures Turns(s, Apply(s, step), step.p, Quits(s, step, step.p), u)
  {
    match step
    case CreateStep(p, act) => CreateTurns(s, p, act, u);
    case EstStep(p, act) => EstTurns(s, p, act, u);
    case TearStep(p, act) => TearTurns(s, p, act, u);
    case MsgStep(p, act) => MsgTurns(s, p, act, u);
  }

  /** What a step starts is a loop exactly if it is such a report. */
  lemma Starts(s: State, step: Step, u: Uid)
    requires Inv(s) && Enabled(s, step)
    ensures Loops(Apply(s, step), s.next, u) <==> Reports(s, step, u)
  {
    var t := Apply(s, step);
    match step
    case EnvStep(act) => EnvShape(s, act);
    case CreateStep(p, act) =>
      if act.Launch? {
        LaunchShape(s, p, s.procs[p].sid);
      } else {
        NoneStarted(s, step);
      }
    case _ => NoneStarted(s, step);
  }

  lemma NoneStarted(s: State, step: Step)
    requires Inv(s) && Enabled(s, step) && !step.EnvStep? && !(step.CreateStep? && step.createAct.Launch?)
    ensures s.next !in Apply(s, step).procs
  {
    match step
    case CreateStep(p, act) => NoneCreated(s, p, act);
    case EstStep(p, act) => NoneEstablished(s, p, act);
    case TearStep(p, act) => NoneTorn(s, p, act);
    case MsgStep(p, act) => MsgShape(s, p, act);
  }

  lemma NoneCreated(s: State, p: Pid, act: CreateAct)
    requires PidsOk(s.procs, s.next) && CanCreate(s, p, act) && !act.Launch?
    ensures s.next !in CreateApply(s, p, act).procs
  {
    var proc := s.procs[p];
    match act
    case GiveUp => UnluckyShape(s, p, UidOf(s, proc), proc.why);
    case Add(_) => UnluckyShape(s, p, s.store.sessions[proc.sid].userId, proc.why);
    case SeeReady => QuietShape(s, p, act);
    case Retry => QuietShape(s, p, act);
    case Allocate =>
  }

  lemma NoneEstablished(s: State, p: Pid, act: EstAct)
    requires PidsOk(s.procs, s.next) && CanEstablish(s, p, act)
    ensures s.next !in EstApply(s, p, act).procs
  {
  }

  lemma NoneTorn(s: State, p: Pid, act: TearAct)
    requires Inv(s) && CanTear(s, p, act)
    ensures s.next !in TearApply(s, p, act).procs
  {
    match act
    case StepReset =>
      if s.procs[p].rstage.ResetDelete? {
        ResetShape(s, p, s.procs[p].sid);
      } else {
        ResetSpares(s, p);
      }
    case EnterOnce => EnterShape(s, p, s.procs[p].sid);
    case StepTear(handler) =>
      MediaIsOpen(s, p, s.procs[p].sid);
      TearShape(s, p, s.procs[p].sid, handler);
  }

  /**
   * Exactly when a loop starts and ends, in every step from a reachable state: each report of the agent of a session
   * initiated here starts one, whatever loops there are already; a loop ends only when it sees a connection or the end
   * of the application.
   */
  lemma LoopsExactly(s: State, step: Step, p: Pid, u: Uid)
    requires Inv(s) && Enabled(s, step)
    ensures Loops(Apply(s, step), p, u) <==>
      (Loops(s, p, u) && !Quits(s, step, p)) || (p == s.next && Reports(s, step, u))
  {
    var j := InvLocal(s, step);
    Starts(s, step, u);
    if p != s.next {
      if p == Actor(s, step) {
        OwnStepTurns(s, step, u);
      } else if p in s.procs {
        assert ProcOk(p, s.procs[p], s.store, s.messages);
        SameInLoop(s.store, Apply(s, step).store, s.procs[p], u, p, s.messages);
      }
    }
  }

  // ---------------------------------------------------------------------------------------------
  // How many

  ghost function LoopsOf(s: State, u: Uid): set<Pid> {
    set p | p in s.procs && Loops(s, p, u)
  }

  /** The reports in a run. */
  ghost function Reported(s: State, steps: seq<Step>, t: State, u: Uid): nat
    requires Reaches(s, steps, t)
    decreases |steps|
  {
    if steps == [] then 0
    else (if Reports(s, steps[0], u) then 1 else 0) + Reported(Apply(s, steps[0]), steps[1..], t, u)
  }

  lemma LoopsOfStep(s: State, step: Step, u: Uid)
    requires Inv(s) && Enabled(s, step)
    ensures LoopsOf(Apply(s, step), u) <= LoopsOf(s, u) + if Reports(s, step, u) then {s.next} else {}
  {
    forall p | p in LoopsOf(Apply(s, step), u)
      ensures p in LoopsOf(s, u) + if Reports(s, step, u) then {s.next} else {}
    {
      LoopsExactly(s, step, p, u);
    }
  }

  lemma SmallerSet(a: set<Pid>, b: set<Pid>)
    requires a <= b
    ensures |a| <= |b|
  {
    assert b == a + (b - a);
  }

  /** There are at most as many loops of a user at once as there were such reports. */
  lemma {:induction false} LoopsCounted(s: State, steps: seq<Step>, t: State, u: Uid)
    requires Inv(s) && Reaches(s, steps, t)
    ensures |LoopsOf(t, u)| <= |LoopsOf(s, u)| + Reported(s, steps, t, u)
    decreases |steps|
  {
    if steps != [] {
      var s' := Apply(s, steps[0]);
      LoopsOfStep(s, steps[0], u);
      SmallerSet(LoopsOf(s', u), LoopsOf(s, u) + if Reports(s, steps[0], u) then {s.next} else {});
      InvStep(s, steps[0]);
      LoopsCounted(s', steps[1..], t, u);
    }
  }

  /** One report and the reset it makes: one loop more, at its first turn. */
  lemma OneMore(s: State, i: Sid) returns (t: State, p: Pid)
    requires Reachable(s) && Known(s, i) && s.store.sessions[i].initiator
    ensures Reachable(t) && Leads(s, t) && p !in s.procs
    ensures t.procs == s.procs[p := Retrying(s.store.sessions[i].userId, 0)]
    ensures Known(t, i) && t.store.sessions[i].initiator && t.store.sessions[i].userId == s.store.sessions[i].userId
  {
    PanicFree(s);
    PidIsNew(s);
    p := s.next;
    EnvShape(s, IceFails(i));
    var s' := Go(s, EnvStep(IceFails(i)));
    t := ResetAlone(s', p, i, ResetStream, EndIce);
    LeadsTrans(s, s', t);
    SameRole(s, t, i);
  }

  lemma SameRole(s: State, t: State, i: Sid)
    requires Reachable(s) && Leads(s, t) && Known(s, i)
    ensures Known(t, i) && t.store.sessions[i].initiator == s.store.sessions[i].initiator
    ensures t.store.sessions[i].userId == s.store.sessions[i].userId
  {
    ReachableInv(s);
    LeadsReaches(s, t);
    var steps :| Reaches(s, steps, t);
    RunGrows(s, steps, t);
  }

  /** Nothing stops a second one: two reports about one session, Disconnected and then Failed, start two loops. */
  lemma TwoLoops(s: State, i: Sid) returns (t: State, p: Pid, q: Pid)
    requires Reachable(s) && Known(s, i) && s.store.sessions[i].initiator
    ensures Leads(s, t) && p != q && p !in s.procs && q !in s.procs && p in t.procs && q in t.procs
    ensures t.procs[p] == t.procs[q] == Retrying(s.store.sessions[i].userId, 0)
  {
    var s';
    s', p := OneMore(s, i);
    t, q := OneMore(s', i);
    LeadsTrans(s, s', t);
  }

  /** Such a run from the start. */
  lemma TwoLoopsHappen(u: Uid) returns (t: State, p: Pid, q: Pid)
    ensures Leads(INITIAL, t) && p != q && p in t.procs && q in t.procs
    ensures t.procs[p] == t.procs[q] == Retrying(u, 0)
  {
    var s, i := ConnectsOnce(u);
    t, p, q := TwoLoops(s, i);
    LeadsTrans(INITIAL, s, t);
  }
}
