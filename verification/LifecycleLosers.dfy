/** What becomes of a session that createSession makes and does not insert into the repository. */
module LifecycleLosers {
  import opened Channels
  import opened Wire
  import opened Lifecycle
  import opened LifecycleInvariant
  import opened LifecycleWaiting
  import opened LifecycleTheorems
  import opened LifecycleRuns

  /** A reset of the session that has not closed its agent yet. */
  predicate ClosesAgent(proc: Proc, i: Sid) {
    proc.Resetting? && proc.sid == i && !proc.rstage.ResetDelete?
  }

  /** The goroutine may yet write the session's handles. */
  predicate Touches(proc: Proc, i: Sid) {
    Holds(proc, i) || ClosesAgent(proc, i)
  }

  /** Outside the repository, and nobody is at work on it. */
  ghost predicate Abandoned(s: State, i: Sid) {
    Known(s, i) && i !in s.store.added && forall p :: p in s.procs ==> !Touches(s.procs[p], i)
  }

  /** Somebody who may come to touch the session later, all of them goroutines of a session in the repository. */
  predicate Approaches(proc: Proc, i: Sid) {
    match proc
    case Handling(j, _) => i == j
    case Disconnecting(j, _, _) => i == j
    case _ => false
  }

  /** Nobody starts to touch session `i` out of nowhere, and nobody else writes its handles. */
  ghost predicate Untouched(s: State, t: State, i: Sid) {
    Known(s, i) && (forall p :: p in s.procs ==> !Touches(s.procs[p], i) && !Approaches(s.procs[p], i)) ==>
      && Known(t, i) && t.store.sessions[i].closed == s.store.sessions[i].closed
      && (forall p :: p in t.procs ==> !Touches(t.procs[p], i))
  }

  lemma CreateUntouched(s: State, p: Pid, act: CreateAct, i: Sid)
    requires CanCreate(s, p, act)
    ensures Untouched(s, CreateApply(s, p, act), i)
  {
    var proc := s.procs[p];
    match act
    case GiveUp => UnluckyShape(s, p, UidOf(s, proc), proc.why);
    case Add(_) => UnluckyShape(s, p, s.store.sessions[proc.sid].userId, proc.why);
    case Launch => LaunchShape(s, p, proc.sid);
    case SeeReady => QuietShape(s, p, act);
    case Retry => QuietShape(s, p, act);
    case Allocate =>
  }

  lemma EstUntouched(s: State, p: Pid, act: EstAct, i: Sid)
    requires CanEstablish(s, p, act)
    ensures Untouched(s, EstApply(s, p, act), i)
  {
  }

  lemma TearUntouched(s: State, p: Pid, act: TearAct, i: Sid)
    requires CanTear(s, p, act)
    ensures Untouched(s, TearApply(s, p, act), i)
  {
    match act
    case StepReset => ResetUntouched(s, p, i);
    case EnterOnce => EnterUntouched(s, p, i);
    case StepTear(handler) => StepTearUntouched(s, p, handler, i);
  }

  lemma EnterUntouched(s: State, p: Pid, i: Sid)
    requires CanTear(s, p, EnterOnce)
    ensures Untouched(s, TearApply(s, p, EnterOnce), i)
  {
    EnterShape(s, p, s.procs[p].sid);
  }

  lemma StepTearUntouched(s: State, p: Pid, handler: bool, i: Sid)
    requires CanTear(s, p, StepTear(handler))
    ensures Untouched(s, TearApply(s, p, StepTear(handler)), i)
  {
    if Known(s, i) && s.procs[p].sid != i {
      SparesOthers(s, p, handler, i);
    }
  }

  lemma SparesOthers(s: State, p: Pid, handler: bool, i: Sid)
    requires CanTear(s, p, StepTear(handler)) && Known(s, i) && s.procs[p].sid != i
    ensures var t := TearApply(s, p, StepTear(handler));
      && Known(t, i) && t.store.sessions[i] == s.store.sessions[i]
      && forall q :: q in t.procs ==>
           q in s.procs && (t.procs[q] == s.procs[q] || (t.procs[q].TearingDown? && t.procs[q].sid != i))
  {
  }

  lemma ResetUntouched(s: State, p: Pid, i: Sid)
    requires CanTear(s, p, StepReset)
    ensures Untouched(s, ResetApply(s, p), i)
  {
    if s.procs[p].rstage.ResetDelete? {
      ResetShape(s, p, s.procs[p].sid);
    }
  }

  lemma MsgUntouched(s: State, p: Pid, act: MsgAct, i: Sid)
    requires CanHandle(s, p, act)
    ensures Untouched(s, MsgApply(s, p, act), i)
  {
    MsgShape(s, p, act);
  }

  lemma AddedOnlyByOwner(s: State, step: Step, i: Sid)
    requires Enabled(s, step) && i in Apply(s, step).store.added && i !in s.store.added
    ensures exists p :: p in s.procs && s.procs[p].Made? && s.procs[p].sid == i
  {
    match step
    case CreateStep(p, act) => RepoAfterCreate(s, p, act);
    case EstStep(p, act) => RepoAfterEst(s, p, act);
    case TearStep(p, act) => RepoAfterTear(s, p, act);
    case MsgStep(p, act) => RepoAfterMsg(s, p, act);
    case EnvStep(act) => EnvShape(s, act);
  }

  lemma AbandonedStep(s: State, step: Step, i: Sid)
    requires Inv(s) && Enabled(s, step) && Abandoned(s, i) && step != EnvStep(IceFails(i))
    ensures Abandoned(Apply(s, step), i) && Apply(s, step).store.sessions[i].closed == s.store.sessions[i].closed
  {
    forall p | p in s.procs ensures !Approaches(s.procs[p], i) {
      assert ProcOk(p, s.procs[p], s.store, s.messages);
    }
    if i in Apply(s, step).store.added {
      AddedOnlyByOwner(s, step, i);
    }
    match step
    case CreateStep(p, act) => CreateUntouched(s, p, act, i);
    case EstStep(p, act) => EstUntouched(s, p, act, i);
    case TearStep(p, act) => TearUntouched(s, p, act, i);
    case MsgStep(p, act) => MsgUntouched(s, p, act, i);
    case EnvStep(act) => EnvUntouched(s, act, i);
  }

  lemma EnvUntouched(s: State, act: EnvAct, i: Sid)
    requires Inv(s) && CanStart(s, act) && Abandoned(s, i) && act != IceFails(i)
    ensures var t := EnvApply(s, act); t.store == s.store && forall p :: p in t.procs ==> !Touches(t.procs[p], i)
  {
    EnvShape(s, act);
  }

  lemma {:induction false} AbandonedRun(s: State, steps: seq<Step>, t: State, i: Sid)
    requires Inv(s) && Reaches(s, steps, t) && Abandoned(s, i) && EnvStep(IceFails(i)) !in steps
    ensures Abandoned(t, i) && t.store.sessions[i].closed == s.store.sessions[i].closed
    decreases |steps|
  {
    if steps != [] {
      assert steps[0] in steps;
      AbandonedStep(s, steps[0], i);
      InvStep(s, steps[0]);
      AbandonedRun(Apply(s, steps[0]), steps[1..], t, i);
    }
  }

  // ---------------------------------------------------------------------------------------------
  // The exits of createSession

  /** createSession leaves without having inserted the session it made. */
  predicate Exits(s: State, p: Pid, act: CreateAct)
    requires CanCreate(s, p, act) && s.procs[p].Made?
  {
    act.GiveUp? || (act.Add? && (act.timedOut || s.store.sessions[s.procs[p].sid].userId in s.store.repo))
  }

  ghost predicate NoReset(s: State, i: Sid) {
    forall q :: q in s.procs ==> !ClosesAgent(s.procs[q], i)
  }

  lemma Alone(s: State, p: Pid, i: Sid)
    requires Inv(s) && p in s.procs && s.procs[p].Made? && s.procs[p].sid == i
    ensures Known(s, i) && i !in s.store.added
    ensures forall q :: q in s.procs && q != p ==> !Holds(s.procs[q], i)
  {
    assert ProcOk(p, s.procs[p], s.store, s.messages);
    Look(s, p, i);
    forall q | q in s.procs && q != p ensures !Holds(s.procs[q], i) {
      assert ProcOk(q, s.procs[q], s.store, s.messages);
    }
  }

  /** What the exits leave behind; the only other way on is the insertion. */
  lemma ExitShape(s: State, p: Pid, i: Sid, act: CreateAct)
    requires Inv(s) && CanCreate(s, p, act) && s.procs[p].Made? && s.procs[p].sid == i
    ensures var t := CreateApply(s, p, act);
      && Known(s, i) && t.store.sessions == s.store.sessions && (i in t.store.added <==> !Exits(s, p, act))
      && (forall q :: q in s.procs && q != p ==> q in t.procs && t.procs[q] == s.procs[q])
      && (NoReset(s, i) ==> NoReset(t, i))
      && (Exits(s, p, act) && NoReset(s, i) ==> Abandoned(t, i))
  {
    Alone(s, p, i);
    if Exits(s, p, act) {
      UnluckyShape(s, p, s.store.sessions[i].userId, s.procs[p].why);
    }
  }

  /** Whatever happens without a report of the agent itself, the agent is not closed. */
  ghost predicate AgentStaysOpen(s: State, i: Sid) {
    forall more, t :: Reaches(s, more, t) && EnvStep(IceFails(i)) !in more ==>
      Known(t, i) && !t.store.sessions[i].closed.agent
  }

  /** There is a way without such a report to a state with a closed agent. */
  ghost predicate AgentCloses(s: State, more: seq<Step>, t: State, i: Sid) {
    Reaches(s, more, t) && EnvStep(IceFails(i)) !in more && Known(t, i) && t.store.sessions[i].closed.agent
  }

  /**
   * A session that createSession leaves without inserting it never gets into the repository; its agent, if it is open
   * and no reset is on its way to it, is left open: whatever happens, it is closed only if it reports a failure itself.
   */
  lemma LoserStaysOpen(s: State, p: Pid, i: Sid, act: CreateAct, more: seq<Step>, t: State)
    requires Reachable(s) && Enabled(s, CreateStep(p, act)) && s.procs[p].Made? && s.procs[p].sid == i
    requires Exits(s, p, act) && NoReset(s, i) && Known(s, i) && !s.store.sessions[i].closed.agent
    requires Reaches(Apply(s, CreateStep(p, act)), more, t) && EnvStep(IceFails(i)) !in more
    ensures Known(t, i) && i !in t.store.added && !t.store.sessions[i].closed.agent
  {
    ReachableInv(s);
    ExitShape(s, p, i, act);
    InvStep(s, CreateStep(p, act));
    AbandonedRun(Apply(s, CreateStep(p, act)), more, t, i);
  }

  /** A reset gets to the agent on its own. */
  lemma {:induction false} ResetGetsThere(s: State, q: Pid, i: Sid) returns (more: seq<Step>, t: State)
    requires Reachable(s) && q in s.procs && ClosesAgent(s.procs[q], i) && Known(s, i)
    ensures AgentCloses(s, more, t, i)
    decreases ResetsLeft(s.procs[q].rstage)
  {
    var step := TearStep(q, StepReset);
    PanicFree(s);
    ResetSpares(s, q);
    var u := LifecycleRuns.Go(s, step);
    if s.procs[q].rstage.ResetAgent? {
      more, t := [], u;
    } else {
      more, t := ResetGetsThere(u, q, i);
    }
    assert ([step] + more)[1..] == more;
    more := [step] + more;
  }

  /** So does a teardown at its beginning. */
  lemma {:induction false} TeardownGetsThere(s: State, q: Pid, i: Sid) returns (more: seq<Step>, t: State)
    requires Reachable(s) && q in s.procs && s.procs[q].TearingDown? && s.procs[q].sid == i && Known(s, i)
    requires s.procs[q].tstage in {TearStream, TearConn, TearAgent}
    ensures AgentCloses(s, more, t, i)
    decreases match s.procs[q].tstage case TearStream => 2 case TearConn => 1 case _ => 0
  {
    var step := TearStep(q, StepTear(false));
    PanicFree(s);
    TearShape(s, q, i, false);
    var u := LifecycleRuns.Go(s, step);
    if s.procs[q].tstage.TearAgent? {
      more, t := [], u;
    } else {
      more, t := TeardownGetsThere(u, q, i);
    }
    assert ([step] + more)[1..] == more;
    more := [step] + more;
  }

  /** A session that was inserted can be left by its user. */
  lemma {:induction false} InsertedCloses(s: State, i: Sid) returns (more: seq<Step>, t: State)
    requires Reachable(s) && Known(s, i) && i in s.store.added && s.store.sessions[i].closing.Fresh?
    ensures AgentCloses(s, more, t, i)
  {
    var call, q := EnvStep(CallDisconnect(i, true)), s.next;
    PanicFree(s);
    EnvShape(s, CallDisconnect(i, true));
    var s1 := LifecycleRuns.Go(s, call);
    var enter := TearStep(q, EnterOnce);
    PanicFree(s1);
    EnterShape(s1, q, i);
    var s2 := LifecycleRuns.Go(s1, enter);
    more, t := TeardownGetsThere(s2, q, i);
    assert ([enter] + more)[1..] == more;
    assert Reaches(s1, [enter] + more, t);
    assert ([call] + ([enter] + more))[1..] == [enter] + more;
    more := [call] + ([enter] + more);
  }

  /** A session not yet inserted has not been torn down. */
  lemma MadeIsFresh(s: State, p: Pid, i: Sid)
    requires Reachable(s) && p in s.procs && s.procs[p].Made? && s.procs[p].sid == i
    ensures Known(s, i) && s.store.sessions[i].closing.Fresh?
  {
    ReachableInv(s);
    assert ProcOk(p, s.procs[p], s.store, s.messages);
    Look(s, p, i);
  }

  /**
   * Exactly when createSession, with a session made, leaves its agent open for good: it does not insert the session,
   * the agent is open, and no reset (which only an early report of the agent can have started) is about to close it.
   */
  lemma AgentLeftOpenExactly(s: State, p: Pid, i: Sid, act: CreateAct)
    requires Reachable(s) && Enabled(s, CreateStep(p, act)) && s.procs[p].Made? && s.procs[p].sid == i
    ensures Known(s, i)
    ensures AgentStaysOpen(Apply(s, CreateStep(p, act)), i) <==>
      Exits(s, p, act) && !s.store.sessions[i].closed.agent && NoReset(s, i)
  {
    ReachableInv(s);
    ExitShape(s, p, i, act);
    var u := Go(s, CreateStep(p, act));
    if Exits(s, p, act) && !s.store.sessions[i].closed.agent && NoReset(s, i) {
      forall more, t | Reaches(u, more, t) && EnvStep(IceFails(i)) !in more
        ensures Known(t, i) && !t.store.sessions[i].closed.agent
      {
        LoserStaysOpen(s, p, i, act, more, t);
      }
    } else {
      var more, t := SomehowCloses(s, p, i, act, u);
      assert AgentCloses(u, more, t, i);
    }
  }

  lemma SomehowCloses(s: State, p: Pid, i: Sid, act: CreateAct, u: State) returns (more: seq<Step>, t: State)
    requires Reachable(s) && Enabled(s, CreateStep(p, act)) && s.procs[p].Made? && s.procs[p].sid == i && Known(s, i)
    requires u == Apply(s, CreateStep(p, act)) && Reachable(u)
    requires !Exits(s, p, act) || s.store.sessions[i].closed.agent || !NoReset(s, i)
    ensures AgentCloses(u, more, t, i)
  {
    ReachableInv(s);
    ExitShape(s, p, i, act);
    MadeIsFresh(s, p, i);
    if s.store.sessions[i].closed.agent {
      more, t := [], u;
    } else if !NoReset(s, i) {
      var q :| q in s.procs && ClosesAgent(s.procs[q], i);
      more, t := ResetGetsThere(u, q, i);
    } else {
      more, t := InsertedCloses(u, i);
    }
  }

  // ---------------------------------------------------------------------------------------------
  // All three exits happen

  /**
   * From the start: a session is made for a free user id; if its insertion times out, or the credentials could not be
   * sent, its agent stays open.
   */
  lemma LeftOpenOnErrors(u: Uid) returns (s: State, p: Pid)
    ensures Leads(Lifecycle.INITIAL, s) && p in s.procs && s.procs[p].Made? && u !in s.store.repo
    ensures Enabled(s, CreateStep(p, Add(true))) && Enabled(s, CreateStep(p, GiveUp))
    ensures AgentStaysOpen(Apply(s, CreateStep(p, Add(true))), s.procs[p].sid)
    ensures AgentStaysOpen(Apply(s, CreateStep(p, GiveUp)), s.procs[p].sid)
  {
    LeadsRefl(Lifecycle.INITIAL);
    var s1 := Go(Lifecycle.INITIAL, EnvStep(OpenGroup(0, true)));
    var s2 := Go(s1, EnvStep(ConnectMember(0, u)));
    p := 0;
    s := GoAllocating(s2, p);
    PanicFree(s);
    LeadsTrans(Lifecycle.INITIAL, s1, s2);
    LeadsTrans(Lifecycle.INITIAL, s2, s);
    AgentLeftOpenExactly(s, p, s.procs[p].sid, Add(true));
    AgentLeftOpenExactly(s, p, s.procs[p].sid, GiveUp);
  }

  /** Two goroutines create sessions of the same user: the second loses the insertion, and its agent stays open. */
  lemma LeftOpenOnALoss(u: Uid) returns (s: State, p: Pid)
    ensures Leads(Lifecycle.INITIAL, s) && Enabled(s, CreateStep(p, Add(false))) && s.procs[p].Made?
    ensures u in s.store.repo && s.store.sessions[s.procs[p].sid].userId == u
    ensures AgentStaysOpen(Apply(s, CreateStep(p, Add(false))), s.procs[p].sid)
  {
    s, p := InsertionIsLost(u);
    AgentLeftOpenExactly(s, p, s.procs[p].sid, Add(false));
  }
}
