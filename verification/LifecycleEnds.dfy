/** How establishments and teardowns end: what can fail, what is closed, and what the end of the application does. */
module LifecycleEnds {
  import opened Channels
  import opened Wire
  import opened Lifecycle
  import opened LifecycleInvariant
  import opened LifecycleWaiting
  import opened LifecycleTheorems
  import opened LifecycleRuns
  import opened LifecycleGate

  // ---------------------------------------------------------------------------------------------
  // Failures of establishment

  /** The session's establishment stands at that statement. */
  predicate StandsAt(s: State, i: Sid, stage: EstStage) {
    Known(s, i) && s.store.sessions[i].owner in s.procs && s.procs[s.store.sessions[i].owner] == Establishing(i, stage)
  }

  /**
   * Exactly where establishment can fail, in every reachable state: at its gate once the application is closing, and at
   * each of its calls, up to the one that opens the event stream. Nothing fails after it.
   */
  lemma FailsExactlyAt(s: State, i: Sid, stage: EstStage)
    requires Reachable(s) && StandsAt(s, i, stage)
    ensures (exists step :: Enabled(s, step) && Failed(Apply(s, step), s.store.sessions[i].owner, i)) <==>
      (stage.AwaitCreds? && s.closing) || stage.Dialing? || stage.KeyExchanging? || stage.OpeningEvents?
  {
    var q := s.store.sessions[i].owner;
    ReachableInv(s);
    if (stage.AwaitCreds? && s.closing) || stage.Dialing? || stage.KeyExchanging? || stage.OpeningEvents? {
      assert Enabled(s, EstStep(q, Fail)) && Failed(Apply(s, EstStep(q, Fail)), q, i);
    } else {
      forall step | Enabled(s, step) ensures !Failed(Apply(s, step), q, i) {
        DoesNotFail(s, step, q, i, stage);
      }
    }
  }

  predicate Failed(t: State, q: Pid, i: Sid) {
    q in t.procs && t.procs[q] == Failing(i)
  }

  lemma DoesNotFail(s: State, step: Step, q: Pid, i: Sid, stage: EstStage)
    requires Inv(s) && Enabled(s, step) && q in s.procs && s.procs[q] == Establishing(i, stage)
    requires !(stage.AwaitCreds? && s.closing) && !stage.Dialing? && !stage.KeyExchanging? && !stage.OpeningEvents?
    ensures !Failed(Apply(s, step), q, i)
  {
    var j := InvLocal(s, step);
    if Actor(s, step) == q {
      match step
      case EstStep(p, act) => OwnAdvance(s, p, act);
      case EnvStep(act) =>
      case _ =>
    }
  }

  lemma OwnAdvance(s: State, p: Pid, act: EstAct)
    requires CanEstablish(s, p, act) && s.procs[p].Establishing? && act.Advance?
    ensures p in EstApply(s, p, act).procs ==> !EstApply(s, p, act).procs[p].Failing?
  {
  }

  /** Past its last call, or through. */
  ghost predicate PastCalls(s: State, i: Sid) {
    Known(s, i) &&
    (FullyEstablished(s.store.sessions[i]) || exists stage :: Rank(stage) >= 4 && StandsAt(s, i, stage))
  }

  lemma PastCallsStep(s: State, step: Step, i: Sid)
    requires Inv(s) && Enabled(s, step) && PastCalls(s, i)
    ensures PastCalls(Apply(s, step), i)
  {
    var j := InvLocal(s, step);
    if !FullyEstablished(s.store.sessions[i]) {
      var stage :| Rank(stage) >= 4 && StandsAt(s, i, stage);
      if Actor(s, step) == s.store.sessions[i].owner {
        OwnStepPast(s, step, i, stage);
      } else {
        OthersLeaveIt(s, step, i, stage);
      }
    }
  }

  lemma OthersLeaveIt(s: State, step: Step, i: Sid, stage: EstStage)
    requires Inv(s) && Enabled(s, step) && StandsAt(s, i, stage) && Actor(s, step) != s.store.sessions[i].owner
    ensures StandsAt(Apply(s, step), i, stage)
  {
    var j := InvLocal(s, step);
    var p := Actor(s, step);
    if p in s.procs {
      assert ProcOk(p, s.procs[p], s.store, s.messages);
    }
    StepBystands(s, step, i);
  }

  lemma OwnStepPast(s: State, step: Step, i: Sid, stage: EstStage)
    requires Inv(s) && Enabled(s, step) && StandsAt(s, i, stage) && Actor(s, step) == s.store.sessions[i].owner
    requires Rank(stage) >= 4
    ensures PastCalls(Apply(s, step), i)
  {
    Look(s, s.store.sessions[i].owner, i);
    match step
    case EstStep(p, act) => OwnersAdvance(s, p, act, i, stage);
    case EnvStep(act) =>
    case _ =>
  }

  lemma OwnersAdvance(s: State, p: Pid, act: EstAct, i: Sid, stage: EstStage)
    requires Inv(s) && CanEstablish(s, p, act) && !s.panicked && Before(s, p, i) && Known(s, i)
    requires s.procs[p] == Establishing(i, stage) && s.store.sessions[i].owner == p && Rank(stage) >= 4
    ensures PastCalls(EstApply(s, p, act), i)
  {
    AdvanceShape(s, p, i, act.key, act.handler);
    if stage.ClosingReady? {
      LastStatement(s.store.sessions[i], act.key, act.handler);
    } else {
      SameOwner(s.store.sessions[i], stage, act.key, act.handler);
      OneFurther(s, EstApply(s, p, act), p, i, stage, Established(s.store.sessions[i], stage, act.key, act.handler));
    }
  }

  lemma OneFurther(s: State, t: State, p: Pid, i: Sid, stage: EstStage, x: Session)
    requires Known(s, i) && p in s.procs && s.store.sessions[i].owner == p == x.owner && t.store == Put(s.store, i, x)
    requires Moved(s, t, p, Some(Establishing(i, NextStage(stage)))) && 4 <= Rank(stage) <= 8
    ensures PastCalls(t, i)
  {
    assert StandsAt(t, i, NextStage(stage)) && Rank(NextStage(stage)) == Rank(stage) + 1;
  }

  lemma LastStatement(x: Session, key: bytes, handler: bool)
    requires LinksAt(x.links, 9) && x.handling && x.remote.Some?
    ensures FullyEstablished(Established(x, ClosingReady, key, handler))
  {
  }

  lemma SameOwner(x: Session, stage: EstStage, key: bytes, handler: bool)
    requires stage.AwaitCreds? ==> x.credsChan.CanRecv()
    ensures Established(x, stage, key, handler).owner == x.owner
  {
  }

  /** Once its event stream is open establishment succeeds, or is still on its way: no run lets it fail. */
  lemma {:induction false} NoFailurePastCalls(s: State, more: seq<Step>, t: State, i: Sid)
    requires Inv(s) && Reaches(s, more, t) && PastCalls(s, i)
    ensures PastCalls(t, i)
    decreases |more|
  {
    if more != [] {
      PastCallsStep(s, more[0], i);
      InvStep(s, more[0]);
      NoFailurePastCalls(Apply(s, more[0]), more[1..], t, i);
    }
  }

  // ---------------------------------------------------------------------------------------------
  // What a teardown has closed

  /** The step leaves the session's once alone, or is one of its teardown. */
  ghost predicate OnceSame(s: State, t: State, i: Sid) {
    Known(s, i) ==> Known(t, i) && t.store.sessions[i].closing == s.store.sessions[i].closing
  }

  lemma CreateOnce(s: State, p: Pid, act: CreateAct, i: Sid)
    requires CanCreate(s, p, act)
    ensures OnceSame(s, CreateApply(s, p, act), i)
  {
    var proc := s.procs[p];
    match act
    case GiveUp => UnluckyShape(s, p, UidOf(s, proc), proc.why);
    case Add(_) => UnluckyShape(s, p, s.store.sessions[proc.sid].userId, proc.why);
    case Launch => LaunchShape(s, p, proc.sid);
    case SeeReady => QuietShape(s, p, act);
    case Retry => QuietShape(s, p, act);
    case Allocate =>
  }

  lemma EstOnce(s: State, p: Pid, act: EstAct, i: Sid)
    requires CanEstablish(s, p, act)
    ensures OnceSame(s, EstApply(s, p, act), i)
  {
  }

  lemma ResetOnce(s: State, p: Pid, i: Sid)
    requires CanTear(s, p, StepReset)
    ensures OnceSame(s, ResetApply(s, p), i)
  {
    if s.procs[p].rstage.ResetDelete? {
      ResetShape(s, p, s.procs[p].sid);
    }
  }

  lemma MsgOnce(s: State, p: Pid, act: MsgAct, i: Sid)
    requires CanHandle(s, p, act)
    ensures OnceSame(s, MsgApply(s, p, act), i)
  {
    MsgShape(s, p, act);
    if act.Offer? {
      OfferShape(s, p, s.procs[p].sid);
    }
  }

  /** A connected session with an event stream: the teardown, by whomever, has closed both as far as it has come. */
  ghost predicate ClosedAsFar(s: State, i: Sid) {
    Known(s, i) &&
    var x := s.store.sessions[i];
    && x.links.conn && x.links.eventStream
    && (x.closing.Running? ==>
          x.closing.winner in s.procs && s.procs[x.closing.winner].TearingDown?
          && TornUpTo(x, s.procs[x.closing.winner].tstage, false))
    && (x.closing.Over? ==> TornUpTo(x, TearNotify, false))
  }

  lemma MoreClosed(x: Session, x': Session, stage: TearStage)
    requires Kept(x, x') && TornUpTo(x, stage, false) && x.links.conn && x.links.eventStream
    ensures TornUpTo(x', stage, false)
  {
  }

  /** A statement that is not one of the teardown's own. */
  lemma OthersCloseMore(s: State, step: Step, i: Sid)
    requires Inv(s) && Enabled(s, step) && ClosedAsFar(s, i) && OnceSame(s, Apply(s, step), i)
    requires s.store.sessions[i].closing.Running? ==> Actor(s, step) != s.store.sessions[i].closing.winner
    ensures ClosedAsFar(Apply(s, step), i)
  {
    var x := s.store.sessions[i];
    var j := InvLocal(s, step);
    if x.closing.Running? {
      MoreClosed(x, Apply(s, step).store.sessions[i], s.procs[x.closing.winner].tstage);
    } else if x.closing.Over? {
      MoreClosed(x, Apply(s, step).store.sessions[i], TearNotify);
    }
  }

  lemma TornMore(x: Session, stage: TearStage, leave: bool, handler: bool)
    requires x.links.conn && x.links.eventStream && TornUpTo(x, stage, false)
    ensures TornUpTo(Torn(x, stage, leave, handler), NextTear(stage), false)
    ensures Torn(x, stage, leave, handler).links == x.links
  {
  }

  lemma TearClosesMore(s: State, p: Pid, i: Sid, handler: bool)
    requires Inv(s) && CanTear(s, p, StepTear(handler)) && ClosedAsFar(s, i) && s.procs[p].sid == i
    ensures ClosedAsFar(TearApply(s, p, StepTear(handler)), i)
  {
    assert ProcOk(p, s.procs[p], s.store, s.messages);
    Look(s, p, i);
    MediaIsOpen(s, p, i);
    TearShape(s, p, i, handler);
    TornMore(s.store.sessions[i], s.procs[p].tstage, s.procs[p].leave, handler);
    TornThere(s.store, i, s.procs[p], handler);
  }

  lemma TornThere(st: Store, i: Sid, proc: Proc, handler: bool)
    requires i < |st.sessions| && proc.TearingDown?
    ensures i < |TornStore(st, i, proc, handler).sessions|
    ensures TornStore(st, i, proc, handler).sessions[i] == Torn(st.sessions[i], proc.tstage, proc.leave, handler)
  {
  }

  lemma ClosedAsFarStep(s: State, step: Step, i: Sid)
    requires Inv(s) && Enabled(s, step) && ClosedAsFar(s, i)
    ensures ClosedAsFar(Apply(s, step), i)
  {
    if s.store.sessions[i].closing.Running? {
      Look(s, s.store.sessions[i].closing.winner, i);
    }
    match step
    case CreateStep(p, act) => CreateOnce(s, p, act, i); OthersCloseMore(s, step, i);
    case EstStep(p, act) => EstOnce(s, p, act, i); OthersCloseMore(s, step, i);
    case MsgStep(p, act) => MsgOnce(s, p, act, i); OthersCloseMore(s, step, i);
    case EnvStep(act) => EnvShape(s, act); OthersCloseMore(s, step, i);
    case TearStep(p, act) => TearStepCloses(s, p, act, i);
  }

  lemma TearStepCloses(s: State, p: Pid, act: TearAct, i: Sid)
    requires Inv(s) && CanTear(s, p, act) && ClosedAsFar(s, i) && Enabled(s, TearStep(p, act))
    requires s.store.sessions[i].closing.Running? ==>
      var w := s.store.sessions[i].closing.winner; w in s.procs && s.procs[w].TearingDown? && s.procs[w].sid == i
    ensures ClosedAsFar(TearApply(s, p, act), i)
  {
    match act
    case StepReset => ResetOnce(s, p, i); OthersCloseMore(s, TearStep(p, act), i);
    case EnterOnce => EnterCloses(s, p, i);
    case StepTear(handler) =>
      if s.procs[p].sid == i {
        TearClosesMore(s, p, i, handler);
      } else {
        MediaIsOpen(s, p, s.procs[p].sid);
        TearShape(s, p, s.procs[p].sid, handler);
        ElsewhereOnce(s.store, s.procs[p].sid, s.procs[p], handler, i);
        OthersCloseMore(s, TearStep(p, act), i);
      }
  }

  lemma ElsewhereOnce(st: Store, j: Sid, proc: Proc, handler: bool, i: Sid)
    requires j < |st.sessions| && i < |st.sessions| && i != j && proc.TearingDown?
    ensures i < |TornStore(st, j, proc, handler).sessions|
    ensures TornStore(st, j, proc, handler).sessions[i] == st.sessions[i]
  {
  }

  lemma EnterCloses(s: State, p: Pid, i: Sid)
    requires Inv(s) && CanTear(s, p, EnterOnce) && ClosedAsFar(s, i) && Enabled(s, TearStep(p, EnterOnce))
    ensures ClosedAsFar(TearApply(s, p, EnterOnce), i)
  {
    EnterShape(s, p, s.procs[p].sid);
    if s.procs[p].sid != i {
      OthersCloseMore(s, TearStep(p, EnterOnce), i);
    }
  }

  lemma {:induction false} ClosedAsFarRun(s: State, more: seq<Step>, t: State, i: Sid)
    requires Inv(s) && Reaches(s, more, t) && ClosedAsFar(s, i)
    ensures ClosedAsFar(t, i)
    decreases |more|
  {
    if more != [] {
      ClosedAsFarStep(s, more[0], i);
      InvStep(s, more[0]);
      ClosedAsFarRun(Apply(s, more[0]), more[1..], t, i);
    }
  }

  /**
   * A teardown that began after the session was established has closed stream, connection and agent when it is over,
   * no matter who began it, and whatever resets ran beside it.
   */
  lemma EstablishedIsClosed(s: State, i: Sid, t: State)
    requires Reachable(s) && Known(s, i) && s.store.sessions[i].links.conn && s.store.sessions[i].links.eventStream
    requires s.store.sessions[i].closing.Fresh? && Lifecycle.Leads(s, t)
    requires Known(t, i) && t.store.sessions[i].closing.Over?
    ensures var c := t.store.sessions[i].closed; c.stream && c.conn && c.agent
  {
    ReachableInv(s);
    LeadsReaches(s, t);
    var more :| Reaches(s, more, t);
    ClosedAsFarRun(s, more, t, i);
  }

  // ---------------------------------------------------------------------------------------------
  // The end of the application

  /** The application is closing: the goroutine at its gate gives up and closes ReadyChan. */
  lemma GivesUpAtGate(s: State, q: Pid, i: Sid) returns (t: State)
    requires Reachable(s) && Known(s, i) && q in s.procs && s.procs[q] == Establishing(i, AwaitCreds) && s.closing
    ensures Reachable(t) && Lifecycle.Leads(s, t) && Known(t, i) && t.closing && t.store.sessions[i].readyChan.closed
    ensures q in t.procs && t.procs[q] == Resetting(i, ResetStream, EndEstablishing)
    ensures !t.store.sessions[i].handling
  {
    PanicFree(s);
    NotHandling(s, q, i);
    var s' := Go(s, EstStep(q, Fail));
    PanicFree(s');
    t := Go(s', EstStep(q, CloseOnError));
    LeadsTrans(s, s', t);
  }

  lemma NotHandling(s: State, q: Pid, i: Sid)
    requires Reachable(s) && q in s.procs && s.procs[q] == Establishing(i, AwaitCreds)
    ensures Known(s, i) && !s.store.sessions[i].handling && !s.store.sessions[i].readyChan.closed
  {
    ReachableInv(s);
    assert ProcOk(q, s.procs[q], s.store, s.messages);
    Look(s, q, i);
  }

  /** After the application was closed, whoever waits at the gate can give up: the session is cleaned up and out. */
  lemma ShutdownEndsWaiting(s: State, q: Pid, i: Sid) returns (t: State)
    requires Reachable(s) && Known(s, i) && q in s.procs && s.procs[q] == Establishing(i, AwaitCreds)
    ensures Lifecycle.Leads(s, t) && t.closing && q !in t.procs && Known(t, i)
    ensures t.store.sessions[i].readyChan.closed && i in t.store.removed
  {
    PanicFree(s);
    EnvShape(s, CloseApp);
    var s1 := Go(s, EnvStep(CloseApp));
    var s2 := GivesUpAtGate(s1, q, i);
    t := ResetAlone(s2, q, i, ResetStream, EndEstablishing);
    LeadsTrans(s, s1, s2);
    LeadsTrans(s, s2, t);
    ClosedForGood(s2, t, i);
    AddedByNow(s2, q, i);
    OutOnceReset(s2, t, i);
  }

  lemma AddedByNow(s: State, q: Pid, i: Sid)
    requires Reachable(s) && q in s.procs && s.procs[q].Resetting? && s.procs[q].sid == i
    requires s.procs[q].after.EndEstablishing?
    ensures Known(s, i) && i in s.store.added
  {
    ReachableInv(s);
    assert ProcOk(q, s.procs[q], s.store, s.messages);
    Look(s, q, i);
  }

  lemma OutOnceReset(s: State, t: State, i: Sid)
    requires Reachable(s) && Lifecycle.Leads(s, t) && Known(s, i) && i in s.store.added
    requires t.store.repo == DeleteIfSame(s.store, i).repo
    ensures i in t.store.removed
  {
    ReachableInv(s);
    LeadsReaches(s, t);
    var steps :| Reaches(s, steps, t);
    RunGrows(s, steps, t);
  }

  lemma ClosedForGood(s: State, t: State, i: Sid)
    requires Reachable(s) && Lifecycle.Leads(s, t) && Known(s, i) && s.store.sessions[i].readyChan.closed
    ensures Known(t, i) && t.store.sessions[i].readyChan.closed
  {
    ReachableInv(s);
    LeadsReaches(s, t);
    var steps :| Reaches(s, steps, t);
    RunGrows(s, steps, t);
  }

  /** And a reconnect loop ends at its next turn. */
  lemma ShutdownEndsLoops(s: State, p: Pid, u: Uid, tries: nat) returns (t: State)
    requires Reachable(s) && p in s.procs && s.procs[p] == Retrying(u, tries)
    ensures Lifecycle.Leads(s, t) && t.closing && p !in t.procs
  {
    PanicFree(s);
    EnvShape(s, CloseApp);
    var s1 := Go(s, EnvStep(CloseApp));
    PanicFree(s1);
    QuietShape(s1, p, Retry);
    t := Go(s1, CreateStep(p, Retry));
    LeadsTrans(s, s1, t);
  }

  /** Nobody opens the application again. */
  lemma {:induction false} ClosedStaysClosed(s: State, more: seq<Step>, t: State)
    requires Reaches(s, more, t) && s.closing
    ensures t.closing
    decreases |more|
  {
    if more != [] {
      StepKeepsClosing(s, more[0]);
      ClosedStaysClosed(Apply(s, more[0]), more[1..], t);
    }
  }

  lemma StepKeepsClosing(s: State, step: Step)
    requires Enabled(s, step)
    ensures s.closing ==> Apply(s, step).closing
  {
    match step
    case CreateStep(p, act) => CreateSpares(s, p, act);
    case TearStep(p, act) => TearKeepsClosing(s, p, act);
    case _ =>
  }

  lemma TearKeepsClosing(s: State, p: Pid, act: TearAct)
    requires CanTear(s, p, act)
    ensures TearApply(s, p, act).closing == s.closing
  {
    if act.StepReset? {
      ResetSpares(s, p);
    }
  }
}
