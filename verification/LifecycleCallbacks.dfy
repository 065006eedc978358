/** When the connected callback can still fire: exactly as long as the announcement is ahead. */
module LifecycleCallbacks {
  import opened Channels
  import opened Wire
  import opened Lifecycle
  import opened LifecycleInvariant
  import opened LifecycleWaiting
  import opened LifecycleTheorems

  /** The goroutine will start the session's establishment, or has not got past its announcement. */
  predicate Announces(proc: Proc, i: Sid) {
    match proc
    case Won(j, _) => i == j
    case Establishing(j, stage) => i == j && Rank(stage) <= 7
    case _ => false
  }

  /** The announcement of session `i` is still ahead. */
  predicate Ahead(s: State, i: Sid) {
    Known(s, i) &&
    var owner := s.store.sessions[i].owner;
    owner in s.procs && Announces(s.procs[owner], i)
  }

  // ---------------------------------------------------------------------------------------------
  // Who gets to announce, and from where

  /** Where a goroutine that will announce session `i` comes from. */
  ghost predicate ComesFrom(s: State, q: Pid, proc: Proc, i: Sid) {
    || (q in s.procs && (s.procs[q] == proc || (s.procs[q].Made? && s.procs[q].sid == i) || Announces(s.procs[q], i)))
    || (exists p :: p in s.procs && s.procs[p].Won? && s.procs[p].sid == i)
  }

  lemma MovedFrom(s: State, t: State, p: Pid, next: Option<Proc>, i: Sid)
    requires p in s.procs && Moved(s, t, p, next)
    requires next.Some? && Announces(next.value, i) ==> ComesFrom(s, p, next.value, i)
    ensures forall q :: q in t.procs && Announces(t.procs[q], i) ==> ComesFrom(s, q, t.procs[q], i)
  {
  }

  lemma CreatesFrom(s: State, p: Pid, act: CreateAct, i: Sid)
    requires CanCreate(s, p, act) && PidsOk(s.procs, s.next)
    ensures forall q :: q in CreateApply(s, p, act).procs && Announces(CreateApply(s, p, act).procs[q], i) ==>
      ComesFrom(s, q, CreateApply(s, p, act).procs[q], i)
  {
    var t, proc := CreateApply(s, p, act), s.procs[p];
    match act
    case Allocate => MovedFrom(s, t, p, Some(t.procs[p]), i);
    case GiveUp =>
      UnluckyShape(s, p, UidOf(s, proc), proc.why);
      MovedFrom(s, t, p, UnluckyProc(UidOf(s, proc), proc.why), i);
    case Add(timedOut) =>
      var u := s.store.sessions[proc.sid].userId;
      if timedOut || u in s.store.repo {
        UnluckyShape(s, p, u, proc.why);
        MovedFrom(s, t, p, UnluckyProc(u, proc.why), i);
      } else {
        MovedFrom(s, t, p, Some(t.procs[p]), i);
      }
    case Launch => LaunchShape(s, p, proc.sid);
    case _ => QuietShape(s, p, act); MovedFrom(s, t, p, QuietNext(s, p, act), i);
  }

  lemma EstablishesFrom(s: State, p: Pid, act: EstAct, i: Sid)
    requires CanEstablish(s, p, act)
    ensures forall q :: q in EstApply(s, p, act).procs && Announces(EstApply(s, p, act).procs[q], i) ==>
      ComesFrom(s, q, EstApply(s, p, act).procs[q], i)
  {
  }

  lemma TearsFrom(s: State, p: Pid, act: TearAct, i: Sid)
    requires CanTear(s, p, act)
    ensures forall q :: q in TearApply(s, p, act).procs && Announces(TearApply(s, p, act).procs[q], i) ==>
      ComesFrom(s, q, TearApply(s, p, act).procs[q], i)
  {
    if act.StepReset? {
      if s.procs[p].rstage.ResetDelete? {
        ResetShape(s, p, s.procs[p].sid);
      }
    } else if act.EnterOnce? {
      EnterShape(s, p, s.procs[p].sid);
    }
  }

  lemma HandlesFrom(s: State, p: Pid, act: MsgAct, i: Sid)
    requires CanHandle(s, p, act)
    ensures forall q :: q in MsgApply(s, p, act).procs && Announces(MsgApply(s, p, act).procs[q], i) ==>
      ComesFrom(s, q, MsgApply(s, p, act).procs[q], i)
  {
    MsgShape(s, p, act);
  }

  lemma StepsFrom(s: State, step: Step, i: Sid)
    requires Inv(s) && Enabled(s, step)
    ensures forall q :: q in Apply(s, step).procs && Announces(Apply(s, step).procs[q], i) ==>
      ComesFrom(s, q, Apply(s, step).procs[q], i)
  {
    match step
    case CreateStep(p, act) => CreatesFrom(s, p, act, i);
    case EstStep(p, act) => EstablishesFrom(s, p, act, i);
    case TearStep(p, act) => TearsFrom(s, p, act, i);
    case MsgStep(p, act) => HandlesFrom(s, p, act, i);
    case EnvStep(act) => EnvShape(s, act);
  }

  lemma FromAhead(s: State, q: Pid, proc: Proc, i: Sid)
    requires Inv(s) && i in s.store.added && Announces(proc, i) && ComesFrom(s, q, proc, i)
    ensures Ahead(s, i)
  {
    Look(s, q, i);
    if exists p :: p in s.procs && s.procs[p].Won? && s.procs[p].sid == i {
      var p :| p in s.procs && s.procs[p].Won? && s.procs[p].sid == i;
      assert ProcOk(p, s.procs[p], s.store, s.messages);
    } else {
      assert ProcOk(q, s.procs[q], s.store, s.messages);
    }
  }

  // ---------------------------------------------------------------------------------------------
  // Who calls the connected handler

  ghost predicate OnlyAnnounced(s: State, t: State, i: Sid) {
    Known(s, i) && Known(t, i) && Connected in t.store.sessions[i].callbacks ==>
      || Connected in s.store.sessions[i].callbacks
      || exists p :: p in s.procs && s.procs[p] == Establishing(i, Announcing)
  }

  lemma CreateAnnounces(s: State, p: Pid, act: CreateAct, i: Sid)
    requires CanCreate(s, p, act)
    ensures OnlyAnnounced(s, CreateApply(s, p, act), i)
  {
    var proc := s.procs[p];
    match act
    case GiveUp => UnluckyShape(s, p, UidOf(s, proc), proc.why);
    case Add(_) => UnluckyShape(s, p, s.store.sessions[proc.sid].userId, proc.why);
    case Launch => LaunchShape(s, p, proc.sid);
    case SeeReady => QuietShape(s, p, act);
    case Retry => QuietShape(s, p, act);
    case Allocate =>
  }

  lemma EstAnnounces(s: State, p: Pid, act: EstAct, i: Sid)
    requires CanEstablish(s, p, act)
    ensures OnlyAnnounced(s, EstApply(s, p, act), i)
  {
  }

  lemma TearAnnounces(s: State, p: Pid, act: TearAct, i: Sid)
    requires CanTear(s, p, act)
    ensures OnlyAnnounced(s, TearApply(s, p, act), i)
  {
    if act.StepReset? {
      ResetAnnounces(s, p, i);
    } else if act.EnterOnce? {
      EnterShape(s, p, s.procs[p].sid);
    } else if s.procs[p].tstage.TearNotify? {
      LeaveMoves(s.(store := TornStore(s.store, s.procs[p].sid, s.procs[p], act.handler)), p, s.procs[p].group);
    }
  }

  lemma ResetAnnounces(s: State, p: Pid, i: Sid)
    requires CanTear(s, p, StepReset)
    ensures OnlyAnnounced(s, ResetApply(s, p), i)
  {
    if s.procs[p].rstage.ResetDelete? {
      ResetShape(s, p, s.procs[p].sid);
    }
  }

  lemma MsgAnnounces(s: State, p: Pid, act: MsgAct, i: Sid)
    requires CanHandle(s, p, act)
    ensures OnlyAnnounced(s, MsgApply(s, p, act), i)
  {
    MsgShape(s, p, act);
  }

  lemma StepAnnounces(s: State, step: Step, i: Sid)
    requires Enabled(s, step)
    ensures OnlyAnnounced(s, Apply(s, step), i)
  {
    match step
    case CreateStep(p, act) => CreateAnnounces(s, p, act, i);
    case EstStep(p, act) => EstAnnounces(s, p, act, i);
    case TearStep(p, act) => TearAnnounces(s, p, act, i);
    case MsgStep(p, act) => MsgAnnounces(s, p, act, i);
    case EnvStep(act) => EnvShape(s, act);
  }

  // ---------------------------------------------------------------------------------------------

  lemma AnnouncerIsAhead(s: State, i: Sid)
    requires Inv(s) && i in s.store.added && exists p :: p in s.procs && s.procs[p] == Establishing(i, Announcing)
    ensures Ahead(s, i)
  {
    var p :| p in s.procs && s.procs[p] == Establishing(i, Announcing);
    FromAhead(s, p, s.procs[p], i);
  }

  lemma StillAhead(s: State, step: Step, i: Sid)
    requires Inv(s) && Enabled(s, step) && i in s.store.added && Ahead(Apply(s, step), i)
    ensures Ahead(s, i)
  {
    var t := Apply(s, step);
    var q := t.store.sessions[i].owner;
    StepsFrom(s, step, i);
    FromAhead(s, q, t.procs[q], i);
  }

  /** Once the announcement is not ahead it never is again, and the connected callback stays as it was. */
  lemma NotAheadStep(s: State, step: Step, i: Sid)
    requires Inv(s) && Enabled(s, step) && i in s.store.added && !Ahead(s, i)
    ensures Known(s, i) && Known(Apply(s, step), i) && !Ahead(Apply(s, step), i) && i in Apply(s, step).store.added
    ensures Connected in Apply(s, step).store.sessions[i].callbacks <==> Connected in s.store.sessions[i].callbacks
  {
    var j := InvLocal(s, step);
    StepAnnounces(s, step, i);
    if Ahead(Apply(s, step), i) {
      StillAhead(s, step, i);
    }
    if exists p :: p in s.procs && s.procs[p] == Establishing(i, Announcing) {
      AnnouncerIsAhead(s, i);
    }
  }

  lemma {:induction false} NotAheadForGood(s: State, more: seq<Step>, t: State, i: Sid)
    requires Inv(s) && Reaches(s, more, t) && i in s.store.added && !Ahead(s, i)
    ensures Known(s, i) && Known(t, i) && !Ahead(t, i)
    ensures Connected in t.store.sessions[i].callbacks <==> Connected in s.store.sessions[i].callbacks
    decreases |more|
  {
    if more == [] {
      Look(s, 0, i);
    } else {
      NotAheadStep(s, more[0], i);
      InvStep(s, more[0]);
      NotAheadForGood(Apply(s, more[0]), more[1..], t, i);
    }
  }

  /** ReadyChan is closed: whatever happens from now on, the connected handler has been called or never will be. */
  lemma ReadyMeansAnnouncedOrNever(s: State, i: Sid, t: State)
    requires Reachable(s) && Known(s, i) && s.store.sessions[i].readyChan.closed && Leads(s, t)
    ensures Known(t, i)
    ensures Connected in t.store.sessions[i].callbacks <==> Connected in s.store.sessions[i].callbacks
  {
    ReachableInv(s);
    Look(s, 0, i);
    LeadsReaches(s, t);
    var more :| Reaches(s, more, t);
    NotAheadForGood(s, more, t, i);
  }

  /** Before the announcement nobody but a user who leaves can have begun, let alone finished, a teardown. */
  lemma OnlyLeavingPrecedes(t: State, i: Sid)
    requires Reachable(t) && Ahead(t, i)
    ensures var x := t.store.sessions[i];
      && (x.closing.Over? ==> x.closing == Over(true)) && (x.closing.Running? ==> x.closing.leave) && x.callbacks == []
  {
    ReachableInv(t);
    Look(t, 0, i);
  }

  /** A user who has left is never told that the peer is gone. */
  lemma NeverDisconnectedAfterLeaving(s: State, i: Sid, t: State)
    requires Reachable(s) && Known(s, i) && s.store.sessions[i].closing == Over(true) && Leads(s, t)
    ensures Known(t, i) && Disconnected !in t.store.sessions[i].callbacks && t.store.sessions[i].notified == 1
  {
    ReachableInv(s);
    LeadsReaches(s, t);
    var more :| Reaches(s, more, t);
    RunGrows(s, more, t);
    Look(t, 0, i);
  }
}
