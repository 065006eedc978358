/** The wait groups of Connect and Disconnect: why one fails, and when its call can return nil. */
module LifecycleGroups {
  import opened Channels
  import opened Wire
  import opened Lifecycle
  import opened LifecycleInvariant
  import opened LifecycleWaiting
  import opened LifecycleTheorems
  import opened LifecycleRuns

  // ---------------------------------------------------------------------------------------------
  // Why a group fails

  /** A member of the group, still without a session in the repository, ends. */
  predicate EndsWithoutSession(s: State, t: State, p: Pid, g: Gid) {
    && p in s.procs && MemberAt(s.procs, p) == Some((g, true)) && (s.procs[p].Creating? || s.procs[p].Made?)
    && p !in t.procs
  }

  ghost predicate SomeoneFails(s: State, t: State, g: Gid) {
    exists p :: EndsWithoutSession(s, t, p, g)
  }

  /** What the step of goroutine `p` does to the failures of groups. */
  ghost predicate FailsRight(s: State, t: State, p: Pid) {
    forall g :: g in s.groups ==>
      g in t.groups && (t.groups[g].failed <==> s.groups[g].failed || EndsWithoutSession(s, t, p, g))
  }

  lemma SameFailures(s: State, t: State, p: Pid)
    requires t.groups == s.groups && forall g :: !EndsWithoutSession(s, t, p, g)
    ensures FailsRight(s, t, p)
  {
  }

  lemma UnluckyFails(s: State, p: Pid, uid: Uid, why: Purpose)
    requires Inv(s) && p in s.procs && (s.procs[p].Creating? || s.procs[p].Made?) && s.procs[p].why == why
    ensures FailsRight(s, Unlucky(s, p, uid, why), p)
  {
    UnluckyShape(s, p, uid, why);
    if why.ForGroup? {
      MembersCount(s, p);
      LeaveShape(s, p, why.gid, true);
    }
  }

  lemma SeeReadyFails(s: State, p: Pid)
    requires Inv(s) && CanCreate(s, p, SeeReady)
    ensures FailsRight(s, CreateApply(s, p, SeeReady), p)
  {
    if s.procs[p].why.ForGroup? {
      MembersCount(s, p);
      LeaveShape(s, p, s.procs[p].why.gid, false);
    }
  }

  lemma LaunchFails(s: State, p: Pid)
    requires Inv(s) && CanCreate(s, p, Launch)
    ensures FailsRight(s, CreateApply(s, p, Launch), p)
  {
    if s.procs[p].why.ForGroup? {
      MembersCount(s, p);
      LaunchTargets(s, p, s.procs[p].sid, s.procs[p].why.gid);
    }
  }

  lemma CreateFails(s: State, p: Pid, act: CreateAct)
    requires Inv(s) && CanCreate(s, p, act)
    ensures FailsRight(s, CreateApply(s, p, act), p)
  {
    var proc := s.procs[p];
    match act
    case Allocate =>
    case GiveUp => UnluckyFails(s, p, UidOf(s, proc), proc.why);
    case Add(timedOut) =>
      var u := s.store.sessions[proc.sid].userId;
      if timedOut || u in s.store.repo {
        UnluckyFails(s, p, u, proc.why);
      }
    case Launch => LaunchFails(s, p);
    case SeeReady => SeeReadyFails(s, p);
    case Retry =>
  }

  lemma EstFails(s: State, p: Pid, act: EstAct)
    requires CanEstablish(s, p, act)
    ensures FailsRight(s, EstApply(s, p, act), p)
  {
  }

  lemma LeaveKeeps(s: State, p: Pid, group: Option<Gid>)
    requires p in s.procs
    ensures forall g :: g in s.groups ==>
      g in LeaveIfMember(s, p, group).groups && LeaveIfMember(s, p, group).groups[g].failed == s.groups[g].failed
  {
  }

  lemma TearFails(s: State, p: Pid, act: TearAct)
    requires Inv(s) && CanTear(s, p, act)
    ensures FailsRight(s, TearApply(s, p, act), p)
  {
    var i := s.procs[p].sid;
    match act
    case StepReset => ResetFails(s, p);
    case EnterOnce =>
      if s.store.sessions[i].closing.Over? {
        LeaveKeeps(s, p, s.procs[p].group);
      }
    case StepTear(handler) =>
      MediaIsOpen(s, p, i);
      if s.procs[p].tstage.TearNotify? {
        LeaveKeeps(s.(store := TornStore(s.store, i, s.procs[p], handler)), p, s.procs[p].group);
      }
  }

  lemma ResetFails(s: State, p: Pid)
    requires CanTear(s, p, StepReset)
    ensures FailsRight(s, ResetApply(s, p), p)
  {
  }

  lemma MsgFails(s: State, p: Pid, act: MsgAct)
    requires CanHandle(s, p, act)
    ensures FailsRight(s, MsgApply(s, p, act), p)
  {
    MsgMembers(s, p, act);
  }

  lemma EnvFails(s: State, act: EnvAct)
    requires CanStart(s, act)
    ensures forall g :: g in s.groups ==>
      g in EnvApply(s, act).groups && EnvApply(s, act).groups[g].failed == s.groups[g].failed
  {
  }

  /**
   * Exactly why a group fails, in every step from a reachable state: a member ends before its session is in the
   * repository. Nobody whose session was inserted ever makes it fail, however establishment ends.
   */
  lemma FailsExactly(s: State, step: Step, g: Gid)
    requires Inv(s) && Enabled(s, step) && g in s.groups
    ensures g in Apply(s, step).groups
    ensures Apply(s, step).groups[g].failed <==> s.groups[g].failed || SomeoneFails(s, Apply(s, step), g)
  {
    var t := Apply(s, step);
    var i := InvLocal(s, step);
    if step.EnvStep? {
      EnvFails(s, step.envAct);
      EnvShape(s, step.envAct);
    } else {
      match step {
        case CreateStep(p, act) => CreateFails(s, p, act);
        case EstStep(p, act) => EstFails(s, p, act);
        case TearStep(p, act) => TearFails(s, p, act);
        case MsgStep(p, act) => MsgFails(s, p, act);
      }
      assert forall p :: EndsWithoutSession(s, t, p, g) ==> p == step.p;
    }
  }

  /** And a member ends so only on an error return of createSession: a failed call, a timed-out Add or a taken id. */
  lemma EndsOnErrors(s: State, step: Step, p: Pid, g: Gid)
    requires Inv(s) && Enabled(s, step) && EndsWithoutSession(s, Apply(s, step), p, g)
    ensures step == CreateStep(p, GiveUp) || (step.CreateStep? && step.p == p && step.createAct.Add?)
    ensures step.CreateStep? && step.createAct.Add? ==>
      s.procs[p].Made? && Known(s, s.procs[p].sid)
      && (step.createAct.timedOut || s.store.sessions[s.procs[p].sid].userId in s.store.repo)
  {
    var i := InvLocal(s, step);
    assert p == Actor(s, step);
    match step
    case CreateStep(q, act) =>
    case EnvStep(act) =>
    case _ =>
  }

  // ---------------------------------------------------------------------------------------------
  // Over runs

  /** Whom a member works for has been asked for. */
  ghost predicate MembersAsked(s: State) {
    forall q, g, u :: AsksAt(s.procs, q, s.store) == Some((g, u)) && g in s.groups ==> u in s.groups[g].asked
  }

  /** The goroutine goes on asking for whom it asked, or for nobody. */
  ghost predicate AsksLess(s: State, t: State, p: Pid) {
    AsksAt(t.procs, p, t.store).Some? ==> AsksAt(t.procs, p, t.store) == AsksAt(s.procs, p, s.store)
  }

  lemma CreateAsksLess(s: State, p: Pid, act: CreateAct)
    requires Core(s) && CanCreate(s, p, act)
    ensures AsksLess(s, CreateApply(s, p, act), p)
  {
    var proc := s.procs[p];
    match act
    case GiveUp => UnluckyShape(s, p, UidOf(s, proc), proc.why);
    case Add(_) => UnluckyShape(s, p, s.store.sessions[proc.sid].userId, proc.why);
    case Launch => LaunchShape(s, p, proc.sid);
    case SeeReady => QuietShape(s, p, act);
    case Retry => QuietShape(s, p, act);
    case Allocate =>
  }

  lemma EstAsksLess(s: State, p: Pid, act: EstAct)
    requires CanEstablish(s, p, act)
    ensures AsksLess(s, EstApply(s, p, act), p)
  {
  }

  lemma ResetAsksLess(s: State, p: Pid)
    requires CanTear(s, p, StepReset)
    ensures AsksLess(s, ResetApply(s, p), p)
  {
    if s.procs[p].rstage.ResetDelete? {
      ResetShape(s, p, s.procs[p].sid);
    } else {
      ResetSpares(s, p);
    }
  }

  lemma TearAsksLess(s: State, p: Pid, act: TearAct)
    requires Inv(s) && CanTear(s, p, act)
    ensures AsksLess(s, TearApply(s, p, act), p)
  {
    match act
    case StepReset => ResetAsksLess(s, p);
    case EnterOnce => EnterShape(s, p, s.procs[p].sid);
    case StepTear(handler) =>
      MediaIsOpen(s, p, s.procs[p].sid);
      TearShape(s, p, s.procs[p].sid, handler);
  }

  lemma MsgAsksLess(s: State, p: Pid, act: MsgAct)
    requires CanHandle(s, p, act)
    ensures AsksLess(s, MsgApply(s, p, act), p)
  {
    MsgShape(s, p, act);
  }

  lemma OwnStepAsksLess(s: State, step: Step)
    requires Inv(s) && Enabled(s, step) && !step.EnvStep?
    ensures AsksLess(s, Apply(s, step), step.p)
  {
    match step
    case CreateStep(p, act) => CreateAsksLess(s, p, act);
    case EstStep(p, act) => EstAsksLess(s, p, act);
    case TearStep(p, act) => TearAsksLess(s, p, act);
    case MsgStep(p, act) => MsgAsksLess(s, p, act);
  }

  lemma NewMemberAsks(s: State, act: EnvAct)
    requires Inv(s) && CanStart(s, act)
    ensures var t := EnvApply(s, act); var ask := AsksAt(t.procs, s.next, t.store);
      ask.Some? && ask.value.0 in t.groups ==> ask.value.1 in t.groups[ask.value.0].asked
  {
    EnvShape(s, act);
  }

  /** All others ask for whom they asked; the groups have been asked for at least the same users. */
  lemma OthersStayAsked(s: State, t: State, p: Pid)
    requires MembersAsked(s) && GroupsOk(s.groups, s.procs, s.store) && GroupsKept(s.groups, t.groups)
    requires forall q :: q != p ==> AsksAt(t.procs, q, t.store) == AsksAt(s.procs, q, s.store)
    requires forall g, u :: AsksAt(t.procs, p, t.store) == Some((g, u)) && g in t.groups ==>
      AsksAt(s.procs, p, s.store) == Some((g, u)) || u in t.groups[g].asked
    ensures MembersAsked(t)
  {
    forall q, g, u | AsksAt(t.procs, q, t.store) == Some((g, u)) && g in t.groups ensures u in t.groups[g].asked {
      if AsksAt(s.procs, q, s.store) == Some((g, u)) {
        assert MemberOk(q, MemberAt(s.procs, q), s.groups);
      }
    }
  }

  lemma MembersAskedStep(s: State, step: Step)
    requires Inv(s) && Enabled(s, step) && MembersAsked(s)
    ensures MembersAsked(Apply(s, step))
  {
    InvStep(s, step);
    if step.EnvStep? {
      NewMemberAsks(s, step.envAct);
      EnvIsLocal(s, step.envAct);
      OthersAsk(s, Apply(s, step), s.next, |s.store.sessions|);
      OthersStayAsked(s, Apply(s, step), s.next);
    } else {
      OwnStepAsks(s, step);
      OthersStayAsked(s, Apply(s, step), step.p);
    }
  }

  lemma OwnStepAsks(s: State, step: Step)
    requires Inv(s) && Enabled(s, step) && !step.EnvStep?
    ensures AsksLess(s, Apply(s, step), step.p)
    ensures forall q ::
      q != step.p ==> AsksAt(Apply(s, step).procs, q, Apply(s, step).store) == AsksAt(s.procs, q, s.store)
  {
    var i := InvLocal(s, step);
    OwnStepAsksLess(s, step);
    StepAsks(s, step);
    OthersAsk(s, Apply(s, step), step.p, i);
  }

  lemma {:induction false} MembersAskedRun(s: State, steps: seq<Step>, t: State)
    requires Inv(s) && MembersAsked(s) && Reaches(s, steps, t)
    ensures MembersAsked(t)
    decreases |steps|
  {
    if steps != [] {
      MembersAskedStep(s, steps[0]);
      InvStep(s, steps[0]);
      MembersAskedRun(Apply(s, steps[0]), steps[1..], t);
    }
  }

  /** In the step from `s` to `t` a member the group was asked to have for `u` ends before its session is inserted. */
  ghost predicate CreationFails(s: State, t: State, g: Gid, u: Uid) {
    && g in s.groups && u in s.groups[g].asked
    && exists p :: EndsWithoutSession(s, t, p, g) && AsksAt(s.procs, p, s.store) == Some((g, u))
  }

  /** Such a step was taken on the way. */
  ghost predicate CreationFailed(from: State, to: State, g: Gid) {
    exists s, step, u ::
      Leads(from, s) && Enabled(s, step) && CreationFails(s, Apply(s, step), g, u) && Leads(Apply(s, step), to)
  }

  lemma FailerAsks(s: State, step: Step, g: Gid) returns (u: Uid)
    requires Reachable(s) && Enabled(s, step) && g in s.groups && SomeoneFails(s, Apply(s, step), g)
    ensures CreationFails(s, Apply(s, step), g, u)
  {
    ReachableInv(s);
    LeadsReaches(INITIAL, s);
    var steps :| Reaches(INITIAL, steps, s);
    InvInit();
    MembersAskedRun(INITIAL, steps, s);
    var p :| EndsWithoutSession(s, Apply(s, step), p, g);
    assert ProcOk(p, s.procs[p], s.store, s.messages);
    u := AsksAt(s.procs, p, s.store).value.1;
  }

  lemma {:induction false} FailureHasAReason(s: State, steps: seq<Step>, t: State, g: Gid)
    requires Reachable(s) && Reaches(s, steps, t) && g in s.groups && !s.groups[g].failed
    requires g in t.groups && t.groups[g].failed
    ensures CreationFailed(s, t, g)
    decreases |steps|
  {
    ReachableInv(s);
    var s' := Apply(s, steps[0]);
    FailsExactly(s, steps[0], g);
    LeadsRefl(s);
    LeadsSnoc(s, s, steps[0]);
    LeadsTrans(INITIAL, s, s');
    LeadsRefl(s');
    ReachesLeads(s', s', steps[1..], t);
    if s'.groups[g].failed {
      var u := FailerAsks(s, steps[0], g);
      assert Leads(s, s) && Enabled(s, steps[0]) && CreationFails(s, Apply(s, steps[0]), g, u) && Leads(s', t);
    } else {
      FailureHasAReason(s', steps[1..], t, g);
      EarlierStill(s, s', t, g);
    }
  }

  lemma EarlierStill(s: State, s': State, t: State, g: Gid)
    requires Leads(s, s') && CreationFailed(s', t, g)
    ensures CreationFailed(s, t, g)
  {
    var v, step, u :|
      Leads(s', v) && Enabled(v, step) && CreationFails(v, Apply(v, step), g, u) && Leads(Apply(v, step), t);
    LeadsTrans(s, s', v);
  }

  lemma ReasonMeansFailure(s: State, t: State, g: Gid)
    requires Reachable(s) && CreationFailed(s, t, g)
    ensures g in t.groups && t.groups[g].failed
  {
    var v, step, u :|
      Leads(s, v) && Enabled(v, step) && CreationFails(v, Apply(v, step), g, u) && Leads(Apply(v, step), t);
    LeadsTrans(INITIAL, s, v);
    ReachableInv(v);
    FailsExactly(v, step, g);
    InvStep(v, step);
    LeadsReaches(Apply(v, step), t);
    var more :| Reaches(Apply(v, step), more, t);
    RunGrows(Apply(v, step), more, t);
  }

  /**
   * From any reachable state with an unfailed group, on any run: the group has failed exactly if on the way a member
   * for one of the users asked for ended before its session was in the repository.
   */
  lemma FailedExactly(s: State, t: State, g: Gid)
    requires Reachable(s) && Leads(s, t) && g in s.groups && !s.groups[g].failed
    ensures g in t.groups && (t.groups[g].failed <==> CreationFailed(s, t, g))
  {
    ReachableInv(s);
    LeadsReaches(s, t);
    var steps :| Reaches(s, steps, t);
    RunGrows(s, steps, t);
    if t.groups[g].failed {
      FailureHasAReason(s, steps, t, g);
    } else if CreationFailed(s, t, g) {
      ReasonMeansFailure(s, t, g);
    }
  }

  /** A group of Disconnect never fails. */
  lemma {:induction false} DisconnectsNeverFailRun(s: State, steps: seq<Step>, t: State)
    requires Inv(s) && Reaches(s, steps, t)
    requires forall g :: g in s.groups && s.groups[g].failed ==> s.groups[g].connecting
    ensures forall g :: g in t.groups && t.groups[g].failed ==> t.groups[g].connecting
    decreases |steps|
  {
    if steps != [] {
      var s' := Apply(s, steps[0]);
      InvStep(s, steps[0]);
      forall g | g in s'.groups && s'.groups[g].failed ensures s'.groups[g].connecting {
        if g in s.groups {
          FailsExactly(s, steps[0], g);
          if !s.groups[g].failed {
            var p :| EndsWithoutSession(s, s', p, g);
            assert MemberOk(p, MemberAt(s.procs, p), s.groups);
          }
        } else {
          NewGroupsAreFine(s, steps[0], g);
        }
      }
      DisconnectsNeverFailRun(s', steps[1..], t);
    }
  }

  lemma NewGroupsAreFine(s: State, step: Step, g: Gid)
    requires Inv(s) && Enabled(s, step) && g !in s.groups && g in Apply(s, step).groups
    ensures !Apply(s, step).groups[g].failed
  {
    match step
    case EnvStep(act) =>
    case CreateStep(p, act) => CreateNoNewGroups(s, p, act, g);
    case EstStep(p, act) => EstMembers(s, p, act);
    case TearStep(p, act) => TearNoNewGroups(s, p, act, g);
    case MsgStep(p, act) => MsgMembers(s, p, act);
  }

  lemma CreateNoNewGroups(s: State, p: Pid, act: CreateAct, g: Gid)
    requires CanCreate(s, p, act) && g !in s.groups
    ensures g !in CreateApply(s, p, act).groups
  {
  }

  lemma TearNoNewGroups(s: State, p: Pid, act: TearAct, g: Gid)
    requires CanTear(s, p, act) && g !in s.groups
    ensures g !in TearApply(s, p, act).groups
  {
  }

  lemma DisconnectsNeverFail(t: State, g: Gid)
    requires Reachable(t) && g in t.groups && !t.groups[g].connecting
    ensures !t.groups[g].failed
  {
    LeadsReaches(INITIAL, t);
    var steps :| Reaches(INITIAL, steps, t);
    InvInit();
    DisconnectsNeverFailRun(INITIAL, steps, t);
  }

  // ---------------------------------------------------------------------------------------------
  // When nil can be returned

  /** Every unfinished member of the group waits for a ReadyChan that is closed. */
  ghost predicate AllReady(s: State, g: Gid) {
    && g in s.groups && s.groups[g].connecting && !s.groups[g].failed
    && forall q :: q in s.groups[g].live ==>
         q in s.procs && s.procs[q].AwaitReady? && Known(s, s.procs[q].sid)
         && s.store.sessions[s.procs[q].sid].readyChan.closed
  }

  /** The caller of the group's API has nil. */
  ghost predicate Nil(t: State, g: Gid) {
    g in t.groups && t.groups[g].returned
  }

  lemma OneSeesReady(s: State, g: Gid, q: Pid) returns (t: State)
    requires Reachable(s) && AllReady(s, g) && q in s.groups[g].live
    ensures Reachable(t) && Leads(s, t) && AllReady(t, g) && t.store == s.store
    ensures t.groups[g] == s.groups[g].(live := s.groups[g].live - {q})
  {
    ReachableInv(s);
    PanicFree(s);
    assert GroupOk(g, s.groups[g], s.procs, s.store);
    QuietShape(s, q, SeeReady);
    LeaveShape(s, q, g, false);
    FailsExactly(s, CreateStep(q, SeeReady), g);
    t := Go(s, CreateStep(q, SeeReady));
  }

  /**
   * In every reachable state: once every member waits for a closed ReadyChan and none has failed, Connect can return
   * nil, established sessions and failed ones alike, with nobody else moving.
   */
  lemma {:induction false} NilWhenReady(s: State, g: Gid) returns (t: State)
    requires Reachable(s) && AllReady(s, g)
    ensures Reachable(t) && Leads(s, t) && Nil(t, g) && t.store == s.store
    ensures t.groups[g] == s.groups[g].(live := {}, returned := true)
    decreases |s.groups[g].live|
  {
    if s.groups[g].live == {} {
      PanicFree(s);
      t := Go(s, EnvStep(ReturnNil(g)));
    } else {
      var q :| q in s.groups[g].live;
      var s' := OneSeesReady(s, g, q);
      t := NilWhenReady(s', g);
      LeadsTrans(s, s', t);
    }
  }

  /** A Connect with one member, which waits for the session it has started. */
  lemma OneMember(u: Uid) returns (t: State, q: Pid, i: Sid)
    ensures Leads(INITIAL, t) && Waits(t, q, i) && t.store.sessions[i].userId == u && q != 0
    ensures 0 in t.procs && t.procs[0] == AwaitReady(i, ForGroup(0)) && t.flights == INITIAL.flights
    ensures 0 in t.groups && t.groups[0] == Group(true, {0}, map[i := 0], false, false, {u})
  {
    LeadsRefl(INITIAL);
    var s1 := Go(INITIAL, EnvStep(OpenGroup(0, true)));
    var s2 := Go(s1, EnvStep(ConnectMember(0, u)));
    t, q, i := Creates(s2, 0, u, true, ForGroup(0));
    LeadsTrans(INITIAL, s1, s2);
    LeadsTrans(INITIAL, s2, t);
  }

  /** From the start to nil, with the session of the peer established. */
  lemma NilWithEstablished(u: Uid, creds: Credentials) returns (t: State, i: Sid)
    ensures Leads(INITIAL, t) && Nil(t, 0) && t.groups[0].asked == {u} && Known(t, i) && i in t.groups[0].targets
    ensures t.store.sessions[i].userId == u && FullyEstablished(t.store.sessions[i])
  {
    var s, q;
    s, q, i := OneMember(u);
    var s1 := SendToken(s, q, i, creds);
    var s2 := EstablishAlone(s1, q, i, AwaitCreds, SOME_KEY);
    LeadsTrans(INITIAL, s, s1);
    LeadsTrans(INITIAL, s1, s2);
    t := NilWhenReady(s2, 0);
    LeadsTrans(INITIAL, s2, t);
    KeepsUser(s, s1, i);
    KeepsUser(s1, s2, i);
  }

  /** And with one whose establishment failed. */
  lemma NilWithFailed(u: Uid, creds: Credentials) returns (t: State, i: Sid)
    ensures Leads(INITIAL, t) && Nil(t, 0) && t.groups[0].asked == {u} && Known(t, i) && i in t.groups[0].targets
    ensures t.store.sessions[i].userId == u && !FullyEstablished(t.store.sessions[i])
  {
    var s, q;
    s, q, i := OneMember(u);
    var s1 := SendToken(s, q, i, creds);
    KeepsUser(s, s1, i);
    var s2 := FailsBehindTheGate(s1, q, i, AwaitCreds);
    LeadsTrans(INITIAL, s, s1);
    LeadsTrans(INITIAL, s1, s2);
    t := NilWhenReady(s2, 0);
    LeadsTrans(INITIAL, s2, t);
  }

  // ---------------------------------------------------------------------------------------------
  // Disconnect can always come to its end

  /** One statement inside Closing.Do, whatever its flag and its group. */
  lemma TearsOneStep(s: State, p: Pid) returns (t: State)
    requires Reachable(s) && p in s.procs && s.procs[p].TearingDown?
    ensures Reachable(t) && Leads(s, t)
    ensures var i, stage := s.procs[p].sid, s.procs[p].tstage;
      if stage.TearNotify? then t.procs == s.procs - {p} && Known(t, i) && t.store.sessions[i].closing.Over?
      else t.procs == s.procs[p := s.procs[p].(tstage := NextTear(stage))]
  {
    var i := s.procs[p].sid;
    ReachableInv(s);
    assert ProcOk(p, s.procs[p], s.store, s.messages);
    MediaIsOpen(s, p, i);
    TearShape(s, p, i, false);
    t := Go(s, TearStep(p, StepTear(false)));
  }

  lemma {:induction false} TearsToTheEnd(s: State, p: Pid, i: Sid) returns (t: State)
    requires Reachable(s) && p in s.procs && s.procs[p].TearingDown? && s.procs[p].sid == i
    ensures Reachable(t) && Leads(s, t) && t.procs == s.procs - {p}
    ensures Known(t, i) && t.store.sessions[i].closing.Over?
    decreases StagesLeft(s.procs[p].tstage)
  {
    t := TearsOneStep(s, p);
    if !s.procs[p].tstage.TearNotify? {
      var s' := t;
      t := TearsToTheEnd(s', p, i);
      LeadsTrans(s, s', t);
    }
  }

  /** A goroutine at Closing.Do, when nobody is inside, comes to its end. */
  lemma EntersAndEnds(s: State, p: Pid, i: Sid) returns (t: State)
    requires Reachable(s) && p in s.procs && s.procs[p].Disconnecting? && s.procs[p].sid == i
    requires Known(s, i) && !s.store.sessions[i].closing.Running?
    ensures Reachable(t) && Leads(s, t) && t.procs == s.procs - {p}
  {
    PanicFree(s);
    EnterShape(s, p, i);
    t := Go(s, TearStep(p, EnterOnce));
    if !s.store.sessions[i].closing.Over? {
      var s' := t;
      t := TearsToTheEnd(s', p, i);
      LeadsTrans(s, s', t);
    }
  }

  /** Goroutines have ended, and nothing else has happened to any. */
  ghost predicate SomeEnded(s: State, t: State) {
    forall k :: k in t.procs ==> k in s.procs && t.procs[k] == s.procs[k]
  }

  lemma DisconnectMembers(s: State, g: Gid, q: Pid)
    requires Reachable(s) && g in s.groups && !s.groups[g].connecting && q in s.groups[g].live
    ensures q in s.procs && (s.procs[q].TearingDown? || s.procs[q].Disconnecting?) && Known(s, s.procs[q].sid)
    ensures var x := s.store.sessions[s.procs[q].sid]; x.closing.Running? ==>
      var w := x.closing.winner; w in s.procs && s.procs[w].TearingDown? && s.procs[w].sid == s.procs[q].sid
  {
    ReachableInv(s);
    assert GroupOk(g, s.groups[g], s.procs, s.store);
    assert ProcOk(q, s.procs[q], s.store, s.messages);
    Look(s, q, s.procs[q].sid);
  }

  /** A member of Disconnect's group can be brought to its end, by finishing whoever is inside Closing.Do first. */
  lemma MemberEnds(s: State, g: Gid, q: Pid) returns (t: State)
    requires Reachable(s) && g in s.groups && !s.groups[g].connecting && q in s.groups[g].live
    ensures Reachable(t) && Leads(s, t) && q !in t.procs && SomeEnded(s, t)
  {
    DisconnectMembers(s, g, q);
    var i := s.procs[q].sid;
    if s.procs[q].TearingDown? {
      t := TearsToTheEnd(s, q, i);
    } else if s.store.sessions[i].closing.Running? {
      var w := s.store.sessions[i].closing.winner;
      var s' := TearsToTheEnd(s, w, i);
      t := EntersAndEnds(s', q, i);
      LeadsTrans(s, s', t);
    } else {
      t := EntersAndEnds(s, q, i);
    }
  }

  lemma FewerMembers(s: State, t: State, g: Gid, q: Pid)
    requires Reachable(s) && Leads(s, t) && g in s.groups && !s.groups[g].connecting && q in s.groups[g].live
    requires SomeEnded(s, t) && q !in t.procs
    ensures g in t.groups && !t.groups[g].connecting && t.groups[g].live <= s.groups[g].live - {q}
    ensures |t.groups[g].live| < |s.groups[g].live|
  {
    ReachableInv(s);
    LeadsReaches(s, t);
    var steps :| Reaches(s, steps, t);
    RunGrows(s, steps, t);
    assert GroupOk(g, t.groups[g], t.procs, t.store);
    forall k | k in t.groups[g].live ensures k in s.groups[g].live - {q} {
      assert MemberOk(k, MemberAt(s.procs, k), s.groups);
    }
    Smaller(t.groups[g].live, s.groups[g].live, q);
  }

  lemma Smaller(a: set<Pid>, b: set<Pid>, q: Pid)
    requires a <= b - {q} && q in b
    ensures |a| < |b|
  {
    assert b - {q} == a + (b - {q} - a);
  }

  /** In every reachable state Disconnect can come to its end and return nil. */
  lemma {:induction false} DisconnectCanReturn(s: State, g: Gid) returns (t: State)
    requires Reachable(s) && g in s.groups && !s.groups[g].connecting
    ensures Leads(s, t) && Nil(t, g)
    decreases |s.groups[g].live|
  {
    if s.groups[g].live == {} {
      DisconnectsNeverFail(s, g);
      PanicFree(s);
      t := Go(s, EnvStep(ReturnNil(g)));
    } else {
      var q :| q in s.groups[g].live;
      var s' := MemberEnds(s, g, q);
      FewerMembers(s, s', g, q);
      t := DisconnectCanReturn(s', g);
      LeadsTrans(s, s', t);
    }
  }
}
