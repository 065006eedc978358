/** The order of a user's callbacks when one of its sessions has replaced another. */
module LifecycleOrder {
  import opened Channels
  import opened Wire
  import opened Lifecycle
  import opened LifecycleInvariant
  import opened LifecycleWaiting
  import opened LifecycleTheorems
  import opened LifecycleCallbacks
  import opened LifecycleRuns
  import opened LifecycleGate

  // ---------------------------------------------------------------------------------------------
  // Where a connection, a teardown and a disconnected callback come from

  ghost predicate DialledBy(s: State, i: Sid) {
    exists p :: p in s.procs && s.procs[p] == Establishing(i, Dialing)
  }

  ghost predicate ToldBy(s: State, i: Sid) {
    exists p :: p in s.procs && s.procs[p].TearingDown? && s.procs[p].sid == i && !s.procs[p].leave
  }

  ghost predicate EnteredBy(s: State, i: Sid, leave: bool) {
    exists p :: p in s.procs && s.procs[p].Disconnecting? && s.procs[p].sid == i && s.procs[p].leave == leave
  }

  ghost predicate FinishedBy(s: State, i: Sid, leave: bool) {
    exists p :: p in s.procs && s.procs[p].TearingDown? && s.procs[p].sid == i && s.procs[p].leave == leave
  }

  ghost predicate Traced(s: State, t: State, i: Sid) {
    Known(s, i) ==>
      Known(t, i) &&
      var x, x' := s.store.sessions[i], t.store.sessions[i];
      && (x'.links.conn ==> x.links.conn || DialledBy(s, i))
      && (Disconnected in x'.callbacks ==> Disconnected in x.callbacks || ToldBy(s, i))
      && (match x'.closing
          case Fresh => x.closing.Fresh?
          case Running(_, leave) => x'.closing == x.closing || (x.closing.Fresh? && EnteredBy(s, i, leave))
          case Over(leave) => x'.closing == x.closing || FinishedBy(s, i, leave))
  }

  lemma CreateTraced(s: State, p: Pid, act: CreateAct, i: Sid)
    requires CanCreate(s, p, act)
    ensures Traced(s, CreateApply(s, p, act), i)
  {
    var proc := s.procs[p];
    match act
    case GiveUp => UnluckyShape(s, p, UidOf(s, proc), proc.why);
    case Add(_) => UnluckyShape(s, p, s.store.sessions[proc.sid].userId, proc.why);
    case Launch => LaunchShape(s, p, proc.sid);
    case SeeReady => QuietShape(s, p, act);
    case Retry => QuietShape(s, p, act);
    case Allocate =>
  }

  lemma EstablishedTraced(x: Session, stage: EstStage, key: bytes, handler: bool)
    requires stage.AwaitCreds? ==> x.credsChan.CanRecv()
    ensures var x' := Established(x, stage, key, handler);
      && (x'.links.conn ==> x.links.conn || stage.Dialing?) && x'.closing == x.closing
      && (Disconnected in x'.callbacks ==> Disconnected in x.callbacks)
  {
  }

  lemma EstTraced(s: State, p: Pid, act: EstAct, i: Sid)
    requires Inv(s) && CanEstablish(s, p, act)
    ensures Traced(s, EstApply(s, p, act), i)
  {
    if act.Advance? {
      var j := s.procs[p].sid;
      assert ProcOk(p, s.procs[p], s.store, s.messages);
      Look(s, p, j);
      AdvanceShape(s, p, j, act.key, act.handler);
      EstablishedTraced(s.store.sessions[j], s.procs[p].stage, act.key, act.handler);
    }
  }

  lemma TearTraced(s: State, p: Pid, act: TearAct, i: Sid)
    requires Inv(s) && CanTear(s, p, act)
    ensures Traced(s, TearApply(s, p, act), i)
  {
    match act
    case StepReset => ResetTraced(s, p, i);
    case EnterOnce => EnterShape(s, p, s.procs[p].sid);
    case StepTear(handler) =>
      MediaIsOpen(s, p, s.procs[p].sid);
      TearShape(s, p, s.procs[p].sid, handler);
      TornTraced(s, p, handler, i);
  }

  lemma TornTraced(s: State, p: Pid, handler: bool, i: Sid)
    requires CanTear(s, p, StepTear(handler))
    ensures Traced(s, s.(store := TornStore(s.store, s.procs[p].sid, s.procs[p], handler)), i)
  {
  }

  lemma ResetTraced(s: State, p: Pid, i: Sid)
    requires CanTear(s, p, StepReset)
    ensures Traced(s, ResetApply(s, p), i)
  {
    if s.procs[p].rstage.ResetDelete? {
      ResetShape(s, p, s.procs[p].sid);
    }
  }

  lemma MsgTraced(s: State, p: Pid, act: MsgAct, i: Sid)
    requires CanHandle(s, p, act)
    ensures Traced(s, MsgApply(s, p, act), i)
  {
    MsgShape(s, p, act);
    if act.Offer? {
      OfferShape(s, p, s.procs[p].sid);
    }
  }

  lemma StepTraced(s: State, step: Step, i: Sid)
    requires Inv(s) && Enabled(s, step)
    ensures Traced(s, Apply(s, step), i)
  {
    match step
    case CreateStep(p, act) => CreateTraced(s, p, act, i);
    case EstStep(p, act) => EstTraced(s, p, act, i);
    case TearStep(p, act) => TearTraced(s, p, act, i);
    case MsgStep(p, act) => MsgTraced(s, p, act, i);
    case EnvStep(act) => EnvShape(s, act);
  }

  // ---------------------------------------------------------------------------------------------
  // When the disconnected callback is still to come

  /** The session was taken out while it waits for its credentials, and nobody is on the way with a token. */
  ghost predicate Stranded(s: State, i: Sid) {
    AtGate(s, i) && Starved(s, i)
  }

  /** A teardown reported by the peer is under way, or none has begun and there is or can be a connection to lose. */
  ghost predicate LossAhead(s: State, i: Sid) {
    Known(s, i) &&
    match s.store.sessions[i].closing
    case Fresh => s.store.sessions[i].links.conn || (Ahead(s, i) && !Stranded(s, i))
    case Running(_, leave) => !leave
    case Over(_) => false
  }

  /** Neither told yet, nor ever. */
  ghost predicate NeverTold(s: State, i: Sid) {
    Known(s, i) && i in s.store.added && Disconnected !in s.store.sessions[i].callbacks && !LossAhead(s, i)
  }

  /** Whoever takes part in a teardown of the session goes by its own flag. */
  lemma FlagsAgree(s: State, i: Sid, leave: bool)
    requires Inv(s) && Known(s, i)
    ensures FinishedBy(s, i, leave) ==>
      s.store.sessions[i].closing.Running? && s.store.sessions[i].closing.leave == leave
    ensures ToldBy(s, i) ==> s.store.sessions[i].closing.Running? && !s.store.sessions[i].closing.leave
    ensures EnteredBy(s, i, false) ==> s.store.sessions[i].links.conn
  {
    Look(s, s.store.sessions[i].owner, i);
    forall p | p in s.procs ensures ProcOk(p, s.procs[p], s.store, s.messages) {
    }
  }

  lemma DialsAhead(s: State, i: Sid)
    requires Inv(s) && Known(s, i) && i in s.store.added && DialledBy(s, i)
    ensures Ahead(s, i)
  {
    var p :| p in s.procs && s.procs[p] == Establishing(i, Dialing);
    FromAhead(s, p, s.procs[p], i);
  }

  lemma NeverToldStep(s: State, step: Step, i: Sid)
    requires Inv(s) && Enabled(s, step) && NeverTold(s, i)
    ensures NeverTold(Apply(s, step), i)
  {
    var x := s.store.sessions[i];
    StepTraced(s, step, i);
    FlagsAgree(s, i, true);
    FlagsAgree(s, i, false);
    var j := InvLocal(s, step);
    if x.closing.Fresh? {
      if Stranded(s, i) {
        GateHolds(s, step, i);
        StarvedStep(s, step, i);
      } else {
        NotAheadStep(s, step, i);
      }
      if DialledBy(s, i) {
        DialsAhead(s, i);
      }
    }
  }

  lemma {:induction false} NeverToldRun(s: State, more: seq<Step>, t: State, i: Sid)
    requires Inv(s) && Reaches(s, more, t) && NeverTold(s, i)
    ensures NeverTold(t, i)
    decreases |more|
  {
    if more != [] {
      NeverToldStep(s, more[0], i);
      InvStep(s, more[0]);
      NeverToldRun(Apply(s, more[0]), more[1..], t, i);
    }
  }

  // ---------------------------------------------------------------------------------------------
  // And how it comes

  ghost predicate Told(s: State, i: Sid) {
    Known(s, i) && Disconnected in s.store.sessions[i].callbacks
  }

  lemma TellsOn(s: State, p: Pid, i: Sid, stage: TearStage, group: Option<Gid>) returns (t: State)
    requires Reachable(s) && p in s.procs && s.procs[p] == TearingDown(i, false, stage, group)
    ensures Reachable(t) && Leads(s, t)
    ensures if stage.TearNotify? then Told(t, i)
            else p in t.procs && t.procs[p] == TearingDown(i, false, NextTear(stage), group)
  {
    ReachableInv(s);
    assert ProcOk(p, s.procs[p], s.store, s.messages);
    MediaIsOpen(s, p, i);
    TearShape(s, p, i, true);
    t := Go(s, TearStep(p, StepTear(true)));
  }

  /** The rest of a teardown after a peer's error, with a handler registered. */
  lemma {:induction false} TellsAlone(s: State, p: Pid, i: Sid, stage: TearStage, group: Option<Gid>) returns (t: State)
    requires Reachable(s) && p in s.procs && s.procs[p] == TearingDown(i, false, stage, group)
    ensures Leads(s, t) && Told(t, i)
    decreases StagesLeft(stage)
  {
    t := TellsOn(s, p, i, stage, group);
    if !stage.TearNotify? {
      var s' := t;
      t := TellsAlone(s', p, i, NextTear(stage), group);
      LeadsTrans(s, s', t);
    }
  }

  /** A reader or sender meets an error and enters Closing.Do first. */
  lemma PeerIsLost(s: State, i: Sid) returns (t: State, p: Pid)
    requires Reachable(s) && Known(s, i) && i in s.store.added && s.store.sessions[i].closing.Fresh?
    requires PeerErrorPossible(s.store.sessions[i])
    ensures Reachable(t) && Leads(s, t) && OthersStay(s, t, p) && t.store.repo == s.store.repo
    ensures p in t.procs && t.procs[p] == TearingDown(i, false, TearStream, None)
  {
    PanicFree(s);
    PidIsNew(s);
    p := s.next;
    EnvShape(s, CallDisconnect(i, false));
    var s' := Go(s, EnvStep(CallDisconnect(i, false)));
    PanicFree(s');
    EnterShape(s', p, i);
    t := Go(s', TearStep(p, EnterOnce));
    LeadsTrans(s, s', t);
  }

  /** From a connection, or an announcement ahead, to a session that a peer's error tears down. */
  lemma ToErrorPossible(s: State, i: Sid) returns (t: State)
    requires Reachable(s) && Known(s, i) && i in s.store.added && s.store.sessions[i].closing.Fresh?
    requires s.store.sessions[i].links.conn || (Ahead(s, i) && !Stranded(s, i))
    ensures Leads(s, t) && Known(t, i) && i in t.store.added && t.store.sessions[i].closing.Fresh?
    ensures PeerErrorPossible(t.store.sessions[i])
  {
    var q := s.store.sessions[i].owner;
    OwnerStands(s, i);
    if Ahead(s, i) && !Stranded(s, i) {
      t := ToEstablished(s, i);
    } else if q in s.procs && Owns(s.procs[q], i) && s.procs[q].Establishing? {
      t := EstablishAlone(s, q, i, s.procs[q].stage, SOME_KEY);
    } else if q in s.procs && s.procs[q] == Failing(i) {
      PanicFree(s);
      t := Go(s, EstStep(q, CloseOnError));
    } else {
      LeadsRefl(s);
      t := s;
    }
    StaysAdded(s, t, i);
  }

  lemma OwnerStands(s: State, i: Sid)
    requires Reachable(s) && Known(s, i) && i in s.store.added
    ensures var x := s.store.sessions[i]; var q := x.owner;
      x.links.conn && q in s.procs && Owns(s.procs[q], i) && s.procs[q].Establishing? ==> Rank(s.procs[q].stage) >= 2
    ensures var x := s.store.sessions[i]; var q := x.owner;
      x.links.conn ==>
        || x.readyChan.closed
        || (q in s.procs && Owns(s.procs[q], i) && s.procs[q].Establishing? && Rank(s.procs[q].stage) >= 2)
        || (q in s.procs && s.procs[q] == Failing(i) && !x.readyChan.closed)
  {
    ReachableInv(s);
    Look(s, s.store.sessions[i].owner, i);
  }

  lemma ToEstablished(s: State, i: Sid) returns (t: State)
    requires Reachable(s) && Ahead(s, i) && s.store.sessions[i].closing.Fresh? && !Stranded(s, i)
    requires i in s.store.added
    ensures Leads(s, t) && Known(t, i) && t.store.sessions[i].closing.Fresh? && FullyEstablished(t.store.sessions[i])
  {
    if i in s.store.repo.Values {
      var s', q, stage := ToPoised(s, i);
      t := EstablishAlone(s', q, i, stage, SOME_KEY);
      LeadsTrans(s, s', t);
    } else if AtGate(s, i) {
      OutIsRemoved(s, i);
      var s', q := GateOpens(s, i);
      t := EstablishAlone(s', q, i, AwaitCreds, SOME_KEY);
      LeadsTrans(s, s', t);
    } else {
      var q := s.store.sessions[i].owner;
      t := EstablishAlone(s, q, i, s.procs[q].stage, SOME_KEY);
    }
  }

  lemma OutIsRemoved(s: State, i: Sid)
    requires Reachable(s) && i in s.store.added && i !in s.store.repo.Values
    ensures i in s.store.removed
  {
    ReachableInv(s);
  }

  lemma StaysAdded(s: State, t: State, i: Sid)
    requires Reachable(s) && Leads(s, t) && i in s.store.added
    ensures i in t.store.added
  {
    ReachableInv(s);
    LeadsReaches(s, t);
    var steps :| Reaches(s, steps, t);
    RunGrows(s, steps, t);
  }

  /**
   * Exactly when a session's disconnected callback may still come, for every session ever filed and every reachable
   * state: it has come, or a teardown for a lost peer is under way, or none has begun and the session has a connection
   * or can still announce one. That it is out of the repository does not matter, unless it was taken out while it waits
   * for credentials that nobody is on the way with: a reset does not use up Closing.
   */
  lemma DisconnectedAheadExactly(s: State, i: Sid)
    requires Reachable(s) && Known(s, i) && i in s.store.added
    ensures (exists t :: Leads(s, t) && Told(t, i)) <==> Told(s, i) || LossAhead(s, i)
  {
    if Told(s, i) {
      LeadsRefl(s);
    } else if LossAhead(s, i) {
      var t := ToTold(s, i);
    } else {
      ReachableInv(s);
      forall t | Leads(s, t) ensures !Told(t, i) {
        LeadsReaches(s, t);
        var more :| Reaches(s, more, t);
        NeverToldRun(s, more, t, i);
      }
    }
  }

  lemma ToTold(s: State, i: Sid) returns (t: State)
    requires Reachable(s) && Known(s, i) && i in s.store.added && LossAhead(s, i)
    ensures Leads(s, t) && Told(t, i)
  {
    if s.store.sessions[i].closing.Running? {
      var p := RunnerOf(s, i);
      t := TellsAlone(s, p, i, s.procs[p].tstage, s.procs[p].group);
    } else {
      var s1 := ToErrorPossible(s, i);
      LeadsTrans(INITIAL, s, s1);
      var s2, p := PeerIsLost(s1, i);
      t := TellsAlone(s2, p, i, TearStream, None);
      LeadsTrans(s, s1, s2);
      LeadsTrans(s, s2, t);
    }
  }

  lemma RunnerOf(s: State, i: Sid) returns (p: Pid)
    requires Reachable(s) && Known(s, i) && s.store.sessions[i].closing.Running?
    ensures p in s.procs && s.procs[p].TearingDown? && s.procs[p].sid == i
    ensures s.procs[p].leave == s.store.sessions[i].closing.leave
  {
    ReachableInv(s);
    Look(s, s.store.sessions[i].owner, i);
    p := s.store.sessions[i].closing.winner;
  }

  // ---------------------------------------------------------------------------------------------
  // Two sessions of one user

  /**
   * The user's session `j` is announced, and only then the older session `i` of the same user reports that the user is
   * gone.
   */
  ghost predicate StaleDisconnect(s: State, t: State, i: Sid, j: Sid) {
    && Leads(s, t) && Known(s, i) && Known(s, j) && s.store.sessions[i].userId == s.store.sessions[j].userId
    && i in s.store.removed && Connected in s.store.sessions[j].callbacks
    && !Told(s, i) && Told(t, i)
  }

  /** For every session out of the repository and every announced session of the same user. */
  lemma StaleDisconnectExactly(s: State, i: Sid, j: Sid)
    requires Reachable(s) && Known(s, i) && Known(s, j) && s.store.sessions[i].userId == s.store.sessions[j].userId
    requires i in s.store.removed && Connected in s.store.sessions[j].callbacks
    ensures (exists t :: StaleDisconnect(s, t, i, j)) <==> !Told(s, i) && LossAhead(s, i)
  {
    ReachableInv(s);
    DisconnectedAheadExactly(s, i);
    if !Told(s, i) && LossAhead(s, i) {
      var t :| Leads(s, t) && Told(t, i);
      assert StaleDisconnect(s, t, i, j);
    }
  }

  /**
   * Such a run from the start: a reader of the first session has met an error and is inside Closing.Do, the agent's
   * report takes the session out, a second one is made and announced, and then the first teardown gets to its handler.
   */
  lemma StaleDisconnectHappens(u: Uid, creds: Credentials) returns (s: State, t: State, i: Sid, j: Sid)
    ensures Leads(INITIAL, s) && StaleDisconnect(s, t, i, j) && i != j && j in s.store.repo.Values
  {
    var s1, d;
    s1, d, i := LosingFirst(u, creds);
    s, j := AnnouncesSecond(s1, d, i, u, creds);
    LeadsTrans(INITIAL, s1, s);
    StaysOut(s1, s, i);
    StillTearing(s, d, i);
    t := TellsAlone(s, d, i, TearStream, None);
  }

  lemma StaysOut(s: State, t: State, i: Sid)
    requires Reachable(s) && Leads(s, t) && i in s.store.removed
    ensures i in t.store.removed && i !in t.store.repo.Values
  {
    ReachableInv(s);
    LeadsReaches(s, t);
    var steps :| Reaches(s, steps, t);
    RunGrows(s, steps, t);
    InvRun(s, steps, t);
  }

  lemma StillTearing(s: State, d: Pid, i: Sid)
    requires Reachable(s) && d in s.procs && s.procs[d] == TearingDown(i, false, TearStream, None)
    ensures Known(s, i) && !Told(s, i)
  {
    ReachableInv(s);
    assert ProcOk(d, s.procs[d], s.store, s.messages);
    Look(s, d, i);
  }

  lemma FirstWaits(u: Uid) returns (t: State, q: Pid, i: Sid)
    ensures Leads(INITIAL, t) && Waits(t, q, i) && t.store.sessions[i].userId == u
  {
    LeadsRefl(INITIAL);
    var s1 := Go(INITIAL, EnvStep(OpenGroup(0, true)));
    var s2 := Go(s1, EnvStep(ConnectMember(0, u)));
    t, q, i := Creates(s2, 0, u, true, ForGroup(0));
    LeadsTrans(INITIAL, s1, s2);
    LeadsTrans(INITIAL, s2, t);
  }

  /** A session of `u` has been established and is filed. */
  lemma FirstEstablished(u: Uid, creds: Credentials) returns (t: State, i: Sid)
    ensures Leads(INITIAL, t) && Known(t, i) && t.store.sessions[i].userId == u && i in t.store.added
    ensures FullyEstablished(t.store.sessions[i]) && t.store.sessions[i].closing.Fresh?
    ensures u in t.store.repo && t.store.repo[u] == i
  {
    var s, q;
    s, q, i := FirstWaits(u);
    var s1 := BringToken(s, q, i, creds);
    KeepsUser(s, s1, i);
    t := EstablishAlone(s1, q, i, AwaitCreds, SOME_KEY);
    LeadsTrans(INITIAL, s, s1);
    LeadsTrans(INITIAL, s1, t);
    KeepsUser(s1, t, i);
    FiledUnderItsUser(t, i);
  }

  lemma OutMeansRemoved(s: State, i: Sid)
    requires Reachable(s) && Known(s, i) && i in s.store.added && s.store.sessions[i].userId !in s.store.repo
    ensures i in s.store.removed
  {
    ReachableInv(s);
  }

  /** Its peer is lost, and the agent's report has taken it out before the teardown got anywhere. */
  lemma LosingFirst(u: Uid, creds: Credentials) returns (t: State, d: Pid, i: Sid)
    ensures Leads(INITIAL, t) && u !in t.store.repo && Known(t, i) && t.store.sessions[i].userId == u
    ensures d in t.procs && t.procs[d] == TearingDown(i, false, TearStream, None) && i in t.store.removed
  {
    var s1;
    s1, i := FirstEstablished(u, creds);
    var s2;
    s2, d := PeerIsLost(s1, i);
    KeepsUser(s1, s2, i);
    t := TakenOut(s2, d, i, u);
    LeadsTrans(INITIAL, s1, s2);
    LeadsTrans(INITIAL, s2, t);
    KeepsUser(s2, t, i);
    StaysAdded(s1, s2, i);
    StaysAdded(s2, t, i);
    OutMeansRemoved(t, i);
  }

  lemma TakenOut(s: State, d: Pid, i: Sid, u: Uid) returns (t: State)
    requires Reachable(s) && Known(s, i) && s.store.sessions[i].userId == u
    requires u in s.store.repo && s.store.repo[u] == i && d in s.procs
    ensures Leads(s, t) && Reachable(t) && u !in t.store.repo && d in t.procs && t.procs[d] == s.procs[d]
  {
    PanicFree(s);
    PidIsNew(s);
    var r := s.next;
    EnvShape(s, IceFails(i));
    var s' := Go(s, EnvStep(IceFails(i)));
    t := ResetAlone(s', r, i, ResetStream, EndIce);
    LeadsTrans(s, s', t);
  }

  lemma FreshGid(taken: set<Gid>) returns (g: Gid)
    ensures g !in taken
  {
    g := 0;
    var rest := taken;
    while g in rest
      invariant rest <= taken && forall k :: k in taken && k >= g ==> k in rest
      decreases rest
    {
      rest := rest - {g};
      g := g + 1;
    }
  }

  /** Connect makes a second one. */
  lemma ConnectsAgain(s: State, u: Uid) returns (t: State, q: Pid, j: Sid)
    requires Reachable(s) && u !in s.store.repo
    ensures Leads(s, t) && Waits(t, q, j) && t.store.sessions[j].userId == u && j !in s.store.added
    ensures TeardownsStay(s, t)
  {
    var g := FreshGid(s.groups.Keys);
    PanicFree(s);
    EnvShape(s, OpenGroup(g, true));
    var s1 := Go(s, EnvStep(OpenGroup(g, true)));
    PanicFree(s1);
    PidIsNew(s1);
    var p := s1.next;
    EnvShape(s1, ConnectMember(g, u));
    var s2 := Go(s1, EnvStep(ConnectMember(g, u)));
    t, q, j := Creates(s2, p, u, true, ForGroup(g));
    LeadsTrans(s, s1, s2);
    LeadsTrans(s, s2, t);
  }

  /** And it is announced, the old teardown still at its beginning. */
  lemma AnnouncesSecond(s: State, d: Pid, i: Sid, u: Uid, creds: Credentials) returns (t: State, j: Sid)
    requires Reachable(s) && u !in s.store.repo && Known(s, i) && s.store.sessions[i].userId == u
    requires d in s.procs && s.procs[d] == TearingDown(i, false, TearStream, None) && i in s.store.removed
    ensures Leads(s, t) && Reachable(t) && Known(t, i) && Known(t, j) && t.store.sessions[i].userId == u
    ensures d in t.procs && t.procs[d] == TearingDown(i, false, TearStream, None)
    ensures t.store.sessions[j].userId == u && Connected in t.store.sessions[j].callbacks
    ensures j in t.store.repo.Values
  {
    var s1, q;
    s1, q, j := ConnectsAgain(s, u);
    var s2 := BringToken(s1, q, j, creds);
    KeepsUser(s1, s2, j);
    var s3 := EstablishUpTo(s2, q, j, AwaitCreds, Announcing, SOME_KEY);
    KeepsUser(s2, s3, j);
    t := Announce(s3, q, j);
    LeadsTrans(s, s1, s2);
    LeadsTrans(s, s2, s3);
    LeadsTrans(s, s3, t);
    KeepsUser(s3, t, j);
    KeepsUser(s, t, i);
  }

  /** A reset after a report of the agent, too, can get ahead of the connected callback: a run from the start. */
  lemma AnnouncedAfterReset(msg: Msg) returns (t1: State, t2: State, i: Sid)
    requires msg.content.NewCreds?
    ensures Leads(INITIAL, t1) && Leads(t1, t2) && Known(t1, i) && Known(t2, i) && i in t1.store.removed
    ensures Connected !in t1.store.sessions[i].callbacks && Connected in t2.store.sessions[i].callbacks
  {
    var s, q;
    s, q, i := Signalled(msg);
    var s' := EstablishUpTo(s, q, i, AwaitCreds, Announcing, SOME_KEY);
    LeadsTrans(INITIAL, s, s');
    AnnouncerAhead(s', q, i, Announcing);
    t1 := TakenOut(s', q, i, msg.sender);
    LeadsTrans(INITIAL, s', t1);
    KeepsUser(s', t1, i);
    StaysAdded(s', t1, i);
    OutMeansRemoved(t1, i);
    AnnouncerAhead(t1, q, i, Announcing);
    OnlyLeavingPrecedes(t1, i);
    t2 := Announce(t1, q, i);
  }
}
