/** What the session lifecycle guarantees in every run of any number of goroutines. */
module LifecycleTheorems {
  import opened Channels
  import opened Wire
  import Media
  import opened Sequences
  import opened Lifecycle
  import opened LifecycleInvariant
  import opened LifecycleWaiting

  /** Some run of any goroutines leads there from the beginning. */
  ghost predicate Reachable(t: State) {
    Leads(INITIAL, t)
  }

  lemma ReachableInv(t: State)
    requires Reachable(t)
    ensures Inv(t)
  {
    LeadsReaches(INITIAL, t);
    var steps :| Reaches(INITIAL, steps, t);
    InvInit();
    InvRun(INITIAL, steps, t);
  }

  lemma ReachableStep(s: State, step: Step)
    requires Reachable(s) && Enabled(s, step)
    ensures Reachable(Apply(s, step))
  {
    LeadsSnoc(INITIAL, s, step);
  }

  // ---------------------------------------------------------------------------------------------
  // The repository

  lemma OneSessionPerUser(t: State)
    requires Reachable(t)
    ensures forall u :: u in t.store.repo ==> Known(t, t.store.repo[u]) && t.store.sessions[t.store.repo[u]].userId == u
    ensures forall i :: (i in t.store.added && i !in t.store.removed) <==> i in t.store.repo.Values
    ensures forall i, j :: i in t.store.repo.Values && j in t.store.repo.Values && i != j && Known(t, i) && Known(t, j)
              ==> t.store.sessions[i].userId != t.store.sessions[j].userId
  {
    ReachableInv(t);
  }

  lemma GrowsTrans(a: Store, b: Store, c: Store)
    requires Grows(a, b) && Grows(b, c)
    ensures Grows(a, c)
  {
    forall i | 0 <= i < |a.sessions| ensures Kept(a.sessions[i], c.sessions[i]) {
      KeptTrans(a.sessions[i], b.sessions[i], c.sessions[i]);
    }
  }

  lemma KeptTrans(x: Session, y: Session, z: Session)
    requires Kept(x, y) && Kept(y, z)
    ensures Kept(x, z)
  {
  }

  /** Whatever a session has been given it keeps, and what was removed stays removed, however the run goes on. */
  lemma {:induction false} RunGrows(s: State, steps: seq<Step>, t: State)
    requires Inv(s) && Reaches(s, steps, t)
    ensures Inv(t) && Grows(s.store, t.store) && GroupsKept(s.groups, t.groups)
    decreases |steps|
  {
    if steps != [] {
      InvStep(s, steps[0]);
      RunGrows(Apply(s, steps[0]), steps[1..], t);
      GrowsTrans(s.store, Apply(s, steps[0]).store, t.store);
    }
  }

  /** A session that left the repository never comes back, so nothing done to it later can reach its replacement. */
  lemma RemovedForGood(s: State, steps: seq<Step>, t: State, i: Sid)
    requires Inv(s) && Reaches(s, steps, t) && i in s.store.added && i !in s.store.repo.Values
    ensures i in t.store.removed && i !in t.store.repo.Values
  {
    RunGrows(s, steps, t);
  }

  /** The statement about to delete session `i`, in resetSession or in disconnectSession. */
  predicate Deletes(s: State, step: Step, i: Sid) {
    && step.TearStep? && step.p in s.procs
    && (match step.tearAct
        case StepReset => s.procs[step.p].Resetting? && s.procs[step.p].rstage.ResetDelete? && s.procs[step.p].sid == i
        case StepTear(_) =>
          s.procs[step.p].TearingDown? && s.procs[step.p].tstage.TearDelete? && s.procs[step.p].sid == i
        case EnterOnce => false)
  }

  /** The statement that puts session `i` into the repository. */
  predicate Inserts(s: State, step: Step, i: Sid) {
    && step.CreateStep? && step.createAct == Add(false) && step.p in s.procs && s.procs[step.p].Made?
    && s.procs[step.p].sid == i && Known(s, i) && s.store.sessions[i].userId !in s.store.repo
  }

  lemma RepoAfterCreate(s: State, p: Pid, act: CreateAct)
    requires CanCreate(s, p, act)
    ensures var st := CreateApply(s, p, act).store; var step := CreateStep(p, act);
      if act == Add(false) && Inserts(s, step, s.procs[p].sid)
      then st.repo == s.store.repo[s.store.sessions[s.procs[p].sid].userId := s.procs[p].sid]
      && st.added == s.store.added + {s.procs[p].sid}
      else st.repo == s.store.repo && st.added == s.store.added
  {
    var proc := s.procs[p];
    match act
    case GiveUp => UnluckyShape(s, p, UidOf(s, proc), proc.why);
    case Add(_) => UnluckyShape(s, p, s.store.sessions[proc.sid].userId, proc.why);
    case Launch => LaunchShape(s, p, proc.sid);
    case SeeReady => QuietShape(s, p, act);
    case Retry => QuietShape(s, p, act);
    case Allocate =>
  }

  lemma RepoAfterEst(s: State, p: Pid, act: EstAct)
    requires CanEstablish(s, p, act)
    ensures EstApply(s, p, act).store.repo == s.store.repo && EstApply(s, p, act).store.added == s.store.added
  {
  }

  lemma RepoAfterReset(s: State, p: Pid)
    requires CanTear(s, p, StepReset)
    ensures var st := ResetApply(s, p).store;
      st.added == s.store.added &&
      (st.repo == s.store.repo ||
       (Deletes(s, TearStep(p, StepReset), s.procs[p].sid) && st == DeleteIfSame(s.store, s.procs[p].sid)))
  {
    if s.procs[p].rstage.ResetDelete? {
      ResetShape(s, p, s.procs[p].sid);
    }
  }

  lemma RepoAfterTear(s: State, p: Pid, act: TearAct)
    requires CanTear(s, p, act)
    ensures var st := TearApply(s, p, act).store;
      st.added == s.store.added &&
      (st.repo == s.store.repo ||
       (Deletes(s, TearStep(p, act), s.procs[p].sid) && st == DeleteIfSame(s.store, s.procs[p].sid)))
  {
    if act.StepReset? {
      RepoAfterReset(s, p);
    } else if act.EnterOnce? {
      EnterShape(s, p, s.procs[p].sid);
    }
  }

  lemma RepoAfterMsg(s: State, p: Pid, act: MsgAct)
    requires CanHandle(s, p, act)
    ensures MsgApply(s, p, act).store.repo == s.store.repo && MsgApply(s, p, act).store.added == s.store.added
  {
    MsgShape(s, p, act);
  }

  /**
   * An entry disappears only by a teardown of the very session in it, and no other entry goes with it; an entry
   * appears only for a session that was never in the repository before, under a free user id.
   */
  lemma EntriesComeAndGo(s: State, step: Step, u: Uid)
    requires Inv(s) && Enabled(s, step)
    ensures var repo, repo' := s.store.repo, Apply(s, step).store.repo;
      && (u in repo ==> if u in repo' then repo'[u] == repo[u] else Deletes(s, step, repo[u]) && repo' == repo - {u})
      && (u in repo' && u !in repo ==>
            Inserts(s, step, repo'[u]) && repo'[u] !in s.store.added && repo' == repo[u := repo'[u]])
  {
    match step
    case CreateStep(p, act) =>
      RepoAfterCreate(s, p, act);
      if act.Add? {
        Look(s, p, s.procs[p].sid);
      }
    case EstStep(p, act) => RepoAfterEst(s, p, act);
    case TearStep(p, act) => RepoAfterTear(s, p, act);
    case MsgStep(p, act) => RepoAfterMsg(s, p, act);
    case EnvStep(act) => EnvShape(s, act);
  }

  // ---------------------------------------------------------------------------------------------
  // Establishment

  /** No goroutine creates or establishes session `i` any more. */
  ghost predicate Finished(s: State, i: Sid) {
    forall p :: p in s.procs ==> !Owns(s.procs[p], i)
  }

  predicate FullyEstablished(x: Session) {
    && x.links.conn && |x.links.key| == KEY_SIZE && x.links.eventStream && x.links.decoder && x.links.encoder
    && x.handling && x.readyChan.closed && x.remote.Some?
  }

  predicate CleanedUp(x: Session) {
    && x.readyChan.closed && !x.handling && Connected !in x.callbacks && x.closed.agent
    && (x.links.conn ==> x.closed.conn) && (x.links.eventStream ==> x.closed.stream)
  }

  /** Establishment ends in one of two ways: everything is in place, or the session is closed and out for good. */
  lemma FinishedMeansReadyOrGone(t: State, i: Sid)
    requires Reachable(t) && i in t.store.added && Finished(t, i)
    ensures Known(t, i)
    ensures FullyEstablished(t.store.sessions[i]) || (CleanedUp(t.store.sessions[i]) && i in t.store.removed)
    ensures i in t.store.repo.Values ==> FullyEstablished(t.store.sessions[i])
  {
    ReachableInv(t);
    Look(t, 0, i);
  }

  /** A session that failed stays closed and out of the repository in every continuation of the run. */
  lemma FailedForGood(s: State, more: seq<Step>, t: State, i: Sid)
    requires Reachable(s) && i in s.store.added && Finished(s, i)
    requires Known(s, i) && !FullyEstablished(s.store.sessions[i])
    requires Reaches(s, more, t)
    ensures Known(t, i) && i !in t.store.repo.Values && t.store.sessions[i].closed.agent
    ensures t.store.sessions[i].readyChan.closed
  {
    FinishedMeansReadyOrGone(s, i);
    ReachableInv(s);
    RunGrows(s, more, t);
  }

  /** At most one goroutine creates and establishes a session, and at most one tears it down. */
  lemma OneOwner(t: State, i: Sid, p: Pid, q: Pid)
    requires Reachable(t) && p in t.procs && q in t.procs
    requires if t.procs[p].TearingDown? then t.procs[q].TearingDown? && t.procs[p].sid == t.procs[q].sid
             else Owns(t.procs[p], i) && Owns(t.procs[q], i)
    ensures p == q
  {
    ReachableInv(t);
    assert ProcOk(p, t.procs[p], t.store, t.messages) && ProcOk(q, t.procs[q], t.store, t.messages);
  }

  /** Only a session that won the insertion gets an establishment goroutine. */
  lemma OnlyWinnersEstablish(t: State, p: Pid)
    requires Reachable(t) && p in t.procs && t.procs[p].Establishing?
    ensures t.procs[p].sid in t.store.added
  {
    ReachableInv(t);
    var i := t.procs[p].sid;
    assert ProcOk(p, t.procs[p], t.store, t.messages);
    assert SessionOk(i, t.store.sessions[i], t.procs, t.next, i in t.store.added, i in t.store.removed, t.messages);
  }

  /** Past its gate, establishment has credentials on its own agent that its own peer sent. */
  lemma GatePassedWithCredentials(t: State, p: Pid)
    requires Reachable(t) && p in t.procs && t.procs[p].Establishing? && !t.procs[p].stage.AwaitCreds?
    ensures Known(t, t.procs[p].sid) && t.store.sessions[t.procs[p].sid].remote.Some?
    ensures var x := t.store.sessions[t.procs[p].sid]; Msg(x.userId, NewCreds(x.remote.value)) in t.messages
  {
    ReachableInv(t);
    var i := t.procs[p].sid;
    assert ProcOk(p, t.procs[p], t.store, t.messages);
    assert SessionOk(i, t.store.sessions[i], t.procs, t.next, i in t.store.added, i in t.store.removed, t.messages);
  }

  /**
   * SendInEventStream uses the encoder of every session that has a connection and an event stream. The encoder is
   * missing exactly while establishment stands between setting the stream and setting the encoder.
   */
  lemma EncoderMissingExactly(t: State, i: Sid)
    requires Reachable(t) && Known(t, i) && t.store.sessions[i].links.conn && t.store.sessions[i].links.eventStream
    ensures !t.store.sessions[i].links.encoder <==>
      exists p :: p in t.procs
        && (t.procs[p] == Establishing(i, SettingDecoder) || t.procs[p] == Establishing(i, SettingEncoder))
  {
    ReachableInv(t);
    Look(t, 0, i);
    var x := t.store.sessions[i];
    if !x.links.encoder {
      assert x.owner in t.procs && t.procs[x.owner].Establishing?;
    }
    forall p | p in t.procs
      && (t.procs[p] == Establishing(i, SettingDecoder) || t.procs[p] == Establishing(i, SettingEncoder))
      ensures !x.links.encoder
    {
      assert ProcOk(p, t.procs[p], t.store, t.messages);
    }
  }

  /** What a sender finds behind the ready gate: everything, or a failed session with a whole key or none at all. */
  predicate Sendable(x: Session) {
    FullyEstablished(x) || (!x.handling && !x.links.eventStream && (x.links.key == [] || |x.links.key| == KEY_SIZE))
  }

  /**
   * The gate of SendInStream and SendDatagram: a connection and a ReadyChan that does not block. Failed sessions pass
   * it too; the ones that are established are exactly those with an event stream, and those have their encoder.
   */
  lemma BehindTheGate(t: State, i: Sid)
    requires Reachable(t) && Known(t, i) && t.store.sessions[i].links.conn && t.store.sessions[i].readyChan.CanRecv()
    ensures Sendable(t.store.sessions[i])
    ensures FullyEstablished(t.store.sessions[i]) <==> t.store.sessions[i].links.eventStream
  {
    ReachableInv(t);
    Look(t, 0, i);
  }

  /** Who waits for ReadyChan first always finds the encoder of a session that has an event stream. */
  lemma EncoderAfterReady(t: State, i: Sid)
    requires Reachable(t) && Known(t, i) && t.store.sessions[i].links.eventStream
    requires t.store.sessions[i].readyChan.CanRecv()
    ensures t.store.sessions[i].links.encoder && t.store.sessions[i].links.decoder
  {
    ReachableInv(t);
    Look(t, 0, i);
  }

  /**
   * The reconnect loop ends on a closed ReadyChan exactly if the session has a connection, and it is right about it
   * exactly if the session has an event stream as well.
   */
  lemma LoopEndsExactly(s: State, p: Pid)
    requires Reachable(s) && Enabled(s, CreateStep(p, SeeReady)) && s.procs[p].why.ForReconnect?
    ensures var x, t := s.store.sessions[s.procs[p].sid], Apply(s, CreateStep(p, SeeReady));
      && (p !in t.procs <==> x.links.conn)
      && (FullyEstablished(x) <==> x.links.conn && x.links.eventStream)
  {
    ReachableInv(s);
    SeenReady(s, p);
    QuietShape(s, p, SeeReady);
    Look(s, p, s.procs[p].sid);
  }

  /** However many credentials messages arrive, one token waits at most, and then credentials are installed. */
  lemma TokensCoalesce(t: State, i: Sid)
    requires Reachable(t) && Known(t, i)
    ensures |t.store.sessions[i].credsChan.buf| <= 1
    ensures t.store.sessions[i].credsChan.CanRecv() ==> t.store.sessions[i].remote.Some?
  {
    ReachableInv(t);
    Look(t, 0, i);
  }

  // ---------------------------------------------------------------------------------------------
  // What the user and the signalling server are told

  lemma CallbacksInOrder(t: State, i: Sid)
    requires Reachable(t) && Known(t, i)
    ensures Subsequence(t.store.sessions[i].callbacks, [Connected, Disconnected])
    ensures Connected in t.store.sessions[i].callbacks ==>
      t.store.sessions[i].links.conn && |t.store.sessions[i].links.key| == KEY_SIZE
      && t.store.sessions[i].links.eventStream && t.store.sessions[i].links.decoder && t.store.sessions[i].links.encoder
  {
    ReachableInv(t);
    Look(t, 0, i);
    var cs := t.store.sessions[i].callbacks;
    assert cs in {[], [Connected], [Disconnected], [Connected, Disconnected]};
    assert [Connected, Disconnected][1..] == [Disconnected] && [Disconnected][1..] == [] && [Connected][1..] == [];
  }

  /**
   * Teardown runs once, closes what there is to close, each media channel once, and tells either the server or the
   * user, never both.
   */
  lemma ToldOneSide(t: State, i: Sid)
    requires Reachable(t) && Known(t, i)
    ensures var x := t.store.sessions[i];
      && x.notified <= 1
      && (x.notified == 1 ==> Disconnected !in x.callbacks && x.closing == Over(true))
      && (Disconnected in x.callbacks ==> x.closing == Over(false))
      && (x.closing.Over? ==> x.mediaOpen == {} && x.closed.agent && i in t.store.removed)
      && (x.closing == Over(false) ==> (x.links.conn ==> x.closed.conn) && (x.links.eventStream ==> x.closed.stream))
      && (x.closing.Fresh? ==> x.mediaOpen == {Media.Voice, Media.Webcam, Media.Screen})
  {
    ReachableInv(t);
    Look(t, 0, i);
  }

  /** No channel is ever closed twice. */
  lemma NeverPanics(t: State)
    requires Reachable(t)
    ensures !t.panicked
  {
    ReachableInv(t);
  }

  /** When a caller of disconnectSession returns, whoever ran the teardown, that session is out of the repository. */
  lemma ReturnedMeansRemoved(s: State, step: Step, p: Pid)
    requires Reachable(s) && Enabled(s, step) && p in s.procs
    requires s.procs[p].Disconnecting? || s.procs[p].TearingDown?
    requires p !in Apply(s, step).procs
    ensures s.procs[p].sid in Apply(s, step).store.removed && s.procs[p].sid !in Apply(s, step).store.repo.Values
  {
    ReachableInv(s);
    var i := InvLocal(s, step);
    InvStep(s, step);
    assert p == Actor(s, step);
    EndsAtTheEnd(s, p, step.tearAct);
    SeenRemoved(s, p, step.tearAct);
  }

  /** A caller ends when it finds the once over, or after its last statement inside. */
  lemma EndsAtTheEnd(s: State, p: Pid, act: TearAct)
    requires Inv(s) && CanTear(s, p, act) && (s.procs[p].Disconnecting? || s.procs[p].TearingDown?)
    requires p !in TearApply(s, p, act).procs
    ensures if act.EnterOnce? then s.store.sessions[s.procs[p].sid].closing.Over?
            else act.StepTear? && s.procs[p].tstage.TearNotify?
  {
    match act
    case EnterOnce => EnterShape(s, p, s.procs[p].sid);
    case StepTear(handler) =>
      if !s.procs[p].tstage.TearNotify? {
        MediaIsOpen(s, p, s.procs[p].sid);
        TearShape(s, p, s.procs[p].sid, handler);
      }
  }

  // ---------------------------------------------------------------------------------------------
  // Wait groups and singleflight

  lemma TargetsSettled(t: State, g: Gid, i: Sid)
    requires Inv(t) && g in t.groups && t.groups[g].returned && i in t.groups[g].targets
    ensures Settled(i, t.groups[g].connecting, t.store)
  {
    assert GroupOk(g, t.groups[g], t.procs, t.store);
    assert TargetOk(i, t.groups[g].targets[i], g, t.groups[g].connecting, t.procs, t.store);
    assert MemberOk(t.groups[g].targets[i], MemberAt(t.procs, t.groups[g].targets[i]), t.groups);
  }

  /**
   * Connect, ConnectById and Disconnect return nil only after every session they are about has settled, and it stays
   * settled.
   */
  lemma NilMeansSettled(t: State, g: Gid, i: Sid)
    requires Reachable(t) && g in t.groups && t.groups[g].returned && i in t.groups[g].targets
    ensures Known(t, i)
    ensures if t.groups[g].connecting then t.store.sessions[i].readyChan.closed
            else i in t.store.removed && i !in t.store.repo.Values
  {
    ReachableInv(t);
    TargetsSettled(t, g, i);
  }

  /**
   * Nil also means that nobody was forgotten: for each user asked for there is a session of that user, and it has
   * settled.
   */
  lemma NilReachesEverybody(t: State, g: Gid, u: Uid) returns (i: Sid)
    requires Reachable(t) && g in t.groups && t.groups[g].connecting && t.groups[g].returned && u in t.groups[g].asked
    ensures i in t.groups[g].targets && Known(t, i)
    ensures t.store.sessions[i].userId == u && t.store.sessions[i].readyChan.closed
  {
    ReachableInv(t);
    assert Covered(u, g, t.groups[g], t.procs, t.store);
    assert GroupOk(g, t.groups[g], t.procs, t.store);
    forall q ensures AsksAt(t.procs, q, t.store) != Some((g, u)) {
      assert MemberOk(q, MemberAt(t.procs, q), t.groups);
    }
    i :| i in t.groups[g].targets && i < |t.store.sessions| && t.store.sessions[i].userId == u;
    TargetsSettled(t, g, i);
  }

  /** At most one getSession runs per user at a time. */
  lemma OneLookupPerUser(t: State, p: Pid, q: Pid)
    requires Reachable(t)
    requires FlightAt(t.procs, p, true).Some? && FlightAt(t.procs, q, true).Some?
    requires FlightAt(t.procs, p, true).value.1.sender == FlightAt(t.procs, q, true).value.1.sender
    ensures p == q
  {
    ReachableInv(t);
    assert FlightProcOk(p, FlightAt(t.procs, p, true), true, t.flights);
    assert FlightProcOk(q, FlightAt(t.procs, q, true), true, t.flights);
  }

  /** Nobody waits for a lookup without a leader: it has a result, or its leader is at work. */
  lemma FollowersAreServed(t: State, p: Pid)
    requires Reachable(t) && p in t.procs && t.procs[p].Following?
    ensures t.procs[p].fid < |t.flights.all|
    ensures var flight := t.flights.all[t.procs[p].fid];
      if flight.result.Some? then FollowOk(t, p, Follow)
      else FlightAt(t.procs, flight.leader, true).Some?
           && FlightAt(t.procs, flight.leader, true).value.0 == t.procs[p].fid
  {
    ReachableInv(t);
    assert FlightProcOk(p, FlightAt(t.procs, p, false), false, t.flights);
  }

  /** Every session that a member of Connect's wait group starts is settled by the time Connect returns nil. */
  lemma StartedBeforeNil(s: State, p: Pid, g: Gid, more: seq<Step>, t: State)
    requires Reachable(s) && Enabled(s, CreateStep(p, Launch)) && s.procs[p].why == ForGroup(g)
    requires Reaches(Apply(s, CreateStep(p, Launch)), more, t) && g in t.groups && t.groups[g].returned
    ensures Known(t, s.procs[p].sid) && t.store.sessions[s.procs[p].sid].readyChan.closed
  {
    var i, s' := s.procs[p].sid, Apply(s, CreateStep(p, Launch));
    ReachableInv(s);
    MembersCount(s, p);
    LaunchTargets(s, p, i, g);
    InvStep(s, CreateStep(p, Launch));
    RunGrows(s', more, t);
    TargetsSettled(t, g, i);
  }

  // ---------------------------------------------------------------------------------------------
  // Credentials for an already connected session

  /** The goroutine is on its way from the reset of the old session to the credentials of one created after it. */
  predicate Replacing(procs: map<Pid, Proc>, p: Pid, msg: Msg, n: nat) {
    p in procs ==>
      match procs[p]
      case Creating(uid, _, why) => why == ForReplace(msg) && uid == msg.sender
      case Made(j, why) => why == ForReplace(msg) && j >= n
      case Won(j, why) => why == ForReplace(msg) && j >= n
      case Installing(j, m) => m == msg && j >= n
      case Offering(j) => j >= n
      case _ => false
  }

  lemma ReplacingMoves(s: State, step: Step, p: Pid, msg: Msg, n: nat)
    requires Enabled(s, step) && !step.EnvStep? && step.p == p && Replacing(s.procs, p, msg, n)
    requires n <= |s.store.sessions| && PidsOk(s.procs, s.next)
    ensures Replacing(Apply(s, step).procs, p, msg, n)
  {
    match step
    case CreateStep(_, act) => ReplacingCreates(s, p, act, msg, n);
    case MsgStep(_, act) => MsgShape(s, p, act);
  }

  lemma ReplacingCreates(s: State, p: Pid, act: CreateAct, msg: Msg, n: nat)
    requires CanCreate(s, p, act) && Replacing(s.procs, p, msg, n)
    requires n <= |s.store.sessions| && PidsOk(s.procs, s.next)
    ensures Replacing(CreateApply(s, p, act).procs, p, msg, n)
  {
    var proc := s.procs[p];
    match act
    case Allocate =>
    case GiveUp => UnluckyShape(s, p, UidOf(s, proc), proc.why);
    case Add(_) => UnluckyShape(s, p, s.store.sessions[proc.sid].userId, proc.why);
    case Launch => LaunchShape(s, p, proc.sid);
  }

  lemma {:induction false} ReplacingRun(s: State, steps: seq<Step>, t: State, p: Pid, msg: Msg, n: nat)
    requires Inv(s) && Reaches(s, steps, t) && Replacing(s.procs, p, msg, n) && n <= |s.store.sessions| && p < s.next
    ensures Replacing(t.procs, p, msg, n)
    decreases |steps|
  {
    if steps != [] {
      var s' := Apply(s, steps[0]);
      var i := InvLocal(s, steps[0]);
      InvStep(s, steps[0]);
      if Actor(s, steps[0]) == p {
        ReplacingMoves(s, steps[0], p, msg, n);
      }
      ReplacingRun(s', steps[1..], t, p, msg, n);
    }
  }

  /**
   * A credentials message that replaces a connected session: the old session is out for good before the new one is
   * created, and whatever the others do, the credentials and the token go to the new session of the same user only.
   */
  lemma ReplacementGetsCredentials(s: State, p: Pid, i: Sid, msg: Msg, more: seq<Step>, t: State)
    requires Reachable(s) && Enabled(s, TearStep(p, StepReset))
    requires s.procs[p] == Resetting(i, ResetDelete, ThenReplace(msg)) && i in s.store.added
    requires Reaches(Apply(s, TearStep(p, StepReset)), more, t)
    ensures Replacing(t.procs, p, msg, |s.store.sessions|) && i < |s.store.sessions|
    ensures i !in t.store.repo.Values
    ensures p in t.procs && t.procs[p].Installing? ==>
      Known(t, t.procs[p].sid) && t.store.sessions[t.procs[p].sid].userId == msg.sender
  {
    ReachableInv(s);
    ReplacementStarts(s, p, i, msg);
    InvStep(s, TearStep(p, StepReset));
    ReplacementRuns(Apply(s, TearStep(p, StepReset)), p, i, msg, |s.store.sessions|, more, t);
  }

  lemma ReplacementStarts(s: State, p: Pid, i: Sid, msg: Msg)
    requires Inv(s) && CanTear(s, p, StepReset) && s.procs[p] == Resetting(i, ResetDelete, ThenReplace(msg))
    ensures var s' := ResetApply(s, p);
      && Replacing(s'.procs, p, msg, |s.store.sessions|) && i < |s'.store.sessions| == |s.store.sessions|
      && i !in s'.store.repo.Values && p < s'.next
  {
    ResetShape(s, p, i);
    StoreDelete(s.store, i);
  }

  lemma ReplacementRuns(s: State, p: Pid, i: Sid, msg: Msg, n: nat, more: seq<Step>, t: State)
    requires Inv(s) && Reaches(s, more, t) && Replacing(s.procs, p, msg, n) && i < n == |s.store.sessions| && p < s.next
    requires i in s.store.removed || i !in s.store.added
    ensures Replacing(t.procs, p, msg, n)
    ensures i in s.store.removed ==> i !in t.store.repo.Values
    ensures p in t.procs && t.procs[p].Installing? ==>
      Known(t, t.procs[p].sid) && t.store.sessions[t.procs[p].sid].userId == msg.sender
  {
    RunGrows(s, more, t);
    ReplacingRun(s, more, t, p, msg, n);
    if p in t.procs {
      assert ProcOk(p, t.procs[p], t.store, t.messages);
    }
  }
}
