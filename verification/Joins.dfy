/** Where the parts meet: the session's media queues and the key exchange, seen from its lifecycle. */
module Joins {
  import opened Channels
  import opened Wire
  import Media
  import KeyExchange
  import opened Lifecycle
  import opened LifecycleInvariant
  import opened LifecycleWaiting
  import opened LifecycleTheorems
  import LifecycleRuns
  import opened LifecycleGate

  /** The history of the queues knows exactly the closes that teardowns of the session have made. */
  ghost predicate ClosesOf(ops: seq<Media.Op>, x: Session) {
    forall m: Media.Medium :: Media.Close(m) in ops <==> m !in x.mediaOpen
  }

  /**
   * What processData is fed panics exactly if it is empty or meant for a media channel that a teardown has closed.
   * While nobody has begun to tear the session down, and its callers pass no empty message, nothing panics.
   */
  lemma FeedPanicsExactly(t: State, i: Sid, ops: seq<Media.Op>, data: bytes)
    requires Reachable(t) && Known(t, i) && Media.WellUsed(ops) && ClosesOf(ops, t.store.sessions[i])
    ensures var x, panics := t.store.sessions[i], Media.After(ops + [Media.Arrive(data)]).panicked;
      && (panics <==> data == [] || (Media.RouteOf(data).ToLane? && Media.RouteOf(data).medium !in x.mediaOpen))
      && (x.closing.Fresh? && data != [] ==> !panics)
  {
    ReachableInv(t);
    Look(t, 0, i);
    Media.WellUsedSnoc(ops, Media.Arrive(data));
    Media.PanicExactly(ops + [Media.Arrive(data)]);
  }

  /** And no teardown closes a media channel twice. */
  lemma CloseDoesNotPanic(t: State, p: Pid, ops: seq<Media.Op>)
    requires Reachable(t) && p in t.procs && t.procs[p].TearingDown? && t.procs[p].tstage.TearMedia?
    requires Known(t, t.procs[p].sid) && Media.WellUsed(ops) && ClosesOf(ops, t.store.sessions[t.procs[p].sid])
    ensures !Media.After(ops + [Media.Close(t.procs[p].tstage.m)]).panicked
  {
    ReachableInv(t);
    Look(t, p, t.procs[p].sid);
    MediaIsOpen(t, p, t.procs[p].sid);
    Media.WellUsedSnoc(ops, Media.Close(t.procs[p].tstage.m));
    Media.PanicExactly(ops + [Media.Close(t.procs[p].tstage.m)]);
  }

  // ---------------------------------------------------------------------------------------------
  // The key exchange

  /** Establishment runs the exchange of its session as one statement; this is where it stands after a step. */
  function NextPc(s: State, step: Step, i: Sid, pc: KeyExchange.Pc): KeyExchange.Pc
    requires Enabled(s, step)
  {
    match step
    case EstStep(p, Advance(key, _)) =>
      if s.procs[p] == Establishing(i, KeyExchanging) then KeyExchange.Done(key) else pc
    case EstStep(p, Fail) => if s.procs[p] == Establishing(i, KeyExchanging) then KeyExchange.Stopped else pc
    case _ => pc
  }

  /** And after a run. */
  function ExchangeAfter(s: State, steps: seq<Step>, t: State, i: Sid, pc: KeyExchange.Pc): KeyExchange.Pc
    requires Reaches(s, steps, t)
    decreases |steps|
  {
    if steps == [] then pc
    else ExchangeAfter(Apply(s, steps[0]), steps[1..], t, i, NextPc(s, steps[0], i, pc))
  }

  /** Where the exchange has to stand, judging by the session's owner and its fields. */
  predicate PcFits(pc: KeyExchange.Pc, x: Session, role: Option<Proc>) {
    var before := match role
      case Some(Establishing(_, stage)) => Rank(stage) <= 2
      case Some(Made(_, _)) => true
      case Some(Won(_, _)) => true
      case _ => !x.links.conn;
    if before then pc == KeyExchange.Opening
    else if x.links.key != [] then pc == KeyExchange.Done(x.links.key)
    else pc == KeyExchange.Stopped
  }

  predicate Tracks(pc: KeyExchange.Pc, s: State, i: Sid) {
    if Known(s, i) then PcFits(pc, s.store.sessions[i], RoleOf(s.procs, s.store.sessions[i].owner, i))
    else pc == KeyExchange.Opening
  }

  lemma BystanderTracks(s: State, step: Step, i: Sid, pc: KeyExchange.Pc)
    requires Inv(s) && Enabled(s, step) && Tracks(pc, s, i) && Known(s, i)
    requires Actor(s, step) in s.procs ==> !Owns(s.procs[Actor(s, step)], i)
    ensures Tracks(pc, Apply(s, step), i) && NextPc(s, step, i, pc) == pc
  {
    StepBystands(s, step, i);
    var j := InvLocal(s, step);
    Look(s, Actor(s, step), i);
  }

  // The owner

  lemma OwnersRole(s: State, p: Pid, i: Sid)
    requires Inv(s) && p in s.procs && Owns(s.procs[p], i)
    ensures Known(s, i) && s.store.sessions[i].owner == p && Before(s, p, i)
    ensures FieldsOk(s.store.sessions[i], Some(s.procs[p]), i in s.store.added, i in s.store.removed)
  {
    assert ProcOk(p, s.procs[p], s.store, s.messages);
    Look(s, p, i);
  }

  lemma CreatorTracks(s: State, p: Pid, act: CreateAct, i: Sid, pc: KeyExchange.Pc)
    requires Inv(s) && CanCreate(s, p, act) && Tracks(pc, s, i) && Owns(s.procs[p], i)
    ensures Tracks(pc, CreateApply(s, p, act), i)
  {
    var proc := s.procs[p];
    OwnersRole(s, p, i);
    match act
    case GiveUp => UnluckyShape(s, p, UidOf(s, proc), proc.why);
    case Add(timedOut) => UnluckyShape(s, p, s.store.sessions[i].userId, proc.why);
    case Launch => LaunchShape(s, p, i);
  }

  lemma AdvanceTracks(s: State, p: Pid, i: Sid, key: bytes, handler: bool, pc: KeyExchange.Pc)
    requires Inv(s) && CanEstablish(s, p, Advance(key, handler)) && Tracks(pc, s, i) && Owns(s.procs[p], i)
    ensures var act := Advance(key, handler);
      Tracks(if s.procs[p].stage.KeyExchanging? then KeyExchange.Done(key) else pc, EstApply(s, p, act), i)
  {
    OwnersRole(s, p, i);
    AdvanceShape(s, p, i, key, handler);
    AdvanceFits(i, s.store.sessions[i], s.procs[p].stage, key, handler, pc);
  }

  lemma AdvanceFits(i: Sid, x: Session, stage: EstStage, key: bytes, handler: bool, pc: KeyExchange.Pc)
    requires PcFits(pc, x, Some(Establishing(i, stage))) && LinksAt(x.links, Rank(stage))
    requires stage.AwaitCreds? ==> x.credsChan.CanRecv()
    requires stage.KeyExchanging? ==> |key| == KEY_SIZE
    ensures Established(x, stage, key, handler).owner == x.owner
    ensures PcFits(if stage.KeyExchanging? then KeyExchange.Done(key) else pc, Established(x, stage, key, handler),
                   if stage.ClosingReady? then None else Some(Establishing(i, NextStage(stage))))
  {
  }

  lemma EstablisherTracks(s: State, p: Pid, act: EstAct, i: Sid, pc: KeyExchange.Pc)
    requires Inv(s) && CanEstablish(s, p, act) && !s.panicked && Tracks(pc, s, i) && Owns(s.procs[p], i)
    ensures Tracks(NextPc(s, EstStep(p, act), i, pc), EstApply(s, p, act), i)
  {
    if act.Advance? {
      AdvanceTracks(s, p, i, act.key, act.handler, pc);
    } else {
      OwnersRole(s, p, i);
    }
  }

  lemma ResetterTracks(s: State, p: Pid, i: Sid, pc: KeyExchange.Pc)
    requires Inv(s) && CanTear(s, p, StepReset) && Tracks(pc, s, i) && Owns(s.procs[p], i)
    ensures Tracks(pc, ResetApply(s, p), i)
  {
    OwnersRole(s, p, i);
    if s.procs[p].rstage.ResetDelete? {
      ResetShape(s, p, i);
    } else {
      LifecycleRuns.ResetSpares(s, p);
      ClosedFits(s.store.sessions[i], s.procs[p].rstage);
    }
  }

  lemma ClosedFits(x: Session, stage: ResetStage)
    ensures ResetClosed(x, stage).links == x.links && ResetClosed(x, stage).owner == x.owner
  {
  }

  lemma OwnerTracks(s: State, step: Step, i: Sid, pc: KeyExchange.Pc)
    requires Inv(s) && Enabled(s, step) && Tracks(pc, s, i)
    requires Actor(s, step) in s.procs && Owns(s.procs[Actor(s, step)], i)
    ensures Tracks(NextPc(s, step, i, pc), Apply(s, step), i)
  {
    match step
    case CreateStep(p, act) => CreatorTracks(s, p, act, i, pc);
    case EstStep(p, act) => EstablisherTracks(s, p, act, i, pc);
    case TearStep(p, act) => ResetterTracks(s, p, i, pc);
  }

  /** A session that does not exist yet: its exchange begins with it. */
  lemma NewTracks(s: State, step: Step, i: Sid)
    requires Inv(s) && Enabled(s, step) && !Known(s, i)
    ensures Tracks(KeyExchange.Opening, Apply(s, step), i)
    ensures NextPc(s, step, i, KeyExchange.Opening) == KeyExchange.Opening
  {
    match step
    case CreateStep(p, act) => CreateCounts(s, p, act);
    case EstStep(p, act) => EstCounts(s, p, act);
    case TearStep(p, act) => TearCounts(s, p, act);
    case MsgStep(p, act) => MsgCounts(s, p, act);
    case EnvStep(act) => EnvShape(s, act);
  }

  lemma EstCounts(s: State, p: Pid, act: EstAct)
    requires CanEstablish(s, p, act)
    ensures |EstApply(s, p, act).store.sessions| == |s.store.sessions|
  {
  }

  lemma MsgCounts(s: State, p: Pid, act: MsgAct)
    requires CanHandle(s, p, act)
    ensures |MsgApply(s, p, act).store.sessions| == |s.store.sessions|
  {
  }

  lemma CreateCounts(s: State, p: Pid, act: CreateAct)
    requires CanCreate(s, p, act)
    ensures var t := CreateApply(s, p, act);
      if act.Allocate?
      then |t.store.sessions| == |s.store.sessions| + 1 && p in t.procs && t.procs[p].Made?
           && t.procs[p].sid == |s.store.sessions| && t.store.sessions[|s.store.sessions|].owner == p
      else |t.store.sessions| == |s.store.sessions|
  {
    var proc := s.procs[p];
    match act
    case GiveUp => UnluckyShape(s, p, UidOf(s, proc), proc.why);
    case Add(_) => UnluckyShape(s, p, s.store.sessions[proc.sid].userId, proc.why);
    case Launch => LaunchShape(s, p, proc.sid);
    case _ =>
  }

  lemma TearCounts(s: State, p: Pid, act: TearAct)
    requires Inv(s) && CanTear(s, p, act)
    ensures |TearApply(s, p, act).store.sessions| == |s.store.sessions|
  {
    match act
    case StepReset =>
    case EnterOnce => EnterShape(s, p, s.procs[p].sid);
    case StepTear(handler) =>
      MediaIsOpen(s, p, s.procs[p].sid);
      TearShape(s, p, s.procs[p].sid, handler);
      TornStoreKeeps(s.store, s.procs[p].sid, s.procs[p], handler);
  }

  lemma StepTracks(s: State, step: Step, i: Sid, pc: KeyExchange.Pc)
    requires Inv(s) && Enabled(s, step) && Tracks(pc, s, i)
    ensures Tracks(NextPc(s, step, i, pc), Apply(s, step), i)
  {
    var p := Actor(s, step);
    if !Known(s, i) {
      NewTracks(s, step, i);
    } else if p in s.procs && Owns(s.procs[p], i) {
      OwnerTracks(s, step, i, pc);
    } else {
      BystanderTracks(s, step, i, pc);
    }
  }

  /** In any run the exchange of a session and its lifecycle keep pace. */
  lemma {:induction false} ExchangeKeepsPace(s: State, steps: seq<Step>, t: State, i: Sid, pc: KeyExchange.Pc)
    requires Inv(s) && Reaches(s, steps, t) && Tracks(pc, s, i)
    ensures Tracks(ExchangeAfter(s, steps, t, i, pc), t, i)
    decreases |steps|
  {
    if steps != [] {
      StepTracks(s, steps[0], i, pc);
      InvStep(s, steps[0]);
      ExchangeKeepsPace(Apply(s, steps[0]), steps[1..], t, i, NextPc(s, steps[0], i, pc));
    }
  }

  /**
   * The gate of the senders is that of the exchange. In any run a session with a connection and a readable ReadyChan
   * has an exchange that is done, with a key that a secure stream takes, or stopped without one, and then the stream is
   * opened but nothing is written on it.
   */
  lemma {:induction false} GateIsTheExchanges(steps: seq<Step>, t: State, i: Sid, aes: bytes -> Aead,
                                              suite: KeyExchange.Suite, me: KeyExchange.Party, peer: KeyExchange.Party,
                                              data: bytes)
    requires Reaches(Lifecycle.INITIAL, steps, t) && Known(t, i)
    requires t.store.sessions[i].links.conn && t.store.sessions[i].readyChan.CanRecv()
    requires me.pc == ExchangeAfter(Lifecycle.INITIAL, steps, t, i, KeyExchange.Opening)
    ensures KeyExchange.CanMove(me, peer, KeyExchange.SendData(data))
    ensures me.pc.Done? ==> me.pc.key == t.store.sessions[i].links.key
    ensures NewAead(aes, t.store.sessions[i].links.key).Some? <==> me.pc.Done?
    ensures var streams := KeyExchange.Move(suite, me, peer, KeyExchange.SendData(data)).streams;
      streams != [] && (streams[|streams| - 1].Shown() <==> NewAead(aes, t.store.sessions[i].links.key).Some?)
  {
    InvInit();
    ExchangeKeepsPace(Lifecycle.INITIAL, steps, t, i, KeyExchange.Opening);
    InvRun(Lifecycle.INITIAL, steps, t);
    Look(t, t.store.sessions[i].owner, i);
    LeadsRefl(Lifecycle.INITIAL);
    ReachesLeads(Lifecycle.INITIAL, Lifecycle.INITIAL, steps, t);
    BehindTheGate(t, i);
  }

  /** Between the connection and the gate: the exchange of a connected session is under way exactly during setupE2EE. */
  lemma {:induction false} ExchangeUnderWayExactly(steps: seq<Step>, t: State, i: Sid)
    requires Reaches(Lifecycle.INITIAL, steps, t) && Known(t, i) && t.store.sessions[i].links.conn
    ensures KeyExchange.PastGate(ExchangeAfter(Lifecycle.INITIAL, steps, t, i, KeyExchange.Opening)) <==>
      forall p :: p in t.procs ==> t.procs[p] != Establishing(i, KeyExchanging)
  {
    InvInit();
    ExchangeKeepsPace(Lifecycle.INITIAL, steps, t, i, KeyExchange.Opening);
    InvRun(Lifecycle.INITIAL, steps, t);
    Look(t, t.store.sessions[i].owner, i);
    forall p | p in t.procs && t.procs[p] == Establishing(i, KeyExchanging) ensures p == t.store.sessions[i].owner {
      assert ProcOk(p, t.procs[p], t.store, t.messages);
    }
  }
}
