/**
 * Who waits for whom: the singleflight calls of getSession and the wait groups of Connect, ConnectById and
 * Disconnect.
 */
module LifecycleWaiting {
  import opened Channels
  import opened Wire
  import opened Lifecycle
  import opened LifecycleInvariant

  // ---------------------------------------------------------------------------------------------
  // Singleflight

  function FlightOf(why: Purpose, lead: bool): Option<(Fid, Msg)> {
    if lead && why.ForFlight? then Some((why.fid, why.msg)) else None
  }

  /** The call this goroutine runs (`lead`), or waits for. */
  function InFlight(proc: Proc, lead: bool): Option<(Fid, Msg)> {
    match proc
    case Leading(fid, msg) => if lead then Some((fid, msg)) else None
    case Publishing(fid, _, msg) => if lead then Some((fid, msg)) else None
    case Creating(_, _, why) => FlightOf(why, lead)
    case Made(_, why) => FlightOf(why, lead)
    case Won(_, why) => FlightOf(why, lead)
    case Following(fid, msg) => if lead then None else Some((fid, msg))
    case _ => None
  }

  function FlightAt(procs: map<Pid, Proc>, q: Pid, lead: bool): Option<(Fid, Msg)> {
    if q in procs then InFlight(procs[q], lead) else None
  }

  predicate FlightProcOk(q: Pid, flight: Option<(Fid, Msg)>, lead: bool, fl: Flights) {
    flight.Some? ==>
      var f, u := flight.value.0, flight.value.1.sender;
      && f < |fl.all| && fl.all[f].uid == u
      && (lead ==> fl.all[f].leader == q && u in fl.current && fl.current[u] == f)
  }

  predicate ResultOk(flight: Flight, st: Store) {
    flight.result.Some? && flight.result.value.Some? ==>
      var i := flight.result.value.value;
      i < |st.sessions| && i in st.added && st.sessions[i].userId == flight.uid
  }

  predicate CurrentOk(u: Uid, f: Fid, fl: Flights, procs: map<Pid, Proc>) {
    && f < |fl.all| && fl.all[f].uid == u && fl.all[f].result.None?
    && FlightAt(procs, fl.all[f].leader, true).Some? && FlightAt(procs, fl.all[f].leader, true).value.0 == f
  }

  /** A call in progress has exactly one leader; a finished one left a session of the right user, if any. */
  ghost predicate FlightsOk(fl: Flights, procs: map<Pid, Proc>, st: Store) {
    && (forall u :: u in fl.current ==> CurrentOk(u, fl.current[u], fl, procs))
    && (forall q, lead :: FlightProcOk(q, FlightAt(procs, q, lead), lead, fl))
    && (forall f :: 0 <= f < |fl.all| ==> ResultOk(fl.all[f], st))
    && (forall f :: 0 <= f < |fl.all| && fl.all[f].result.None? ==>
          fl.all[f].uid in fl.current && fl.current[fl.all[f].uid] == f)
  }

  /** No session disappears or loses what it has; what was added or removed stays so. */
  ghost predicate Grows(st: Store, st': Store) {
    && |st.sessions| <= |st'.sessions| && st.added <= st'.added && st.removed <= st'.removed
    && forall i :: 0 <= i < |st.sessions| ==> Kept(st.sessions[i], st'.sessions[i])
  }

  lemma SteppedGrows(s: State, t: State, p: Pid, i: Sid)
    requires Stepped(s, t, p, i)
    ensures Grows(s.store, t.store)
  {
  }

  lemma FlightsFrame(fl: Flights, procs: map<Pid, Proc>, procs': map<Pid, Proc>, st: Store, st': Store)
    requires FlightsOk(fl, procs, st) && Grows(st, st')
    requires forall q, lead :: FlightAt(procs', q, lead) == FlightAt(procs, q, lead)
    ensures FlightsOk(fl, procs', st')
  {
    forall q, lead ensures FlightProcOk(q, FlightAt(procs', q, lead), lead, fl) {
      assert FlightProcOk(q, FlightAt(procs, q, lead), lead, fl);
    }
  }

  lemma JoinLeads(fl: Flights, procs: map<Pid, Proc>, p: Pid, msg: Msg, st: Store)
    requires FlightsOk(fl, procs, st) && p in procs && procs[p].Arrived? && msg.sender !in fl.current
    ensures FlightsOk(Flights(fl.current[msg.sender := |fl.all|], fl.all + [Flight(msg.sender, p, None)]),
                      procs[p := Leading(|fl.all|, msg)], st)
  {
    var fl' := Flights(fl.current[msg.sender := |fl.all|], fl.all + [Flight(msg.sender, p, None)]);
    var procs' := procs[p := Leading(|fl.all|, msg)];
    forall q, lead ensures FlightProcOk(q, FlightAt(procs', q, lead), lead, fl') {
      assert FlightProcOk(q, FlightAt(procs, q, lead), lead, fl);
    }
  }

  lemma JoinFollows(fl: Flights, procs: map<Pid, Proc>, p: Pid, msg: Msg, st: Store)
    requires FlightsOk(fl, procs, st) && p in procs && procs[p].Arrived? && msg.sender in fl.current
    ensures FlightsOk(fl, procs[p := Following(fl.current[msg.sender], msg)], st)
  {
    var procs' := procs[p := Following(fl.current[msg.sender], msg)];
    forall q, lead ensures FlightProcOk(q, FlightAt(procs', q, lead), lead, fl) {
      assert FlightProcOk(q, FlightAt(procs, q, lead), lead, fl);
      assert CurrentOk(msg.sender, fl.current[msg.sender], fl, procs);
    }
  }

  lemma FollowEnds(fl: Flights, procs: map<Pid, Proc>, procs': map<Pid, Proc>, p: Pid, st: Store)
    requires FlightsOk(fl, procs, st) && p in procs && procs[p].Following?
    requires forall q, lead :: FlightAt(procs', q, lead) == (if q == p then None else FlightAt(procs, q, lead))
    ensures FlightsOk(fl, procs', st)
  {
    forall q, lead ensures FlightProcOk(q, FlightAt(procs', q, lead), lead, fl) {
      assert FlightProcOk(q, FlightAt(procs, q, lead), lead, fl);
    }
    forall u | u in fl.current ensures CurrentOk(u, fl.current[u], fl, procs') {
      assert CurrentOk(u, fl.current[u], fl, procs);
    }
  }

  lemma PublishEnds(fl: Flights, procs: map<Pid, Proc>, procs': map<Pid, Proc>, p: Pid, f: Fid, found: Option<Sid>,
                    msg: Msg, st: Store)
    requires FlightsOk(fl, procs, st) && p in procs && procs[p] == Publishing(f, found, msg) && f < |fl.all|
    requires forall q, lead :: FlightAt(procs', q, lead) == (if q == p then None else FlightAt(procs, q, lead))
    requires found.Some? ==> found.value < |st.sessions| && found.value in st.added
    requires found.Some? ==> st.sessions[found.value].userId == msg.sender
    ensures FlightsOk(Flights(fl.current - {msg.sender}, fl.all[f := fl.all[f].(result := Some(found))]), procs', st)
  {
    var fl' := Flights(fl.current - {msg.sender}, fl.all[f := fl.all[f].(result := Some(found))]);
    assert FlightProcOk(p, FlightAt(procs, p, true), true, fl);
    forall q, lead ensures FlightProcOk(q, FlightAt(procs', q, lead), lead, fl') {
      assert FlightProcOk(q, FlightAt(procs, q, lead), lead, fl);
    }
    forall u | u in fl'.current ensures CurrentOk(u, fl'.current[u], fl', procs') {
      assert CurrentOk(u, fl.current[u], fl, procs);
    }
  }

  /** A step outside the singleflight. */
  ghost predicate SameFlights(s: State, t: State) {
    t.flights == s.flights && forall q, lead :: FlightAt(t.procs, q, lead) == FlightAt(s.procs, q, lead)
  }

  /** The goroutine moves on within the call it runs or waits for, if any. */
  lemma MovedFlights(s: State, t: State, p: Pid, next: Option<Proc>)
    requires p in s.procs && Moved(s, t, p, next) && t.flights == s.flights
    requires forall lead :: (if next.Some? then InFlight(next.value, lead) else None) == InFlight(s.procs[p], lead)
    ensures SameFlights(s, t)
  {
  }

  lemma CreateFlights(s: State, p: Pid, act: CreateAct)
    requires CanCreate(s, p, act) && PidsOk(s.procs, s.next)
    ensures SameFlights(s, CreateApply(s, p, act))
  {
    var t, proc := CreateApply(s, p, act), s.procs[p];
    match act
    case Allocate => MovedFlights(s, t, p, Some(t.procs[p]));
    case GiveUp => GiveUpFlights(s, t, p, UidOf(s, proc), proc.why);
    case Add(timedOut) =>
      var u := s.store.sessions[proc.sid].userId;
      if timedOut || u in s.store.repo {
        GiveUpFlights(s, t, p, u, proc.why);
      } else {
        MovedFlights(s, t, p, Some(t.procs[p]));
      }
    case Launch => LaunchShape(s, p, proc.sid);
    case _ => QuietShape(s, p, act); MovedFlights(s, t, p, QuietNext(s, p, act));
  }

  lemma GiveUpFlights(s: State, t: State, p: Pid, uid: Uid, why: Purpose)
    requires p in s.procs && (s.procs[p].Creating? || s.procs[p].Made?) && s.procs[p].why == why
    requires t == Unlucky(s, p, uid, why)
    ensures SameFlights(s, t)
  {
    UnluckyShape(s, p, uid, why);
    MovedFlights(s, t, p, UnluckyProc(uid, why));
  }

  lemma EstFlights(s: State, p: Pid, act: EstAct)
    requires CanEstablish(s, p, act)
    ensures SameFlights(s, EstApply(s, p, act))
  {
  }

  lemma TearFlights(s: State, p: Pid, act: TearAct)
    requires CanTear(s, p, act)
    ensures SameFlights(s, TearApply(s, p, act))
  {
    var t := TearApply(s, p, act);
    if act.StepReset? {
      ResetFlights(s, p);
    } else {
      assert t.flights == s.flights;
    }
  }

  lemma ResetFlights(s: State, p: Pid)
    requires CanTear(s, p, StepReset)
    ensures SameFlights(s, ResetApply(s, p))
  {
    if s.procs[p].rstage.ResetDelete? {
      ResetShape(s, p, s.procs[p].sid);
      MovedFlights(s, ResetApply(s, p), p,
                   AfterReset(s.store.sessions[s.procs[p].sid].userId, s.store.sessions[s.procs[p].sid].initiator,
                              s.procs[p].after));
    }
  }

  lemma EnvFlights(s: State, act: EnvAct)
    requires CanStart(s, act) && PidsOk(s.procs, s.next)
    ensures SameFlights(s, EnvApply(s, act))
  {
  }

  /** What a message handler's step does to the singleflight calls. */
  function FlightsNext(s: State, p: Pid, act: MsgAct): Flights
    requires CanHandle(s, p, act)
  {
    var proc, fl := s.procs[p], s.flights;
    if act.Join? && proc.msg.sender !in fl.current then
      Flights(fl.current[proc.msg.sender := |fl.all|], fl.all + [Flight(proc.msg.sender, p, None)])
    else if act.Publish? then
      Flights(fl.current - {proc.msg.sender}, fl.all[proc.fid := fl.all[proc.fid].(result := Some(proc.found))])
    else fl
  }

  lemma MsgFlightsShape(s: State, p: Pid, act: MsgAct)
    requires CanHandle(s, p, act)
    ensures MsgApply(s, p, act).flights == FlightsNext(s, p, act)
    ensures MsgApply(s, p, act).groups == s.groups
  {
  }

  lemma OtherMsgFlights(s: State, p: Pid, act: MsgAct)
    requires CanHandle(s, p, act) && !act.Join? && !act.Publish? && !act.Follow?
    ensures var next := MsgNext(s, p, act);
      forall lead :: InFlight(s.procs[p], lead) == (if next.Some? then InFlight(next.value, lead) else None)
  {
  }

  lemma PublishFlights(s: State, p: Pid, procs': map<Pid, Proc>)
    requires ProcsOk(s.store, s.procs, s.messages) && FlightsOk(s.flights, s.procs, s.store) && CanHandle(s, p, Publish)
    requires procs' == if MsgNext(s, p, Publish).Some? then s.procs[p := MsgNext(s, p, Publish).value]
                       else s.procs - {p}
    ensures FlightsOk(FlightsNext(s, p, Publish), procs', s.store)
  {
    var proc := s.procs[p];
    assert ProcOk(p, proc, s.store, s.messages);
    PublishEnds(s.flights, s.procs, procs', p, proc.fid, proc.found, proc.msg, s.store);
  }

  lemma MsgFlights(s: State, p: Pid, act: MsgAct, procs': map<Pid, Proc>)
    requires Core(s) && FlightsOk(s.flights, s.procs, s.store) && CanHandle(s, p, act)
    requires procs' == if MsgNext(s, p, act).Some? then s.procs[p := MsgNext(s, p, act).value] else s.procs - {p}
    ensures FlightsOk(FlightsNext(s, p, act), procs', s.store)
  {
    var proc := s.procs[p];
    match act
    case Join =>
      if proc.msg.sender in s.flights.current {
        JoinFollows(s.flights, s.procs, p, proc.msg, s.store);
      } else {
        JoinLeads(s.flights, s.procs, p, proc.msg, s.store);
      }
    case Publish => PublishFlights(s, p, procs');
    case Follow => FollowEnds(s.flights, s.procs, procs', p, s.store);
    case _ => OtherMsgFlights(s, p, act); FlightsFrame(s.flights, s.procs, procs', s.store, s.store);
  }

  /** What a follower reads off a finished call is a session of the user it asked for. */
  lemma FollowersGetTheirUser(s: State, p: Pid)
    requires Core(s) && FlightsOk(s.flights, s.procs, s.store) && CanHandle(s, p, Follow)
    ensures FollowOk(s, p, Follow)
  {
    assert FlightProcOk(p, FlightAt(s.procs, p, false), false, s.flights);
    assert ResultOk(s.flights.all[s.procs[p].fid], s.store);
  }

  // ---------------------------------------------------------------------------------------------
  // Wait groups

  function GroupOf(why: Purpose): Option<(Gid, bool)> {
    if why.ForGroup? then Some((why.gid, true)) else None
  }

  /** The wait group this goroutine counts in, and whether that is one of Connect's. */
  function Membership(proc: Proc): Option<(Gid, bool)> {
    match proc
    case Creating(_, _, why) => GroupOf(why)
    case Made(_, why) => GroupOf(why)
    case Won(_, why) => GroupOf(why)
    case AwaitReady(_, why) => GroupOf(why)
    case Disconnecting(_, _, group) => if group.Some? then Some((group.value, false)) else None
    case TearingDown(_, _, _, group) => if group.Some? then Some((group.value, false)) else None
    case _ => None
  }

  /** The session it has to see settled. */
  function Charge(proc: Proc): Option<Sid> {
    match proc
    case AwaitReady(i, why) => if why.ForGroup? then Some(i) else None
    case Disconnecting(i, _, group) => if group.Some? then Some(i) else None
    case TearingDown(i, _, _, group) => if group.Some? then Some(i) else None
    case _ => None
  }

  function MemberAt(procs: map<Pid, Proc>, q: Pid): Option<(Gid, bool)> {
    if q in procs then Membership(procs[q]) else None
  }

  function ChargeAt(procs: map<Pid, Proc>, q: Pid): Option<Sid> {
    if q in procs then Charge(procs[q]) else None
  }

  /** Connected or failed for good; respectively out of the repository for good. */
  predicate Settled(i: Sid, connecting: bool, st: Store) {
    i < |st.sessions| && if connecting then st.sessions[i].readyChan.closed else i in st.removed
  }

  predicate MemberOk(q: Pid, member: Option<(Gid, bool)>, groups: map<Gid, Group>) {
    member.Some? ==>
      member.value.0 in groups && groups[member.value.0].connecting == member.value.1
      && q in groups[member.value.0].live
  }

  predicate TargetOk(i: Sid, q: Pid, g: Gid, connecting: bool, procs: map<Pid, Proc>, st: Store) {
    i < |st.sessions| &&
    (Settled(i, connecting, st) || (ChargeAt(procs, q) == Some(i) && MemberAt(procs, q) == Some((g, connecting))))
  }

  ghost predicate GroupOk(g: Gid, grp: Group, procs: map<Pid, Proc>, st: Store) {
    && (forall q :: q in grp.live ==> MemberAt(procs, q) == Some((g, grp.connecting)))
    && (forall i :: i in grp.targets ==> TargetOk(i, grp.targets[i], g, grp.connecting, procs, st))
    && (grp.returned ==> grp.live == {} && !grp.failed)
  }

  /**
   * A wait group counts exactly its unfinished members; each session it is about is settled or in a member's charge.
   */
  ghost predicate GroupsOk(groups: map<Gid, Group>, procs: map<Pid, Proc>, st: Store) {
    && (forall q :: MemberOk(q, MemberAt(procs, q), groups))
    && (forall g :: g in groups ==> GroupOk(g, groups[g], procs, st))
  }

  /** A wait group never forgets a session it is about, nor that it returned. */
  ghost predicate GroupsKept(groups: map<Gid, Group>, groups': map<Gid, Group>) {
    forall g :: g in groups ==>
      g in groups' && groups'[g].connecting == groups[g].connecting && groups[g].targets.Keys <= groups'[g].targets.Keys
      && (groups[g].returned ==> groups'[g].returned) && (groups[g].failed ==> groups'[g].failed)
      && groups[g].asked <= groups'[g].asked
  }

  ghost predicate GroupsNext(s: State, t: State) {
    GroupsOk(t.groups, t.procs, t.store) && GroupsKept(s.groups, t.groups)
  }

  /** Goroutine `p` now stands for `member` and `charge`; all others as before. */
  ghost predicate Rejoined(procs: map<Pid, Proc>, procs': map<Pid, Proc>, p: Pid, member: Option<(Gid, bool)>,
                           charge: Option<Sid>) {
    forall q :: MemberAt(procs', q) == (if q == p then member else MemberAt(procs, q))
             && ChargeAt(procs', q) == (if q == p then charge else ChargeAt(procs, q))
  }

  ghost predicate SameMembers(s: State, t: State) {
    t.groups == s.groups &&
    forall q :: MemberAt(t.procs, q) == MemberAt(s.procs, q) && ChargeAt(t.procs, q) == ChargeAt(s.procs, q)
  }

  ghost predicate LeftGroup(s: State, t: State, p: Pid, g: Gid, failed: bool) {
    && g in s.groups && Rejoined(s.procs, t.procs, p, None, None)
    && t.groups == s.groups[g := s.groups[g].(live := s.groups[g].live - {p}, failed := s.groups[g].failed || failed)]
  }

  lemma GroupsFrame(s: State, t: State)
    requires GroupsOk(s.groups, s.procs, s.store) && Grows(s.store, t.store) && SameMembers(s, t)
    ensures GroupsNext(s, t)
  {
    forall q ensures MemberOk(q, MemberAt(t.procs, q), t.groups) {
      assert MemberOk(q, MemberAt(s.procs, q), s.groups);
    }
    forall g | g in t.groups ensures GroupOk(g, t.groups[g], t.procs, t.store) {
      assert GroupOk(g, s.groups[g], s.procs, s.store);
    }
  }

  lemma GroupsLeave(s: State, t: State, p: Pid, g: Gid, failed: bool)
    requires GroupsOk(s.groups, s.procs, s.store) && Grows(s.store, t.store) && LeftGroup(s, t, p, g, failed)
    requires MemberAt(s.procs, p) == Some((g, s.groups[g].connecting))
    requires ChargeAt(s.procs, p).Some? ==> Settled(ChargeAt(s.procs, p).value, s.groups[g].connecting, t.store)
    ensures GroupsNext(s, t)
  {
    assert MemberOk(p, MemberAt(s.procs, p), s.groups);
    assert GroupOk(g, s.groups[g], s.procs, s.store);
    forall q ensures MemberOk(q, MemberAt(t.procs, q), t.groups) {
      assert MemberOk(q, MemberAt(s.procs, q), s.groups);
    }
    forall h | h in t.groups ensures GroupOk(h, t.groups[h], t.procs, t.store) {
      assert GroupOk(h, s.groups[h], s.procs, s.store);
      forall i | i in t.groups[h].targets
        ensures TargetOk(i, t.groups[h].targets[i], h, t.groups[h].connecting, t.procs, t.store)
      {
        assert TargetOk(i, s.groups[h].targets[i], h, s.groups[h].connecting, s.procs, s.store);
      }
    }
  }

  /** A member's session now has its establishment goroutine: from here on the group is about that session. */
  lemma GroupsAim(s: State, t: State, p: Pid, g: Gid, i: Sid)
    requires GroupsOk(s.groups, s.procs, s.store) && Grows(s.store, t.store) && i < |t.store.sessions|
    requires MemberAt(s.procs, p) == Some((g, true)) && ChargeAt(s.procs, p).None? && g in s.groups
    requires Rejoined(s.procs, t.procs, p, Some((g, true)), Some(i))
    requires t.groups == s.groups[g := s.groups[g].(targets := s.groups[g].targets[i := p])]
    ensures GroupsNext(s, t)
  {
    assert MemberOk(p, MemberAt(s.procs, p), s.groups);
    forall q ensures MemberOk(q, MemberAt(t.procs, q), t.groups) {
      assert MemberOk(q, MemberAt(s.procs, q), s.groups);
    }
    forall h | h in t.groups ensures GroupOk(h, t.groups[h], t.procs, t.store) {
      assert GroupOk(h, s.groups[h], s.procs, s.store);
      forall j | j in t.groups[h].targets
        ensures TargetOk(j, t.groups[h].targets[j], h, t.groups[h].connecting, t.procs, t.store)
      {
        if h != g || j != i {
          assert TargetOk(j, s.groups[h].targets[j], h, s.groups[h].connecting, s.procs, s.store);
        }
      }
    }
  }

  /** A new goroutine joins a wait group that has not been waited for yet. */
  lemma GroupsJoin(s: State, t: State, p: Pid, g: Gid, charge: Option<Sid>, asked: set<Uid>)
    requires GroupsOk(s.groups, s.procs, s.store) && t.store == s.store && p !in s.procs
    requires g in s.groups && !s.groups[g].returned
    requires charge.Some? ==> charge.value < |s.store.sessions|
    requires var grp := s.groups[g];
      && Rejoined(s.procs, t.procs, p, Some((g, grp.connecting)), charge)
      && t.groups == s.groups[g := grp.(live := grp.live + {p},
                                        targets := if charge.Some? then grp.targets[charge.value := p] else grp.targets,
                                        asked := grp.asked + asked)]
    ensures GroupsNext(s, t)
  {
    forall q ensures MemberOk(q, MemberAt(t.procs, q), t.groups) {
      assert MemberOk(q, MemberAt(s.procs, q), s.groups);
    }
    forall h | h in t.groups ensures GroupOk(h, t.groups[h], t.procs, t.store) {
      assert GroupOk(h, s.groups[h], s.procs, s.store);
      forall j | j in t.groups[h].targets
        ensures TargetOk(j, t.groups[h].targets[j], h, t.groups[h].connecting, t.procs, t.store)
      {
        if h != g || charge != Some(j) {
          assert TargetOk(j, s.groups[h].targets[j], h, s.groups[h].connecting, s.procs, s.store);
        }
      }
    }
  }

  lemma MovedMembers(s: State, t: State, p: Pid, next: Option<Proc>)
    requires p in s.procs && Moved(s, t, p, next) && t.groups == s.groups
    requires Membership(s.procs[p]) == (if next.Some? then Membership(next.value) else None)
    requires Charge(s.procs[p]) == (if next.Some? then Charge(next.value) else None)
    ensures SameMembers(s, t)
  {
  }

  lemma LeaveShape(s: State, p: Pid, g: Gid, failed: bool)
    requires p in s.procs && g in s.groups
    ensures LeftGroup(s, Leave(s, p, g, failed), p, g, failed) && Leave(s, p, g, failed).store == s.store
  {
  }

  /** The group a member counts in exists and counts it. */
  lemma MembersCount(s: State, p: Pid)
    requires GroupsOk(s.groups, s.procs, s.store) && p in s.procs && Membership(s.procs[p]).Some?
    ensures MemberOk(p, Membership(s.procs[p]), s.groups)
  {
    assert MemberOk(p, MemberAt(s.procs, p), s.groups);
  }

  lemma UnluckyGroups(s: State, p: Pid, uid: Uid, why: Purpose)
    requires GroupsOk(s.groups, s.procs, s.store) && p in s.procs && (s.procs[p].Creating? || s.procs[p].Made?)
    requires s.procs[p].why == why
    ensures GroupsNext(s, Unlucky(s, p, uid, why))
  {
    var t := Unlucky(s, p, uid, why);
    UnluckyShape(s, p, uid, why);
    if why.ForGroup? {
      MembersCount(s, p);
      LeaveShape(s, p, why.gid, true);
      GroupsLeave(s, t, p, why.gid, true);
    } else {
      MovedMembers(s, t, p, UnluckyProc(uid, why));
      GroupsFrame(s, t);
    }
  }

  lemma LaunchGroups(s: State, p: Pid, i: Sid)
    requires GroupsOk(s.groups, s.procs, s.store) && Core(s) && CanCreate(s, p, Launch) && i == s.procs[p].sid
    ensures GroupsNext(s, CreateApply(s, p, Launch))
  {
    var t, why := CreateApply(s, p, Launch), s.procs[p].why;
    LaunchShape(s, p, i);
    LaunchGrows(s.store, t.store, i, s.next);
    if why.ForGroup? {
      MembersCount(s, p);
      LaunchTargets(s, p, i, why.gid);
      GroupsAim(s, t, p, why.gid, i);
    } else {
      assert t.groups == s.groups;
      GroupsFrame(s, t);
    }
  }

  lemma LaunchGrows(st: Store, st': Store, i: Sid, owner: Pid)
    requires i < |st.sessions| && st' == Put(st, i, st.sessions[i].(owner := owner))
    ensures Grows(st, st')
  {
  }

  lemma LaunchTargets(s: State, p: Pid, i: Sid, g: Gid)
    requires CanCreate(s, p, Launch) && i == s.procs[p].sid && s.procs[p].why == ForGroup(g) && g in s.groups
    ensures CreateApply(s, p, Launch).groups == s.groups[g := s.groups[g].(targets := s.groups[g].targets[i := p])]
  {
  }

  /** Nothing is ever sent on ReadyChan, so who gets past it knows it is closed. */
  lemma SeenReady(s: State, p: Pid)
    requires Core(s) && CanCreate(s, p, SeeReady)
    ensures s.store.sessions[s.procs[p].sid].readyChan.closed
  {
    var i := s.procs[p].sid;
    assert SessionOk(i, s.store.sessions[i], s.procs, s.next, i in s.store.added, i in s.store.removed, s.messages);
  }

  lemma QuietGroups(s: State, p: Pid, act: CreateAct)
    requires GroupsOk(s.groups, s.procs, s.store) && Core(s) && CanCreate(s, p, act) && (act.SeeReady? || act.Retry?)
    ensures GroupsNext(s, CreateApply(s, p, act))
  {
    var t := CreateApply(s, p, act);
    QuietShape(s, p, act);
    if act.SeeReady? && s.procs[p].why.ForGroup? {
      SeenReady(s, p);
      MembersCount(s, p);
      LeaveShape(s, p, s.procs[p].why.gid, false);
      GroupsLeave(s, t, p, s.procs[p].why.gid, false);
    } else {
      assert t.groups == s.groups;
      MovedMembers(s, t, p, QuietNext(s, p, act));
      GroupsFrame(s, t);
    }
  }

  lemma CreateGroups(s: State, p: Pid, act: CreateAct)
    requires GroupsOk(s.groups, s.procs, s.store) && Core(s) && CanCreate(s, p, act)
    ensures GroupsNext(s, CreateApply(s, p, act))
  {
    var t, proc := CreateApply(s, p, act), s.procs[p];
    match act
    case Allocate => MovedMembers(s, t, p, Some(t.procs[p])); GroupsFrame(s, t);
    case GiveUp => UnluckyGroups(s, p, UidOf(s, proc), proc.why);
    case Add(timedOut) =>
      var u := s.store.sessions[proc.sid].userId;
      if timedOut || u in s.store.repo {
        UnluckyGroups(s, p, u, proc.why);
      } else {
        MovedMembers(s, t, p, Some(t.procs[p]));
        GroupsFrame(s, t);
      }
    case Launch => LaunchGroups(s, p, proc.sid);
    case _ => QuietGroups(s, p, act);
  }

  lemma EstMembers(s: State, p: Pid, act: EstAct)
    requires CanEstablish(s, p, act)
    ensures SameMembers(s, EstApply(s, p, act))
  {
  }

  lemma ResetMembers(s: State, p: Pid)
    requires CanTear(s, p, StepReset)
    ensures SameMembers(s, ResetApply(s, p))
  {
    if s.procs[p].rstage.ResetDelete? {
      ResetShape(s, p, s.procs[p].sid);
      MovedMembers(s, ResetApply(s, p), p,
                   AfterReset(s.store.sessions[s.procs[p].sid].userId, s.store.sessions[s.procs[p].sid].initiator,
                              s.procs[p].after));
    }
  }

  /** Who returns from Closing.Do, having run it or not, knows the session is out of the repository. */
  lemma SeenRemoved(s: State, p: Pid, act: TearAct)
    requires Core(s) && CanTear(s, p, act)
    requires if act.EnterOnce? then s.store.sessions[s.procs[p].sid].closing.Over?
             else act.StepTear? && s.procs[p].tstage.TearNotify?
    ensures s.procs[p].sid in s.store.removed
  {
    var i := s.procs[p].sid;
    assert SessionOk(i, s.store.sessions[i], s.procs, s.next, i in s.store.added, i in s.store.removed, s.messages);
    assert ProcOk(p, s.procs[p], s.store, s.messages);
  }

  /** A disconnecting goroutine ends, in a wait group or not. */
  lemma LeftGroups(s: State, t: State, p: Pid, i: Sid, st: Store)
    requires GroupsOk(s.groups, s.procs, s.store) && Grows(s.store, st)
    requires p in s.procs && (s.procs[p].Disconnecting? || s.procs[p].TearingDown?) && s.procs[p].sid == i
    requires t == LeaveIfMember(s.(store := st), p, s.procs[p].group)
    requires i < |st.sessions| && i in st.removed
    ensures GroupsNext(s, t)
  {
    var group := s.procs[p].group;
    if group.Some? {
      MembersCount(s, p);
      LeaveShape(s.(store := st), p, group.value, false);
      GroupsLeave(s, t, p, group.value, false);
    } else {
      MovedMembers(s, t, p, None);
      GroupsFrame(s, t);
    }
  }

  lemma EnterGroups(s: State, p: Pid)
    requires GroupsOk(s.groups, s.procs, s.store) && Core(s) && CanTear(s, p, EnterOnce)
    ensures var t := TearApply(s, p, EnterOnce); Grows(s.store, t.store) ==> GroupsNext(s, t)
  {
    var t, i := TearApply(s, p, EnterOnce), s.procs[p].sid;
    if s.store.sessions[i].closing.Over? {
      SeenRemoved(s, p, EnterOnce);
      assert s.(store := s.store) == s;
      LeftGroups(s, t, p, i, s.store);
    } else if Grows(s.store, t.store) {
      EnterMembers(s, p);
      GroupsFrame(s, t);
    }
  }

  lemma EnterMembers(s: State, p: Pid)
    requires CanTear(s, p, EnterOnce) && !s.store.sessions[s.procs[p].sid].closing.Over?
    ensures SameMembers(s, TearApply(s, p, EnterOnce))
  {
  }

  lemma StepTearGroups(s: State, p: Pid, handler: bool)
    requires GroupsOk(s.groups, s.procs, s.store) && Core(s) && CanTear(s, p, StepTear(handler))
    ensures var t := TearApply(s, p, StepTear(handler)); Grows(s.store, t.store) ==> GroupsNext(s, t)
  {
    var t, i := TearApply(s, p, StepTear(handler)), s.procs[p].sid;
    if Grows(s.store, t.store) {
      if s.procs[p].tstage.TearNotify? {
        SeenRemoved(s, p, StepTear(handler));
        LeftGroups(s, t, p, i, t.store);
      } else {
        TearMembers(s, p, handler);
        GroupsFrame(s, t);
      }
    }
  }

  lemma TearMembers(s: State, p: Pid, handler: bool)
    requires CanTear(s, p, StepTear(handler)) && !s.procs[p].tstage.TearNotify?
    ensures SameMembers(s, TearApply(s, p, StepTear(handler)))
  {
  }

  lemma TearGroups(s: State, p: Pid, act: TearAct)
    requires GroupsOk(s.groups, s.procs, s.store) && Core(s) && CanTear(s, p, act)
    requires Grows(s.store, TearApply(s, p, act).store)
    ensures GroupsNext(s, TearApply(s, p, act))
  {
    match act
    case StepReset => ResetMembers(s, p); GroupsFrame(s, TearApply(s, p, act));
    case EnterOnce => EnterGroups(s, p);
    case StepTear(handler) => StepTearGroups(s, p, handler);
  }

  lemma MsgMembers(s: State, p: Pid, act: MsgAct)
    requires CanHandle(s, p, act)
    ensures SameMembers(s, MsgApply(s, p, act))
  {
    MsgShape(s, p, act);
    MsgFlightsShape(s, p, act);
    MovedMembers(s, MsgApply(s, p, act), p, MsgNext(s, p, act));
  }

  lemma EnvGroups(s: State, act: EnvAct)
    requires GroupsOk(s.groups, s.procs, s.store) && PidsOk(s.procs, s.next) && CanStart(s, act)
    ensures GroupsNext(s, EnvApply(s, act))
  {
    var t := EnvApply(s, act);
    match act
    case OpenGroup(g, connecting) => GroupsOpen(s, t, g, connecting);
    case ConnectMember(g, uid) => GroupsJoin(s, t, s.next, g, None, {uid});
    case DisconnectMember(g, i) => assert s.groups[g].asked + {} == s.groups[g].asked; GroupsJoin(s, t, s.next, g,
        Some(i), {});
    case ReturnNil(g) => GroupsReturn(s, t, g);
    case _ => GroupsFrame(s, t);
  }

  lemma GroupsOpen(s: State, t: State, g: Gid, connecting: bool)
    requires GroupsOk(s.groups, s.procs, s.store) && t.store == s.store && t.procs == s.procs && g !in s.groups
    requires t.groups == s.groups[g := Group(connecting, {}, map[], false, false, {})]
    ensures GroupsNext(s, t)
  {
    forall q ensures MemberOk(q, MemberAt(t.procs, q), t.groups) {
      assert MemberOk(q, MemberAt(s.procs, q), s.groups);
    }
  }

  lemma GroupsReturn(s: State, t: State, g: Gid)
    requires GroupsOk(s.groups, s.procs, s.store) && t.store == s.store && t.procs == s.procs
    requires g in s.groups && s.groups[g].live == {} && !s.groups[g].failed
    requires t.groups == s.groups[g := s.groups[g].(returned := true)]
    ensures GroupsNext(s, t)
  {
    forall q ensures MemberOk(q, MemberAt(t.procs, q), t.groups) {
      assert MemberOk(q, MemberAt(s.procs, q), s.groups);
    }
    assert GroupOk(g, s.groups[g], s.procs, s.store);
  }

  // ---------------------------------------------------------------------------------------------
  // Nobody Connect was asked to reach is forgotten

  /** The user this member of a wait group is still creating a session for. */
  function AsksAt(procs: map<Pid, Proc>, q: Pid, st: Store): Option<(Gid, Uid)> {
    if q !in procs then None else
    match procs[q]
    case Creating(uid, _, why) => if why.ForGroup? then Some((why.gid, uid)) else None
    case Made(i, why) => if why.ForGroup? && i < |st.sessions| then Some((why.gid, st.sessions[i].userId)) else None
    case Won(i, why) => if why.ForGroup? && i < |st.sessions| then Some((why.gid, st.sessions[i].userId)) else None
    case _ => None
  }

  ghost predicate Started(u: Uid, grp: Group, st: Store) {
    exists i :: i in grp.targets && i < |st.sessions| && st.sessions[i].userId == u
  }

  ghost predicate Covered(u: Uid, g: Gid, grp: Group, procs: map<Pid, Proc>, st: Store) {
    grp.failed || (exists q :: AsksAt(procs, q, st) == Some((g, u))) || Started(u, grp, st)
  }

  /** For each user asked for, a member is at work on it, or the group is about a session of that user, or it failed. */
  ghost predicate AskedOk(groups: map<Gid, Group>, procs: map<Pid, Proc>, st: Store) {
    forall g, u :: g in groups && u in groups[g].asked ==> Covered(u, g, groups[g], procs, st)
  }

  /**
   * The goroutine that moves is still at work on its user, or has started a session of that user, or has failed the
   * group.
   */
  ghost predicate Answered(s: State, t: State, p: Pid) {
    var ask := AsksAt(s.procs, p, s.store);
    ask.Some? && AsksAt(t.procs, p, t.store) != ask && ask.value.0 in t.groups ==>
      t.groups[ask.value.0].failed || Started(ask.value.1, t.groups[ask.value.0], t.store)
  }

  lemma AskedFrame(s: State, t: State, p: Pid)
    requires AskedOk(s.groups, s.procs, s.store) && Grows(s.store, t.store) && GroupsKept(s.groups, t.groups)
    requires forall g ::
      g in t.groups ==> if g in s.groups then t.groups[g].asked == s.groups[g].asked else t.groups[g].asked == {}
    requires forall q :: q != p ==> AsksAt(t.procs, q, t.store) == AsksAt(s.procs, q, s.store)
    requires Answered(s, t, p)
    ensures AskedOk(t.groups, t.procs, t.store)
  {
    forall g, u | g in t.groups && u in t.groups[g].asked ensures Covered(u, g, t.groups[g], t.procs, t.store) {
      assert Covered(u, g, s.groups[g], s.procs, s.store);
      if Started(u, s.groups[g], s.store) {
        StartedStays(u, s.groups[g], t.groups[g], s.store, t.store);
      } else if !s.groups[g].failed {
        var q :| AsksAt(s.procs, q, s.store) == Some((g, u));
        assert q != p ==> AsksAt(t.procs, q, t.store) == Some((g, u));
      }
    }
  }

  lemma StartedStays(u: Uid, grp: Group, grp': Group, st: Store, st': Store)
    requires Started(u, grp, st) && Grows(st, st') && grp.targets.Keys <= grp'.targets.Keys
    ensures Started(u, grp', st')
  {
    var i :| i in grp.targets && i < |st.sessions| && st.sessions[i].userId == u;
    assert i in grp.targets.Keys && st'.sessions[i].userId == u;
  }

  /** Other goroutines ask for what they asked for. */
  lemma OthersAsk(s: State, t: State, p: Pid, i: Sid)
    requires Core(s) && Stepped(s, t, p, i) && Grows(s.store, t.store)
    requires s.next in t.procs && s.next != p ==> AsksAt(t.procs, s.next, t.store).None?
    ensures forall q :: q != p ==> AsksAt(t.procs, q, t.store) == AsksAt(s.procs, q, s.store)
  {
    forall q | q != p ensures AsksAt(t.procs, q, t.store) == AsksAt(s.procs, q, s.store) {
      if q in s.procs {
        assert ProcOk(q, s.procs[q], s.store, s.messages);
      } else if q in t.procs {
        assert q == s.next;
      }
    }
  }

  ghost predicate SameAsked(s: State, t: State) {
    forall g :: g in t.groups ==>
      if g in s.groups then t.groups[g].asked == s.groups[g].asked else t.groups[g].asked == {}
  }

  /** What a step of goroutine `p` must say about who is asked for. */
  ghost predicate AsksOn(s: State, t: State, p: Pid) {
    && SameAsked(s, t) && Answered(s, t, p)
    && (s.next in t.procs && s.next != p ==> AsksAt(t.procs, s.next, t.store).None?)
  }

  lemma UnluckyAsks(s: State, p: Pid, uid: Uid, why: Purpose)
    requires p in s.procs && p < s.next && s.next !in s.procs
    requires AsksAt(s.procs, p, s.store) == if why.ForGroup? then Some((why.gid, uid)) else None
    ensures AsksOn(s, Unlucky(s, p, uid, why), p)
  {
  }

  lemma MovedAsks(s: State, t: State, p: Pid, next: Option<Proc>)
    requires p in s.procs && p < s.next && s.next !in s.procs && Moved(s, t, p, next) && t.groups == s.groups
    requires AsksAt(s.procs, p, s.store) == AsksAt(t.procs, p, t.store)
    ensures AsksOn(s, t, p)
  {
  }

  lemma LaunchAsks(s: State, p: Pid, i: Sid)
    requires CanCreate(s, p, Launch) && i == s.procs[p].sid && s.next !in s.procs
    ensures AsksOn(s, CreateApply(s, p, Launch), p)
  {
    var t, why := CreateApply(s, p, Launch), s.procs[p].why;
    LaunchShape(s, p, i);
    if why.ForGroup? && why.gid in s.groups {
      LaunchTargets(s, p, i, why.gid);
      assert i in t.groups[why.gid].targets && t.store.sessions[i].userId == s.store.sessions[i].userId;
    } else {
      assert t.groups == s.groups;
    }
  }

  lemma QuietAsks(s: State, p: Pid, act: CreateAct)
    requires CanCreate(s, p, act) && (act.SeeReady? || act.Retry?) && p < s.next && s.next !in s.procs
    ensures AsksOn(s, CreateApply(s, p, act), p)
  {
    QuietShape(s, p, act);
  }

  lemma CreateAsks(s: State, p: Pid, act: CreateAct)
    requires Core(s) && CanCreate(s, p, act)
    ensures AsksOn(s, CreateApply(s, p, act), p)
  {
    var t, proc := CreateApply(s, p, act), s.procs[p];
    assert ProcOk(p, proc, s.store, s.messages);
    match act
    case Allocate => MovedAsks(s, t, p, Some(t.procs[p]));
    case GiveUp => UnluckyAsks(s, p, UidOf(s, proc), proc.why);
    case Add(timedOut) =>
      var u := s.store.sessions[proc.sid].userId;
      if timedOut || u in s.store.repo {
        UnluckyAsks(s, p, u, proc.why);
      } else {
        MovedAsks(s, t, p, Some(t.procs[p]));
      }
    case Launch => LaunchAsks(s, p, proc.sid);
    case _ => QuietAsks(s, p, act);
  }

  lemma EstAsks(s: State, p: Pid, act: EstAct)
    requires CanEstablish(s, p, act) && PidsOk(s.procs, s.next)
    ensures AsksOn(s, EstApply(s, p, act), p)
  {
  }

  lemma ResetAsks(s: State, p: Pid)
    requires CanTear(s, p, StepReset) && PidsOk(s.procs, s.next)
    ensures AsksOn(s, ResetApply(s, p), p)
  {
  }

  lemma EnterAsks(s: State, p: Pid)
    requires CanTear(s, p, EnterOnce) && PidsOk(s.procs, s.next)
    ensures AsksOn(s, TearApply(s, p, EnterOnce), p)
  {
  }

  lemma TearAsks(s: State, p: Pid, act: TearAct)
    requires CanTear(s, p, act) && PidsOk(s.procs, s.next)
    ensures AsksOn(s, TearApply(s, p, act), p)
  {
    match act
    case StepReset => ResetAsks(s, p);
    case EnterOnce => EnterAsks(s, p);
    case StepTear(handler) =>
  }

  lemma MsgAsks(s: State, p: Pid, act: MsgAct)
    requires CanHandle(s, p, act) && PidsOk(s.procs, s.next)
    ensures AsksOn(s, MsgApply(s, p, act), p)
  {
    MsgShape(s, p, act);
    MsgFlightsShape(s, p, act);
  }

  lemma EnvAsks(s: State, act: EnvAct)
    requires CanStart(s, act) && PidsOk(s.procs, s.next)
    ensures Answered(s, EnvApply(s, act), s.next) && (!act.ConnectMember? ==> SameAsked(s, EnvApply(s, act)))
  {
  }

  /** One more user asked for, and one more member that works on it. */
  lemma AskedJoin(s: State, t: State, p: Pid, g: Gid, u: Uid)
    requires AskedOk(s.groups, s.procs, s.store) && Grows(s.store, t.store) && GroupsKept(s.groups, t.groups)
    requires g in s.groups
    requires forall h ::
      h in t.groups ==> h in s.groups && t.groups[h].asked <= s.groups[h].asked + if h == g then {u} else {}
    requires forall q :: q != p ==> AsksAt(t.procs, q, t.store) == AsksAt(s.procs, q, s.store)
    requires p !in s.procs && AsksAt(t.procs, p, t.store) == Some((g, u))
    ensures AskedOk(t.groups, t.procs, t.store)
  {
    forall h, v | h in t.groups && v in t.groups[h].asked ensures Covered(v, h, t.groups[h], t.procs, t.store) {
      if v in s.groups[h].asked {
        assert Covered(v, h, s.groups[h], s.procs, s.store);
        if Started(v, s.groups[h], s.store) {
          StartedStays(v, s.groups[h], t.groups[h], s.store, t.store);
        } else if !s.groups[h].failed {
          var q :| AsksAt(s.procs, q, s.store) == Some((h, v));
          assert AsksAt(t.procs, q, t.store) == Some((h, v));
        }
      }
    }
  }

  lemma StepAsks(s: State, step: Step)
    requires Core(s) && Enabled(s, step) && !step.EnvStep?
    ensures AsksOn(s, Apply(s, step), step.p)
  {
    match step
    case CreateStep(p, act) => CreateAsks(s, p, act);
    case EstStep(p, act) => EstAsks(s, p, act);
    case TearStep(p, act) => TearAsks(s, p, act);
    case MsgStep(p, act) => MsgAsks(s, p, act);
  }

  lemma InvAskedEnv(s: State, act: EnvAct, t: State)
    requires Core(s) && AskedOk(s.groups, s.procs, s.store) && CanStart(s, act) && t == EnvApply(s, act)
    requires Stepped(s, t, s.next, |s.store.sessions|) && Grows(s.store, t.store) && GroupsKept(s.groups, t.groups)
    ensures AskedOk(t.groups, t.procs, t.store)
  {
    EnvAsks(s, act);
    OthersAsk(s, t, s.next, |s.store.sessions|);
    if act.ConnectMember? {
      AskedJoin(s, t, s.next, act.g, act.uid);
    } else {
      AskedFrame(s, t, s.next);
    }
  }

  lemma InvAsked(s: State, step: Step, i: Sid)
    requires Core(s) && AskedOk(s.groups, s.procs, s.store) && Enabled(s, step)
    requires Stepped(s, Apply(s, step), Actor(s, step), i) && Grows(s.store, Apply(s, step).store)
    requires GroupsKept(s.groups, Apply(s, step).groups)
    ensures AskedOk(Apply(s, step).groups, Apply(s, step).procs, Apply(s, step).store)
  {
    if step.EnvStep? {
      EnvIsLocal(s, step.envAct);
      InvAskedEnv(s, step.envAct, Apply(s, step));
    } else {
      StepAsks(s, step);
      OthersAsk(s, Apply(s, step), step.p, i);
      AskedFrame(s, Apply(s, step), step.p);
    }
  }

  // ---------------------------------------------------------------------------------------------
  // The whole invariant

  ghost predicate Inv(s: State) {
    && Core(s) && FlightsOk(s.flights, s.procs, s.store)
    && GroupsOk(s.groups, s.procs, s.store) && AskedOk(s.groups, s.procs, s.store)
  }

  lemma InvInit()
    ensures Inv(INITIAL)
  {
  }

  lemma InvFlights(s: State, step: Step)
    requires Core(s) && FlightsOk(s.flights, s.procs, s.store) && Enabled(s, step)
    requires Grows(s.store, Apply(s, step).store)
    ensures var t := Apply(s, step); FlightsOk(t.flights, t.procs, t.store)
  {
    var t := Apply(s, step);
    match step
    case MsgStep(p, act) =>
      MsgShape(s, p, act);
      MsgFlightsShape(s, p, act);
      MsgFlights(s, p, act, t.procs);
      FlightsFrame(t.flights, t.procs, t.procs, s.store, t.store);
    case CreateStep(p, act) => CreateFlights(s, p, act); FlightsFrame(s.flights, s.procs, t.procs, s.store, t.store);
    case EstStep(p, act) => EstFlights(s, p, act); FlightsFrame(s.flights, s.procs, t.procs, s.store, t.store);
    case TearStep(p, act) => TearFlights(s, p, act); FlightsFrame(s.flights, s.procs, t.procs, s.store, t.store);
    case EnvStep(act) => EnvFlights(s, act); FlightsFrame(s.flights, s.procs, t.procs, s.store, t.store);
  }

  lemma InvGroups(s: State, step: Step)
    requires Core(s) && GroupsOk(s.groups, s.procs, s.store) && Enabled(s, step) && Grows(s.store, Apply(s, step).store)
    ensures GroupsNext(s, Apply(s, step))
  {
    match step
    case CreateStep(p, act) => CreateGroups(s, p, act);
    case EstStep(p, act) => EstMembers(s, p, act); GroupsFrame(s, Apply(s, step));
    case TearStep(p, act) => TearGroups(s, p, act);
    case MsgStep(p, act) => MsgMembers(s, p, act); GroupsFrame(s, Apply(s, step));
    case EnvStep(act) => EnvGroups(s, act);
  }

  lemma InvLocal(s: State, step: Step) returns (i: Sid)
    requires Inv(s) && Enabled(s, step)
    ensures Stepped(s, Apply(s, step), Actor(s, step), i) && Grows(s.store, Apply(s, step).store)
  {
    if step.MsgStep? && step.msgAct.Follow? {
      FollowersGetTheirUser(s, step.p);
    }
    i := StepIsLocal(s, step);
    SteppedGrows(s, Apply(s, step), Actor(s, step), i);
  }

  lemma InvStep(s: State, step: Step)
    requires Inv(s) && Enabled(s, step)
    ensures Inv(Apply(s, step)) && Grows(s.store, Apply(s, step).store) && GroupsKept(s.groups, Apply(s, step).groups)
  {
    var i := InvLocal(s, step);
    LifecycleInvariant.Frame(s, Apply(s, step), Actor(s, step), i);
    InvFlights(s, step);
    InvGroups(s, step);
    InvAsked(s, step, i);
  }

  lemma {:induction false} InvRun(s: State, steps: seq<Step>, t: State)
    requires Inv(s) && Reaches(s, steps, t)
    ensures Inv(t)
    decreases |steps|
  {
    if steps != [] {
      InvStep(s, steps[0]);
      InvRun(Apply(s, steps[0]), steps[1..], t);
    }
  }
}
