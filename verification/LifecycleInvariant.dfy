/** The inductive invariant of the session lifecycle, kept by every step of every goroutine. */
module LifecycleInvariant {
  import opened Channels
  import opened Wire
  import opened Media
  import opened Lifecycle

  // ---------------------------------------------------------------------------------------------
  // Who is at work on a session

  /** The goroutine is the one creating or establishing session `i`. */
  predicate Owns(proc: Proc, i: Sid) {
    match proc
    case Made(j, _) => i == j
    case Won(j, _) => i == j
    case Establishing(j, _) => i == j
    case Failing(j) => i == j
    case Resetting(j, _, after) => i == j && after.EndEstablishing?
    case _ => false
  }

  /** It owns the session or runs its once-only teardown. */
  predicate Holds(proc: Proc, i: Sid) {
    Owns(proc, i) || (proc.TearingDown? && proc.sid == i)
  }

  function RoleOf(procs: map<Pid, Proc>, owner: Pid, i: Sid): Option<Proc> {
    if owner in procs && Owns(procs[owner], i) then Some(procs[owner]) else None
  }

  // ---------------------------------------------------------------------------------------------
  // Sessions

  function Rank(stage: EstStage): nat {
    match stage
    case AwaitCreds => 0 case Dialing => 1 case KeyExchanging => 2 case OpeningEvents => 3
    case SettingStream => 4 case SettingDecoder => 5 case SettingEncoder => 6
    case Announcing => 7 case Launching => 8 case ClosingReady => 9
  }

  /** Exactly the fields the first `rank` statements assign. */
  predicate LinksAt(l: Links, rank: nat) {
    && l.conn == (rank >= 2)
    && (if rank >= 3 then |l.key| == KEY_SIZE else l.key == [])
    && l.eventStream == (rank >= 5) && l.decoder == (rank >= 6) && l.encoder == (rank >= 7)
  }

  predicate ClosedUpTo(x: Session, stage: ResetStage) {
    && (!stage.ResetStream? && x.links.eventStream ==> x.closed.stream)
    && ((stage.ResetAgent? || stage.ResetDelete?) && x.links.conn ==> x.closed.conn)
    && (stage.ResetDelete? ==> x.closed.agent)
  }

  predicate Quiet(x: Session) {
    !x.handling && Connected !in x.callbacks
  }

  /** Establishment failed before the event stream, with a whole key or none. */
  predicate Unfinished(l: Links) {
    !l.eventStream && !l.decoder && !l.encoder && (l.key == [] || |l.key| == KEY_SIZE)
  }

  /** A session's fields against the statement its owner has reached; None: the owner is done with it. */
  predicate FieldsOk(x: Session, role: Option<Proc>, added: bool, removed: bool) {
    match role
    case Some(Made(_, _)) => !added && LinksAt(x.links, 0) && !x.readyChan.closed && Quiet(x)
    case Some(Won(_, _)) => added && LinksAt(x.links, 0) && !x.readyChan.closed && Quiet(x)
    case Some(Establishing(_, stage)) =>
      && added && LinksAt(x.links, Rank(stage)) && !x.readyChan.closed
      && x.handling == (Rank(stage) >= 9) && (Rank(stage) < 8 ==> Connected !in x.callbacks)
      && (Rank(stage) >= 1 ==> x.remote.Some?)
    case Some(Failing(_)) => added && !x.readyChan.closed && Quiet(x) && Unfinished(x.links)
    case Some(Resetting(_, stage, _)) =>
      added && x.readyChan.closed && Quiet(x) && Unfinished(x.links) && ClosedUpTo(x, stage)
    case Some(_) => false
    case None =>
      || (!added && LinksAt(x.links, 0) && !x.readyChan.closed && Quiet(x))
      || (added && x.readyChan.closed && x.handling && LinksAt(x.links, 9) && x.remote.Some?)
      || (added && x.readyChan.closed && Quiet(x) && Unfinished(x.links) && removed && ClosedUpTo(x, ResetDelete))
  }

  function MediaLeft(stage: TearStage): set<Medium> {
    match stage
    case TearMedia(Webcam) => {Webcam, Screen}
    case TearMedia(Screen) => {Screen}
    case TearDelete => {}
    case TearNotify => {}
    case _ => {Voice, Webcam, Screen}
  }

  /** What the teardown has closed by then. A user who leaves may do so before there is a connection to close. */
  predicate TornUpTo(x: Session, stage: TearStage, leave: bool) {
    && (!leave && !stage.TearStream? && x.links.eventStream ==> x.closed.stream)
    && (!leave && !stage.TearStream? && !stage.TearConn? && x.links.conn ==> x.closed.conn)
    && (!stage.TearStream? && !stage.TearConn? && !stage.TearAgent? ==> x.closed.agent)
  }

  /** The once-only teardown: who runs it, how far it has come, what it may have told whom. */
  predicate OnceOk(i: Sid, x: Session, procs: map<Pid, Proc>, added: bool, removed: bool) {
    match x.closing
    case Fresh => x.mediaOpen == {Voice, Webcam, Screen} && x.notified == 0 && Disconnected !in x.callbacks
    case Running(q, leave) =>
      && q in procs && procs[q].TearingDown? && procs[q].sid == i && procs[q].leave == leave && added
      && x.mediaOpen == MediaLeft(procs[q].tstage) && (procs[q].tstage.TearNotify? ==> removed)
      && x.notified == 0 && Disconnected !in x.callbacks && (!leave ==> PeerErrorPossible(x))
      && TornUpTo(x, procs[q].tstage, leave)
    case Over(leave) =>
      && added && removed && x.mediaOpen == {} && x.notified == (if leave then 1 else 0)
      && (if leave then Disconnected !in x.callbacks else PeerErrorPossible(x))
      && TornUpTo(x, TearNotify, leave)
  }

  predicate CredsOk(x: Session, messages: set<Msg>) {
    && x.credsChan.cap == 1 && !x.credsChan.closed && |x.credsChan.buf| <= 1
    && x.readyChan.cap == 1 && x.readyChan.buf == []
    && (x.credsChan.buf != [] ==> x.remote.Some?)
    && (x.remote.Some? ==> Msg(x.userId, NewCreds(x.remote.value)) in messages)
  }

  predicate CallbacksOk(cs: seq<Callback>) {
    cs == [] || cs == [Connected] || cs == [Disconnected] || cs == [Connected, Disconnected]
  }

  predicate SessionOk(i: Sid, x: Session, procs: map<Pid, Proc>, next: Pid, added: bool, removed: bool,
                      messages: set<Msg>) {
    && FieldsOk(x, RoleOf(procs, x.owner, i), added, removed)
    && OnceOk(i, x, procs, added, removed)
    && CredsOk(x, messages)
    && CallbacksOk(x.callbacks)
    && x.owner < next
  }

  // ---------------------------------------------------------------------------------------------
  // Goroutines

  function MsgOf(why: Purpose): Option<Msg> {
    match why case ForFlight(_, msg) => Some(msg) case ForReplace(msg) => Some(msg) case _ => None
  }

  predicate PurposeOk(why: Purpose, uid: Uid, messages: set<Msg>) {
    && (MsgOf(why).Some? ==> MsgOf(why).value in messages && MsgOf(why).value.sender == uid)
    && (why.ForReplace? ==> why.msg.content.NewCreds?)
  }

  predicate IsFor(st: Store, i: Sid, msg: Msg, messages: set<Msg>) {
    i < |st.sessions| && i in st.added && st.sessions[i].userId == msg.sender && msg in messages
  }

  predicate ProcOk(p: Pid, proc: Proc, st: Store, messages: set<Msg>) {
    match proc
    case Creating(uid, _, why) => PurposeOk(why, uid, messages)
    case Made(i, why) =>
      i < |st.sessions| && st.sessions[i].owner == p && PurposeOk(why, st.sessions[i].userId, messages)
    case Won(i, why) =>
      i < |st.sessions| && st.sessions[i].owner == p && PurposeOk(why, st.sessions[i].userId, messages)
    case AwaitReady(i, why) => i < |st.sessions| && i in st.added
    case Retrying(_, _) => true
    case Establishing(i, _) => i < |st.sessions| && st.sessions[i].owner == p
    case Failing(i) => i < |st.sessions| && st.sessions[i].owner == p
    case Resetting(i, _, after) =>
      && i < |st.sessions| && (after.EndEstablishing? ==> st.sessions[i].owner == p)
      && (after.ThenReplace? ==> after.msg in messages && after.msg.content.NewCreds?)
    case Disconnecting(i, leave, _) =>
      i < |st.sessions| && i in st.added && (leave || PeerErrorPossible(st.sessions[i]))
    case TearingDown(i, leave, _, _) =>
      i < |st.sessions| && i in st.added && st.sessions[i].closing == Running(p, leave)
    case Arrived(msg) => msg in messages
    case Leading(_, msg) => msg in messages
    case Publishing(_, found, msg) => msg in messages && (found.Some? ==> IsFor(st, found.value, msg, messages))
    case Following(_, msg) => msg in messages
    case Handling(i, msg) => IsFor(st, i, msg, messages)
    case Installing(i, msg) => IsFor(st, i, msg, messages) && msg.content.NewCreds?
    case Offering(i) => i < |st.sessions| && st.sessions[i].remote.Some?
  }

  // ---------------------------------------------------------------------------------------------
  // The repository

  /** At most one session per user, filed under its own id; what was added is either there or removed. */
  ghost predicate StoreOk(st: Store) {
    && (forall u :: u in st.repo ==>
          st.repo[u] < |st.sessions| && st.sessions[st.repo[u]].userId == u
          && st.repo[u] in st.added && st.repo[u] !in st.removed)
    && (forall i :: i in st.added ==>
          i < |st.sessions|
          && (i in st.removed || (st.sessions[i].userId in st.repo && st.repo[st.sessions[i].userId] == i)))
    && st.removed <= st.added
  }

  ghost predicate SessionsOk(st: Store, procs: map<Pid, Proc>, next: Pid, messages: set<Msg>) {
    forall i :: 0 <= i < |st.sessions| ==>
      SessionOk(i, st.sessions[i], procs, next, i in st.added, i in st.removed, messages)
  }

  ghost predicate ProcsOk(st: Store, procs: map<Pid, Proc>, messages: set<Msg>) {
    forall p :: p in procs ==> ProcOk(p, procs[p], st, messages)
  }

  ghost predicate PidsOk(procs: map<Pid, Proc>, next: Pid) {
    forall p :: p in procs ==> p < next
  }

  ghost predicate Core(s: State) {
    && StoreOk(s.store)
    && SessionsOk(s.store, s.procs, s.next, s.messages)
    && ProcsOk(s.store, s.procs, s.messages)
    && PidsOk(s.procs, s.next)
    && !s.panicked
  }

  // ---------------------------------------------------------------------------------------------
  // One goroutine moves, at most one session changes

  /** The fields establishment fills in are written once. */
  predicate LinksKept(l: Links, l': Links) {
    && (l.conn ==> l'.conn) && (l.key != [] ==> l'.key == l.key)
    && (l.eventStream ==> l'.eventStream) && (l.decoder ==> l'.decoder) && (l.encoder ==> l'.encoder)
  }

  predicate ClosedKept(c: Closed, c': Closed) {
    (c.stream ==> c'.stream) && (c.conn ==> c'.conn) && (c.agent ==> c'.agent)
  }

  predicate CredsKept(x: Session, x': Session) {
    x'.userId == x.userId && x'.remote == x.remote && x'.credsChan == x.credsChan && x'.readyChan == x.readyChan
    && x'.owner == x.owner
  }

  /** Nothing a session has is lost: fields, closed channels and handles, callbacks made and requests sent. */
  predicate Kept(x: Session, x': Session) {
    && x'.userId == x.userId && x'.initiator == x.initiator
    && LinksKept(x.links, x'.links) && ClosedKept(x.closed, x'.closed)
    && (x.handling ==> x'.handling) && (x.remote.Some? ==> x'.remote.Some?)
    && (x.readyChan.closed ==> x'.readyChan.closed)
    && x'.mediaOpen <= x.mediaOpen && (x.closing.Over? ==> x'.closing == x.closing)
    && x.callbacks <= x'.callbacks && x.notified <= x'.notified
  }

  predicate Evolves(p: Pid, x: Session, x': Session) {
    && Kept(x, x')
    && (x'.owner == x.owner || x.owner == p)
    && (x'.closing == x.closing || x.closing == Fresh || (x.closing.Running? && x.closing.winner == p))
  }

  ghost predicate StoreEvolves(p: Pid, i: Sid, st: Store, st': Store) {
    && |st.sessions| <= |st'.sessions| && st.added <= st'.added && st.removed <= st'.removed
    && (forall j :: 0 <= j < |st.sessions| && j != i ==> st'.sessions[j] == st.sessions[j])
    && (i < |st.sessions| ==> Evolves(p, st.sessions[i], st'.sessions[i]))
    && st'.added <= st.added + {i} && st'.removed <= st.removed + {i}
    && |st'.sessions| <= |st.sessions| + (if i == |st.sessions| then 1 else 0)
  }

  lemma OtherProcKeeps(q: Pid, proc: Proc, p: Pid, i: Sid, st: Store, st': Store, messages: set<Msg>,
                       messages': set<Msg>)
    requires ProcOk(q, proc, st, messages) && q != p
    requires StoreEvolves(p, i, st, st') && messages <= messages'
    ensures ProcOk(q, proc, st', messages')
  {
  }

  lemma OtherSessionKeeps(j: Sid, x: Session, p: Pid, procs: map<Pid, Proc>, procs': map<Pid, Proc>, next: Pid,
                          next': Pid,
                          added: bool, removed: bool, messages: set<Msg>, messages': set<Msg>)
    requires SessionOk(j, x, procs, next, added, removed, messages)
    requires forall q :: q in procs && q != p ==> q in procs' && procs'[q] == procs[q]
    requires forall q :: q in procs' && q != p && q < next ==> q in procs
    requires p in procs ==> !Holds(procs[p], j)
    requires p in procs' ==> !Holds(procs'[p], j)
    requires next <= next' && messages <= messages'
    ensures SessionOk(j, x, procs', next', added, removed, messages')
  {
  }

  ghost predicate ProcsEvolve(p: Pid, i: Sid, procs: map<Pid, Proc>, procs': map<Pid, Proc>, next: Pid, next': Pid) {
    && (forall q :: q in procs && q != p ==> q in procs' && procs'[q] == procs[q])
    && (forall q :: q in procs' && q != p && q < next ==> q in procs)
    && (p in procs ==> forall j :: Holds(procs[p], j) ==> j == i)
    && (p in procs' ==> forall j :: Holds(procs'[p], j) ==> j == i)
    && next <= next' <= next + 1 && PidsOk(procs', next')
  }

  /** Goroutine `p` goes on as `proc`, or ends; nobody else moves. */
  predicate Moved(s: State, t: State, p: Pid, proc: Option<Proc>) {
    && t.procs == (if proc.Some? then s.procs[p := proc.value] else s.procs - {p})
    && t.next == s.next && t.messages == s.messages && t.panicked == s.panicked
  }

  /** What a step of goroutine `p` on session `i` has to look at, and nothing more. */
  ghost predicate Before(s: State, p: Pid, i: Sid) {
    && StoreOk(s.store) && PidsOk(s.procs, s.next) && !s.panicked
    && (p in s.procs ==> ProcOk(p, s.procs[p], s.store, s.messages))
    && (i < |s.store.sessions| ==>
          SessionOk(i, s.store.sessions[i], s.procs, s.next, i in s.store.added, i in s.store.removed, s.messages))
  }

  /** What it has to establish. */
  ghost predicate Stepped(s: State, t: State, p: Pid, i: Sid) {
    && StoreEvolves(p, i, s.store, t.store) && ProcsEvolve(p, i, s.procs, t.procs, s.next, t.next)
    && s.messages <= t.messages && Before(t, p, i)
    && (s.next in t.procs ==> ProcOk(s.next, t.procs[s.next], t.store, t.messages))
  }

  lemma Look(s: State, p: Pid, i: Sid)
    requires Core(s)
    ensures Before(s, p, i)
  {
  }

  /** The frame of every step: only goroutine `p`, a newly started one, and session `i` need looking at. */
  lemma Frame(s: State, t: State, p: Pid, i: Sid)
    requires Core(s) && Stepped(s, t, p, i)
    ensures Core(t)
  {
    forall q | q in t.procs ensures ProcOk(q, t.procs[q], t.store, t.messages) {
      if q != p && q < s.next {
        OtherProcKeeps(q, s.procs[q], p, i, s.store, t.store, s.messages, t.messages);
      }
    }
    forall j | 0 <= j < |t.store.sessions|
      ensures SessionOk(j, t.store.sessions[j], t.procs, t.next, j in t.store.added, j in t.store.removed, t.messages)
    {
      if j != i {
        OtherSessionKeeps(j, s.store.sessions[j], p, s.procs, t.procs, s.next, t.next,
                          j in s.store.added, j in s.store.removed, s.messages, t.messages);
      }
    }
  }

  lemma StoreDelete(st: Store, i: Sid)
    requires StoreOk(st) && i < |st.sessions|
    ensures StoreOk(DeleteIfSame(st, i))
    ensures i in st.added ==> i in DeleteIfSame(st, i).removed
    ensures DeleteIfSame(st, i).added == st.added && DeleteIfSame(st, i).sessions == st.sessions
    ensures st.removed <= DeleteIfSame(st, i).removed <= st.removed + {i}
  {
  }

  predicate HoldsOnly(proc: Proc, i: Sid) {
    match proc
    case Made(j, _) => i == j
    case Won(j, _) => i == j
    case Establishing(j, _) => i == j
    case Failing(j) => i == j
    case Resetting(j, _, after) => i == j || !after.EndEstablishing?
    case TearingDown(j, _, _, _) => i == j
    case _ => true
  }

  /** The usual shape of a step: one session gets new contents, one goroutine moves on or ends. */
  lemma Settle(s: State, t: State, p: Pid, i: Sid, x: Session)
    requires Before(s, p, i) && p in s.procs && i < |s.store.sessions|
    requires HoldsOnly(s.procs[p], i)
    requires t.store == Put(s.store, i, x) && Evolves(p, s.store.sessions[i], x)
    requires Moved(s, t, p, if p in t.procs then Some(t.procs[p]) else None)
    requires p in t.procs ==> HoldsOnly(t.procs[p], i) && ProcOk(p, t.procs[p], t.store, t.messages)
    requires SessionOk(i, x, t.procs, t.next, i in s.store.added, i in s.store.removed, t.messages)
    ensures Stepped(s, t, p, i)
  {
  }

  /** The same for the step that deletes the session from the repository. */
  lemma SettleDelete(s: State, t: State, p: Pid, i: Sid)
    requires Before(s, p, i) && p in s.procs && i < |s.store.sessions|
    requires HoldsOnly(s.procs[p], i)
    requires t.store == DeleteIfSame(s.store, i)
    requires Moved(s, t, p, if p in t.procs then Some(t.procs[p]) else None)
    requires p in t.procs ==> HoldsOnly(t.procs[p], i) && ProcOk(p, t.procs[p], t.store, t.messages)
    requires SessionOk(i, s.store.sessions[i], t.procs, t.next, i in t.store.added, i in t.store.removed, t.messages)
    ensures Stepped(s, t, p, i)
  {
    StoreDelete(s.store, i);
  }

  /** The same for the step that starts the establishment goroutine. */
  lemma SettleLaunch(s: State, t: State, p: Pid, i: Sid, x: Session)
    requires Before(s, p, i) && p in s.procs && i < |s.store.sessions|
    requires HoldsOnly(s.procs[p], i)
    requires t.store == Put(s.store, i, x) && Evolves(p, s.store.sessions[i], x)
    requires t.procs.Keys == s.procs.Keys + {s.next}
    requires forall q :: q in s.procs && q != p ==> t.procs[q] == s.procs[q]
    requires t.next == s.next + 1 && t.messages == s.messages && !t.panicked
    requires HoldsOnly(t.procs[p], i) && ProcOk(p, t.procs[p], t.store, t.messages)
    requires ProcOk(s.next, t.procs[s.next], t.store, t.messages)
    requires SessionOk(i, x, t.procs, t.next, i in s.store.added, i in s.store.removed, t.messages)
    ensures Stepped(s, t, p, i)
  {
  }

  predicate Bystander(proc: Proc) {
    match proc
    case Made(_, _) => false
    case Won(_, _) => false
    case Establishing(_, _) => false
    case Failing(_) => false
    case Resetting(_, _, after) => !after.EndEstablishing?
    case TearingDown(_, _, _, _) => false
    case _ => true
  }

  /** A step of a goroutine with no say over any session, which changes no session. */
  lemma Idle(s: State, t: State, p: Pid, proc: Option<Proc>)
    requires Before(s, p, |s.store.sessions|) && p in s.procs && Bystander(s.procs[p])
    requires t.store == s.store && Moved(s, t, p, proc)
    requires proc.Some? ==> Bystander(proc.value) && ProcOk(p, proc.value, s.store, s.messages)
    ensures Stepped(s, t, p, |s.store.sessions|)
  {
  }

  // ---------------------------------------------------------------------------------------------
  // Creating

  lemma StepAllocate(s: State, p: Pid)
    requires Before(s, p, |s.store.sessions|) && CanCreate(s, p, Allocate)
    ensures Stepped(s, CreateApply(s, p, Allocate), p, |s.store.sessions|)
  {
  }

  function UnluckyProc(uid: Uid, why: Purpose): Option<Proc> {
    match why
    case ForReconnect(tries) => Some(Retrying(uid, tries))
    case ForFlight(fid, msg) => Some(Publishing(fid, None, msg))
    case _ => None
  }

  lemma UnluckyShape(s: State, p: Pid, uid: Uid, why: Purpose)
    requires p in s.procs
    ensures var t := Unlucky(s, p, uid, why);
      t.store == s.store && Moved(s, t, p, UnluckyProc(uid, why)) && t.flights == s.flights
      && (!why.ForGroup? ==> t.groups == s.groups)
  {
  }

  /** The owner gives up a session that never got into the repository. */
  lemma StepUnlucky(s: State, p: Pid, i: Sid, uid: Uid, why: Purpose)
    requires Before(s, p, i) && p in s.procs && PurposeOk(why, uid, s.messages)
    requires if s.procs[p].Made? then i == s.procs[p].sid else s.procs[p].Creating? && i == |s.store.sessions|
    ensures Stepped(s, Unlucky(s, p, uid, why), p, i)
  {
    UnluckyShape(s, p, uid, why);
    StepGivenUp(s, Unlucky(s, p, uid, why), p, i, uid, why);
  }

  lemma StepGivenUp(s: State, t: State, p: Pid, i: Sid, uid: Uid, why: Purpose)
    requires Before(s, p, i) && p in s.procs && PurposeOk(why, uid, s.messages)
    requires if s.procs[p].Made? then i == s.procs[p].sid else s.procs[p].Creating? && i == |s.store.sessions|
    requires t.store == s.store && Moved(s, t, p, UnluckyProc(uid, why))
    ensures Stepped(s, t, p, i)
  {
  }

  lemma AddShape(s: State, p: Pid, i: Sid)
    requires CanCreate(s, p, Add(false)) && i == s.procs[p].sid && s.store.sessions[i].userId !in s.store.repo
    ensures CreateApply(s, p, Add(false)).store == Added(s.store, i)
    ensures Moved(s, CreateApply(s, p, Add(false)), p, Some(Won(i, s.procs[p].why)))
  {
  }

  lemma AddedStore(st: Store, i: Sid)
    requires StoreOk(st) && i < |st.sessions| && st.sessions[i].userId !in st.repo && i !in st.added
    ensures StoreOk(Added(st, i))
  {
  }

  lemma AddedSession(i: Sid, x: Session, p: Pid, why: Purpose, procs: map<Pid, Proc>, next: Pid, removed: bool,
                     messages: set<Msg>)
    requires p in procs && procs[p] == Made(i, why) && x.owner == p
    requires SessionOk(i, x, procs, next, false, removed, messages)
    ensures SessionOk(i, x, procs[p := Won(i, why)], next, true, removed, messages)
  {
  }

  lemma StepAdd(s: State, t: State, p: Pid, i: Sid, why: Purpose)
    requires Before(s, p, i) && p in s.procs && s.procs[p] == Made(i, why) && i < |s.store.sessions|
    requires s.store.sessions[i].userId !in s.store.repo
    requires t.store == Added(s.store, i) && Moved(s, t, p, Some(Won(i, why)))
    ensures Stepped(s, t, p, i)
  {
    assert i !in s.store.added;
    AddedStore(s.store, i);
    AddedSession(i, s.store.sessions[i], p, why, s.procs, s.next, i in s.store.removed, s.messages);
  }

  lemma LaunchSession(i: Sid, x: Session, p: Pid, procs: map<Pid, Proc>, procs': map<Pid, Proc>, next: Pid,
                      added: bool, removed: bool, messages: set<Msg>)
    requires SessionOk(i, x, procs, next, added, removed, messages)
    requires p in procs && procs[p].Won? && procs[p].sid == i && x.owner == p && p < next && next !in procs
    requires next in procs' && procs'[next] == Establishing(i, AwaitCreds)
    requires forall q :: q in procs && q != p ==> q in procs' && procs'[q] == procs[q]
    ensures SessionOk(i, x.(owner := next), procs', next + 1, added, removed, messages)
    ensures Evolves(p, x, x.(owner := next))
  {
  }

  /** All that a launch does to the sessions and the goroutines. */
  lemma LaunchShape(s: State, p: Pid, i: Sid)
    requires CanCreate(s, p, Launch) && i == s.procs[p].sid
    ensures var t := CreateApply(s, p, Launch);
      && t.store == Put(s.store, i, s.store.sessions[i].(owner := s.next))
      && t.procs == s.procs[s.next := Establishing(i, AwaitCreds)][p := LuckyProc(i, s.procs[p].why)]
      && t.next == s.next + 1 && t.messages == s.messages && t.panicked == s.panicked
  {
  }

  lemma StepLaunch(s: State, t: State, p: Pid, i: Sid, why: Purpose)
    requires p in s.procs && s.procs[p] == Won(i, why) && i < |s.store.sessions| && p < s.next && Before(s, p, i)
    requires t.store == Put(s.store, i, s.store.sessions[i].(owner := s.next))
    requires t.procs == s.procs[s.next := Establishing(i, AwaitCreds)][p := LuckyProc(i, why)]
    requires t.next == s.next + 1 && t.messages == s.messages && !t.panicked
    ensures Stepped(s, t, p, i)
  {
    LaunchSession(i, s.store.sessions[i], p, s.procs, t.procs, s.next, i in s.store.added, i in s.store.removed,
                  s.messages);
    SettleLaunch(s, t, p, i, t.store.sessions[i]);
  }

  function QuietNext(s: State, p: Pid, act: CreateAct): Option<Proc>
    requires CanCreate(s, p, act) && (act.SeeReady? || act.Retry?)
  {
    var proc := s.procs[p];
    if act.Retry? then if s.closing then None else Some(Creating(proc.uid, true, ForReconnect(proc.tries + 1)))
    else if proc.why.ForGroup? || s.store.sessions[proc.sid].links.conn then None
    else Some(Retrying(s.store.sessions[proc.sid].userId, TriesOf(proc.why)))
  }

  lemma QuietShape(s: State, p: Pid, act: CreateAct)
    requires CanCreate(s, p, act) && (act.SeeReady? || act.Retry?)
    ensures CreateApply(s, p, act).store == s.store && Moved(s, CreateApply(s, p, act), p, QuietNext(s, p, act))
  {
  }

  lemma CreateIsLocal(s: State, p: Pid, act: CreateAct) returns (i: Sid)
    requires Core(s) && CanCreate(s, p, act)
    ensures Stepped(s, CreateApply(s, p, act), p, i)
  {
    i := |s.store.sessions|;
    if act.Add? || act.Launch? || s.procs[p].Made? {
      i := s.procs[p].sid;
    }
    Look(s, p, i);
    match act
    case Allocate => StepAllocate(s, p);
    case GiveUp => StepUnlucky(s, p, i, UidOf(s, s.procs[p]), s.procs[p].why);
    case Add(timedOut) =>
      if timedOut || s.store.sessions[i].userId in s.store.repo {
        StepUnlucky(s, p, i, s.store.sessions[i].userId, s.procs[p].why);
      } else {
        AddShape(s, p, i);
        StepAdd(s, CreateApply(s, p, act), p, i, s.procs[p].why);
      }
    case Launch =>
      LaunchShape(s, p, i);
      StepLaunch(s, CreateApply(s, p, act), p, i, s.procs[p].why);
    case _ =>
      QuietShape(s, p, act);
      Idle(s, CreateApply(s, p, act), p, QuietNext(s, p, act));
  }

  // ---------------------------------------------------------------------------------------------
  // Establishing

  /** The fields after one more statement are those of the next stage, or of an owner that is done. */
  lemma EstablishedFields(x: Session, i: Sid, stage: EstStage, key: bytes, handler: bool, removed: bool)
    requires FieldsOk(x, Some(Establishing(i, stage)), true, removed) && x.readyChan.cap == 1
    requires stage.AwaitCreds? ==> x.credsChan.CanRecv() && x.remote.Some?
    requires stage.KeyExchanging? ==> |key| == KEY_SIZE
    ensures var x' := Established(x, stage, key, handler);
      FieldsOk(x', if stage.ClosingReady? then None else Some(Establishing(i, NextStage(stage))), true, removed)
  {
  }

  /** What the rest of the invariant says about the session survives the statement. */
  lemma EstablishedRest(x: Session, i: Sid, stage: EstStage, key: bytes, handler: bool, procs: map<Pid, Proc>,
                        procs': map<Pid, Proc>, p: Pid, removed: bool, messages: set<Msg>)
    requires FieldsOk(x, Some(Establishing(i, stage)), true, removed)
    requires OnceOk(i, x, procs, true, removed) && CredsOk(x, messages) && CallbacksOk(x.callbacks)
    requires stage.AwaitCreds? ==> x.credsChan.CanRecv()
    requires p in procs && !procs[p].TearingDown?
    requires forall q :: q in procs && q != p ==> q in procs' && procs'[q] == procs[q]
    ensures var x' := Established(x, stage, key, handler);
      && OnceOk(i, x', procs', true, removed) && CredsOk(x', messages) && Evolves(p, x, x') && CallbacksOk(x'.callbacks)
  {
  }

  lemma AdvanceShape(s: State, p: Pid, i: Sid, key: bytes, handler: bool)
    requires CanEstablish(s, p, Advance(key, handler)) && i == s.procs[p].sid
    requires !(s.procs[p].stage.ClosingReady? && s.store.sessions[i].readyChan.closed)
    ensures var t, stage := EstApply(s, p, Advance(key, handler)), s.procs[p].stage;
      && t.store == Put(s.store, i, Established(s.store.sessions[i], stage, key, handler))
      && Moved(s, t, p, if stage.ClosingReady? then None else Some(Establishing(i, NextStage(stage))))
  {
  }

  lemma AdvancedSession(i: Sid, x: Session, p: Pid, procs: map<Pid, Proc>, procs': map<Pid, Proc>, next: Pid,
                        stage: EstStage,
                        key: bytes, handler: bool, added: bool, removed: bool, messages: set<Msg>)
    requires SessionOk(i, x, procs, next, added, removed, messages)
    requires p in procs && procs[p] == Establishing(i, stage) && x.owner == p
    requires stage.AwaitCreds? ==> x.credsChan.CanRecv()
    requires stage.KeyExchanging? ==> |key| == KEY_SIZE
    requires procs' == if stage.ClosingReady? then procs - {p} else procs[p := Establishing(i, NextStage(stage))]
    ensures SessionOk(i, Established(x, stage, key, handler), procs', next, added, removed, messages)
    ensures Evolves(p, x, Established(x, stage, key, handler))
    ensures !x.readyChan.closed
  {
    EstablishedFields(x, i, stage, key, handler, removed);
    EstablishedRest(x, i, stage, key, handler, procs, procs', p, removed, messages);
  }

  lemma StepAdvance(s: State, t: State, p: Pid, i: Sid, stage: EstStage, key: bytes, handler: bool)
    requires Before(s, p, i) && p in s.procs && s.procs[p] == Establishing(i, stage) && i < |s.store.sessions|
    requires stage.AwaitCreds? ==> s.store.sessions[i].credsChan.CanRecv()
    requires stage.KeyExchanging? ==> |key| == KEY_SIZE
    requires t.store == Put(s.store, i, Established(s.store.sessions[i], stage, key, handler))
    requires Moved(s, t, p, if stage.ClosingReady? then None else Some(Establishing(i, NextStage(stage))))
    ensures Stepped(s, t, p, i)
  {
    AdvancedSession(i, s.store.sessions[i], p, s.procs, t.procs, s.next, stage, key, handler,
                    i in s.store.added, i in s.store.removed, s.messages);
    Settle(s, t, p, i, Established(s.store.sessions[i], stage, key, handler));
  }

  lemma StepFail(s: State, p: Pid, i: Sid)
    requires CanEstablish(s, p, Fail) && i == s.procs[p].sid && Before(s, p, i)
    ensures Stepped(s, EstApply(s, p, Fail), p, i)
  {
    assert Put(s.store, i, s.store.sessions[i]) == s.store;
    Settle(s, EstApply(s, p, Fail), p, i, s.store.sessions[i]);
  }

  lemma FailedSession(i: Sid, x: Session, p: Pid, procs: map<Pid, Proc>, next: Pid, added: bool, removed: bool,
                      messages: set<Msg>)
    requires p in procs && procs[p] == Failing(i) && x.owner == p
    requires SessionOk(i, x, procs, next, added, removed, messages)
    ensures !x.readyChan.closed
    ensures var x' := x.(readyChan := x.readyChan.(closed := true));
      Evolves(p, x, x')
      && SessionOk(i, x', procs[p := Resetting(i, ResetStream, EndEstablishing)], next, added, removed, messages)
  {
  }

  lemma StepCloseOnError(s: State, p: Pid, i: Sid)
    requires CanEstablish(s, p, CloseOnError) && i == s.procs[p].sid && Before(s, p, i)
    ensures Stepped(s, EstApply(s, p, CloseOnError), p, i)
  {
    var x := s.store.sessions[i];
    FailedSession(i, x, p, s.procs, s.next, i in s.store.added, i in s.store.removed, s.messages);
    Settle(s, EstApply(s, p, CloseOnError), p, i, x.(readyChan := x.readyChan.(closed := true)));
  }

  lemma EstIsLocal(s: State, p: Pid, act: EstAct) returns (i: Sid)
    requires Core(s) && CanEstablish(s, p, act)
    ensures Stepped(s, EstApply(s, p, act), p, i)
  {
    i := s.procs[p].sid;
    Look(s, p, i);
    match act {
      case Advance(key, handler) =>
        AdvanceShape(s, p, i, key, handler);
        StepAdvance(s, EstApply(s, p, act), p, i, s.procs[p].stage, key, handler);
      case Fail => StepFail(s, p, i);
      case CloseOnError => StepCloseOnError(s, p, i);
    }
  }

  // ---------------------------------------------------------------------------------------------
  // Tearing down

  lemma ResetEvolves(x: Session, p: Pid, stage: ResetStage)
    ensures Evolves(p, x, ResetClosed(x, stage)) && CredsKept(x, ResetClosed(x, stage))
  {
  }

  lemma ResetFields(x: Session, role: Option<Proc>, role': Option<Proc>, i: Sid, stage: ResetStage, after: After,
                    added: bool, removed: bool)
    requires FieldsOk(x, role, added, removed) && !stage.ResetDelete?
    requires role' == role || role == Some(Resetting(i, stage, after))
    requires role' == role || role' == Some(Resetting(i, NextReset(stage), after))
    ensures FieldsOk(ResetClosed(x, stage), role', added, removed)
  {
  }

  lemma ResetOnce(i: Sid, x: Session, p: Pid, procs: map<Pid, Proc>, stage: ResetStage, after: After, added: bool,
                  removed: bool)
    requires OnceOk(i, x, procs, added, removed) && p in procs && procs[p] == Resetting(i, stage, after)
    ensures OnceOk(i, ResetClosed(x, stage), procs[p := Resetting(i, NextReset(stage), after)], added, removed)
  {
  }

  lemma ResetSession(i: Sid, x: Session, p: Pid, procs: map<Pid, Proc>, stage: ResetStage, after: After, next: Pid,
                     added: bool, removed: bool, messages: set<Msg>)
    requires SessionOk(i, x, procs, next, added, removed, messages)
    requires p in procs && procs[p] == Resetting(i, stage, after) && !stage.ResetDelete?
    ensures SessionOk(i, ResetClosed(x, stage), procs[p := Resetting(i, NextReset(stage), after)], next, added,
                      removed, messages)
    ensures Evolves(p, x, ResetClosed(x, stage))
  {
    var procs' := procs[p := Resetting(i, NextReset(stage), after)];
    ResetEvolves(x, p, stage);
    ResetFields(x, RoleOf(procs, x.owner, i), RoleOf(procs', x.owner, i), i, stage, after, added, removed);
    ResetOnce(i, x, p, procs, stage, after, added, removed);
  }

  lemma StepResetClose(s: State, p: Pid, i: Sid)
    requires CanTear(s, p, StepReset) && !s.procs[p].rstage.ResetDelete? && i == s.procs[p].sid && Before(s, p, i)
    ensures Stepped(s, ResetApply(s, p), p, i)
  {
    var stage, after, t := s.procs[p].rstage, s.procs[p].after, ResetApply(s, p);
    ResetSession(i, s.store.sessions[i], p, s.procs, stage, after, s.next, i in s.store.added, i in s.store.removed,
                 s.messages);
    Settle(s, t, p, i, ResetClosed(s.store.sessions[i], stage));
  }

  lemma ResetDeleted(i: Sid, x: Session, p: Pid, procs: map<Pid, Proc>, procs': map<Pid, Proc>, next: Pid,
                     added: bool, removed: bool, removed': bool, messages: set<Msg>)
    requires SessionOk(i, x, procs, next, added, removed, messages)
    requires p in procs && procs[p].Resetting? && procs[p].sid == i && procs[p].rstage.ResetDelete?
    requires procs' == procs - {p} || (p in procs' && !Holds(procs'[p], i) && procs' == procs[p := procs'[p]])
    requires (removed ==> removed') && (added ==> removed')
    ensures SessionOk(i, x, procs', next, added, removed', messages)
  {
  }

  function AfterReset(uid: Uid, initiator: bool, after: After): Option<Proc> {
    match after
    case EndEstablishing => None
    case EndIce => if initiator then Some(Retrying(uid, 0)) else None
    case ThenReplace(msg) => Some(Creating(msg.sender, false, ForReplace(msg)))
  }

  lemma ResetShape(s: State, p: Pid, i: Sid)
    requires CanTear(s, p, StepReset) && i == s.procs[p].sid && s.procs[p].rstage.ResetDelete?
    ensures ResetApply(s, p).store == DeleteIfSame(s.store, i)
    ensures Moved(s, ResetApply(s, p), p, AfterReset(s.store.sessions[i].userId, s.store.sessions[i].initiator,
                                                     s.procs[p].after))
  {
  }

  lemma StepResetDelete(s: State, t: State, p: Pid, i: Sid, after: After)
    requires Before(s, p, i) && p in s.procs && s.procs[p] == Resetting(i, ResetDelete, after) && i < |s.store.sessions|
    requires t.store == DeleteIfSame(s.store, i)
    requires Moved(s, t, p, AfterReset(s.store.sessions[i].userId, s.store.sessions[i].initiator, after))
    ensures Stepped(s, t, p, i)
  {
    StoreDelete(s.store, i);
    ResetDeleted(i, s.store.sessions[i], p, s.procs, t.procs, s.next, i in s.store.added,
                 i in s.store.removed, i in t.store.removed, s.messages);
    SettleDelete(s, t, p, i);
  }

  lemma EnteredSession(i: Sid, x: Session, p: Pid, procs: map<Pid, Proc>, procs': map<Pid, Proc>, leave: bool,
                       group: Option<Gid>,
                       next: Pid, added: bool, removed: bool, messages: set<Msg>)
    requires SessionOk(i, x, procs, next, added, removed, messages)
    requires p in procs && procs[p] == Disconnecting(i, leave, group) && added && (leave || PeerErrorPossible(x))
    requires if x.closing.Over? then procs' == procs - {p}
             else x.closing.Fresh? && procs' == procs[p := TearingDown(i, leave, TearStream, group)]
    ensures var x' := if x.closing.Over? then x else x.(closing := Running(p, leave));
      SessionOk(i, x', procs', next, added, removed, messages) && Evolves(p, x, x')
  {
  }

  lemma EnterShape(s: State, p: Pid, i: Sid)
    requires CanTear(s, p, EnterOnce) && i == s.procs[p].sid
    ensures var t, proc, x := TearApply(s, p, EnterOnce), s.procs[p], s.store.sessions[i];
      && t.store == Put(s.store, i, if x.closing.Over? then x else x.(closing := Running(p, proc.leave)))
      && Moved(s, t, p, if x.closing.Over? then None else Some(TearingDown(i, proc.leave, TearStream, proc.group)))
  {
    assert Put(s.store, i, s.store.sessions[i]) == s.store;
  }

  lemma StepEnterOnce(s: State, t: State, p: Pid, i: Sid, leave: bool, group: Option<Gid>)
    requires Before(s, p, i) && p in s.procs && s.procs[p] == Disconnecting(i, leave, group)
    requires i < |s.store.sessions| && !s.store.sessions[i].closing.Running?
    requires var x := s.store.sessions[i];
      && t.store == Put(s.store, i, if x.closing.Over? then x else x.(closing := Running(p, leave)))
      && Moved(s, t, p, if x.closing.Over? then None else Some(TearingDown(i, leave, TearStream, group)))
    ensures Stepped(s, t, p, i)
  {
    EnteredSession(i, s.store.sessions[i], p, s.procs, t.procs, leave, group, s.next,
                   i in s.store.added, i in s.store.removed, s.messages);
    Settle(s, t, p, i, t.store.sessions[i]);
  }

  lemma TornFields(x: Session, role: Option<Proc>, stage: TearStage, leave: bool, handler: bool, removed: bool,
                   removed': bool)
    requires FieldsOk(x, role, true, removed) && (removed ==> removed')
    ensures FieldsOk(Torn(x, stage, leave, handler), role, true, removed')
  {
  }

  /** The media channel about to be closed is still open. */
  lemma MediaIsOpen(s: State, p: Pid, i: Sid)
    requires Before(s, p, i) && p in s.procs && s.procs[p].TearingDown? && s.procs[p].sid == i && i < |s.store.sessions|
    ensures s.procs[p].tstage.TearMedia? ==> s.procs[p].tstage.m in s.store.sessions[i].mediaOpen
  {
  }

  lemma TornRest(i: Sid, x: Session, p: Pid, proc: Proc, handler: bool, procs: map<Pid, Proc>, procs': map<Pid, Proc>,
                 removed: bool, removed': bool)
    requires OnceOk(i, x, procs, true, removed) && CallbacksOk(x.callbacks)
    requires p in procs && procs[p] == proc && proc.TearingDown? && proc.sid == i && x.closing == Running(p, proc.leave)
    requires !proc.tstage.TearNotify? ==>
      p in procs' && procs'[p] == TearingDown(i, proc.leave, NextTear(proc.tstage), proc.group)
    requires (removed ==> removed') && (proc.tstage.TearDelete? ==> removed')
    ensures var x' := Torn(x, proc.tstage, proc.leave, handler);
      OnceOk(i, x', procs', true, removed') && CallbacksOk(x'.callbacks)
  {
  }

  lemma TornEvolves(x: Session, p: Pid, stage: TearStage, leave: bool, handler: bool)
    requires x.closing == Running(p, leave)
    ensures Evolves(p, x, Torn(x, stage, leave, handler)) && CredsKept(x, Torn(x, stage, leave, handler))
  {
  }

  lemma TornSession(i: Sid, x: Session, p: Pid, proc: Proc, handler: bool, procs: map<Pid, Proc>,
                    procs': map<Pid, Proc>,
                    next: Pid, removed: bool, removed': bool, messages: set<Msg>)
    requires SessionOk(i, x, procs, next, true, removed, messages)
    requires p in procs && procs[p] == proc && proc.TearingDown? && proc.sid == i && x.closing == Running(p, proc.leave)
    requires procs' == if proc.tstage.TearNotify? then procs - {p}
                       else procs[p := TearingDown(i, proc.leave, NextTear(proc.tstage), proc.group)]
    requires (removed ==> removed') && (proc.tstage.TearDelete? ==> removed')
    ensures var x' := Torn(x, proc.tstage, proc.leave, handler);
      SessionOk(i, x', procs', next, true, removed', messages) && Evolves(p, x, x')
  {
    TornRest(i, x, p, proc, handler, procs, procs', removed, removed');
    TornEvolves(x, p, proc.tstage, proc.leave, handler);
    TornFields(x, RoleOf(procs, x.owner, i), proc.tstage, proc.leave, handler, removed, removed');
    assert RoleOf(procs', x.owner, i) == RoleOf(procs, x.owner, i);
  }

  /** All that a statement inside Closing.Do does to the sessions and the goroutines. */
  lemma TearShape(s: State, p: Pid, i: Sid, handler: bool)
    requires CanTear(s, p, StepTear(handler)) && i == s.procs[p].sid
    requires var proc := s.procs[p]; proc.tstage.TearMedia? ==> proc.tstage.m in s.store.sessions[i].mediaOpen
    ensures var t, proc := TearApply(s, p, StepTear(handler)), s.procs[p];
      && t.store == TornStore(s.store, i, proc, handler)
      && Moved(s, t, p, if proc.tstage.TearNotify? then None
                        else Some(TearingDown(i, proc.leave, NextTear(proc.tstage), proc.group)))
  {
    var proc := s.procs[p];
    if proc.tstage.TearNotify? {
      LeaveMoves(s.(store := TornStore(s.store, i, proc, handler)), p, proc.group);
    }
  }

  lemma LeaveMoves(s: State, p: Pid, group: Option<Gid>)
    ensures LeaveIfMember(s, p, group).store == s.store && Moved(s, LeaveIfMember(s, p, group), p, None)
  {
  }

  lemma StepStepTear(s: State, t: State, p: Pid, i: Sid, proc: Proc, handler: bool)
    requires Before(s, p, i) && p in s.procs && s.procs[p] == proc && proc.TearingDown? && proc.sid == i
    requires i < |s.store.sessions|
    requires t.store == TornStore(s.store, i, proc, handler)
    requires Moved(s, t, p, if proc.tstage.TearNotify? then None
                            else Some(TearingDown(i, proc.leave, NextTear(proc.tstage), proc.group)))
    ensures Stepped(s, t, p, i)
  {
    var x := s.store.sessions[i];
    var removed' := i in s.store.removed || proc.tstage.TearDelete?;
    StoreDelete(s.store, i);
    TornSession(i, x, p, proc, handler, s.procs, t.procs, s.next, i in s.store.removed, removed', s.messages);
    if proc.tstage.TearDelete? {
      SettleDelete(s, t, p, i);
    } else {
      Settle(s, t, p, i, Torn(x, proc.tstage, proc.leave, handler));
    }
  }

  lemma TearIsLocal(s: State, p: Pid, act: TearAct) returns (i: Sid)
    requires Core(s) && CanTear(s, p, act)
    ensures Stepped(s, TearApply(s, p, act), p, i)
  {
    i := s.procs[p].sid;
    Look(s, p, i);
    match act {
      case StepReset =>
        if s.procs[p].rstage.ResetDelete? {
          ResetShape(s, p, i);
          StepResetDelete(s, ResetApply(s, p), p, i, s.procs[p].after);
        } else {
          StepResetClose(s, p, i);
        }
      case EnterOnce =>
        EnterShape(s, p, i);
        StepEnterOnce(s, TearApply(s, p, act), p, i, s.procs[p].leave, s.procs[p].group);
      case StepTear(handler) =>
        MediaIsOpen(s, p, i);
        TearShape(s, p, i, handler);
        StepStepTear(s, TearApply(s, p, act), p, i, s.procs[p], handler);
    }
  }

  // ---------------------------------------------------------------------------------------------
  // Signalling messages

  /** Where a message handler goes when it changes no session. */
  function MsgNext(s: State, p: Pid, act: MsgAct): Option<Proc>
    requires CanHandle(s, p, act)
  {
    var proc := s.procs[p];
    match act
    case Join =>
      var u := proc.msg.sender;
      if u in s.flights.current then Some(Following(s.flights.current[u], proc.msg))
      else Some(Leading(|s.flights.all|, proc.msg))
    case LookUp(failed) =>
      var u := proc.msg.sender;
      if failed then Some(Publishing(proc.fid, None, proc.msg))
      else if u in s.store.repo then Some(Publishing(proc.fid, Some(s.store.repo[u]), proc.msg))
      else Some(Creating(u, false, ForFlight(proc.fid, proc.msg)))
    case Publish => if proc.found.Some? then Some(Handling(proc.found.value, proc.msg)) else None
    case Follow =>
      var r := s.flights.all[proc.fid].result.value;
      if r.Some? then Some(Handling(r.value, proc.msg)) else None
    case Handle =>
      if proc.msg.content.NewCandidate? then None
      else if s.store.sessions[proc.sid].links.conn then Some(Resetting(proc.sid, ResetStream, ThenReplace(proc.msg)))
      else Some(Installing(proc.sid, proc.msg))
    case Install(ok) => if ok then Some(Offering(proc.sid)) else None
    case Offer => None
  }

  /** Everything a message handler's step does to the sessions and the goroutines. */
  lemma MsgShape(s: State, p: Pid, act: MsgAct)
    requires CanHandle(s, p, act)
    ensures Moved(s, MsgApply(s, p, act), p, MsgNext(s, p, act))
    ensures (act.Install? && act.ok) || act.Offer? || MsgApply(s, p, act).store == s.store
  {
  }

  /** What a follower is told is about the user it asked for. */
  predicate FollowOk(s: State, p: Pid, act: MsgAct) {
    CanHandle(s, p, act) && act.Follow? && s.flights.all[s.procs[p].fid].result.value.Some? ==>
      IsFor(s.store, s.flights.all[s.procs[p].fid].result.value.value, s.procs[p].msg, s.messages)
  }

  /** The next statement has what it needs. */
  lemma MsgNextOk(s: State, p: Pid, act: MsgAct)
    requires Before(s, p, |s.store.sessions|) && CanHandle(s, p, act) && !act.Install?
    requires FollowOk(s, p, act)
    ensures var next := MsgNext(s, p, act);
      next.Some? ==> Bystander(next.value) && ProcOk(p, next.value, s.store, s.messages)
  {
  }

  lemma InstalledSession(i: Sid, x: Session, x': Session, p: Pid, procs: map<Pid, Proc>, procs': map<Pid, Proc>,
                         next: Pid,
                         added: bool, removed: bool, messages: set<Msg>)
    requires SessionOk(i, x, procs, next, added, removed, messages)
    requires p in procs && Bystander(procs[p])
    requires procs' == procs - {p} || (p in procs' && Bystander(procs'[p]) && procs' == procs[p := procs'[p]])
    requires x' == x.(remote := x'.remote, credsChan := x'.credsChan) && CredsOk(x', messages)
    requires x.remote.Some? ==> x'.remote.Some?
    ensures SessionOk(i, x', procs', next, added, removed, messages) && Evolves(p, x, x')
  {
  }

  lemma StepInstall(s: State, t: State, p: Pid, i: Sid, creds: Credentials)
    requires Before(s, p, i) && p in s.procs && i < |s.store.sessions|
    requires s.procs[p] == Installing(i, Msg(s.store.sessions[i].userId, NewCreds(creds)))
    requires t.store == Put(s.store, i, s.store.sessions[i].(remote := Some(creds)))
    requires Moved(s, t, p, Some(Offering(i)))
    ensures Stepped(s, t, p, i)
  {
    var x := s.store.sessions[i];
    InstalledSession(i, x, x.(remote := Some(creds)), p, s.procs, t.procs, s.next, i in s.store.added,
                     i in s.store.removed, s.messages);
    Settle(s, t, p, i, x.(remote := Some(creds)));
  }

  lemma StepOffer(s: State, t: State, p: Pid, i: Sid)
    requires Before(s, p, i) && p in s.procs && s.procs[p] == Offering(i) && i < |s.store.sessions|
    requires var x := s.store.sessions[i];
      t.store == Put(s.store, i, if x.credsChan.CanSend() then x.(credsChan := x.credsChan.Send(())) else x)
    requires Moved(s, t, p, None)
    ensures Stepped(s, t, p, i)
  {
    InstalledSession(i, s.store.sessions[i], t.store.sessions[i], p, s.procs, t.procs, s.next,
                     i in s.store.added, i in s.store.removed, s.messages);
    Settle(s, t, p, i, t.store.sessions[i]);
  }

  lemma MsgIsLocal(s: State, p: Pid, act: MsgAct) returns (i: Sid)
    requires Core(s) && CanHandle(s, p, act) && FollowOk(s, p, act)
    ensures Stepped(s, MsgApply(s, p, act), p, i)
  {
    i := if act.Install? || act.Offer? then s.procs[p].sid else |s.store.sessions|;
    MsgShape(s, p, act);
    if act.Install? && act.ok {
      Look(s, p, i);
      StepInstall(s, MsgApply(s, p, act), p, i, s.procs[p].msg.content.creds);
    } else if act.Offer? {
      Look(s, p, i);
      OfferShape(s, p, i);
      StepOffer(s, MsgApply(s, p, act), p, i);
    } else {
      i := |s.store.sessions|;
      Look(s, p, i);
      if !act.Install? {
        MsgNextOk(s, p, act);
      }
      Idle(s, MsgApply(s, p, act), p, MsgNext(s, p, act));
    }
  }

  lemma OfferShape(s: State, p: Pid, i: Sid)
    requires CanHandle(s, p, Offer) && i == s.procs[p].sid
    ensures var x := s.store.sessions[i];
      MsgApply(s, p, Offer).store == Put(s.store, i,
                                         if x.credsChan.CanSend() then x.(credsChan := x.credsChan.Send(())) else x)
  {
    assert Put(s.store, i, s.store.sessions[i]) == s.store;
  }

  // ---------------------------------------------------------------------------------------------
  // What the environment starts

  /** The goroutine an outside event starts. */
  function EnvProc(s: State, act: EnvAct): Option<Proc> {
    match act
    case IceFails(i) => Some(Resetting(i, ResetStream, EndIce))
    case CallDisconnect(i, leave) => Some(Disconnecting(i, leave, None))
    case Deliver(msg) => Some(Arrived(msg))
    case ConnectMember(g, uid) => Some(Creating(uid, true, ForGroup(g)))
    case DisconnectMember(g, i) => Some(Disconnecting(i, true, Some(g)))
    case _ => None
  }

  lemma EnvShape(s: State, act: EnvAct)
    requires CanStart(s, act)
    ensures var t, proc := EnvApply(s, act), EnvProc(s, act);
      && t.store == s.store && t.panicked == s.panicked
      && t.messages == (if act.Deliver? then s.messages + {act.msg} else s.messages)
      && t.procs == (if proc.Some? then s.procs[s.next := proc.value] else s.procs)
      && t.next == (if proc.Some? then s.next + 1 else s.next)
  {
  }

  lemma EnvProcOk(s: State, act: EnvAct, messages': set<Msg>)
    requires CanStart(s, act) && EnvProc(s, act).Some?
    requires messages' == if act.Deliver? then s.messages + {act.msg} else s.messages
    ensures Bystander(EnvProc(s, act).value) && ProcOk(s.next, EnvProc(s, act).value, s.store, messages')
  {
  }

  lemma EnvIsLocal(s: State, act: EnvAct)
    requires Core(s) && CanStart(s, act)
    ensures Stepped(s, EnvApply(s, act), s.next, |s.store.sessions|)
  {
    EnvShape(s, act);
    if EnvProc(s, act).Some? {
      EnvProcOk(s, act, EnvApply(s, act).messages);
    }
    Look(s, s.next, |s.store.sessions|);
  }

  // ---------------------------------------------------------------------------------------------

  /** The goroutine that takes the step, or the one it starts. */
  function Actor(s: State, step: Step): Pid {
    if step.EnvStep? then s.next else step.p
  }

  /** Every step touches one goroutine, perhaps a new one, and at most one session. */
  lemma StepIsLocal(s: State, step: Step) returns (i: Sid)
    requires Core(s) && Enabled(s, step) && (step.MsgStep? ==> FollowOk(s, step.p, step.msgAct))
    ensures Stepped(s, Lifecycle.Apply(s, step), Actor(s, step), i)
  {
    match step
    case CreateStep(q, act) => i := CreateIsLocal(s, q, act);
    case EstStep(q, act) => i := EstIsLocal(s, q, act);
    case TearStep(q, act) => i := TearIsLocal(s, q, act);
    case MsgStep(q, act) => i := MsgIsLocal(s, q, act);
    case EnvStep(act) => i := |s.store.sessions|; EnvIsLocal(s, act);
  }
}
