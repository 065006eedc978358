/**
 * The life of peer sessions (internal/domain/services/networking) as a transition system: any number of
 * goroutines that create, establish, reset, disconnect, reconnect and handle signalling messages.
 */
module Lifecycle {
  import opened Channels
  import opened Wire
  import opened Media

  type Uid = nat    // user ids
  type Sid = nat    // identity of a session object, in order of creation
  type Pid = nat    // goroutines, never reused
  type Fid = nat    // singleflight calls
  type Gid = nat    // runs of Connect, ConnectById or Disconnect

  type Credentials = (bytes, bytes)

  /** NewCandidate stands for a candidate and for every payload that is neither: no session changes its state on it. */
  datatype Content = NewCreds(creds: Credentials) | NewCandidate
  datatype Msg = Msg(sender: Uid, content: Content)

  datatype Callback = Connected | Disconnected

  /** sync.Once, remembering who runs it and with which flag. */
  datatype Once = Fresh | Running(winner: Pid, leave: bool) | Over(leave: bool)

  /** What establishment fills in, each field once. */
  datatype Links = Links(conn: bool, key: bytes, eventStream: bool, decoder: bool, encoder: bool)

  /** What teardowns have closed so far. */
  datatype Closed = Closed(stream: bool, conn: bool, agent: bool)

  datatype Session = Session(
    userId: Uid, initiator: bool,
    remote: Option<Credentials>,    // remote credentials of its agent
    credsChan: Chan<()>,
    readyChan: Chan<()>,
    links: Links,
    handling: bool,                 // handleConnection was started
    closing: Once,
    mediaOpen: set<Medium>,         // media channels not yet closed
    closed: Closed,
    callbacks: seq<Callback>,       // calls of the user's connection handlers for this session
    notified: nat,                  // DeleteFromSession requests sent for this session
    owner: Pid)                     // who creates or establishes it

  const NO_LINKS := Links(false, [], false, false, false)

  function NewSession(uid: Uid, initiator: bool, owner: Pid): Session {
    Session(uid, initiator, None, Make(1), Make(1), NO_LINKS, false, Fresh, {Voice, Webcam, Screen},
            Closed(false, false, false), [], 0, owner)
  }

  // ---------------------------------------------------------------------------------------------

  /** What a run of createAndEstablish is for: where its result goes. */
  datatype Purpose =
    | ForGroup(gid: Gid)                 // Connect or ConnectById
    | ForReconnect(tries: nat)           // the loop started by a failed ICE connection, and its how manieth turn
    | ForFlight(fid: Fid, msg: Msg)      // getSession inside the singleflight
    | ForReplace(msg: Msg)               // credentials for an already connected session

  datatype EstStage =
    | AwaitCreds | Dialing | KeyExchanging | OpeningEvents | SettingStream | SettingDecoder | SettingEncoder
    | Announcing | Launching | ClosingReady

  datatype ResetStage = ResetStream | ResetConn | ResetAgent | ResetDelete

  datatype After = EndEstablishing | EndIce | ThenReplace(msg: Msg)

  datatype TearStage = TearStream | TearConn | TearAgent | TearMedia(m: Medium) | TearDelete | TearNotify

  datatype Proc =
    // createSession and createAndEstablish
    | Creating(uid: Uid, initiator: bool, why: Purpose)
    | Made(sid: Sid, why: Purpose)              // the object exists, before sessionRepo.Add
    | Won(sid: Sid, why: Purpose)               // added, before the establishment goroutine is started
    | AwaitReady(sid: Sid, why: Purpose)        // at <-ReadyChan
    | Retrying(uid: Uid, tries: nat)            // the reconnect loop after that many turns
    // the establishment goroutine
    | Establishing(sid: Sid, stage: EstStage)
    | Failing(sid: Sid)                         // establishConnection returned an error
    // teardown
    | Resetting(sid: Sid, rstage: ResetStage, after: After)
    | Disconnecting(sid: Sid, leave: bool, group: Option<Gid>)                        // at Closing.Do
    | TearingDown(sid: Sid, leave: bool, tstage: TearStage, group: Option<Gid>)       // inside it
    // a signalling message
    | Arrived(msg: Msg)
    | Leading(fid: Fid, msg: Msg)
    | Publishing(fid: Fid, found: Option<Sid>, msg: Msg)
    | Following(fid: Fid, msg: Msg)
    | Handling(sid: Sid, msg: Msg)
    | Installing(sid: Sid, msg: Msg)
    | Offering(sid: Sid)

  datatype Store = Store(sessions: seq<Session>, repo: map<Uid, Sid>,
                         added: set<Sid>, removed: set<Sid>)   // histories of the repository

  datatype Flight = Flight(uid: Uid, leader: Pid, result: Option<Option<Sid>>)
  datatype Flights = Flights(current: map<Uid, Fid>, all: seq<Flight>)

  /** A wait group: its unfinished members, and for each session it is about the member in charge. */
  datatype Group = Group(connecting: bool, live: set<Pid>, targets: map<Sid, Pid>, failed: bool, returned: bool,
                         asked: set<Uid>)   // history: the users whose members Connect has started

  datatype State = State(store: Store, procs: map<Pid, Proc>, next: Pid, flights: Flights,
                         groups: map<Gid, Group>, messages: set<Msg>, closing: bool, panicked: bool)

  const INITIAL := State(Store([], map[], {}, {}), map[], 0, Flights(map[], []), map[], {}, false, false)

  // ---------------------------------------------------------------------------------------------
  // Small updates

  function Put(st: Store, i: Sid, x: Session): Store
    requires i < |st.sessions|
  {
    st.(sessions := st.sessions[i := x])
  }

  /** LoadOrStore under the session's own user id, when that id is free. */
  function Added(st: Store, i: Sid): Store
    requires i < |st.sessions|
  {
    st.(repo := st.repo[st.sessions[i].userId := i], added := st.added + {i})
  }

  /** CompareAndDelete under the session's own user id. */
  function DeleteIfSame(st: Store, i: Sid): Store
    requires i < |st.sessions|
  {
    var u := st.sessions[i].userId;
    if u in st.repo && st.repo[u] == i then st.(repo := st.repo - {u}, removed := st.removed + {i}) else st
  }

  predicate Known(s: State, i: Sid) {
    i < |s.store.sessions|
  }

  function Goto(s: State, p: Pid, proc: Proc): State {
    s.(procs := s.procs[p := proc])
  }

  function End(s: State, p: Pid): State {
    s.(procs := s.procs - {p})
  }

  function Start(s: State, proc: Proc): State {
    s.(procs := s.procs[s.next := proc], next := s.next + 1)
  }

  function Leave(s: State, p: Pid, g: Gid, failed: bool): State {
    if g in s.groups
    then s.(procs := s.procs - {p},
            groups := s.groups[g := s.groups[g].(live := s.groups[g].live - {p},
                                                 failed := s.groups[g].failed || failed)])
    else End(s, p)
  }

  function LeaveIfMember(s: State, p: Pid, group: Option<Gid>): State {
    if group.Some? then Leave(s, p, group.value, false) else End(s, p)
  }

  function Aim(s: State, p: Pid, g: Gid, i: Sid): State {
    if g in s.groups then s.(groups := s.groups[g := s.groups[g].(targets := s.groups[g].targets[i := p])]) else s
  }

  // ---------------------------------------------------------------------------------------------
  // Creating (helpers.go: createSession, createAndEstablish)

  datatype CreateAct =
    | Allocate                // everything up to the literal of the session object
    | GiveUp                  // any error return before Add
    | Add(timedOut: bool)     // sessionRepo.Add
    | Launch                  // go establishConnection
    | SeeReady                // <-ReadyChan
    | Retry                   // the reconnect loop wakes up

  predicate CanCreate(s: State, p: Pid, act: CreateAct) {
    p in s.procs &&
    var proc := s.procs[p];
    match act
    case Allocate => proc.Creating?
    case GiveUp => proc.Creating? || proc.Made?
    case Add(_) => proc.Made? && Known(s, proc.sid)
    case Launch => proc.Won? && Known(s, proc.sid) && p < s.next
    case SeeReady => proc.AwaitReady? && Known(s, proc.sid) && s.store.sessions[proc.sid].readyChan.CanRecv()
    case Retry => proc.Retrying?
  }

  /** The caller of createAndEstablish goes on without a session. */
  function Unlucky(s: State, p: Pid, uid: Uid, why: Purpose): State {
    match why
    case ForGroup(g) => Leave(s, p, g, true)
    case ForReconnect(tries) => Goto(s, p, Retrying(uid, tries))
    case ForFlight(fid, msg) => Goto(s, p, Publishing(fid, None, msg))
    case ForReplace(_) => End(s, p)
  }

  /** The caller of createAndEstablish goes on with session `i`. */
  function LuckyProc(i: Sid, why: Purpose): Proc {
    match why
    case ForGroup(_) => AwaitReady(i, why)
    case ForReconnect(_) => AwaitReady(i, why)
    case ForFlight(fid, msg) => Publishing(fid, Some(i), msg)
    case ForReplace(msg) => Installing(i, msg)
  }

  function Lucky(s: State, p: Pid, i: Sid, why: Purpose): State {
    var t := Goto(s, p, LuckyProc(i, why));
    if why.ForGroup? then Aim(t, p, why.gid, i) else t
  }

  function TriesOf(why: Purpose): nat {
    if why.ForReconnect? then why.tries else 0
  }

  function UidOf(s: State, proc: Proc): Uid {
    if proc.Creating? then proc.uid
    else if proc.Made? && Known(s, proc.sid) then s.store.sessions[proc.sid].userId else 0
  }

  function CreateApply(s: State, p: Pid, act: CreateAct): State
    requires CanCreate(s, p, act)
  {
    var proc := s.procs[p];
    match act
    case Allocate =>
      var i := |s.store.sessions|;
      var st := s.store.(sessions := s.store.sessions + [NewSession(proc.uid, proc.initiator, p)]);
      Goto(s.(store := st), p, Made(i, proc.why))
    case GiveUp => Unlucky(s, p, UidOf(s, proc), proc.why)
    case Add(timedOut) =>
      var i := proc.sid;
      var u := s.store.sessions[i].userId;
      if timedOut || u in s.store.repo then Unlucky(s, p, u, proc.why)
      else Goto(s.(store := Added(s.store, i)), p, Won(i, proc.why))
    case Launch =>
      var i := proc.sid;
      var st := Put(s.store, i, s.store.sessions[i].(owner := s.next));
      Lucky(Start(s.(store := st), Establishing(i, AwaitCreds)), p, i, proc.why)
    case SeeReady =>
      if proc.why.ForGroup? then Leave(s, p, proc.why.gid, false)
      else if s.store.sessions[proc.sid].links.conn then End(s, p)
      else Goto(s, p, Retrying(s.store.sessions[proc.sid].userId, TriesOf(proc.why)))
    case Retry => if s.closing then End(s, p) else Goto(s, p, Creating(proc.uid, true, ForReconnect(proc.tries + 1)))
  }

  // ---------------------------------------------------------------------------------------------
  // Establishing (helpers.go: createAndEstablish, establishConnection, initEventStream; utils.go: setupE2EE)

  datatype EstAct =
    | Advance(key: bytes, handler: bool)   // the next statement succeeds; `handler`: a callback is registered
    | Fail                                 // the next call returns an error, or the application closes
    | CloseOnError                         // close(ReadyChan) after the error

  predicate CanEstablish(s: State, p: Pid, act: EstAct) {
    p in s.procs &&
    var proc := s.procs[p];
    match act
    case CloseOnError => proc.Failing? && Known(s, proc.sid)
    case Fail =>
      proc.Establishing? && Known(s, proc.sid) &&
      (match proc.stage
       case AwaitCreds => s.closing
       case Dialing => true
       case KeyExchanging => true
       case OpeningEvents => true
       case _ => false)
    case Advance(key, _) =>
      proc.Establishing? && Known(s, proc.sid)
      && (proc.stage.AwaitCreds? ==> s.store.sessions[proc.sid].credsChan.CanRecv())
      && (proc.stage.KeyExchanging? ==> |key| == KEY_SIZE)
  }

  /** The session after the next statement of establishConnection. */
  function Established(x: Session, stage: EstStage, key: bytes, handler: bool): Session
    requires stage.AwaitCreds? ==> x.credsChan.CanRecv()
  {
    match stage
    case AwaitCreds => x.(credsChan := x.credsChan.Recv())
    case Dialing => x.(links := x.links.(conn := true))
    case KeyExchanging => x.(links := x.links.(key := key))
    case OpeningEvents => x
    case SettingStream => x.(links := x.links.(eventStream := true))
    case SettingDecoder => x.(links := x.links.(decoder := true))
    case SettingEncoder => x.(links := x.links.(encoder := true))
    case Announcing => if handler then x.(callbacks := x.callbacks + [Connected]) else x
    case Launching => x.(handling := true)
    case ClosingReady => x.(readyChan := x.readyChan.(closed := true))
  }

  function NextStage(stage: EstStage): EstStage {
    match stage
    case AwaitCreds => Dialing
    case Dialing => KeyExchanging
    case KeyExchanging => OpeningEvents
    case OpeningEvents => SettingStream
    case SettingStream => SettingDecoder
    case SettingDecoder => SettingEncoder
    case SettingEncoder => Announcing
    case Announcing => Launching
    case _ => ClosingReady
  }

  function EstApply(s: State, p: Pid, act: EstAct): State
    requires CanEstablish(s, p, act)
  {
    var proc := s.procs[p];
    var i := proc.sid;
    var x := s.store.sessions[i];
    match act
    case Fail => Goto(s, p, Failing(i))
    case CloseOnError =>
      if x.readyChan.closed then s.(panicked := true)
      else Goto(s.(store := Put(s.store, i, x.(readyChan := x.readyChan.Close()))), p,
                Resetting(i, ResetStream, EndEstablishing))
    case Advance(key, handler) =>
      var t := s.(store := Put(s.store, i, Established(x, proc.stage, key, handler)));
      if proc.stage.ClosingReady? then
        if x.readyChan.closed then s.(panicked := true) else End(t, p)
      else Goto(t, p, Establishing(i, NextStage(proc.stage)))
  }

  // ---------------------------------------------------------------------------------------------
  // Tearing down (helpers.go: resetSession, disconnectSession)

  datatype TearAct =
    | StepReset                   // the next statement of resetSession
    | EnterOnce                   // Closing.Do
    | StepTear(handler: bool)     // the next statement inside it

  predicate CanTear(s: State, p: Pid, act: TearAct) {
    p in s.procs &&
    var proc := s.procs[p];
    match act
    case StepReset => proc.Resetting? && Known(s, proc.sid)
    case EnterOnce => proc.Disconnecting? && Known(s, proc.sid) && !s.store.sessions[proc.sid].closing.Running?
    case StepTear(_) => proc.TearingDown? && Known(s, proc.sid)
  }

  function NextReset(stage: ResetStage): ResetStage {
    match stage case ResetStream => ResetConn case ResetConn => ResetAgent case _ => ResetDelete
  }

  /** The session after the next statement of resetSession, deletion apart. */
  function ResetClosed(x: Session, stage: ResetStage): Session {
    match stage
    case ResetStream => x.(closed := x.closed.(stream := x.closed.stream || x.links.eventStream))
    case ResetConn => x.(closed := x.closed.(conn := x.closed.conn || x.links.conn))
    case ResetAgent => x.(closed := x.closed.(agent := true))
    case ResetDelete => x
  }

  function ResetDone(s: State, p: Pid, i: Sid, after: After): State
    requires Known(s, i)
  {
    match after
    case EndEstablishing => End(s, p)
    case EndIce =>
      if s.store.sessions[i].initiator then Goto(s, p, Retrying(s.store.sessions[i].userId, 0)) else End(s, p)
    case ThenReplace(msg) => Goto(s, p, Creating(msg.sender, false, ForReplace(msg)))
  }

  function ResetApply(s: State, p: Pid): State
    requires CanTear(s, p, StepReset)
  {
    var i, after := s.procs[p].sid, s.procs[p].after;
    var x := s.store.sessions[i];
    var stage := s.procs[p].rstage;
    if stage.ResetDelete? then ResetDone(s.(store := DeleteIfSame(s.store, i)), p, i, after)
    else Goto(s.(store := Put(s.store, i, ResetClosed(x, stage))), p, Resetting(i, NextReset(stage), after))
  }

  function NextTear(t: TearStage): TearStage {
    match t
    case TearStream => TearConn
    case TearConn => TearAgent
    case TearAgent => TearMedia(Voice)
    case TearMedia(m) => if m == Voice then TearMedia(Webcam) else if m == Webcam then TearMedia(Screen) else TearDelete
    case _ => TearNotify
  }

  /** The session after the next statement inside Closing.Do, deletion apart. */
  function Torn(x: Session, stage: TearStage, leave: bool, handler: bool): Session {
    match stage
    case TearStream => x.(closed := x.closed.(stream := x.closed.stream || x.links.eventStream))
    case TearConn => x.(closed := x.closed.(conn := x.closed.conn || x.links.conn))
    case TearAgent => x.(closed := x.closed.(agent := true))
    case TearMedia(m) => x.(mediaOpen := x.mediaOpen - {m})
    case TearDelete => x
    case TearNotify =>
      if leave then x.(notified := x.notified + 1, closing := Over(true))
      else x.(callbacks := if handler then x.callbacks + [Disconnected] else x.callbacks, closing := Over(false))
  }

  function TornStore(st: Store, i: Sid, proc: Proc, handler: bool): Store
    requires i < |st.sessions| && proc.TearingDown?
  {
    if proc.tstage.TearDelete? then DeleteIfSame(st, i)
    else Put(st, i, Torn(st.sessions[i], proc.tstage, proc.leave, handler))
  }

  function TearApply(s: State, p: Pid, act: TearAct): State
    requires CanTear(s, p, act)
  {
    match act
    case StepReset => ResetApply(s, p)
    case EnterOnce =>
      var proc := s.procs[p];
      var x := s.store.sessions[proc.sid];
      if x.closing.Over? then LeaveIfMember(s, p, proc.group)
      else
        Goto(s.(store := Put(s.store, proc.sid, x.(closing := Running(p, proc.leave)))),
             p, TearingDown(proc.sid, proc.leave, TearStream, proc.group))
    case StepTear(handler) =>
      var proc := s.procs[p];
      var i, x := proc.sid, s.store.sessions[proc.sid];
      if proc.tstage.TearMedia? && proc.tstage.m !in x.mediaOpen then s.(panicked := true)
      else
        var t := s.(store := TornStore(s.store, i, proc, handler));
        if proc.tstage.TearNotify? then LeaveIfMember(t, p, proc.group)
        else Goto(t, p, TearingDown(i, proc.leave, NextTear(proc.tstage), proc.group))
  }

  // ---------------------------------------------------------------------------------------------
  // Signalling messages (helpers.go: receiveConnects, getSession; x/sync singleflight)

  datatype MsgAct =
    | Join                     // singleflight Do: lead or follow
    | LookUp(failed: bool)     // getSession up to sessionRepo.Get
    | Publish                  // the led call returns to everybody
    | Follow
    | Handle
    | Install(ok: bool)        // Agent.SetRemoteCredentials
    | Offer                    // the token, if there is room

  predicate CanHandle(s: State, p: Pid, act: MsgAct) {
    p in s.procs &&
    var proc := s.procs[p];
    match act
    case Join => proc.Arrived?
    case LookUp(_) => proc.Leading? && proc.fid < |s.flights.all|
    case Publish => proc.Publishing? && proc.fid < |s.flights.all|
    case Follow => proc.Following? && proc.fid < |s.flights.all| && s.flights.all[proc.fid].result.Some?
    case Handle => proc.Handling? && Known(s, proc.sid)
    case Install(_) => proc.Installing? && Known(s, proc.sid) && proc.msg.content.NewCreds?
    case Offer => proc.Offering? && Known(s, proc.sid)
  }

  function WithResult(s: State, p: Pid, found: Option<Sid>, msg: Msg): State {
    match found case Some(i) => Goto(s, p, Handling(i, msg)) case None => End(s, p)
  }

  function MsgApply(s: State, p: Pid, act: MsgAct): State
    requires CanHandle(s, p, act)
  {
    var proc := s.procs[p];
    match act
    case Join =>
      var u := proc.msg.sender;
      if u in s.flights.current then Goto(s, p, Following(s.flights.current[u], proc.msg))
      else
        var f := |s.flights.all|;
        Goto(s.(flights := Flights(s.flights.current[u := f], s.flights.all + [Flight(u, p, None)])), p,
             Leading(f, proc.msg))
    case LookUp(failed) =>
      var u := proc.msg.sender;
      if failed then Goto(s, p, Publishing(proc.fid, None, proc.msg))
      else if u in s.store.repo then Goto(s, p, Publishing(proc.fid, Some(s.store.repo[u]), proc.msg))
      else Goto(s, p, Creating(u, false, ForFlight(proc.fid, proc.msg)))
    case Publish =>
      var fl := Flights(s.flights.current - {proc.msg.sender},
                        s.flights.all[proc.fid := s.flights.all[proc.fid].(result := Some(proc.found))]);
      WithResult(s.(flights := fl), p, proc.found, proc.msg)
    case Follow => WithResult(s, p, s.flights.all[proc.fid].result.value, proc.msg)
    case Handle =>
      if proc.msg.content.NewCandidate? then End(s, p)
      else if s.store.sessions[proc.sid].links.conn
      then Goto(s, p, Resetting(proc.sid, ResetStream, ThenReplace(proc.msg)))
      else Goto(s, p, Installing(proc.sid, proc.msg))
    case Install(ok) =>
      if !ok then End(s, p)
      else
        var x := s.store.sessions[proc.sid].(remote := Some(proc.msg.content.creds));
        Goto(s.(store := Put(s.store, proc.sid, x)), p, Offering(proc.sid))
    case Offer =>
      var x := s.store.sessions[proc.sid];
      if x.credsChan.CanSend() then End(s.(store := Put(s.store, proc.sid, x.(credsChan := x.credsChan.Send(())))), p)
      else End(s, p)
  }

  // ---------------------------------------------------------------------------------------------
  // What the environment and the API start (network-serv.go: Connect, ConnectById, Disconnect, DisconnectFromId,
  // SendInStream; helpers.go: OnConnectionStateChange, handleConnection, receiveConnects)

  datatype EnvAct =
    | IceFails(i: Sid)                          // the agent reports Failed or Disconnected
    | CallDisconnect(i: Sid, leave: bool)       // DisconnectFromId, or a reader or sender meeting an error
    | Deliver(msg: Msg)
    | OpenGroup(g: Gid, connecting: bool)       // Connect or ConnectById; Disconnect
    | ConnectMember(g: Gid, uid: Uid)
    | DisconnectMember(g: Gid, i: Sid)
    | ReturnNil(g: Gid)
    | CloseApp

  /** Readers run once handleConnection started; senders need a connection and a closed ReadyChan. */
  predicate PeerErrorPossible(x: Session) {
    x.handling || (x.links.conn && x.readyChan.closed)
  }

  predicate CanStart(s: State, act: EnvAct) {
    match act
    case IceFails(i) => Known(s, i)
    case CallDisconnect(i, leave) =>
      Known(s, i) && i in s.store.added && (leave || PeerErrorPossible(s.store.sessions[i]))
    case OpenGroup(g, _) => g !in s.groups
    case ConnectMember(g, _) => g in s.groups && s.groups[g].connecting && !s.groups[g].returned
    case DisconnectMember(g, i) =>
      && g in s.groups && !s.groups[g].connecting && !s.groups[g].returned
      && Known(s, i) && i in s.store.added
    case ReturnNil(g) => g in s.groups && s.groups[g].live == {} && !s.groups[g].failed
    case _ => true
  }

  function EnvApply(s: State, act: EnvAct): State
    requires CanStart(s, act)
  {
    match act
    case IceFails(i) => Start(s, Resetting(i, ResetStream, EndIce))
    case CallDisconnect(i, leave) => Start(s, Disconnecting(i, leave, None))
    case Deliver(msg) => Start(s.(messages := s.messages + {msg}), Arrived(msg))
    case OpenGroup(g, connecting) => s.(groups := s.groups[g := Group(connecting, {}, map[], false, false, {})])
    case ConnectMember(g, uid) =>
      var grp := s.groups[g];
      Start(s.(groups := s.groups[g := grp.(live := grp.live + {s.next}, asked := grp.asked + {uid})]),
            Creating(uid, true, ForGroup(g)))
    case DisconnectMember(g, i) =>
      var grp := s.groups[g];
      Start(s.(groups := s.groups[g := grp.(live := grp.live + {s.next}, targets := grp.targets[i := s.next])]),
            Disconnecting(i, true, Some(g)))
    case ReturnNil(g) => s.(groups := s.groups[g := s.groups[g].(returned := true)])
    case CloseApp => s.(closing := true)
  }

  // ---------------------------------------------------------------------------------------------

  datatype Step =
    | CreateStep(p: Pid, createAct: CreateAct)
    | EstStep(p: Pid, estAct: EstAct)
    | TearStep(p: Pid, tearAct: TearAct)
    | MsgStep(p: Pid, msgAct: MsgAct)
    | EnvStep(envAct: EnvAct)

  predicate Enabled(s: State, step: Step) {
    !s.panicked &&
    match step
    case CreateStep(p, act) => CanCreate(s, p, act)
    case EstStep(p, act) => CanEstablish(s, p, act)
    case TearStep(p, act) => CanTear(s, p, act)
    case MsgStep(p, act) => CanHandle(s, p, act)
    case EnvStep(act) => CanStart(s, act)
  }

  function Apply(s: State, step: Step): State
    requires Enabled(s, step)
  {
    match step
    case CreateStep(p, act) => CreateApply(s, p, act)
    case EstStep(p, act) => EstApply(s, p, act)
    case TearStep(p, act) => TearApply(s, p, act)
    case MsgStep(p, act) => MsgApply(s, p, act)
    case EnvStep(act) => EnvApply(s, act)
  }

  ghost predicate Reaches(s: State, steps: seq<Step>, t: State)
    decreases |steps|
  {
    if steps == [] then s == t
    else Enabled(s, steps[0]) && Reaches(Apply(s, steps[0]), steps[1..], t)
  }

  lemma {:induction false} ReachesSnoc(s: State, steps: seq<Step>, t: State, step: Step)
    requires Reaches(s, steps, t) && Enabled(t, step)
    ensures Reaches(s, steps + [step], Apply(t, step))
    decreases |steps|
  {
    if steps == [] {
      assert [step][1..] == [];
    } else {
      ReachesSnoc(Apply(s, steps[0]), steps[1..], t, step);
      assert (steps + [step])[1..] == steps[1..] + [step];
    }
  }

  /** The states a run goes through. */
  ghost predicate IsRun(trace: seq<State>, steps: seq<Step>) {
    && |trace| == |steps| + 1
    && forall k {:trigger steps[k]} :: 0 <= k < |steps| ==>
         Enabled(trace[k], steps[k]) && trace[k + 1] == Apply(trace[k], steps[k])
  }

  /** Some run of any goroutines leads from one state to the other. */
  ghost predicate Leads(s: State, t: State) {
    exists trace, steps :: IsRun(trace, steps) && trace[0] == s && trace[|trace| - 1] == t
  }

  lemma LeadsRefl(s: State)
    ensures Leads(s, s)
  {
    assert IsRun([s], []);
  }

  lemma LeadsSnoc(s: State, t: State, step: Step)
    requires Leads(s, t) && Enabled(t, step)
    ensures Leads(s, Apply(t, step))
  {
    var trace, steps :| IsRun(trace, steps) && trace[0] == s && trace[|trace| - 1] == t;
    IsRunSnoc(trace, steps, step, Apply(t, step));
    assert IsRun(trace + [Apply(t, step)], steps + [step]);
  }

  lemma IsRunSnoc(trace: seq<State>, steps: seq<Step>, step: Step, t: State)
    requires IsRun(trace, steps) && Enabled(trace[|trace| - 1], step) && t == Apply(trace[|trace| - 1], step)
    ensures IsRun(trace + [t], steps + [step])
  {
  }

  lemma IsRunTail(trace: seq<State>, steps: seq<Step>)
    requires IsRun(trace, steps) && steps != []
    ensures IsRun(trace[1..], steps[1..]) && Enabled(trace[0], steps[0]) && trace[1] == Apply(trace[0], steps[0])
  {
    assert steps[0] in steps;
    forall k | 0 <= k < |steps[1..]|
      ensures Enabled(trace[1..][k], steps[1..][k]) && trace[1..][k + 1] == Apply(trace[1..][k], steps[1..][k])
    {
      assert steps[1..][k] == steps[k + 1];
    }
  }

  lemma {:induction false} RunReaches(trace: seq<State>, steps: seq<Step>)
    requires IsRun(trace, steps)
    ensures Reaches(trace[0], steps, trace[|steps|])
    decreases |steps|
  {
    if steps != [] {
      IsRunTail(trace, steps);
      RunReaches(trace[1..], steps[1..]);
    }
  }

  lemma LeadsReaches(s: State, t: State)
    requires Leads(s, t)
    ensures exists steps :: Reaches(s, steps, t)
  {
    var trace, steps :| IsRun(trace, steps) && trace[0] == s && trace[|trace| - 1] == t;
    RunReaches(trace, steps);
  }

  lemma {:induction false} ReachesLeads(o: State, s: State, steps: seq<Step>, t: State)
    requires Leads(o, s) && Reaches(s, steps, t)
    ensures Leads(o, t)
    decreases |steps|
  {
    if steps != [] {
      LeadsSnoc(o, s, steps[0]);
      ReachesLeads(o, Apply(s, steps[0]), steps[1..], t);
    }
  }

  lemma LeadsTrans(s: State, t: State, u: State)
    requires Leads(s, t) && Leads(t, u)
    ensures Leads(s, u)
  {
    LeadsReaches(t, u);
    var steps :| Reaches(t, steps, u);
    ReachesLeads(s, t, steps, u);
  }
}
