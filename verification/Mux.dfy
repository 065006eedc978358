/**
 * The signalling request/response multiplexer (internal/client) as a transition system: any number of
 * callers, the reconnect loop with its three workers per connection, and an arbitrary server.
 */
module Mux {
  import opened Channels
  import opened Errors
  import Wire

  type Id = nat                       // message ids; drawing one yields an id never used before
  type Call = nat                     // one run of getPayload, sendPayload or sendCommand
  type Payload = seq<Wire.byte>
  type Sdp = (nat, Payload)           // a peer's message as the server relays it: sender and payload

  const SUCCESS := 0
  const PAYLOAD_SUCCESS := 4

  datatype Message = Message(id: Id, registration: bool)
  datatype Response = Response(id: Id, code: nat, payload: Payload)

  /** A message as it left on the control stream of the connection numbered `epoch`. */
  datatype Sent = Sent(epoch: nat, msg: Message)

  datatype Answer = Got(payload: Payload) | Refused(error: Error)

  datatype CallPc =
    | Checked                   // saw the client online
    | Enqueueing                // registered, offering its message to the send queue
    | Waiting                   // for the reply channel, its context or the application's end
    | Leaving(result: Answer)   // about to run the deferred Delete
    | Finished(result: Answer)

  /** `since`, a history: how many responses had been decoded when the call registered. */
  datatype CallRec = CallRec(op: string, expected: nat, pc: CallPc, id: Id, chan: Chan<Response>, since: nat) {
    predicate Active() { pc.Enqueueing? || pc.Waiting? || pc.Leaving? }
    predicate Pending() { pc.Enqueueing? || pc.Waiting? }
  }

  datatype Cause = ByContext | ByWorker

  /** Run and serveConnection, one state per statement that other goroutines can observe. */
  datatype RunnerPc =
    | Dialing | OpeningStream | RegSending | RegWaiting | Resetting | GoingOnline | Serving
    | StartingWalk(cause: Cause)
    // Range of clearPendingResponses: the entries it met at its start, those still to come, the one it is at
    | Walking(cause: Cause, todo: set<Id>, left: set<Id>, current: Option<Id>)
    | GoingOffline(cause: Cause) | Hanging(cause: Cause) | Joining
    | Returned | BackingOff | Exited
  {
    predicate Tearing() {
      StartingWalk? || Walking? || GoingOffline? || Hanging? || Joining?
    }

    /** The workers of a connection exist. */
    predicate Working() {
      Serving? || Tearing()
    }
  }

  /** Each worker reads the field it is about to call a method on, and only then is inside that call. */
  datatype SenderPc =
    | SenderIdle
    | Holding(msg: Message)                 // received from the queue
    | Encoding(msg: Message, epoch: nat)    // inside Encode, on the stream of that epoch
    | SenderEnded(failed: bool)
  {
    predicate Busy() { Holding? || Encoding? }
  }

  datatype ReaderPc =
    | ReaderIdle
    | ReaderPassed                          // past its select, about to use the decoder
    | Decoding                              // inside Decode
    | Looked(resp: Response, call: Call)    // about to send the response to the channel it has loaded
    | ReaderEnded(failed: bool)

  datatype SdpPc =
    | SdpIdle
    | SdpPassed                             // past its select, about to use the connection
    | Accepting                             // inside AcceptUniStream, or reading that stream
    | Forwarding(sdp: Sdp)                  // about to send the message to receiveSDPs
    | SdpEnded(failed: bool)

  /** Callers and pendingResponses; a reply channel lives in its call. `owner` and `used` are histories. */
  datatype Table = Table(calls: map<Call, CallRec>, pending: map<Id, Call>, owner: map<Id, Call>, used: set<Id>)

  /** A message the sender has dealt with; `reached`: it got onto a control stream. */
  datatype Handled = Handled(msg: Message, reached: bool)

  /** The send queue shared by all connections, with the histories of what entered it and of what became of it. */
  datatype Queue = Queue(sendMsgs: Chan<Message>, enqueued: seq<Message>, handled: seq<Handled>)

  /** `conn` says that sc.conn is not nil; encoder and decoder name the epoch whose control stream they wrap. */
  datatype Link = Link(conn: bool, encoder: Option<nat>, decoder: Option<nat>, epochs: nat, wire: seq<Sent>)

  /** The online flag; counts of accepted registrations, backoff resets and connections gone online. */
  datatype Status = Status(online: bool, accepted: nat, resets: nat, served: nat)

  /** Histories of receiveSDP: the messages it has read, and those it has sent to receiveSDPs. */
  datatype Relay = Relay(read: seq<Sdp>, forwarded: seq<Sdp>)

  datatype State = State(
    table: Table, queue: Queue, link: Link, status: Status,
    runner: RunnerPc, sender: SenderPc, reader: ReaderPc, sdp: SdpPc,
    closed: bool,               // the application's context is cancelled
    cancelled: bool,            // cancel() of the current connection was called
    answers: seq<Response>,     // history: responses decoded by the reader
    relay: Relay,
    panicked: bool)

  function Init(capacity: nat): State {
    State(Table(map[], map[], map[], {}), Queue(Make(capacity), [], []), Link(false, None, None, 0, []),
          Status(true, 0, 0, 0), Dialing, SenderEnded(false), ReaderEnded(false), SdpEnded(false),
          false, false, [], Relay([], []), false)
  }

  datatype Fault = NoFault | Benign | Fatal

  datatype CallAct =
    | Begin(op: string, expected: nat) | Register(id: Id) | Enqueue
    | GiveUp(closing: bool) | Receive | Leave

  datatype ConnectAct =
    | Dial(ok: bool) | OpenControl(ok: bool) | SendRegistration(id: Id, reached: bool, ok: bool)
    | RegistrationReply(reply: Option<Response>, readable: bool) | ResetBackoff | GoOnline

  datatype TearAct =
    | EndServe(cause: Cause) | StartWalk | CloseReply(id: Id) | Unregister | EndWalk | GoOffline
    | CloseConnection(skip: bool) | Join

  datatype LoopAct = Return | Wake(exit: bool)

  datatype SenderAct = Take | StartEncode | Encode(reached: bool, fault: Fault) | StopSender
  datatype ReaderAct = PassReader | StartDecode | Read(resp: Response) | Deliver | FailRead(fault: Fault) | StopReader
  datatype SdpAct = PassSdp | StartAccept | Accept(sdp: Sdp) | Forward | FailSdp(fault: Fault) | StopSdp

  datatype Step =
    | CallStep(call: Call, callAct: CallAct)
    | ConnectStep(connectAct: ConnectAct)
    | TearStep(tearAct: TearAct)
    | LoopStep(loopAct: LoopAct)
    | SenderStep(senderAct: SenderAct)
    | ReaderStep(readerAct: ReaderAct)
    | SdpStep(sdpAct: SdpAct)
    | CancelContext

  predicate ConnCancelled(s: State) {
    s.closed || s.cancelled
  }

  predicate WorkerFailed(s: State) {
    s.sender == SenderEnded(true) || s.reader == ReaderEnded(true) || s.sdp == SdpEnded(true)
  }

  // ---------------------------------------------------------------------------------------------
  // Callers (helper.go: getPayload, sendPayload, sendCommand, checkResp)

  predicate CanCall(s: State, c: Call, act: CallAct) {
    if act.Begin? then c !in s.table.calls else
    c in s.table.calls &&
    var rec := s.table.calls[c];
    match act
    case Register(id) => rec.pc.Checked? && id !in s.table.used
    case Enqueue => rec.pc.Enqueueing? && s.queue.sendMsgs.CanSend()
    case GiveUp(closing) => if closing then rec.pc.Waiting? && s.closed else rec.Pending()
    case Receive => rec.pc.Waiting? && rec.chan.CanRecv()
    case _ => rec.pc.Leaving?
  }

  /** What checkResp makes of a receive from the reply channel. */
  function AnswerOf(rec: CallRec, reply: Option<Response>): Answer {
    match reply
    case None => Refused(Base(Offline))
    case Some(resp) =>
      if resp.code != rec.expected then Refused(CodeToError(rec.op, resp.code)) else Got(resp.payload)
  }

  function CallApply(s: State, c: Call, act: CallAct): State
    requires CanCall(s, c, act)
  {
    var tab := s.table;
    match act
    case Begin(op, expected) =>
      var pc := if s.status.online then Checked else Finished(Refused(App(op, Base(Offline))));
      s.(table := tab.(calls := tab.calls[c := CallRec(op, expected, pc, 0, Make(1), 0)]))
    case Register(id) =>
      var rec := tab.calls[c].(pc := Enqueueing, id := id, chan := Make(1), since := |s.answers|);
      s.(table := Table(tab.calls[c := rec], tab.pending[id := c], tab.owner[id := c], tab.used + {id}))
    case Enqueue =>
      var msg := Message(tab.calls[c].id, false);
      s.(table := tab.(calls := tab.calls[c := tab.calls[c].(pc := Waiting)]),
         queue := s.queue.(sendMsgs := s.queue.sendMsgs.Send(msg), enqueued := s.queue.enqueued + [msg]))
    case GiveUp(closing) =>
      var why := App(tab.calls[c].op, Base(if closing then AppClosing else RequestTimeout));
      s.(table := tab.(calls := tab.calls[c := tab.calls[c].(pc := Leaving(Refused(why)))]))
    case Receive =>
      var rec := tab.calls[c];
      var rec' := rec.(pc := Leaving(AnswerOf(rec, rec.chan.Head())), chan := rec.chan.Recv());
      s.(table := tab.(calls := tab.calls[c := rec']))
    case Leave =>
      var rec := tab.calls[c];
      s.(table := tab.(calls := tab.calls[c := rec.(pc := Finished(rec.pc.result))], pending := tab.pending - {rec.id}))
  }

  // ---------------------------------------------------------------------------------------------
  // The reconnect loop: getting a connection (helper.go: serveConnection, registerConnect)

  /** The message leaves on the control stream of that epoch. */
  function Put(link: Link, epoch: nat, msg: Message): Link {
    link.(wire := link.wire + [Sent(epoch, msg)])
  }

  /** What registerConnect makes of the first thing it decodes: the code counts and the payload, the id does not. */
  predicate Accepts(reply: Option<Response>, readable: bool) {
    reply.Some? && reply.value.code == PAYLOAD_SUCCESS && readable
  }

  /** registerConnect failed: the connection is closed and forgotten, the coders stay. */
  function Unregistered(s: State): State {
    s.(runner := Returned, link := s.link.(conn := false))
  }

  predicate CanConnect(s: State, act: ConnectAct) {
    match act
    case Dial(_) => s.runner.Dialing?
    case OpenControl(_) => s.runner.OpeningStream?
    case SendRegistration(id, reached, ok) => s.runner.RegSending? && id !in s.table.used && (ok ==> reached)
    case RegistrationReply(_, _) => s.runner.RegWaiting?
    case ResetBackoff => s.runner.Resetting?
    case GoOnline => s.runner.GoingOnline?
  }

  function ConnectApply(s: State, act: ConnectAct): State
    requires CanConnect(s, act)
  {
    match act
    case Dial(ok) =>
      if ok then s.(cancelled := false, runner := OpeningStream, link := s.link.(conn := true))
      else s.(cancelled := false, runner := Returned)
    case OpenControl(ok) =>
      var e := s.link.epochs;
      if ok then s.(runner := RegSending, link := s.link.(encoder := Some(e), decoder := Some(e), epochs := e + 1))
      else Unregistered(s)
    case SendRegistration(id, reached, ok) =>
      var link := if reached && s.link.encoder.Some? then Put(s.link, s.link.encoder.value, Message(id, true))
                  else s.link;
      var t := s.(table := s.table.(used := s.table.used + {id}), link := link);
      if ok then t.(runner := RegWaiting) else Unregistered(t)
    case RegistrationReply(reply, readable) =>
      if Accepts(reply, readable) then s.(runner := Resetting, status := s.status.(accepted := s.status.accepted + 1))
      else Unregistered(s)
    case ResetBackoff => s.(runner := GoingOnline, status := s.status.(resets := s.status.resets + 1))
    case GoOnline =>
      s.(runner := Serving, status := s.status.(online := true, served := s.status.served + 1),
         sender := SenderIdle, reader := ReaderIdle, sdp := SdpIdle)
  }

  // ---------------------------------------------------------------------------------------------
  // The reconnect loop: giving it up (helper.go: serveConnection, clearPendingResponses)

  predicate CanTear(s: State, act: TearAct) {
    match act
    case EndServe(cause) => s.runner.Serving? && (if cause.ByContext? then s.closed else WorkerFailed(s))
    case StartWalk => s.runner.StartingWalk?
    case CloseReply(id) =>
      // an entry loaded by Range may have been deleted by its owner before its channel is closed
      && s.runner.Walking? && s.runner.current.None? && (id in s.runner.left || id in s.table.pending)
      && id in s.table.owner && s.table.owner[id] in s.table.calls
    case Unregister => s.runner.Walking? && s.runner.current.Some?
    case EndWalk => s.runner.Walking? && s.runner.current.None? && s.runner.left !! s.table.pending.Keys
    case GoOffline => s.runner.GoingOffline?
    case CloseConnection(skip) =>
      s.runner.Hanging? && (skip ==> s.closed) && (s.runner.cause.ByContext? ==> skip)
    case Join => s.runner.Joining? && s.sender.SenderEnded? && s.reader.ReaderEnded? && s.sdp.SdpEnded?
  }

  function TearApply(s: State, act: TearAct): State
    requires CanTear(s, act)
  {
    var tab := s.table;
    match act
    case EndServe(cause) => s.(cancelled := true, runner := StartingWalk(cause))
    case StartWalk => s.(runner := Walking(s.runner.cause, tab.pending.Keys, tab.pending.Keys, None))
    case CloseReply(id) =>
      var c := tab.owner[id];
      if tab.calls[c].chan.closed then s.(panicked := true)
      else s.(table := tab.(calls := tab.calls[c := tab.calls[c].(chan := tab.calls[c].chan.Close())]),
              runner := s.runner.(left := s.runner.left - {id}, current := Some(id)))
    case Unregister =>
      s.(table := tab.(pending := tab.pending - {s.runner.current.value}), runner := s.runner.(current := None))
    case EndWalk => s.(runner := GoingOffline(s.runner.cause))
    case GoOffline => s.(status := s.status.(online := false), runner := Hanging(s.runner.cause))
    case CloseConnection(skip) =>
      if skip then s.(runner := Joining)
      else s.(runner := Joining, link := s.link.(conn := false, encoder := None, decoder := None))
    case Join => s.(runner := Returned)
  }

  // ---------------------------------------------------------------------------------------------
  // The reconnect loop itself (signaling-client.go: Run)

  predicate CanLoop(s: State, act: LoopAct) {
    match act
    case Return => s.runner.Returned?
    case Wake(exit) => s.runner.BackingOff? && (exit ==> s.closed)
  }

  function LoopApply(s: State, act: LoopAct): State
    requires CanLoop(s, act)
  {
    match act
    case Return => s.(runner := if s.closed then Exited else BackingOff)
    case Wake(exit) => s.(runner := if exit then Exited else Dialing)
  }

  // ---------------------------------------------------------------------------------------------
  // The workers of one connection (helper.go: sendMsg, receiveResponses, receiveSDP)

  predicate CanSendStep(s: State, act: SenderAct) {
    match act
    case Take => s.sender.SenderIdle? && s.queue.sendMsgs.buf != []
    case StartEncode => s.sender.Holding?
    case Encode(reached, fault) => s.sender.Encoding? && (fault.NoFault? ==> reached)
    case StopSender => s.sender.SenderIdle? && ConnCancelled(s)
  }

  function SenderApply(s: State, act: SenderAct): State
    requires CanSendStep(s, act)
  {
    match act
    case Take => s.(sender := Holding(s.queue.sendMsgs.buf[0]), queue := s.queue.(sendMsgs := s.queue.sendMsgs.Recv()))
    case StartEncode =>
      if s.link.encoder.None? then s.(panicked := true)   // a method call on the nil encoder
      else s.(sender := Encoding(s.sender.msg, s.link.encoder.value))
    case Encode(reached, fault) =>
      // a benign fault only leaves the select statement: the loop goes on without the message
      s.(link := if reached then Put(s.link, s.sender.epoch, s.sender.msg) else s.link,
         queue := s.queue.(handled := s.queue.handled + [Handled(s.sender.msg, reached)]),
         sender := if fault.Fatal? then SenderEnded(true) else SenderIdle)
    case StopSender => s.(sender := SenderEnded(true))
  }

  predicate CanRead(s: State, act: ReaderAct) {
    match act
    case PassReader => s.reader.ReaderIdle? && !ConnCancelled(s)
    case StartDecode => s.reader.ReaderPassed?
    case Read(_) => s.reader.Decoding?
    case Deliver =>
      s.reader.Looked? && s.reader.call in s.table.calls
      && (s.table.calls[s.reader.call].chan.closed || s.table.calls[s.reader.call].chan.CanSend())
    case FailRead(fault) => s.reader.Decoding? && !fault.NoFault?
    case StopReader => s.reader.ReaderIdle? && ConnCancelled(s)
  }

  function ReaderApply(s: State, act: ReaderAct): State
    requires CanRead(s, act)
  {
    var tab := s.table;
    match act
    case PassReader => s.(reader := ReaderPassed)
    case StartDecode =>
      if s.link.decoder.None? then s.(panicked := true)       // a method call on the nil decoder
      else s.(reader := Decoding)
    case Read(resp) =>
      s.(answers := s.answers + [resp],
         reader := if resp.id in tab.pending then Looked(resp, tab.pending[resp.id]) else ReaderIdle)
    case Deliver =>
      var c := s.reader.call;
      if tab.calls[c].chan.closed then s.(panicked := true)   // send on a closed channel
      else s.(table := tab.(calls := tab.calls[c := tab.calls[c].(chan := tab.calls[c].chan.Send(s.reader.resp))]),
              reader := ReaderIdle)
    case FailRead(fault) => s.(reader := ReaderEnded(fault.Fatal?))   // a benign fault ends the loop without an error
    case StopReader => s.(reader := ReaderEnded(true))
  }

  predicate CanSdp(s: State, act: SdpAct) {
    match act
    case PassSdp => s.sdp.SdpIdle? && !ConnCancelled(s)
    case StartAccept => s.sdp.SdpPassed?
    case Accept(_) => s.sdp.Accepting?
    case Forward => s.sdp.Forwarding?
    case FailSdp(fault) => s.sdp.Accepting? && !fault.NoFault?
    case StopSdp => s.sdp.SdpIdle? && ConnCancelled(s)
  }

  function SdpApply(s: State, act: SdpAct): State
    requires CanSdp(s, act)
  {
    match act
    case PassSdp => s.(sdp := SdpPassed)
    case StartAccept =>
      if !s.link.conn then s.(panicked := true)               // a method call on the nil connection
      else s.(sdp := Accepting)
    case Accept(sdp) => s.(sdp := Forwarding(sdp), relay := s.relay.(read := s.relay.read + [sdp]))
    case Forward => s.(sdp := SdpIdle, relay := s.relay.(forwarded := s.relay.forwarded + [s.sdp.sdp]))
    case FailSdp(fault) => s.(sdp := SdpEnded(fault.Fatal?))
    case StopSdp => s.(sdp := SdpEnded(true))
  }

  // ---------------------------------------------------------------------------------------------

  predicate Enabled(s: State, step: Step) {
    !s.panicked &&
    match step
    case CallStep(c, act) => CanCall(s, c, act)
    case ConnectStep(act) => CanConnect(s, act)
    case TearStep(act) => CanTear(s, act)
    case LoopStep(act) => CanLoop(s, act)
    case SenderStep(act) => CanSendStep(s, act)
    case ReaderStep(act) => CanRead(s, act)
    case SdpStep(act) => CanSdp(s, act)
    case CancelContext => true
  }

  function Apply(s: State, step: Step): State
    requires Enabled(s, step)
  {
    match step
    case CallStep(c, act) => CallApply(s, c, act)
    case ConnectStep(act) => ConnectApply(s, act)
    case TearStep(act) => TearApply(s, act)
    case LoopStep(act) => LoopApply(s, act)
    case SenderStep(act) => SenderApply(s, act)
    case ReaderStep(act) => ReaderApply(s, act)
    case SdpStep(act) => SdpApply(s, act)
    case CancelContext => s.(closed := true)
  }

  /** `t` is reached from `s` by taking `steps`, each of them possible when it is taken. */
  ghost predicate Reaches(s: State, steps: seq<Step>, t: State)
    decreases |steps|
  {
    if steps == [] then s == t
    else Enabled(s, steps[0]) && Reaches(Apply(s, steps[0]), steps[1..], t)
  }

  lemma {:induction false} ReachesTrans(s: State, first: seq<Step>, t: State, second: seq<Step>, u: State)
    requires Reaches(s, first, t) && Reaches(t, second, u)
    ensures Reaches(s, first + second, u)
    decreases |first|
  {
    if first == [] {
      assert first + second == second;
    } else {
      ReachesTrans(Apply(s, first[0]), first[1..], t, second, u);
      assert (first + second)[1..] == first[1..] + second;
    }
  }
}
