/**
 * The signalling client's own fields and routines, statement by statement, with every other goroutine
 * running freely between any two of them. The specification is the transition system of module Mux.
 */
module SignalingClient {
  import opened Channels
  import opened Errors
  import opened Mux
  import opened MuxInvariant
  import opened MuxTheorems

  datatype Actor = Caller(c: Call) | RunLoop | SenderWorker | ReaderWorker | SdpWorker | Application

  function ActorOf(step: Step): Actor {
    match step
    case CallStep(c, _) => Caller(c)
    case ConnectStep(_) => RunLoop
    case TearStep(_) => RunLoop
    case LoopStep(_) => RunLoop
    case SenderStep(_) => SenderWorker
    case ReaderStep(_) => ReaderWorker
    case SdpStep(_) => SdpWorker
    case CancelContext => Application
  }

  /** What every step leaves alone in a call: its id once drawn, and the fact that its channel is closed. */
  ghost predicate Persists(tab: Table, tab': Table) {
    && tab.used <= tab'.used && tab.calls.Keys <= tab'.calls.Keys
    && (forall id :: id in tab.used && id !in tab.pending ==> id !in tab'.pending)
    && (forall d :: d in tab.calls && !tab.calls[d].pc.Checked? ==>
          && !tab'.calls[d].pc.Checked? && tab'.calls[d].id == tab.calls[d].id
          && (tab.calls[d].chan.closed ==> tab'.calls[d].chan.closed)
          && (tab'.calls[d].Pending() ==> tab.calls[d].Pending()))
  }

  /** What `me` can rely on while the others run. */
  ghost predicate Respects(me: Actor, s: State, t: State) {
    && Persists(s.table, t.table) && s.queue.enqueued <= t.queue.enqueued
    && (s.closed ==> t.closed)
    && (me.Caller? ==>
          && (me.c in s.table.calls <==> me.c in t.table.calls)
          && (me.c in s.table.calls ==>
                var rec, rec' := s.table.calls[me.c], t.table.calls[me.c];
                rec'.pc == rec.pc && rec'.op == rec.op && rec'.expected == rec.expected))
    && (me.RunLoop? ==>
          && t.runner == s.runner && t.status == s.status
          && t.link == s.link.(wire := t.link.wire))
  }

  lemma CallPersists(s: State, c: Call, act: CallAct)
    requires CanCall(s, c, act)
    ensures Persists(s.table, CallApply(s, c, act).table)
  {
  }

  lemma TearPersists(s: State, act: TearAct)
    requires CanTear(s, act)
    ensures Persists(s.table, TearApply(s, act).table)
  {
    if act.CloseReply? && !s.table.calls[s.table.owner[act.id]].chan.closed {
      ClosePersists(s.table, s.table.owner[act.id]);
    }
  }

  lemma ClosePersists(tab: Table, c: Call)
    requires c in tab.calls && !tab.calls[c].chan.closed
    ensures Persists(tab, tab.(calls := tab.calls[c := tab.calls[c].(chan := tab.calls[c].chan.Close())]))
  {
  }

  lemma ReaderPersists(s: State, act: ReaderAct)
    requires CanRead(s, act)
    ensures Persists(s.table, ReaderApply(s, act).table)
  {
  }

  lemma TearRespectsCaller(s: State, act: TearAct, me: Actor)
    requires CanTear(s, act) && !me.RunLoop?
    ensures Respects(me, s, TearApply(s, act))
  {
    TearPersists(s, act);
  }

  lemma CallRespects(s: State, c: Call, act: CallAct, me: Actor)
    requires CanCall(s, c, act) && me != Caller(c)
    ensures Respects(me, s, CallApply(s, c, act))
  {
    CallPersists(s, c, act);
  }

  lemma ReaderRespects(s: State, act: ReaderAct, me: Actor)
    requires CanRead(s, act)
    ensures Respects(me, s, ReaderApply(s, act))
  {
    ReaderPersists(s, act);
  }

  lemma ConnectRespectsCaller(s: State, act: ConnectAct, me: Actor)
    requires CanConnect(s, act) && !me.RunLoop?
    ensures Respects(me, s, ConnectApply(s, act))
  {
  }

  lemma SenderRespects(s: State, act: SenderAct, me: Actor)
    requires CanSendStep(s, act)
    ensures Respects(me, s, SenderApply(s, act))
  {
  }

  lemma OthersRespect(s: State, step: Step, me: Actor)
    requires Enabled(s, step) && ActorOf(step) != me
    ensures Respects(me, s, Apply(s, step))
  {
    match step
    case CallStep(c, act) => CallRespects(s, c, act, me);
    case ConnectStep(act) => ConnectRespectsCaller(s, act, me);
    case TearStep(act) => TearRespectsCaller(s, act, me);
    case SenderStep(act) => SenderRespects(s, act, me);
    case ReaderStep(act) => ReaderRespects(s, act, me);
    case _ =>
  }

  lemma RespectsTrans(me: Actor, s: State, t: State, u: State)
    requires Respects(me, s, t) && Respects(me, t, u)
    ensures Respects(me, s, u)
  {
  }

  lemma PersistsTrans(a: Table, b: Table, c: Table)
    requires Persists(a, b) && Persists(b, c)
    ensures Persists(a, c)
  {
  }

  /** The teardown goes on: flag and counts untouched, nobody forgotten, a cancelled context stays cancelled. */
  ghost predicate Onward(s: State, t: State) {
    Persists(s.table, t.table) && t.status == s.status && (s.closed ==> t.closed)
  }

  lemma OnwardTrans(s: State, t: State, u: State)
    requires Onward(s, t) && Onward(t, u)
    ensures Onward(s, u)
  {
    PersistsTrans(s.table, t.table, u.table);
  }

  /** Whoever was pending in `s`, all of whose registrations are gone in `t`, has a closed channel. */
  lemma Released(s: State, t: State)
    requires TableOk(s) && TableOk(t) && Persists(s.table, t.table)
    requires s.table.pending.Keys !! t.table.pending.Keys
    ensures forall d :: d in s.table.calls && s.table.calls[d].Pending() ==>
      d in t.table.calls && (t.table.calls[d].Pending() ==> t.table.calls[d].chan.closed)
  {
    forall d | d in s.table.calls && s.table.calls[d].Pending()
      ensures d in t.table.calls && (t.table.calls[d].Pending() ==> t.table.calls[d].chan.closed)
    {
      assert CallOk(d, s.table.calls[d], s.table.pending, s.table.owner, Current(s.runner), s.runner.Tearing(),
                    Target(s.reader));
      assert CallOk(d, t.table.calls[d], t.table.pending, t.table.owner, Current(t.runner), t.runner.Tearing(),
                    Target(t.reader));
    }
  }

  /** How the outside world treats one routine: what the others do, and how long its contexts last. */
  datatype World = World(others: nat -> seq<Step>, patience: nat)

  /** One try at a connection: whether dial, control stream and registration message succeed, and what comes back. */
  datatype Attempt = Attempt(dialed: bool, streamed: bool, sent: bool, reply: Option<Response>, readable: bool) {
    predicate Answered() {
      reply.Some? && reply.value.code == PAYLOAD_SUCCESS && readable
    }

    predicate Succeeds() {
      dialed && streamed && sent && Answered()
    }
  }

  datatype Outcome =
    | Failed            // no registration: serveConnection returns early
    | Ended             // a served connection came to its end
    | Unfinished        // still serving, or still waiting for its workers

  /** How a request came to its answer. */
  datatype Course =
    | NotOnline                             // refused on the spot
    | NoRoom                                // its context ended with the send queue full
    | Answered(reply: Option<Response>)     // received; None: its channel was closed
    | TimedOut                              // its context ended with nothing to receive
    | AppClosed                             // the application ended with nothing to receive

  function AnswerFor(course: Course, op: string, expected: nat): Answer {
    match course
    case NotOnline => Refused(App(op, Base(Offline)))
    case NoRoom => Refused(App(op, Base(RequestTimeout)))
    case TimedOut => Refused(App(op, Base(RequestTimeout)))
    case AppClosed => Refused(App(op, Base(AppClosing)))
    case Answered(reply) =>
      if reply.None? then Refused(Base(Offline))
      else if reply.value.code != expected then Refused(CodeToError(op, reply.value.code)) else Got(reply.value.payload)
  }

  /** What held when the request was decided: it timed out only with a full queue, or with nothing there to receive. */
  predicate Decided(course: Course, c: Call, s: State) {
    && c in s.table.calls
    && (course.NoRoom? ==> !s.queue.sendMsgs.CanSend())
    && (course.TimedOut? ==> !s.table.calls[c].chan.CanRecv() && !s.closed)
    && (course.AppClosed? ==> !s.table.calls[c].chan.CanRecv() && s.closed)
    && (course.Answered? || course.TimedOut? || course.AppClosed? ==>
          Message(s.table.calls[c].id, false) in s.queue.enqueued)
  }

  datatype Workers = Workers(sender: SenderPc, reader: ReaderPc, sdp: SdpPc)

  /** Counters and histories: not part of the program's data. */
  datatype Log = Log(used: set<Id>, owner: map<Id, Call>, enqueued: seq<Message>, handled: seq<Handled>,
                     epochs: nat, wire: seq<Sent>,
                     accepted: nat, resets: nat, served: nat, answers: seq<Response>, relay: Relay)

  class Client {
    const capacity: nat
    // signalingClient
    var sendMsgs: Chan<Message>
    var pendingResponses: map<Id, Call>
    var isOnline: bool
    var conn: bool              // sc.conn is not nil
    var encoder: Option<nat>
    var decoder: Option<nat>
    var closed: bool
    // the goroutines
    var calls: map<Call, CallRec>
    var runner: RunnerPc
    var cancelled: bool
    var workers: Workers
    var log: Log
    ghost var run: seq<Step>

    function Now(): State
      reads this
    {
      State(Table(calls, pendingResponses, log.owner, log.used), Queue(sendMsgs, log.enqueued, log.handled),
            Link(conn, encoder, decoder, log.epochs, log.wire), Status(isOnline, log.accepted, log.resets, log.served),
            runner, workers.sender, workers.reader, workers.sdp, closed, cancelled, log.answers, log.relay, false)
    }

    /** The fields are where some run of all goroutines has led, nobody having panicked. */
    ghost predicate Valid()
      reads this
    {
      Reaches(Init(capacity), run, Now())
    }

    constructor (capacity: nat)
      ensures Valid() && this.capacity == capacity && Now() == Init(capacity)
    {
      this.capacity := capacity;
      sendMsgs, pendingResponses, isOnline := Make(capacity), map[], true;
      conn, encoder, decoder := false, None, None;
      calls, runner, workers := map[], Dialing, Workers(SenderEnded(false), ReaderEnded(false), SdpEnded(false));
      closed, cancelled, log, run := false, false, Log({}, map[], [], [], 0, [], 0, 0, 0, [], Relay([], [])), [];
    }

    lemma Invariant()
      requires Valid()
      ensures Inv(Now())
    {
      InvInit(capacity);
      InvRun(Init(capacity), run, Now());
    }

    method Become(s: State)
      requires !s.panicked
      modifies this
      ensures Now() == s && run == old(run)
    {
      sendMsgs, pendingResponses, isOnline := s.queue.sendMsgs, s.table.pending, s.status.online;
      conn, encoder, decoder, closed := s.link.conn, s.link.encoder, s.link.decoder, s.closed;
      calls, runner, cancelled, workers := s.table.calls, s.runner, s.cancelled, Workers(s.sender, s.reader, s.sdp);
      log := Log(s.table.used, s.table.owner, s.queue.enqueued, s.queue.handled, s.link.epochs, s.link.wire,
                 s.status.accepted, s.status.resets, s.status.served, s.answers, s.relay);
    }

    /** One statement of any goroutine. */
    method Do(step: Step)
      requires Valid() && Enabled(Now(), step) && !Apply(Now(), step).panicked
      modifies this
      ensures Valid() && Now() == Apply(old(Now()), step) && run == old(run) + [step]
    {
      ReachesSnoc(Init(capacity), run, Now(), step);
      Become(Apply(Now(), step));
      run := run + [step];
    }

    /** The others run: any statements, in any order, as far as each is possible and does not panic. */
    method Interfere(me: Actor, steps: seq<Step>)
      requires Valid()
      modifies this
      ensures Valid() && old(run) <= run && Respects(me, old(Now()), Now())
    {
      for i := 0 to |steps|
        invariant Valid() && old(run) <= run && Respects(me, old(Now()), Now())
      {
        if Enabled(Now(), steps[i]) && ActorOf(steps[i]) != me && !Apply(Now(), steps[i]).panicked {
          ghost var before := Now();
          OthersRespect(before, steps[i], me);
          Do(steps[i]);
          RespectsTrans(me, old(Now()), before, Now());
        }
      }
    }

    // -------------------------------------------------------------------------------------------
    // Requests

    /** uuid.New: an id nobody has drawn before. */
    method NewId() returns (id: Id)
      ensures id !in log.used
    {
      id := 0;
      var rest := log.used;
      while id in rest
        invariant rest <= log.used && forall k :: k in log.used && k >= id ==> k in rest
        decreases rest
      {
        rest := rest - {id};
        id := id + 1;
      }
    }

    /** The online check. */
    method Enter(c: Call, op: string, expected: nat) returns (online: bool)
      requires Valid() && c !in calls
      modifies this
      ensures Valid() && run == old(run) + [CallStep(c, Begin(op, expected))]
      ensures Now() == CallApply(old(Now()), c, Begin(op, expected)) && online == isOnline
    {
      ReachesSnoc(Init(capacity), run, Now(), CallStep(c, Begin(op, expected)));
      online := isOnline;
      var pc := if online then Checked else Finished(Refused(App(op, Base(Offline))));
      calls := calls[c := CallRec(op, expected, pc, 0, Make(1), 0)];
      run := run + [CallStep(c, Begin(op, expected))];
    }

    /** pendingResponses.Store under a fresh id. */
    method Store(c: Call) returns (id: Id)
      requires Valid() && c in calls && calls[c].pc.Checked?
      modifies this
      ensures Valid() && CanCall(old(Now()), c, Register(id)) && run == old(run) + [CallStep(c, Register(id))]
      ensures Now() == CallApply(old(Now()), c, Register(id))
    {
      id := NewId();
      ReachesSnoc(Init(capacity), run, Now(), CallStep(c, Register(id)));
      calls := calls[c := calls[c].(pc := Enqueueing, id := id, chan := Make(1), since := |log.answers|)];
      pendingResponses := pendingResponses[id := c];
      log := log.(used := log.used + {id}, owner := log.owner[id := c]);
      run := run + [CallStep(c, Register(id))];
    }

    /** `sc.sendMsgs <- cc.msg` */
    method Enqueue(c: Call)
      requires Valid() && c in calls && calls[c].pc.Enqueueing? && sendMsgs.CanSend()
      modifies this
      ensures Valid() && run == old(run) + [CallStep(c, CallAct.Enqueue)]
      ensures Now() == CallApply(old(Now()), c, CallAct.Enqueue)
    {
      ReachesSnoc(Init(capacity), run, Now(), CallStep(c, CallAct.Enqueue));
      var msg := Message(calls[c].id, false);
      sendMsgs := sendMsgs.Send(msg);
      calls := calls[c := calls[c].(pc := Waiting)];
      log := log.(enqueued := log.enqueued + [msg]);
      run := run + [CallStep(c, CallAct.Enqueue)];
    }

    /** `<-ctx.Done()` or `<-sc.closeCtx.Done()` */
    method GiveUp(c: Call, closing: bool)
      requires Valid() && c in calls && (if closing then calls[c].pc.Waiting? && closed else calls[c].Pending())
      modifies this
      ensures Valid() && run == old(run) + [CallStep(c, CallAct.GiveUp(closing))]
      ensures Now() == CallApply(old(Now()), c, CallAct.GiveUp(closing))
    {
      ReachesSnoc(Init(capacity), run, Now(), CallStep(c, CallAct.GiveUp(closing)));
      var why := App(calls[c].op, Base(if closing then AppClosing else RequestTimeout));
      calls := calls[c := calls[c].(pc := Leaving(Refused(why)))];
      run := run + [CallStep(c, CallAct.GiveUp(closing))];
    }

    /** `resp, ok := <-cc.respChan` and what is made of it. */
    method Receive(c: Call) returns (reply: Option<Response>)
      requires Valid() && c in calls && calls[c].pc.Waiting? && calls[c].chan.CanRecv()
      modifies this
      ensures Valid() && run == old(run) + [CallStep(c, CallAct.Receive)]
      ensures Now() == CallApply(old(Now()), c, CallAct.Receive)
      ensures reply == old(calls)[c].chan.Head()
    {
      ReachesSnoc(Init(capacity), run, Now(), CallStep(c, CallAct.Receive));
      var rec := calls[c];
      reply := rec.chan.Head();
      var answer;
      if reply.None? {
        answer := Refused(Base(Offline));
      } else if reply.value.code != rec.expected {
        answer := Refused(CodeToError(rec.op, reply.value.code));
      } else {
        answer := Got(reply.value.payload);
      }
      calls := calls[c := rec.(pc := Leaving(answer), chan := rec.chan.Recv())];
      run := run + [CallStep(c, CallAct.Receive)];
    }

    /** The deferred `sc.pendingResponses.Delete(msgId)`, and the return. */
    method Leave(c: Call) returns (answer: Answer)
      requires Valid() && c in calls && calls[c].pc.Leaving?
      modifies this
      ensures Valid() && run == old(run) + [CallStep(c, CallAct.Leave)]
      ensures Now() == CallApply(old(Now()), c, CallAct.Leave)
      ensures answer == old(calls)[c].pc.result
    {
      ReachesSnoc(Init(capacity), run, Now(), CallStep(c, CallAct.Leave));
      answer := calls[c].pc.result;
      pendingResponses := pendingResponses - {calls[c].id};
      calls := calls[c := calls[c].(pc := Finished(answer))];
      run := run + [CallStep(c, CallAct.Leave)];
    }

    /** The call is still what it was: its operation, its expected code, its id. */
    predicate SameCall(c: Call, rec: CallRec)
      reads this
    {
      c in calls && calls[c].op == rec.op && calls[c].expected == rec.expected && calls[c].id == rec.id
    }

    /** checkResp: two selects, each of which the context may end; `w.patience` is how long it lasts. */
    method CheckResp(c: Call, w: World) returns (course: Course)
      requires Valid() && c in calls && calls[c].pc.Enqueueing?
      modifies this
      ensures Valid() && old(run) <= run && SameCall(c, old(calls)[c])
      ensures old(sendMsgs).CanSend() ==> !course.NoRoom?
      ensures calls[c].pc == Leaving(AnswerFor(course, calls[c].op, calls[c].expected)) && !course.NotOnline?
      ensures Decided(course, c, Now())
    {
      var turn := 0;
      while turn < w.patience && !sendMsgs.CanSend()
        invariant Valid() && old(run) <= run && SameCall(c, old(calls)[c]) && calls[c].pc.Enqueueing?
        invariant old(sendMsgs).CanSend() ==> sendMsgs.CanSend()
      {
        Interfere(Caller(c), w.others(turn));
        turn := turn + 1;
      }
      if !sendMsgs.CanSend() {
        GiveUp(c, false);
        course := NoRoom;
      } else {
        Enqueue(c);
        course := AwaitReply(c, w);
      }
    }

    method AwaitReply(c: Call, w: World) returns (course: Course)
      requires Valid() && c in calls && calls[c].pc.Waiting? && Message(calls[c].id, false) in log.enqueued
      modifies this
      ensures Valid() && old(run) <= run && SameCall(c, old(calls)[c])
      ensures course.Answered? || course.TimedOut? || course.AppClosed?
      ensures calls[c].pc == Leaving(AnswerFor(course, calls[c].op, calls[c].expected))
      ensures Decided(course, c, Now())
    {
      var turn := 0;
      while turn < w.patience && !calls[c].chan.CanRecv() && !closed
        invariant Valid() && old(run) <= run && SameCall(c, old(calls)[c]) && calls[c].pc.Waiting?
        invariant Message(calls[c].id, false) in log.enqueued
      {
        Interfere(Caller(c), w.others(turn));
        turn := turn + 1;
      }
      if calls[c].chan.CanRecv() {
        var reply := Receive(c);
        course := Answered(reply);
      } else if closed {
        GiveUp(c, true);
        course := AppClosed;
      } else {
        GiveUp(c, false);
        course := TimedOut;
      }
    }

    /** A call that is over, or has not begun, is registered nowhere. */
    lemma Unregistered(c: Call)
      requires Valid() && (c in calls ==> !calls[c].Active())
      ensures forall id :: id in pendingResponses ==> pendingResponses[id] != c
    {
      Invariant();
    }

    /** A successful answer is a response of the call's own. */
    ghost predicate OwnAnswer(c: Call, expected: nat, answer: Answer)
      reads this
    {
      answer.Got? ==>
        && c in calls && Response(calls[c].id, expected, answer.payload) in log.answers
        && forall d :: d in calls && d != c && Success(calls[d].pc).Some? ==> calls[d].id != calls[c].id
    }

    lemma Correlated(c: Call, answer: Answer)
      requires Valid() && c in calls && calls[c].pc == Finished(answer)
      ensures OwnAnswer(c, calls[c].expected, answer)
    {
      if answer.Got? {
        RepliesAreCorrelated(capacity, run, Now(), c, answer.payload);
      }
    }

    /** The state was passed through on the way here. */
    ghost predicate Passed(s: State)
      reads this
    {
      exists early :: early <= run && Reaches(Init(capacity), early, s)
    }

    /** Online: register, exchange, and run the deferred Delete on the way out. */
    method Exchange(c: Call, w: World) returns (answer: Answer, course: Course, ghost seen: State)
      requires Valid() && c in calls && calls[c].pc.Checked?
      modifies this
      ensures Valid() && old(run) <= run && c in calls && calls[c].pc == Finished(answer)
      ensures calls[c].expected == old(calls)[c].expected && calls[c].op == old(calls)[c].op
      ensures answer == AnswerFor(course, calls[c].op, calls[c].expected) && !course.NotOnline?
      ensures Passed(seen) && Decided(course, c, seen)
    {
      Interfere(Caller(c), w.others(0));
      var id := Store(c);
      Interfere(Caller(c), w.others(1));
      course := CheckResp(c, w);
      seen := Now();
      ghost var early := run;
      Interfere(Caller(c), w.others(2));
      answer := Leave(c);
      assert early <= run && Reaches(Init(capacity), early, seen);
    }

    /**
     * getPayload, sendPayload and sendCommand. Offline: refused on the spot, nothing registered or queued. Otherwise
     * the call ends unregistered, with the answer its course explains: it is refused as timed out only if the queue
     * was full at that moment, or its message had been queued and there was nothing to receive. A payload it returns
     * was carried by a response with its own id and its expected code, an id no other successful call has.
     */
    method Request(c: Call, op: string, expected: nat, w: World)
      returns (answer: Answer, course: Course, ghost seen: State)
      requires Valid() && c !in calls
      modifies this
      ensures Valid() && old(run) <= run && c in calls && calls[c].pc == Finished(answer)
      ensures answer == AnswerFor(course, op, expected) && (course.NotOnline? <==> !old(isOnline))
      ensures course.NotOnline? ==> pendingResponses == old(pendingResponses) && sendMsgs == old(sendMsgs)
      ensures !course.NotOnline? ==> Passed(seen) && Decided(course, c, seen)
      ensures forall id :: id in pendingResponses ==> pendingResponses[id] != c
      ensures OwnAnswer(c, expected, answer)
    {
      var online := Enter(c, op, expected);
      if online {
        answer, course, seen := Exchange(c, w);
      } else {
        answer, course, seen := calls[c].pc.result, NotOnline, Now();
      }
      Unregistered(c);
      Correlated(c, answer);
    }

    /** getPayload: a payload comes only from an own response with the code of a payload. */
    method GetPayload(c: Call, w: World) returns (answer: Answer)
      requires Valid() && c !in calls
      modifies this
      ensures Valid() && old(run) <= run && OwnAnswer(c, 4, answer)
      ensures !old(isOnline) ==> answer == Refused(App("signalingClient.getPayload", Base(Offline)))
    {
      var course;
      ghost var seen;
      answer, course, seen := Request(c, "signalingClient.getPayload", PAYLOAD_SUCCESS, w);
    }

    /** sendPayload and sendCommand: they succeed only on an own response with the code of success. */
    method SendCommand(c: Call, op: string, w: World) returns (answer: Answer)
      requires Valid() && c !in calls
      modifies this
      ensures Valid() && old(run) <= run && OwnAnswer(c, 0, answer)
      ensures !old(isOnline) ==> answer == Refused(App(op, Base(Offline)))
    {
      var course;
      ghost var seen;
      answer, course, seen := Request(c, op, SUCCESS, w);
    }

    // -------------------------------------------------------------------------------------------
    // The reconnect loop

    lemma TableHolds()
      requires Valid()
      ensures TableOk(Now())
    {
      Invariant();
    }

    /** close(respChan): the channel is still open, registered or not, so this cannot panic. */
    method CloseChannel(id: Id)
      requires Valid() && runner.Walking? && runner.current.None? && id in runner.left
      modifies this
      ensures Valid() && old(run) <= run && Onward(old(Now()), Now()) && id in log.used
      ensures runner == old(runner).(left := old(runner).left - {id}, current := Some(id))
    {
      TableHolds();
      TableTear(Now(), CloseReply(id));
      TearPersists(Now(), CloseReply(id));
      ReachesSnoc(Init(capacity), run, Now(), TearStep(CloseReply(id)));
      var c := log.owner[id];
      calls := calls[c := calls[c].(chan := calls[c].chan.Close())];
      runner := runner.(left := runner.left - {id}, current := Some(id));
      run := run + [TearStep(CloseReply(id))];
    }

    /** `sc.pendingResponses.Delete(key)` */
    method DeleteEntry()
      requires Valid() && runner.Walking? && runner.current.Some? && runner.current.value in log.used
      modifies this
      ensures Valid() && old(run) <= run && runner == old(runner).(current := None) && Onward(old(Now()), Now())
      ensures old(runner).current.value !in pendingResponses && old(runner).current.value in log.used
    {
      TearPersists(Now(), Unregister);
      ReachesSnoc(Init(capacity), run, Now(), TearStep(Unregister));
      pendingResponses := pendingResponses - {runner.current.value};
      runner := runner.(current := None);
      run := run + [TearStep(Unregister)];
    }

    /**
     * One turn of the Range callback for an entry already loaded; others run before and after each of its statements.
     */
    method Release(id: Id, w: World, turn: nat)
      requires Valid() && runner.Walking? && runner.current.None? && id in runner.left
      modifies this
      ensures Valid() && old(run) <= run && runner == old(runner).(left := old(runner).left - {id})
      ensures Onward(old(Now()), Now())
      ensures id !in pendingResponses
    {
      ghost var s := Now();
      Interfere(RunLoop, w.others(turn));
      ghost var t := Now();
      CloseChannel(id);
      OnwardTrans(s, t, Now());
      t := Now();
      Interfere(RunLoop, w.others(turn + 1));
      OnwardTrans(s, t, Now());
      t := Now();
      DeleteEntry();
      OnwardTrans(s, t, Now());
      t := Now();
      Interfere(RunLoop, w.others(turn + 2));
      OnwardTrans(s, t, Now());
    }

    /** The Range loop, over the entries present when it started. */
    method Walk(w: World)
      requires Valid() && runner.Walking? && runner.current.None?
      modifies this
      ensures Valid() && old(run) <= run && runner == old(runner).(left := {}) && Onward(old(Now()), Now())
    {
      ghost var s := Now();
      var turn := 0;
      while runner.left != {}
        invariant Valid() && old(run) <= run && runner.Walking? && runner.current.None?
        invariant runner == s.runner.(left := runner.left) && Onward(s, Now())
        decreases runner.left
      {
        ghost var before := Now();
        var id :| id in runner.left;
        Release(id, w, turn);
        OnwardTrans(s, before, Now());
        turn := turn + 3;
      }
    }

    /**
     * clearPendingResponses: every caller that was waiting when the walk began, and still is when it ends,
     * has its channel closed. No channel is closed twice on the way: Do admits no panicking step.
     */
    method ClearPendingResponses(w: World)
      requires Valid() && runner.StartingWalk?
      modifies this
      ensures Valid() && old(run) <= run && runner == GoingOffline(old(runner).cause) && Onward(old(Now()), Now())
      ensures forall d :: d in old(calls) && old(calls)[d].Pending() ==>
        d in calls && (calls[d].Pending() ==> calls[d].chan.closed)
    {
      ghost var s := Now();
      TableHolds();
      Do(TearStep(StartWalk));
      assert runner.todo == s.table.pending.Keys;
      Walk(w);
      TableHolds();
      Released(s, Now());
      Do(TearStep(EndWalk));
    }

    // -------------------------------------------------------------------------------------------

    lemma StatusHolds()
      requires Valid()
      ensures StatusOk(Now())
    {
      Invariant();
    }

    /** quic.DialAddr, and the assignment of its connection. */
    method DialAddr(ok: bool)
      requires Valid() && runner.Dialing?
      modifies this
      ensures Valid() && run == old(run) + [ConnectStep(Dial(ok))] && Now() == ConnectApply(old(Now()), Dial(ok))
    {
      ReachesSnoc(Init(capacity), run, Now(), ConnectStep(Dial(ok)));
      cancelled := false;
      if ok {
        conn := true;
        runner := OpeningStream;
      } else {
        runner := Returned;
      }
      run := run + [ConnectStep(Dial(ok))];
    }

    /** OpenStreamSync, and the coders on that stream. */
    method OpenStream(ok: bool)
      requires Valid() && runner.OpeningStream?
      modifies this
      ensures Valid() && run == old(run) + [ConnectStep(OpenControl(ok))]
      ensures Now() == ConnectApply(old(Now()), OpenControl(ok))
    {
      ReachesSnoc(Init(capacity), run, Now(), ConnectStep(OpenControl(ok)));
      if ok {
        encoder, decoder := Some(log.epochs), Some(log.epochs);
        log := log.(epochs := log.epochs + 1);
        runner := RegSending;
      } else {
        conn := false;
        runner := Returned;
      }
      run := run + [ConnectStep(OpenControl(ok))];
    }

    /** The registration message. */
    method SendRegister(id: Id, reached: bool, ok: bool)
      requires Valid() && CanConnect(Now(), SendRegistration(id, reached, ok))
      modifies this
      ensures Valid() && run == old(run) + [ConnectStep(SendRegistration(id, reached, ok))]
      ensures Now() == ConnectApply(old(Now()), SendRegistration(id, reached, ok))
    {
      ReachesSnoc(Init(capacity), run, Now(), ConnectStep(SendRegistration(id, reached, ok)));
      if reached && encoder.Some? {
        log := log.(wire := log.wire + [Sent(encoder.value, Message(id, true))]);
      }
      log := log.(used := log.used + {id});
      if ok {
        runner := RegWaiting;
      } else {
        conn := false;
        runner := Returned;
      }
      run := run + [ConnectStep(SendRegistration(id, reached, ok))];
    }

    /** A statement from the reply on. */
    method SignOn(act: ConnectAct)
      requires Valid() && CanConnect(Now(), act) && (act.RegistrationReply? || act.ResetBackoff? || act.GoOnline?)
      modifies this
      ensures Valid() && run == old(run) + [ConnectStep(act)] && Now() == ConnectApply(old(Now()), act)
    {
      ReachesSnoc(Init(capacity), run, Now(), ConnectStep(act));
      match act {
        case RegistrationReply(reply, readable) =>
          if reply.Some? && reply.value.code == PAYLOAD_SUCCESS && readable {
            log := log.(accepted := log.accepted + 1);
            runner := Resetting;
          } else {
            conn := false;
            runner := Returned;
          }
        case ResetBackoff =>
          log := log.(resets := log.resets + 1);
          runner := GoingOnline;
        case GoOnline =>
          isOnline := true;
          log := log.(served := log.served + 1);
          workers := Workers(SenderIdle, ReaderIdle, SdpIdle);
          runner := Serving;
      }
      run := run + [ConnectStep(act)];
    }

    /** The same, then the others. */
    method Advance(act: ConnectAct, others: seq<Step>)
      requires Valid() && CanConnect(Now(), act)
      modifies this
      ensures Valid() && old(run) <= run
      ensures runner == ConnectApply(old(Now()), act).runner && Now().status == ConnectApply(old(Now()), act).status
      ensures conn == ConnectApply(old(Now()), act).link.conn
    {
      match act {
        case Dial(ok) => DialAddr(ok);
        case OpenControl(ok) => OpenStream(ok);
        case SendRegistration(id, reached, ok) => SendRegister(id, reached, ok);
        case _ => SignOn(act);
      }
      Interfere(RunLoop, others);
    }

    /** The first half of serveConnection. */
    method Connect(attempt: Attempt, w: World) returns (online: bool)
      requires Valid() && runner.Dialing?
      modifies this
      ensures Valid() && old(run) <= run
      ensures online ==> runner.Serving? && isOnline && log.served == old(log).served + 1
      ensures !online ==> runner.Returned? && isOnline == old(isOnline) && log.served == old(log).served
      ensures log.resets - old(log).resets == log.accepted - old(log).accepted == if online then 1 else 0
      ensures online <==> attempt.Succeeds()
    {
      Advance(Dial(attempt.dialed), w.others(0));
      if !attempt.dialed {
        return false;
      }
      Advance(OpenControl(attempt.streamed), w.others(1));
      if !attempt.streamed {
        return false;
      }
      online := RegisterConnect(attempt, w);
    }

    /**
     * registerConnect from the message on: accepted exactly if it was sent, and the first response decoded has the
     * right code and a payload that can be read. Its id is not looked at.
     */
    method RegisterConnect(attempt: Attempt, w: World) returns (online: bool)
      requires Valid() && runner.RegSending?
      modifies this
      ensures Valid() && old(run) <= run
      ensures online ==> runner.Serving? && isOnline && log.served == old(log).served + 1
      ensures !online ==> runner.Returned? && isOnline == old(isOnline) && log.served == old(log).served
      ensures log.resets - old(log).resets == log.accepted - old(log).accepted == if online then 1 else 0
      ensures online <==> attempt.sent && attempt.Answered()
      ensures !online ==> !conn
    {
      var id := NewId();
      Advance(SendRegistration(id, true, attempt.sent), w.others(2));
      if !attempt.sent {
        return false;
      }
      Advance(RegistrationReply(attempt.reply, attempt.readable), w.others(3));
      if !runner.Resetting? {
        return false;
      }
      StartServing(w);
      online := true;
    }

    /** `b.Reset()` and `sc.isOnline.Store(true)`, then the three workers. */
    method StartServing(w: World)
      requires Valid() && runner.Resetting?
      modifies this
      ensures Valid() && old(run) <= run && runner.Serving? && isOnline && log.served == old(log).served + 1
      ensures log.resets == old(log).resets + 1 && log.accepted == old(log).accepted
    {
      Advance(ResetBackoff, w.others(4));
      Advance(GoOnline, w.others(5));
    }

    /** The second half of serveConnection: from the end of serving to its return, if its workers ever end. */
    method TearDown(cause: Cause, skip: bool, w: World) returns (ended: bool)
      requires Valid() && CanTear(Now(), EndServe(cause)) && (skip ==> closed) && (cause.ByContext? ==> skip)
      modifies this
      ensures Valid() && old(run) <= run && !isOnline
      ensures log.resets == old(log).resets && log.accepted == old(log).accepted && log.served == old(log).served
      ensures if ended then runner.Returned? else runner.Joining? && !CanTear(Now(), Join)
      ensures !skip ==> !conn && encoder.None? && decoder.None?
    {
      StopServing(cause, w);
      CloseConnection(skip);
      ended := WaitForWorkers(w);
    }

    /** Cancelled, cleared, offline. */
    method StopServing(cause: Cause, w: World)
      requires Valid() && CanTear(Now(), EndServe(cause))
      modifies this
      ensures Valid() && old(run) <= run && !isOnline && runner == Hanging(cause) && (old(closed) ==> closed)
      ensures log.resets == old(log).resets && log.accepted == old(log).accepted && log.served == old(log).served
    {
      Do(TearStep(EndServe(cause)));
      Interfere(RunLoop, w.others(0));
      ClearPendingResponses(w);
      Interfere(RunLoop, w.others(1));
      GoOffline();
      Interfere(RunLoop, w.others(2));
    }

    /** `sc.isOnline.Store(false)` */
    method GoOffline()
      requires Valid() && runner.GoingOffline?
      modifies this
      ensures Valid() && run == old(run) + [TearStep(TearAct.GoOffline)]
      ensures Now() == TearApply(old(Now()), TearAct.GoOffline)
    {
      ReachesSnoc(Init(capacity), run, Now(), TearStep(TearAct.GoOffline));
      isOnline := false;
      runner := Hanging(runner.cause);
      run := run + [TearStep(TearAct.GoOffline)];
    }

    /** The connection is closed and forgotten, unless its context is what ended it. */
    method CloseConnection(skip: bool)
      requires Valid() && CanTear(Now(), TearAct.CloseConnection(skip))
      modifies this
      ensures Valid() && run == old(run) + [TearStep(TearAct.CloseConnection(skip))]
      ensures Now() == TearApply(old(Now()), TearAct.CloseConnection(skip))
    {
      ReachesSnoc(Init(capacity), run, Now(), TearStep(TearAct.CloseConnection(skip)));
      if !skip {
        conn, encoder, decoder := false, None, None;
      }
      runner := Joining;
      run := run + [TearStep(TearAct.CloseConnection(skip))];
    }

    /** wg.Wait, then the return. */
    method WaitForWorkers(w: World) returns (ended: bool)
      requires Valid() && runner.Joining?
      modifies this
      ensures Valid() && old(run) <= run && Now().status == old(Now()).status
      ensures conn == old(conn) && encoder == old(encoder) && decoder == old(decoder)
      ensures if ended then runner.Returned? else runner.Joining? && !CanTear(Now(), Join)
    {
      var turn := 0;
      while turn < w.patience && !CanTear(Now(), Join)
        invariant Valid() && old(run) <= run && runner.Joining? && Now().status == old(Now()).status
        invariant conn == old(conn) && encoder == old(encoder) && decoder == old(decoder)
      {
        Interfere(RunLoop, w.others(turn));
        turn := turn + 1;
      }
      ended := CanTear(Now(), Join);
      if ended {
        Do(TearStep(Join));
      }
    }

    /** A served connection with nothing to end it, or one that waits for its workers. */
    predicate StillBusy()
      reads this
    {
      if runner.Serving? then !closed && !WorkerFailed(Now()) else runner.Joining? && !CanTear(Now(), Join)
    }

    /**
     * serveConnection as a whole. Whenever it returns after having served, the client is offline; a failed
     * attempt leaves the flag as it was; the backoff is reset once per accepted registration.
     */
    method ServeConnection(attempt: Attempt, w: World) returns (outcome: Outcome)
      requires Valid() && runner.Dialing?
      modifies this
      ensures Valid() && old(run) <= run
      ensures log.resets - old(log).resets == log.accepted - old(log).accepted == log.served - old(log).served
      ensures outcome == Failed <==> !attempt.Succeeds()
      ensures outcome == Failed ==> runner.Returned? && isOnline == old(isOnline) && log.served == old(log).served
      ensures outcome == Ended ==> runner.Returned? && !isOnline && log.served == old(log).served + 1
      ensures outcome == Unfinished ==> StillBusy()
    {
      var online := Connect(attempt, w);
      if !online {
        return Failed;
      }
      var turn := 0;
      while turn < w.patience && !closed && !WorkerFailed(Now())
        invariant Valid() && old(run) <= run && runner.Serving?
        invariant log.resets - old(log).resets == log.accepted - old(log).accepted == log.served - old(log).served == 1
      {
        Interfere(RunLoop, w.others(turn));
        turn := turn + 1;
      }
      if !closed && !WorkerFailed(Now()) {
        return Unfinished;
      }
      var ended := TearDown(if WorkerFailed(Now()) then ByWorker else ByContext, closed, w);
      outcome := if ended then Ended else Unfinished;
    }

    /** Run: any number of connections in a row; the loop is left only after its context was cancelled. */
    method RunClient(attempts: seq<Attempt>, w: World) returns (exited: bool)
      requires Valid() && runner.Dialing?
      modifies this
      ensures Valid() && old(run) <= run
      ensures exited ==> closed && runner.Exited?
      ensures exited && log.served > 0 ==> !isOnline
      ensures !exited ==> StillBusy() || runner.Dialing?
    {
      for i := 0 to |attempts|
        invariant Valid() && old(run) <= run && runner.Dialing?
      {
        var outcome := ServeConnection(attempts[i], w);
        if outcome == Unfinished {
          return false;
        }
        Do(LoopStep(Return));
        if closed {
          StatusHolds();
          return true;
        }
        Interfere(RunLoop, w.others(i));   // the backoff wait
        if closed {
          Do(LoopStep(Wake(true)));
          StatusHolds();
          return true;
        }
        Do(LoopStep(Wake(false)));
      }
      exited := false;
    }
  }
}
