/** What holds in every run of the multiplexer, whatever the callers, the network and the server do. */
module MuxTheorems {
  import opened Channels
  import opened Errors
  import opened Sequences
  import opened Mux
  import opened MuxInvariant

  // ---------------------------------------------------------------------------------------------
  // No orphaned callers

  /**
   * A caller waiting for its reply either finds its channel registered under its own id and open, or
   * finds it closed; in the second case its receive cannot block.
   */
  lemma {:induction false} NoOrphan(capacity: nat, steps: seq<Step>, t: State, c: Call)
    requires Reaches(Init(capacity), steps, t)
    requires c in t.table.calls && t.table.calls[c].Pending()
    ensures var rec := t.table.calls[c];
      if rec.chan.closed then rec.chan.CanRecv() else rec.id in t.table.pending && t.table.pending[rec.id] == c
  {
    InvInit(capacity);
    InvRun(Init(capacity), steps, t);
    assert CallOk(c, t.table.calls[c], t.table.pending, t.table.owner, Current(t.runner), t.runner.Tearing(),
                  Target(t.reader));
  }

  /** When the clearing walk ends, everybody who was registered when it began has been released. */
  lemma {:induction false} WalkReleasesEverybody(capacity: nat, steps: seq<Step>, t: State, c: Call)
    requires Reaches(Init(capacity), steps, t) && CanTear(t, EndWalk)
    requires c in t.table.calls && t.table.calls[c].Pending() && t.table.calls[c].id in t.runner.todo
    ensures t.table.calls[c].chan.closed
  {
    InvInit(capacity);
    InvRun(Init(capacity), steps, t);
    NoOrphan(capacity, steps, t, c);
  }

  predicate ByCaller(step: Step, c: Call) {
    step.CallStep? && step.call == c
  }

  /** `rec'` is `rec` after other goroutines were busy: at most more replies behind the first, or a close. */
  predicate Kept(rec: CallRec, rec': CallRec) {
    && rec'.pc == rec.pc && rec'.id == rec.id && (rec.chan.closed ==> rec'.chan.closed)
    && rec'.chan.buf != [] && rec.chan.buf != [] && rec'.chan.buf[0] == rec.chan.buf[0]
  }

  lemma OtherCallerKeeps(s: State, d: Call, act: CallAct, c: Call)
    requires CanCall(s, d, act) && c in s.table.calls && d != c
    ensures c in CallApply(s, d, act).table.calls && CallApply(s, d, act).table.calls[c] == s.table.calls[c]
  {
  }

  lemma TeardownKeeps(s: State, act: TearAct, c: Call)
    requires CanTear(s, act) && c in s.table.calls && s.table.calls[c].chan.buf != []
    ensures c in TearApply(s, act).table.calls && Kept(s.table.calls[c], TearApply(s, act).table.calls[c])
  {
  }

  lemma ReaderKeeps(s: State, act: ReaderAct, c: Call)
    requires CanRead(s, act) && c in s.table.calls && s.table.calls[c].chan.buf != []
    ensures c in ReaderApply(s, act).table.calls && Kept(s.table.calls[c], ReaderApply(s, act).table.calls[c])
  {
  }

  lemma ReplyIsKeptStep(s: State, step: Step, c: Call)
    requires Enabled(s, step) && !ByCaller(step, c)
    requires c in s.table.calls && s.table.calls[c].chan.buf != []
    ensures c in Apply(s, step).table.calls && Kept(s.table.calls[c], Apply(s, step).table.calls[c])
  {
    match step
    case CallStep(d, act) => OtherCallerKeeps(s, d, act, c);
    case TearStep(act) => TeardownKeeps(s, act, c);
    case ReaderStep(act) => ReaderKeeps(s, act, c);
    case _ =>
  }

  /** A reply that reached its caller's channel stays receivable, also after a loss has closed the channel. */
  lemma {:induction false} ReplyIsKept(s: State, steps: seq<Step>, t: State, c: Call)
    requires Inv(s) && Reaches(s, steps, t)
    requires forall i :: 0 <= i < |steps| ==> !ByCaller(steps[i], c)
    requires c in s.table.calls && s.table.calls[c].pc.Waiting? && s.table.calls[c].chan.buf != []
    ensures c in t.table.calls && CanCall(t, c, Receive)
    ensures t.table.calls[c].chan.Head() == Some(s.table.calls[c].chan.buf[0])
    decreases |steps|
  {
    if steps != [] {
      var u := Apply(s, steps[0]);
      ReplyIsKeptStep(s, steps[0], c);
      InvStep(s, steps[0]);
      forall i | 0 <= i < |steps[1..]| ensures !ByCaller(steps[1..][i], c) {
        assert steps[1..][i] == steps[i + 1];
      }
      ReplyIsKept(u, steps[1..], t, c);
    }
  }

  // ---------------------------------------------------------------------------------------------
  // The wire

  /**
   * Over all connections: connections follow one another on the wire; the first message on each control
   * stream, and only the first, is a registration; the other messages keep the order in which they were
   * enqueued and none of them goes out twice.
   */
  lemma {:induction false} WireOrder(capacity: nat, steps: seq<Step>, t: State)
    requires Reaches(Init(capacity), steps, t)
    ensures forall j, k :: 0 <= j < k < |t.link.wire| ==> t.link.wire[j].epoch <= t.link.wire[k].epoch
    ensures forall k :: 0 <= k < |t.link.wire| ==>
      (t.link.wire[k].msg.registration <==> !Opened(t.link.wire[..k], t.link.wire[k].epoch))
    ensures Subsequence(DataOf(t.link.wire), t.queue.enqueued)
    ensures NoDuplicates(DataOf(t.link.wire)) && NoDuplicates(t.queue.enqueued)
  {
    InvInit(capacity);
    InvRun(Init(capacity), steps, t);
    DataInOrder(t.queue.sendMsgs.buf, t.queue.enqueued, t.queue.handled, t.sender, DataOf(t.link.wire));
  }

  lemma DataInOrder(buf: seq<Message>, enqueued: seq<Message>, handled: seq<Handled>, sender: SenderPc,
                    data: seq<Message>)
    requires Flow(buf, enqueued, handled, sender, data) && NoDuplicates(enqueued)
    ensures Subsequence(data, enqueued) && NoDuplicates(data)
  {
    ReachedInOrder(handled);
    SubsequenceAppend(data, MsgsOf(handled), Hand(sender) + buf);
    assert enqueued == MsgsOf(handled) + (Hand(sender) + buf);
    SubsequenceNoDuplicates(data, enqueued);
  }

  lemma {:induction false} ReachedInOrder(handled: seq<Handled>)
    ensures Subsequence(ReachedOf(handled), MsgsOf(handled))
  {
    if handled != [] {
      var before, last := handled[..|handled| - 1], handled[|handled| - 1];
      ReachedInOrder(before);
      SubsequenceSkip(ReachedOf(before), MsgsOf(before), last.msg);
      SubsequenceTake(ReachedOf(before), MsgsOf(before), last.msg);
    }
  }

  lemma {:induction false} SubsequenceAppend(a: seq<Message>, b: seq<Message>, rest: seq<Message>)
    requires Subsequence(a, b)
    ensures Subsequence(a, b + rest)
    decreases |rest|
  {
    if rest == [] {
      assert b + rest == b;
    } else {
      var n := |rest| - 1;
      SubsequenceAppend(a, b, rest[..n]);
      SubsequenceSkip(a, b + rest[..n], rest[n]);
      assert b + rest == b + rest[..n] + [rest[n]];
    }
  }

  /** The messages that no encode got onto a control stream. */
  function LostOf(handled: seq<Handled>): seq<Message> {
    if handled == [] then []
    else
      var before, last := LostOf(handled[..|handled| - 1]), handled[|handled| - 1];
      if last.reached then before else before + [last.msg]
  }

  /** The encodes of a run that did not get their message onto the stream. */
  function Losses(steps: seq<Step>): nat {
    if steps == [] then 0
    else
      (if steps[0].SenderStep? && steps[0].senderAct.Encode? && !steps[0].senderAct.reached then 1 else 0)
      + Losses(steps[1..])
  }

  lemma {:induction false} LossesCounted(s: State, steps: seq<Step>, t: State)
    requires Reaches(s, steps, t)
    ensures |LostOf(t.queue.handled)| == |LostOf(s.queue.handled)| + Losses(steps)
    decreases |steps|
  {
    if steps != [] {
      var u := Apply(s, steps[0]);
      LossStep(s, steps[0]);
      LossesCounted(u, steps[1..], t);
    }
  }

  lemma LossStep(s: State, step: Step)
    requires Enabled(s, step)
    ensures |LostOf(Apply(s, step).queue.handled)| == |LostOf(s.queue.handled)| + Losses([step])
  {
    assert [step][1..] == [];
    assert Losses([step][1..]) == 0;
    match step
    case SenderStep(act) =>
      if act.Encode? {
        assert (s.queue.handled + [Handled(s.sender.msg, act.reached)])[..|s.queue.handled|] == s.queue.handled;
      }
    case CallStep(c, act) =>
    case _ =>
  }

  lemma {:induction false} NoneLostMeansAllReached(handled: seq<Handled>)
    requires LostOf(handled) == []
    ensures ReachedOf(handled) == MsgsOf(handled)
  {
    if handled != [] {
      NoneLostMeansAllReached(handled[..|handled| - 1]);
    }
  }

  lemma {:induction false} EachIsReachedOrLost(handled: seq<Handled>)
    ensures |MsgsOf(handled)| == |handled| == |ReachedOf(handled)| + |LostOf(handled)|
    ensures forall k :: 0 <= k < |handled| ==> MsgsOf(handled)[k] == handled[k].msg
  {
    if handled != [] {
      EachIsReachedOrLost(handled[..|handled| - 1]);
    }
  }

  /**
   * No message disappears unnoticed, over all connections: what was enqueued is, in this order, what the sender has
   * dealt with, the message in its hand and the queue; what it has dealt with is on the wire or lost, and as many are
   * lost as encodes in the run did not reach their stream. If each one did, wire, hand and queue are all there is.
   */
  lemma {:induction false} WireConservation(capacity: nat, steps: seq<Step>, t: State)
    requires Reaches(Init(capacity), steps, t)
    ensures t.queue.enqueued == MsgsOf(t.queue.handled) + Hand(t.sender) + t.queue.sendMsgs.buf
    ensures DataOf(t.link.wire) == ReachedOf(t.queue.handled)
    ensures |t.queue.handled| == |DataOf(t.link.wire)| + Losses(steps)
    ensures Losses(steps) == 0 ==> DataOf(t.link.wire) + Hand(t.sender) + t.queue.sendMsgs.buf == t.queue.enqueued
  {
    InvInit(capacity);
    InvRun(Init(capacity), steps, t);
    LossesCounted(Init(capacity), steps, t);
    EachIsReachedOrLost(t.queue.handled);
    if Losses(steps) == 0 {
      NoneLostMeansAllReached(t.queue.handled);
    }
  }

  // ---------------------------------------------------------------------------------------------
  // Replies

  lemma WinnersDiffer(calls: map<Call, CallRec>, owner: map<Id, Call>, answers: seq<Response>, reader: ReaderPc,
                      c: Call)
    requires Replies(calls, owner, answers, reader) && c in calls && Success(calls[c].pc).Some?
    ensures Response(calls[c].id, calls[c].expected, Success(calls[c].pc).value) in answers
    ensures forall d :: d in calls && d != c && Success(calls[d].pc).Some? ==> calls[d].id != calls[c].id
  {
    assert ReplyOk(c, calls[c], owner, answers, Target(reader));
    forall d | d in calls && d != c && Success(calls[d].pc).Some? ensures calls[d].id != calls[c].id {
      assert ReplyOk(d, calls[d], owner, answers, Target(reader));
    }
  }

  /**
   * A successful caller returns the payload of a response that carries its own id and the code it
   * expects, and no two successful callers share an id.
   */
  lemma {:induction false} RepliesAreCorrelated(capacity: nat, steps: seq<Step>, t: State, c: Call, payload: Payload)
    requires Reaches(Init(capacity), steps, t)
    requires c in t.table.calls && t.table.calls[c].pc == Finished(Got(payload))
    ensures Response(t.table.calls[c].id, t.table.calls[c].expected, payload) in t.answers
    ensures forall d :: d in t.table.calls && d != c && Success(t.table.calls[d].pc).Some? ==>
      t.table.calls[d].id != t.table.calls[c].id
  {
    InvInit(capacity);
    InvRun(Init(capacity), steps, t);
    WinnersDiffer(t.table.calls, t.table.owner, t.answers, t.reader, c);
  }

  function TimesSent(data: seq<Message>, id: Id): nat {
    if data == [] then 0
    else TimesSent(data[..|data| - 1], id) + if data[|data| - 1].id == id then 1 else 0
  }

  lemma {:induction false} SentAtMostOnce(data: seq<Message>, id: Id)
    requires NoDuplicates(data) && forall m :: m in data ==> !m.registration
    ensures TimesSent(data, id) <= 1
    ensures Message(id, false) !in data ==> TimesSent(data, id) == 0
  {
    if data != [] {
      var before, last := data[..|data| - 1], data[|data| - 1];
      assert data == before + [last];
      assert forall m :: m in before ==> m in data;
      SentAtMostOnce(before, id);
      if last.id == id {
        assert last == Message(id, false);
        assert forall i :: 0 <= i < |before| ==> data[i] == before[i];
      }
    }
  }

  lemma {:induction false} DataIsNoRegistration(wire: seq<Sent>)
    ensures forall m :: m in DataOf(wire) ==> !m.registration
  {
    if wire != [] {
      DataIsNoRegistration(wire[..|wire| - 1]);
    }
  }

  /**
   * If the server has answered the reader's current id no more often than that id was sent, the reply
   * channel in the reader's hand is empty, so the delivery cannot block. It rests on WireOrder.
   */
  lemma {:induction false} ReaderNeverBlocks(capacity: nat, steps: seq<Step>, t: State)
    requires Reaches(Init(capacity), steps, t) && !t.panicked && t.reader.Looked?
    requires CountId(t.answers, t.reader.resp.id) <= TimesSent(DataOf(t.link.wire), t.reader.resp.id)
    ensures Enabled(t, ReaderStep(Deliver)) && t.table.calls[t.reader.call].chan.buf == []
  {
    InvInit(capacity);
    InvRun(Init(capacity), steps, t);
    WireOrder(capacity, steps, t);
    DataIsNoRegistration(t.link.wire);
    SentAtMostOnce(DataOf(t.link.wire), t.reader.resp.id);
    var c := t.reader.call;
    assert ReplyOk(c, t.table.calls[c], t.table.owner, t.answers, Target(t.reader));
    assert CallOk(c, t.table.calls[c], t.table.pending, t.table.owner, Current(t.runner), t.runner.Tearing(),
                  Target(t.reader));
  }

  // ---------------------------------------------------------------------------------------------
  // The online flag

  /**
   * After the first connection the flag is up only while a connection is served or still being torn
   * down; resets of the backoff match accepted registrations; the loop ends only with its context.
   */
  lemma {:induction false} OnlineMeansServed(capacity: nat, steps: seq<Step>, t: State)
    requires Reaches(Init(capacity), steps, t)
    ensures t.status.served > 0 && t.status.online ==> t.runner.Working()
    ensures t.status.served > 0 && (t.runner.Hanging? || t.runner.Joining? || !t.runner.Working()) ==> !t.status.online
    ensures !t.runner.Resetting? ==> t.status.resets == t.status.accepted
    ensures t.runner.Resetting? ==> t.status.resets + 1 == t.status.accepted
    ensures t.runner.Exited? ==> t.closed
  {
    InvInit(capacity);
    InvRun(Init(capacity), steps, t);
  }

  /** Before the first registration the flag is up although nothing is connected. */
  lemma {:induction false} OnlineBeforeFirstRegistration(capacity: nat, steps: seq<Step>, t: State)
    requires Reaches(Init(capacity), steps, t) && t.status.accepted == 0
    ensures t.status.online
  {
    InvInit(capacity);
    InvRun(Init(capacity), steps, t);
  }

  /** What may have been added since offline state `s`: only by callers that were past the check in `s`. */
  ghost predicate OnlyOldCallers(s: State, t: State) {
    && !t.status.online
    && s.table.calls.Keys <= t.table.calls.Keys
    && (forall c :: c in t.table.calls && c !in s.table.calls ==>
          t.table.calls[c].pc == Finished(Refused(App(t.table.calls[c].op, Base(Offline)))))
    && (forall id :: id in t.table.owner && id !in s.table.owner ==> t.table.owner[id] in s.table.calls)
    && (forall id :: id in t.table.pending ==> t.table.pending[id] in s.table.calls)
    && |s.queue.enqueued| <= |t.queue.enqueued|
    && (forall i :: |s.queue.enqueued| <= i < |t.queue.enqueued| ==>
          t.queue.enqueued[i].id in t.table.owner && t.table.owner[t.queue.enqueued[i].id] in s.table.calls)
  }

  /** A message enqueued in the window is one of an old caller. */
  lemma WindowEnqueue(s: State, t: State, c: Call)
    requires Inv(t) && OnlyOldCallers(s, t) && CanCall(t, c, Enqueue)
    ensures OnlyOldCallers(s, CallApply(t, c, Enqueue))
  {
    var u := CallApply(t, c, Enqueue);
    assert CallOk(c, t.table.calls[c], t.table.pending, t.table.owner, Current(t.runner), t.runner.Tearing(),
                  Target(t.reader));
    assert c in s.table.calls && t.table.owner[t.table.calls[c].id] == c;
    forall i | |s.queue.enqueued| <= i < |u.queue.enqueued|
      ensures u.queue.enqueued[i].id in u.table.owner && u.table.owner[u.queue.enqueued[i].id] in s.table.calls
    {
      if i < |t.queue.enqueued| {
        assert u.queue.enqueued[i] == t.queue.enqueued[i];
      }
    }
  }

  lemma WindowCall(s: State, t: State, c: Call, act: CallAct)
    requires Inv(t) && OnlyOldCallers(s, t) && CanCall(t, c, act)
    ensures OnlyOldCallers(s, CallApply(t, c, act))
  {
    if act.Enqueue? {
      WindowEnqueue(s, t, c);
    } else if act.Register? {
      WindowRegister(s, t, c, act.id);
    } else {
      WindowOther(s, t, c, act);
    }
  }

  lemma WindowRegister(s: State, t: State, c: Call, id: Id)
    requires Inv(t) && OnlyOldCallers(s, t) && CanCall(t, c, Register(id))
    ensures OnlyOldCallers(s, CallApply(t, c, Register(id)))
  {
    assert c in s.table.calls;
    forall i | |s.queue.enqueued| <= i < |t.queue.enqueued| ensures t.queue.enqueued[i].id in t.table.used {
    }
  }

  lemma WindowOther(s: State, t: State, c: Call, act: CallAct)
    requires OnlyOldCallers(s, t) && CanCall(t, c, act) && !act.Enqueue? && !act.Register? && TableOk(t)
    ensures OnlyOldCallers(s, CallApply(t, c, act))
  {
  }

  /** Steps that move no caller and register nobody. */
  ghost predicate LeavesCallers(t: State, u: State) {
    && (u.status.online ==> t.status.online) && u.queue.enqueued == t.queue.enqueued
    && u.table.owner == t.table.owner && u.table.calls.Keys == t.table.calls.Keys
    && (forall id :: id in u.table.pending ==> id in t.table.pending && u.table.pending[id] == t.table.pending[id])
    && (forall c :: c in t.table.calls ==>
          u.table.calls[c].pc == t.table.calls[c].pc && u.table.calls[c].op == t.table.calls[c].op)
  }

  lemma WindowKept(s: State, t: State, u: State)
    requires OnlyOldCallers(s, t) && LeavesCallers(t, u)
    ensures OnlyOldCallers(s, u)
  {
    forall c | c in u.table.calls && c !in s.table.calls
      ensures u.table.calls[c].pc == Finished(Refused(App(u.table.calls[c].op, Base(Offline))))
    {
      assert c in t.table.calls;
    }
  }

  lemma TearLeavesCallers(t: State, act: TearAct)
    requires CanTear(t, act)
    ensures LeavesCallers(t, TearApply(t, act))
  {
  }

  lemma ReaderLeavesCallers(t: State, act: ReaderAct)
    requires CanRead(t, act)
    ensures LeavesCallers(t, ReaderApply(t, act))
  {
  }

  lemma ConnectLeavesCallers(t: State, act: ConnectAct)
    requires CanConnect(t, act) && !act.GoOnline?
    ensures LeavesCallers(t, ConnectApply(t, act))
  {
  }

  lemma StepLeavesCallers(t: State, step: Step)
    requires Enabled(t, step) && !step.CallStep? && step != ConnectStep(GoOnline)
    ensures LeavesCallers(t, Apply(t, step))
  {
    match step
    case ConnectStep(act) => ConnectLeavesCallers(t, act);
    case TearStep(act) => TearLeavesCallers(t, act);
    case ReaderStep(act) => ReaderLeavesCallers(t, act);
    case _ =>
  }

  lemma WindowStep(s: State, t: State, step: Step)
    requires Inv(t) && OnlyOldCallers(s, t) && Enabled(t, step) && step != ConnectStep(GoOnline)
    ensures OnlyOldCallers(s, Apply(t, step))
  {
    if step.CallStep? {
      WindowCall(s, t, step.call, step.callAct);
    } else {
      StepLeavesCallers(t, step);
      WindowKept(s, t, Apply(t, step));
    }
  }

  /**
   * While the client is offline, in every run up to the next connection: each request begun is refused
   * with the offline error and leaves no trace in the table or the queue.
   */
  lemma {:induction false} OfflineWindow(s: State, u: State, steps: seq<Step>, t: State)
    requires Inv(u) && OnlyOldCallers(s, u) && Reaches(u, steps, t)
    requires forall i :: 0 <= i < |steps| ==> steps[i] != ConnectStep(GoOnline)
    ensures OnlyOldCallers(s, t)
    decreases |steps|
  {
    if steps != [] {
      WindowStep(s, u, steps[0]);
      InvStep(u, steps[0]);
      forall i | 0 <= i < |steps[1..]| ensures steps[1..][i] != ConnectStep(GoOnline) {
        assert steps[1..][i] == steps[i + 1];
      }
      OfflineWindow(s, Apply(u, steps[0]), steps[1..], t);
    }
  }

  /** The window opens at the moment the flag goes down. */
  lemma OfflineWindowOpens(s: State)
    requires Inv(s) && !s.status.online
    ensures OnlyOldCallers(s, s)
  {
    forall id | id in s.table.pending ensures s.table.pending[id] in s.table.calls {
    }
  }

  // ---------------------------------------------------------------------------------------------
  // Panics

  /**
   * What a worker must not do: call a method on a coder or a connection that was set to nil, or send on a closed reply
   * channel. A call that began before the assignment returns as usual.
   */
  predicate Hazard(s: State, step: Step) {
    match step
    case SenderStep(StartEncode) => s.link.encoder.None?
    case ReaderStep(StartDecode) => s.link.decoder.None?
    case SdpStep(StartAccept) => !s.link.conn
    case ReaderStep(Deliver) =>
      s.reader.Looked? && s.reader.call in s.table.calls && s.table.calls[s.reader.call].chan.closed
    case _ => false
  }

  lemma NilPanic(s: State, step: Step)
    requires LinkOk(s) && Enabled(s, step) && (step.SenderStep? || step.ReaderStep? || step.SdpStep?)
    requires step != ReaderStep(Deliver)
    ensures Apply(s, step).panicked <==> Hazard(s, step)
    ensures Hazard(s, step) ==> s.runner.Joining?
  {
  }

  lemma DeliveryPanic(s: State)
    requires TableOk(s) && Enabled(s, ReaderStep(Deliver))
    ensures ReaderApply(s, Deliver).panicked <==> Hazard(s, ReaderStep(Deliver))
    ensures Hazard(s, ReaderStep(Deliver)) ==> s.runner.Tearing()
  {
    var c := s.reader.call;
    assert CallOk(c, s.table.calls[c], s.table.pending, s.table.owner, Current(s.runner), s.runner.Tearing(),
                  Target(s.reader));
  }

  /**
   * Exactly when a step panics. No reply channel is ever closed twice, and nothing panics while a connection
   * is being served: each hazard needs a teardown in progress, a nil coder or connection its last stage.
   */
  lemma {:induction false} PanicsExactlyOnHazards(capacity: nat, steps: seq<Step>, t: State, step: Step)
    requires Reaches(Init(capacity), steps, t) && Enabled(t, step)
    ensures Apply(t, step).panicked <==> Hazard(t, step)
    ensures Hazard(t, step) ==> t.runner.Tearing() && (step == ReaderStep(Deliver) || t.runner.Joining?)
  {
    InvInit(capacity);
    InvRun(Init(capacity), steps, t);
    PanicStep(t, step);
  }

  lemma PanicStep(t: State, step: Step)
    requires Inv(t) && Enabled(t, step)
    ensures Apply(t, step).panicked <==> Hazard(t, step)
    ensures Hazard(t, step) ==> t.runner.Tearing() && (step == ReaderStep(Deliver) || t.runner.Joining?)
  {
    match step
    case CallStep(c, act) => CallsDoNotPanic(t, c, act);
    case ConnectStep(act) => ConnectingDoesNotPanic(t, act);
    case TearStep(act) => TableTear(t, act);
    case ReaderStep(act) =>
      if act.Deliver? {
        DeliveryPanic(t);
      } else {
        NilPanic(t, step);
      }
    case SenderStep(_) => NilPanic(t, step);
    case SdpStep(_) => NilPanic(t, step);
    case _ =>
  }

  lemma CallsDoNotPanic(t: State, c: Call, act: CallAct)
    requires CanCall(t, c, act)
    ensures CallApply(t, c, act).panicked == t.panicked
  {
  }

  lemma ConnectingDoesNotPanic(t: State, act: ConnectAct)
    requires CanConnect(t, act)
    ensures ConnectApply(t, act).panicked == t.panicked
  {
  }

  /** One more step at the end of a run. */
  lemma {:induction false} ReachesSnoc(s: State, steps: seq<Step>, t: State, step: Step)
    requires Reaches(s, steps, t) && Enabled(t, step)
    ensures Reaches(s, steps + [step], Apply(t, step))
  {
    assert Reaches(t, [step], Apply(t, step)) by {
      assert [step][1..] == [];
    }
    ReachesTrans(s, steps, t, [step], Apply(t, step));
  }

  lemma {:induction false} Go(capacity: nat, run: seq<Step>, s: State, step: Step) returns (run': seq<Step>, s': State)
    requires Reaches(Init(capacity), run, s) && Enabled(s, step)
    ensures run' == run + [step] && s' == Apply(s, step) && Reaches(Init(capacity), run', s')
  {
    ReachesSnoc(Init(capacity), run, s, step);
    run', s' := run + [step], Apply(s, step);
  }

  /** Online on its first connection, nothing pending, every worker at the top of its loop. */
  ghost predicate Fresh(run: seq<Step>, s: State) {
    && Reaches(Init(1), run, s) && !s.panicked && !ConnCancelled(s) && s.runner.Serving?
    && s.sender.SenderIdle? && s.reader.ReaderIdle? && s.sdp.SdpIdle?
    && s.link.conn && s.link.encoder == s.link.decoder == Some(0) && s.answers == []
  }

  /** A client with room for one message after a successful dial, with the registration under id 0 on the wire. */
  lemma {:induction false} Registering() returns (run: seq<Step>, s: State)
    ensures Reaches(Init(1), run, s) && s.runner.RegWaiting? && s.link == Link(true, Some(0), Some(0), 1, s.link.wire)
    ensures s.link.wire == [Sent(0, Message(0, true))] && s.table == Init(1).table.(used := {0})
    ensures s.queue == Init(1).queue && s.status == Init(1).status && !s.panicked && !ConnCancelled(s)
    ensures s.answers == []
  {
    run, s := [], Init(1);
    run, s := Go(1, run, s, ConnectStep(Dial(true)));
    run, s := Go(1, run, s, ConnectStep(OpenControl(true)));
    run, s := Go(1, run, s, ConnectStep(SendRegistration(0, true, true)));
  }

  /** Its registration is accepted. */
  lemma {:induction false} FirstConnection() returns (run: seq<Step>, s: State)
    ensures Fresh(run, s) && s.status.online && s.status.served == 1 && s.link.wire == [Sent(0, Message(0, true))]
    ensures s.table == Init(1).table.(used := {0}) && s.queue == Init(1).queue
  {
    run, s := Registering();
    run, s := Go(1, run, s, ConnectStep(RegistrationReply(Some(Response(0, PAYLOAD_SUCCESS, [])), true)));
    run, s := Go(1, run, s, ConnectStep(ResetBackoff));
    run, s := Go(1, run, s, ConnectStep(GoOnline));
  }

  /** The same with one request queued. */
  lemma {:induction false} OneRequest() returns (run: seq<Step>, s: State)
    ensures Fresh(run, s) && s.queue.sendMsgs.buf == [Message(1, false)]
    ensures s.link.wire == [Sent(0, Message(0, true))] && s.status.online
    ensures s.table.pending == s.table.owner == map[1 := 7]
    ensures s.table.calls == map[7 := CallRec("", SUCCESS, Waiting, 1, Make(1), 0)]
  {
    run, s := FirstConnection();
    run, s := Go(1, run, s, CallStep(7, Begin("", SUCCESS)));
    run, s := Go(1, run, s, CallStep(7, Register(1)));
    run, s := Go(1, run, s, CallStep(7, Enqueue));
  }

  /** Teardown after a failed accept, up to the first turn of the walk over the one pending request. */
  lemma {:induction false} BeginWalk(run: seq<Step>, s: State) returns (run': seq<Step>, s': State)
    requires Reaches(Init(1), run, s) && !s.panicked && !ConnCancelled(s) && s.runner.Serving?
    requires s.sdp.SdpIdle? && s.link.conn && s.table.pending.Keys == {1}
    ensures Reaches(Init(1), run', s') && !s'.panicked && s'.runner == Walking(ByWorker, {1}, {1}, None)
    ensures s'.table == s.table && s'.queue == s.queue && s'.link == s.link && s'.sdp.SdpEnded?
    ensures s'.sender == s.sender && s'.reader == s.reader
  {
    run', s' := Go(1, run, s, SdpStep(PassSdp));
    run', s' := Go(1, run', s', SdpStep(StartAccept));
    run', s' := Go(1, run', s', SdpStep(FailSdp(Fatal)));
    run', s' := Go(1, run', s', TearStep(EndServe(ByWorker)));
    run', s' := Go(1, run', s', TearStep(StartWalk));
  }

  /** And up to the close of its channel. */
  lemma {:induction false} LoseConnection(run: seq<Step>, s: State) returns (run': seq<Step>, s': State)
    requires Reaches(Init(1), run, s) && !s.panicked && !ConnCancelled(s) && s.runner.Serving?
    requires s.sdp.SdpIdle? && s.link.conn
    requires s.table.pending == s.table.owner == map[1 := 7] && 7 in s.table.calls && !s.table.calls[7].chan.closed
    ensures Reaches(Init(1), run', s') && !s'.panicked && s'.runner == Walking(ByWorker, {1}, {}, Some(1))
    ensures s'.table == s.table.(calls := s.table.calls[7 := s.table.calls[7].(chan := s.table.calls[7].chan.Close())])
    ensures s'.queue == s.queue && s'.link == s.link && s'.sender == s.sender && s'.reader == s.reader
  {
    assert s.table.pending.Keys == {1};
    run', s' := BeginWalk(run, s);
    run', s' := Go(1, run', s', TearStep(CloseReply(1)));
  }

  /** From the end of the walk until connection and coders are forgotten and only the workers are waited for. */
  lemma {:induction false} Forget(run: seq<Step>, s: State) returns (run': seq<Step>, s': State)
    requires Reaches(Init(1), run, s) && !s.panicked && s.runner.Walking? && s.runner.cause.ByWorker?
    requires s.runner.current.None? && s.table.pending == map[]
    ensures Reaches(Init(1), run', s') && !s'.panicked && s'.runner.Joining? && s'.queue == s.queue
    ensures s'.link == s.link.(conn := false, encoder := None, decoder := None)
    ensures s'.sender == s.sender && s'.reader == s.reader && s'.sdp == s.sdp
  {
    run', s' := Go(1, run, s, TearStep(EndWalk));
    run', s' := Go(1, run', s', TearStep(GoOffline));
    run', s' := Go(1, run', s', TearStep(CloseConnection(false)));
  }

  /**
   * The teardown window is real, first case: a sender that still picks up a message after the encoder
   * was set to nil panics.
   */
  lemma {:induction false} SenderCanPanic() returns (run: seq<Step>, s: State)
    ensures Reaches(Init(1), run, s) && s.panicked && s.runner.Joining? && s.sender.Holding?
  {
    run, s := OneRequest();
    run, s := LoseConnection(run, s);
    run, s := Go(1, run, s, TearStep(Unregister));
    run, s := Forget(run, s);
    run, s := Go(1, run, s, SenderStep(Take));
    run, s := Go(1, run, s, SenderStep(StartEncode));
  }

  /** The sender fails on its first message; reader and SDP worker are wherever they were. */
  lemma {:induction false} SenderFails(run: seq<Step>, s: State) returns (run': seq<Step>, s': State)
    requires Reaches(Init(1), run, s) && !s.panicked && s.runner.Serving? && s.sender.SenderIdle?
    requires s.link.encoder == Some(0) && s.queue.sendMsgs.buf != [] && s.table.pending.Keys == {1}
    ensures Reaches(Init(1), run', s') && !s'.panicked && s'.runner == Walking(ByWorker, {1}, {1}, None)
    ensures s'.table == s.table && s'.link == s.link && s'.reader == s.reader && s'.sdp == s.sdp
  {
    run', s' := Go(1, run, s, SenderStep(Take));
    run', s' := Go(1, run', s', SenderStep(StartEncode));
    run', s' := Go(1, run', s', SenderStep(Encode(false, Fatal)));
    run', s' := Go(1, run', s', TearStep(EndServe(ByWorker)));
    run', s' := Go(1, run', s', TearStep(StartWalk));
  }

  /** The same to the point where the workers are waited for: the request's caller has gone, its entry with it. */
  lemma {:induction false} SenderFailsToTheEnd(run: seq<Step>, s: State) returns (run': seq<Step>, s': State)
    requires Reaches(Init(1), run, s) && !s.panicked && s.runner.Serving? && s.sender.SenderIdle?
    requires s.link.encoder == Some(0) && s.queue.sendMsgs.buf != []
    requires s.table.pending == s.table.owner == map[1 := 7] && 7 in s.table.calls && !s.table.calls[7].chan.closed
    ensures Reaches(Init(1), run', s') && !s'.panicked && s'.runner.Joining? && !s'.link.conn && s'.link.decoder.None?
    ensures s'.reader == s.reader && s'.sdp == s.sdp
  {
    assert s.table.pending.Keys == {1};
    run', s' := SenderFails(run, s);
    run', s' := Go(1, run', s', TearStep(CloseReply(1)));
    run', s' := Go(1, run', s', TearStep(Unregister));
    run', s' := Forget(run', s');
  }

  /** Second case: a reader that has passed its select before the loss, and uses the decoder after it. */
  lemma {:induction false} ReaderCanPanic() returns (run: seq<Step>, s: State)
    ensures Reaches(Init(1), run, s) && s.panicked && s.runner.Joining? && s.reader.ReaderPassed?
  {
    run, s := OneRequest();
    run, s := Go(1, run, s, ReaderStep(PassReader));
    run, s := SenderFailsToTheEnd(run, s);
    run, s := Go(1, run, s, ReaderStep(StartDecode));
  }

  /** Third case: the worker for SDP messages has passed its select, and accepts on the connection that is gone. */
  lemma {:induction false} SdpCanPanic() returns (run: seq<Step>, s: State)
    ensures Reaches(Init(1), run, s) && s.panicked && s.runner.Joining? && s.sdp.SdpPassed?
  {
    run, s := OneRequest();
    run, s := Go(1, run, s, SdpStep(PassSdp));
    run, s := SenderFailsToTheEnd(run, s);
    run, s := Go(1, run, s, SdpStep(StartAccept));
  }

  /** A call that began before the assignment is harmless: it returns an error. */
  lemma {:induction false} BegunCallReturns() returns (run: seq<Step>, s: State)
    ensures Reaches(Init(1), run, s) && !s.panicked && s.runner.Joining? && !s.link.conn && s.link.decoder.None?
    ensures s.reader == ReaderEnded(true) && s.sdp == SdpEnded(true)
  {
    run, s := OneRequest();
    run, s := Go(1, run, s, ReaderStep(PassReader));
    run, s := Go(1, run, s, ReaderStep(StartDecode));
    run, s := Go(1, run, s, SdpStep(PassSdp));
    run, s := Go(1, run, s, SdpStep(StartAccept));
    run, s := SenderFailsToTheEnd(run, s);
    run, s := Go(1, run, s, ReaderStep(FailRead(Fatal)));
    run, s := Go(1, run, s, SdpStep(FailSdp(Fatal)));
  }

  /**
   * Fourth case: lookup and delivery are two steps of the reader, and the channel may be closed between
   * them.
   */
  lemma {:induction false} DeliveryCanPanic() returns (run: seq<Step>, s: State)
    ensures Reaches(Init(1), run, s) && s.panicked && s.runner.Walking?
  {
    run, s := OneRequest();
    run, s := Go(1, run, s, ReaderStep(PassReader));
    run, s := Go(1, run, s, ReaderStep(StartDecode));
    run, s := Go(1, run, s, ReaderStep(Read(Response(1, SUCCESS, []))));
    run, s := LoseConnection(run, s);
    run, s := Go(1, run, s, ReaderStep(Deliver));
  }

  /**
   * Range may close a channel whose entry its owner has deleted meanwhile; the owner is past its receive then, and
   * nobody is harmed.
   */
  lemma {:induction false} ClosesDeletedEntry() returns (run: seq<Step>, s: State)
    ensures Reaches(Init(1), run, s) && !s.panicked && s.runner == Walking(ByWorker, {1}, {}, Some(1))
    ensures s.table.pending == map[] && 7 in s.table.calls && s.table.calls[7].chan.closed
    ensures s.table.calls[7].pc.Finished?
  {
    run, s := OneRequest();
    assert s.table.pending.Keys == {1};
    run, s := BeginWalk(run, s);
    run, s := Go(1, run, s, CallStep(7, GiveUp(false)));
    run, s := Go(1, run, s, CallStep(7, Leave));
    run, s := Go(1, run, s, TearStep(CloseReply(1)));
  }

  // ---------------------------------------------------------------------------------------------
  // Registration

  ghost predicate NoReply(steps: seq<Step>) {
    forall i :: 0 <= i < |steps| ==> !(steps[i].ConnectStep? && steps[i].connectAct.RegistrationReply?)
  }

  lemma {:induction false} NothingAccepted(s: State, steps: seq<Step>, t: State)
    requires Reaches(s, steps, t) && NoReply(steps)
    ensures t.status.accepted == s.status.accepted
    decreases |steps|
  {
    if steps != [] {
      assert !(steps[0].ConnectStep? && steps[0].connectAct.RegistrationReply?);
      forall i | 0 <= i < |steps[1..]| ensures steps[1..][i] == steps[i + 1] {
      }
      NothingAccepted(Apply(s, steps[0]), steps[1..], t);
    }
  }

  /** It goes online without a further reply. */
  ghost predicate GoesOnline(u: State) {
    exists more, v :: Reaches(u, more, v) && NoReply(more) && v.status.served > u.status.served
  }

  lemma {:induction false} AcceptedGoesOnline(u: State)
    requires !u.panicked && u.runner.Resetting?
    ensures GoesOnline(u)
  {
    var reset, online := ConnectStep(ResetBackoff), ConnectStep(GoOnline);
    var v := Apply(Apply(u, reset), online);
    assert Reaches(u, [reset, online], v) by {
      assert [reset, online][1..] == [online] && [online][1..] == [];
    }
    assert NoReply([reset, online]);
  }

  lemma {:induction false} RefusedStaysOffline(u: State)
    requires Inv(u) && u.status.served == u.status.accepted
    ensures !GoesOnline(u)
  {
    forall more, v | Reaches(u, more, v) && NoReply(more) ensures v.status.served <= u.status.served {
      InvRun(u, more, v);
      NothingAccepted(u, more, v);
    }
  }

  /**
   * The reply to a registration, in every reachable state that waits for one: there is a way online without another
   * one exactly if it was decoded, carries the expected code and readable credentials. Its id does not matter.
   */
  lemma {:induction false} RegistrationExactly(capacity: nat, steps: seq<Step>, t: State, reply: Option<Response>,
                                               readable: bool)
    requires Reaches(Init(capacity), steps, t) && !t.panicked && t.runner.RegWaiting?
    ensures GoesOnline(Apply(t, ConnectStep(RegistrationReply(reply, readable)))) <==>
      reply.Some? && reply.value.code == 4 && readable
  {
    InvInit(capacity);
    InvRun(Init(capacity), steps, t);
    var u := ConnectApply(t, RegistrationReply(reply, readable));
    if Accepts(reply, readable) {
      AcceptedGoesOnline(u);
    } else {
      InvConnect(t, RegistrationReply(reply, readable));
      RefusedStaysOffline(u);
    }
  }

  /** So a response with an id never drawn takes the client online. */
  lemma {:induction false} ForeignReplyAccepted() returns (run: seq<Step>, s: State)
    ensures Reaches(Init(1), run, s)
    ensures ConnectStep(RegistrationReply(Some(Response(5, PAYLOAD_SUCCESS, [])), true)) in run
    ensures s.status.online && s.status.served == 1 && s.runner.Serving?
    ensures s.link.wire == [Sent(0, Message(0, true))] && 5 !in s.table.used
  {
    run, s := Registering();
    var reply := ConnectStep(RegistrationReply(Some(Response(5, PAYLOAD_SUCCESS, [])), true));
    run, s := Go(1, run, s, reply);
    assert reply in run;
    run, s := Go(1, run, s, ConnectStep(ResetBackoff));
    run, s := Go(1, run, s, ConnectStep(GoOnline));
  }
}
