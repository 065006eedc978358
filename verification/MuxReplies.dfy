/** No reply is lost: what the reader decodes for a waiting caller gets to that caller, and decides its answer. */
module MuxReplies {
  import opened Channels
  import opened Errors
  import opened Mux
  import opened MuxInvariant
  import opened MuxTheorems

  /** The responses with this id, in the order in which they were decoded. */
  function Under(answers: seq<Response>, id: Id): seq<Response> {
    if answers == [] then []
    else
      var before, last := Under(answers[..|answers| - 1], id), answers[|answers| - 1];
      if last.id == id then before + [last] else before
  }

  lemma UnderSnoc(answers: seq<Response>, resp: Response, id: Id)
    ensures Under(answers + [resp], id) == Under(answers, id) + if resp.id == id then [resp] else []
  {
    assert (answers + [resp])[..|answers|] == answers;
  }

  lemma TailSnoc(answers: seq<Response>, resp: Response, n: nat)
    requires n <= |answers|
    ensures (answers + [resp])[n..] == answers[n..] + [resp]
  {
  }

  /** What the reader is about to deliver to this call. */
  function InHand(reader: ReaderPc, c: Call): seq<Response> {
    if reader.Looked? && reader.call == c then [reader.resp] else []
  }

  /** Everything decoded under the call's id since it registered. */
  function Since(rec: CallRec, answers: seq<Response>): seq<Response>
    requires rec.since <= |answers|
  {
    Under(answers[rec.since..], rec.id)
  }

  /** As long as its channel is open, a pending call has it all: in the channel, the last one perhaps still in hand. */
  ghost predicate Unlost(c: Call, rec: CallRec, answers: seq<Response>, reader: ReaderPc) {
    && rec.since <= |answers|
    && (rec.Pending() && !rec.chan.closed ==> Since(rec, answers) == rec.chan.buf + InHand(reader, c))
  }

  ghost predicate AllUnlost(s: State) {
    forall c :: c in s.table.calls ==> Unlost(c, s.table.calls[c], s.answers, s.reader)
  }

  // ---------------------------------------------------------------------------------------------

  lemma UnlostCall(s: State, c: Call, act: CallAct)
    requires TableOk(s) && RepliesOk(s) && AllUnlost(s) && CanCall(s, c, act)
    ensures AllUnlost(CallApply(s, c, act))
  {
    CallOwners(s, c, act);
    if s.reader.Looked? {
      ReaderHolds(s);
    }
    if act.Register? {
      assert s.answers[|s.answers|..] == [];
    }
  }

  lemma UnlostTear(s: State, act: TearAct)
    requires AllUnlost(s) && CanTear(s, act)
    ensures AllUnlost(TearApply(s, act))
  {
  }

  lemma UnlostConnect(s: State, act: ConnectAct)
    requires WorkersOk(s) && AllUnlost(s) && CanConnect(s, act)
    ensures AllUnlost(ConnectApply(s, act))
  {
  }

  /** A decoded response belongs to the call registered under its id, and goes into the reader's hand for it. */
  lemma UnlostRead(s: State, resp: Response)
    requires TableOk(s) && AllUnlost(s) && CanRead(s, Read(resp))
    ensures AllUnlost(ReaderApply(s, Read(resp)))
  {
    var t := ReaderApply(s, Read(resp));
    forall c | c in t.table.calls ensures Unlost(c, t.table.calls[c], t.answers, t.reader) {
      var rec := s.table.calls[c];
      assert Unlost(c, rec, s.answers, s.reader);
      if rec.Pending() && !rec.chan.closed {
        Registered(s, c);
      }
      OneMore(c, rec, s.answers, s.reader, resp, t.reader);
    }
  }

  /** Pending on an open channel: registered under its own id, and nobody else is. */
  lemma Registered(s: State, c: Call)
    requires TableOk(s) && c in s.table.calls && s.table.calls[c].Pending() && !s.table.calls[c].chan.closed
    ensures var rec := s.table.calls[c]; rec.id in s.table.pending && s.table.pending[rec.id] == c
    ensures forall id :: id in s.table.pending && s.table.pending[id] == c ==> id == s.table.calls[c].id
  {
    assert CallOk(c, s.table.calls[c], s.table.pending, s.table.owner, Current(s.runner), s.runner.Tearing(),
                  Target(s.reader));
  }

  lemma OneMore(c: Call, rec: CallRec, answers: seq<Response>, reader: ReaderPc, resp: Response, reader': ReaderPc)
    requires Unlost(c, rec, answers, reader) && !reader.Looked?
    requires rec.Pending() && !rec.chan.closed ==>
      InHand(reader', c) == if resp.id == rec.id then [resp] else []
    ensures Unlost(c, rec, answers + [resp], reader')
  {
    UnderSnoc(answers[rec.since..], resp, rec.id);
    TailSnoc(answers, resp, rec.since);
  }

  lemma UnlostDeliver(s: State)
    requires AllUnlost(s) && CanRead(s, Deliver)
    ensures AllUnlost(ReaderApply(s, Deliver))
  {
    var t := ReaderApply(s, Deliver);
    forall c | c in t.table.calls ensures Unlost(c, t.table.calls[c], t.answers, t.reader) {
      assert Unlost(c, s.table.calls[c], s.answers, s.reader);
    }
  }

  lemma UnlostReader(s: State, act: ReaderAct)
    requires TableOk(s) && AllUnlost(s) && CanRead(s, act)
    ensures AllUnlost(ReaderApply(s, act))
  {
    match act
    case Read(resp) => UnlostRead(s, resp);
    case Deliver => UnlostDeliver(s);
    case _ => UnlostIdle(s, ReaderApply(s, act).reader);
  }

  lemma UnlostIdle(s: State, reader: ReaderPc)
    requires AllUnlost(s) && !s.reader.Looked? && !reader.Looked?
    ensures AllUnlost(s.(reader := reader))
  {
    forall c | c in s.table.calls ensures Unlost(c, s.table.calls[c], s.answers, reader) {
      assert Unlost(c, s.table.calls[c], s.answers, s.reader);
    }
  }

  lemma UnlostStep(s: State, step: Step)
    requires Inv(s) && AllUnlost(s) && Enabled(s, step)
    ensures AllUnlost(Apply(s, step))
  {
    match step
    case CallStep(c, act) => UnlostCall(s, c, act);
    case ConnectStep(act) => UnlostConnect(s, act);
    case TearStep(act) => UnlostTear(s, act);
    case ReaderStep(act) => UnlostReader(s, act);
    case _ => OthersLeaveReplies(s, step); UnlostSame(s, Apply(s, step));
  }

  predicate LeavesReplies(s: State, t: State) {
    t.table == s.table && t.answers == s.answers && t.reader == s.reader
  }

  lemma OthersLeaveReplies(s: State, step: Step)
    requires Enabled(s, step) && (step.SenderStep? || step.SdpStep? || step.LoopStep? || step.CancelContext?)
    ensures LeavesReplies(s, Apply(s, step))
  {
    match step
    case SenderStep(act) => SenderLeavesReplies(s, act);
    case _ =>
  }

  lemma SenderLeavesReplies(s: State, act: SenderAct)
    requires CanSendStep(s, act)
    ensures LeavesReplies(s, SenderApply(s, act))
  {
  }

  lemma UnlostSame(s: State, t: State)
    requires AllUnlost(s) && LeavesReplies(s, t)
    ensures AllUnlost(t)
  {
    forall c | c in t.table.calls ensures Unlost(c, t.table.calls[c], t.answers, t.reader) {
      assert Unlost(c, s.table.calls[c], s.answers, s.reader);
    }
  }

  lemma {:induction false} UnlostRun(s: State, steps: seq<Step>, t: State)
    requires Inv(s) && AllUnlost(s) && Reaches(s, steps, t)
    ensures AllUnlost(t) && Inv(t)
    decreases |steps|
  {
    if steps != [] {
      UnlostStep(s, steps[0]);
      InvStep(s, steps[0]);
      UnlostRun(Apply(s, steps[0]), steps[1..], t);
    }
  }

  lemma ReachableUnlost(capacity: nat, steps: seq<Step>, t: State)
    requires Reaches(Init(capacity), steps, t)
    ensures AllUnlost(t) && Inv(t)
  {
    InvInit(capacity);
    UnlostRun(Init(capacity), steps, t);
  }

  // ---------------------------------------------------------------------------------------------

  /**
   * In every reachable state: whatever was decoded under the id of a pending call since it registered is in its
   * channel, the last one perhaps still in the reader's hand, unless a teardown has closed the channel.
   */
  lemma NoReplyLost(capacity: nat, steps: seq<Step>, t: State, c: Call)
    requires Reaches(Init(capacity), steps, t) && c in t.table.calls
    requires t.table.calls[c].Pending() && !t.table.calls[c].chan.closed
    ensures t.table.calls[c].since <= |t.answers|
    ensures Since(t.table.calls[c], t.answers) == t.table.calls[c].chan.buf + InHand(t.reader, c)
  {
    ReachableUnlost(capacity, steps, t);
  }

  /** So a response for a waiting call with nothing in its channel can be received as soon as it has been delivered. */
  lemma DeliveryArrives(capacity: nat, steps: seq<Step>, t: State)
    requires Reaches(Init(capacity), steps, t) && Enabled(t, ReaderStep(Deliver))
    requires t.table.calls[t.reader.call].pc.Waiting? && !t.table.calls[t.reader.call].chan.closed
    requires t.table.calls[t.reader.call].chan.buf == []
    ensures var c, u := t.reader.call, Apply(t, ReaderStep(Deliver));
      CanCall(u, c, Receive) && u.table.calls[c].chan.Head() == Some(t.reader.resp)
  {
    var c, u := t.reader.call, Apply(t, ReaderStep(Deliver));
    ReachableUnlost(capacity, steps, t);
    assert Unlost(c, t.table.calls[c], t.answers, t.reader);
    UnlostDeliver(t);
    assert Unlost(c, u.table.calls[c], u.answers, u.reader);
  }

  /** What a call gets for the first response decoded for it: the payload exactly with the code it expects. */
  function AnswerTo(rec: CallRec, resp: Response): Answer {
    if resp.code == rec.expected then Got(resp.payload) else Refused(CodeToError(rec.op, resp.code))
  }

  /**
   * What the receive of a waiting call comes to, in every reachable state: on an open channel the first response
   * decoded under its id since it registered decides; on a closed and drained one the call is refused as offline.
   */
  lemma ReceiveDecides(capacity: nat, steps: seq<Step>, t: State, c: Call)
    requires Reaches(Init(capacity), steps, t) && Enabled(t, CallStep(c, Receive))
    ensures var rec, pc := t.table.calls[c], Apply(t, CallStep(c, Receive)).table.calls[c].pc;
      && rec.since <= |t.answers| && pc.Leaving?
      && (!rec.chan.closed ==> Since(rec, t.answers) != [] && pc.result == AnswerTo(rec, Since(rec, t.answers)[0]))
      && (rec.chan.buf == [] ==> rec.chan.closed && pc.result == Refused(Base(Offline)))
      && (rec.chan.buf != [] ==> pc.result == AnswerTo(rec, rec.chan.buf[0]))
  {
    ReachableUnlost(capacity, steps, t);
    ReceiveOf(t, c);
  }

  lemma ReceiveOf(t: State, c: Call)
    requires CanCall(t, c, Receive) && Unlost(c, t.table.calls[c], t.answers, t.reader)
    ensures var rec, pc := t.table.calls[c], CallApply(t, c, Receive).table.calls[c].pc;
      && pc.Leaving?
      && (!rec.chan.closed ==> Since(rec, t.answers) != [] && pc.result == AnswerTo(rec, Since(rec, t.answers)[0]))
      && (rec.chan.buf == [] ==> rec.chan.closed && pc.result == Refused(Base(Offline)))
      && (rec.chan.buf != [] ==> pc.result == AnswerTo(rec, rec.chan.buf[0]))
  {
  }

  /** A run from the start in which a request succeeds: registered, sent, answered, and returned with the payload. */
  lemma {:induction false} RequestSucceeds(payload: Payload) returns (run: seq<Step>, s: State)
    ensures Reaches(Init(1), run, s) && 7 in s.table.calls && s.table.calls[7].pc == Finished(Got(payload))
    ensures DataOf(s.link.wire) == [Message(1, false)] && s.answers == [Response(1, 0, payload)]
    ensures s.status.online && s.table.pending == map[]
  {
    run, s := OneRequest();
    run, s := Sends(run, s);
    run, s := Go(1, run, s, ReaderStep(PassReader));
    run, s := Go(1, run, s, ReaderStep(StartDecode));
    run, s := Go(1, run, s, ReaderStep(Read(Response(1, SUCCESS, payload))));
    run, s := Go(1, run, s, ReaderStep(Deliver));
    run, s := Go(1, run, s, CallStep(7, Receive));
    run, s := Go(1, run, s, CallStep(7, Leave));
  }

  /** The queued request goes out. */
  lemma {:induction false} Sends(run: seq<Step>, s: State) returns (run': seq<Step>, s': State)
    requires Fresh(run, s) && s.queue.sendMsgs.buf == [Message(1, false)] && s.link.wire == [Sent(0, Message(0, true))]
    ensures Reaches(Init(1), run', s') && !s'.panicked && !ConnCancelled(s') && s'.reader.ReaderIdle?
    ensures s'.link.decoder == Some(0) && s'.table == s.table && s'.answers == [] && s'.status == s.status
    ensures DataOf(s'.link.wire) == [Message(1, false)]
  {
    run', s' := Go(1, run, s, SenderStep(Take));
    run', s' := Go(1, run', s', SenderStep(StartEncode));
    DataOfSnoc([], Sent(0, Message(0, true)));
    DataOfSnoc(s.link.wire, Sent(0, Message(1, false)));
    assert s.link.wire == [] + [Sent(0, Message(0, true))];
    run', s' := Go(1, run', s', SenderStep(Encode(true, NoFault)));
  }

  // ---------------------------------------------------------------------------------------------
  // A connection served without a reader

  /** The connection is served on, but its reader has ended without an error. */
  predicate Deaf(s: State) {
    s.runner.Serving? && s.reader == ReaderEnded(false)
  }

  lemma DeafStep(s: State, step: Step)
    requires Enabled(s, step) && Deaf(s) && !(step.TearStep? && step.tearAct.EndServe?)
    ensures Deaf(Apply(s, step)) && Apply(s, step).answers == s.answers
    ensures Apply(s, step).status == s.status
  {
    match step
    case TearStep(act) =>
    case ReaderStep(act) =>
    case ConnectStep(act) =>
    case _ =>
  }

  /** Until the serving ends nothing is decoded any more, while the client reports itself online. */
  lemma {:induction false} DeafUntilLost(s: State, steps: seq<Step>, t: State)
    requires Inv(s) && Reaches(s, steps, t) && Deaf(s)
    requires forall k :: 0 <= k < |steps| ==> !(steps[k].TearStep? && steps[k].tearAct.EndServe?)
    ensures Deaf(t) && t.answers == s.answers && t.status.online
    decreases |steps|
  {
    if steps != [] {
      DeafStep(s, steps[0]);
      InvStep(s, steps[0]);
      assert forall k :: 0 <= k < |steps[1..]| ==> steps[1..][k] == steps[k + 1];
      DeafUntilLost(Apply(s, steps[0]), steps[1..], t);
    }
  }

  /** The serving ends only with the application or on a worker's error, and a benign fault of the reader is none. */
  lemma ServesOnExactly(s: State)
    requires Inv(s) && s.runner.Serving? && !s.panicked
    ensures (exists cause :: Enabled(s, TearStep(EndServe(cause)))) <==>
      s.closed || s.sender == SenderEnded(true) || s.reader == ReaderEnded(true) || s.sdp == SdpEnded(true)
  {
    if s.closed {
      assert Enabled(s, TearStep(EndServe(ByContext)));
    } else if WorkerFailed(s) {
      assert Enabled(s, TearStep(EndServe(ByWorker)));
    }
  }

  /** Such a run: the stream of responses ends, and nothing ends the serving. */
  lemma {:induction false} DeafHappens() returns (run: seq<Step>, s: State)
    ensures Reaches(Init(1), run, s) && Deaf(s) && s.status.online
    ensures forall cause :: !Enabled(s, TearStep(EndServe(cause)))
  {
    run, s := FirstConnection();
    run, s := Go(1, run, s, ReaderStep(PassReader));
    run, s := Go(1, run, s, ReaderStep(StartDecode));
    run, s := Go(1, run, s, ReaderStep(FailRead(Benign)));
  }
}
