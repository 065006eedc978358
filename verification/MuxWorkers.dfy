/** The three workers of a connection: how each ends, what a cancellation stops, and how the client comes to rest. */
module MuxWorkers {
  import opened Channels
  import opened Errors
  import opened Mux
  import opened MuxInvariant
  import opened MuxTheorems

  // ---------------------------------------------------------------------------------------------
  // How a worker ends

  /** The worker's end that its step brings about, if any: with an error or without. */
  predicate SenderEnds(s: State, t: State, failed: bool) {
    !s.sender.SenderEnded? && t.sender == SenderEnded(failed)
  }

  predicate ReaderEnds(s: State, t: State, failed: bool) {
    !s.reader.ReaderEnded? && t.reader == ReaderEnded(failed)
  }

  predicate SdpEnds(s: State, t: State, failed: bool) {
    !s.sdp.SdpEnded? && t.sdp == SdpEnded(failed)
  }

  /**
   * Exactly how workers end, in every step: reader and SDP worker without an error on a benign fault of their call, the
   * sender never; all three with an error on a fatal fault or once their context is cancelled.
   */
  lemma EndsExactly(s: State, step: Step)
    requires Inv(s) && Enabled(s, step)
    ensures !SenderEnds(s, Apply(s, step), false)
    ensures ReaderEnds(s, Apply(s, step), false) <==> step == ReaderStep(FailRead(Benign))
    ensures SdpEnds(s, Apply(s, step), false) <==> step == SdpStep(FailSdp(Benign))
    ensures SenderEnds(s, Apply(s, step), true) <==>
      step == SenderStep(StopSender) || (step.SenderStep? && step.senderAct.Encode? && step.senderAct.fault.Fatal?)
    ensures ReaderEnds(s, Apply(s, step), true) <==> step in {ReaderStep(FailRead(Fatal)), ReaderStep(StopReader)}
    ensures SdpEnds(s, Apply(s, step), true) <==> step in {SdpStep(FailSdp(Fatal)), SdpStep(StopSdp)}
  {
    match step
    case CallStep(c, act) => CallLeavesWorkers(s, c, act);
    case TearStep(act) => TearLeavesWorkers(s, act);
    case SenderStep(act) => SenderAlone(s, act);
    case ReaderStep(act) => ReaderAlone(s, act);
    case SdpStep(act) => SdpAlone(s, act);
    case ConnectStep(act) => ConnectEndsNobody(s, act);
    case _ =>
  }

  predicate SameWorkers(s: State, t: State) {
    t.sender == s.sender && t.reader == s.reader && t.sdp == s.sdp
  }

  lemma CallLeavesWorkers(s: State, c: Call, act: CallAct)
    requires CanCall(s, c, act)
    ensures SameWorkers(s, CallApply(s, c, act))
  {
  }

  lemma TearLeavesWorkers(s: State, act: TearAct)
    requires CanTear(s, act)
    ensures SameWorkers(s, TearApply(s, act))
  {
  }

  lemma ConnectEndsNobody(s: State, act: ConnectAct)
    requires CanConnect(s, act)
    ensures var t := ConnectApply(s, act);
      SameWorkers(s, t) || (t.sender.SenderIdle? && t.reader.ReaderIdle? && t.sdp.SdpIdle?)
  {
  }

  lemma SenderAlone(s: State, act: SenderAct)
    requires CanSendStep(s, act)
    ensures SenderApply(s, act).reader == s.reader && SenderApply(s, act).sdp == s.sdp
    ensures SenderApply(s, act).sender != SenderEnded(false)
    ensures SenderApply(s, act).sender == SenderEnded(true) <==> act.StopSender? || (act.Encode? && act.fault.Fatal?)
  {
  }

  lemma ReaderAlone(s: State, act: ReaderAct)
    requires CanRead(s, act)
    ensures ReaderApply(s, act).sender == s.sender && ReaderApply(s, act).sdp == s.sdp && !s.reader.ReaderEnded?
    ensures ReaderApply(s, act).reader == ReaderEnded(false) <==> act == FailRead(Benign)
    ensures ReaderApply(s, act).reader == ReaderEnded(true) <==> act in {FailRead(Fatal), StopReader}
  {
  }

  lemma SdpAlone(s: State, act: SdpAct)
    requires CanSdp(s, act)
    ensures SdpApply(s, act).sender == s.sender && SdpApply(s, act).reader == s.reader && !s.sdp.SdpEnded?
    ensures SdpApply(s, act).sdp == SdpEnded(false) <==> act == FailSdp(Benign)
    ensures SdpApply(s, act).sdp == SdpEnded(true) <==> act in {FailSdp(Fatal), StopSdp}
  {
  }

  // ---------------------------------------------------------------------------------------------
  // What a cancellation stops

  /** The connection's context is cancelled from the end of serving on. */
  ghost predicate CancelOk(s: State) {
    s.runner.Tearing() ==> ConnCancelled(s)
  }

  lemma CancelOkStep(s: State, step: Step)
    requires Enabled(s, step) && CancelOk(s)
    ensures CancelOk(Apply(s, step))
  {
    match step
    case CallStep(c, act) => CallLeavesCancel(s, c, act);
    case TearStep(act) => TearCancels(s, act);
    case ReaderStep(act) => ReaderLeavesCancel(s, act);
    case ConnectStep(act) => ConnectStartsNoTeardown(s, act);
    case _ =>
  }

  lemma CallLeavesCancel(s: State, c: Call, act: CallAct)
    requires CanCall(s, c, act)
    ensures var t := CallApply(s, c, act); t.runner == s.runner && t.closed == s.closed && t.cancelled == s.cancelled
  {
  }

  lemma ReaderLeavesCancel(s: State, act: ReaderAct)
    requires CanRead(s, act)
    ensures var t := ReaderApply(s, act); t.runner == s.runner && t.closed == s.closed && t.cancelled == s.cancelled
  {
  }

  lemma ConnectStartsNoTeardown(s: State, act: ConnectAct)
    requires CanConnect(s, act)
    ensures !ConnectApply(s, act).runner.Tearing()
  {
  }

  lemma TearCancels(s: State, act: TearAct)
    requires CanTear(s, act) && CancelOk(s)
    ensures CancelOk(TearApply(s, act))
  {
  }

  lemma {:induction false} CancelledWhenTearing(s: State, steps: seq<Step>, t: State)
    requires Reaches(s, steps, t) && CancelOk(s)
    ensures CancelOk(t)
    decreases |steps|
  {
    if steps != [] {
      CancelOkStep(s, steps[0]);
      CancelledWhenTearing(Apply(s, steps[0]), steps[1..], t);
    }
  }

  /** At the top of its loop, or over. */
  predicate ReaderOut(s: State) {
    s.reader.ReaderIdle? || s.reader.ReaderEnded?
  }

  predicate SdpOut(s: State) {
    s.sdp.SdpIdle? || s.sdp.SdpEnded?
  }

  lemma OutStep(s: State, step: Step)
    requires Enabled(s, step) && ConnCancelled(s) && step != ConnectStep(Dial(true)) && step != ConnectStep(Dial(false))
    ensures ConnCancelled(Apply(s, step))
    ensures ReaderOut(s) ==> ReaderOut(Apply(s, step))
    ensures SdpOut(s) ==> SdpOut(Apply(s, step))
  {
    match step
    case CallStep(c, act) => CallLeavesCancel(s, c, act); CallLeavesWorkers(s, c, act);
    case TearStep(act) => TearKeepsCancel(s, act); TearLeavesWorkers(s, act);
    case ReaderStep(act) => ReaderLeavesCancel(s, act);
    case _ =>
  }

  lemma TearKeepsCancel(s: State, act: TearAct)
    requires CanTear(s, act) && ConnCancelled(s)
    ensures ConnCancelled(TearApply(s, act))
  {
  }

  /**
   * Once the context is cancelled, a reader or SDP worker that is at the top of its loop begins no call any more, on
   * any run up to the next dial: only those already past their select can meet the nil fields of a teardown.
   */
  lemma {:induction false} StayOut(s: State, steps: seq<Step>, t: State)
    requires Reaches(s, steps, t) && ConnCancelled(s)
    requires forall k :: 0 <= k < |steps| ==> !(steps[k].ConnectStep? && steps[k].connectAct.Dial?)
    ensures ConnCancelled(t) && (ReaderOut(s) ==> ReaderOut(t)) && (SdpOut(s) ==> SdpOut(t))
    decreases |steps|
  {
    if steps != [] {
      OutStep(s, steps[0]);
      assert forall k :: 0 <= k < |steps[1..]| ==> steps[1..][k] == steps[k + 1];
      StayOut(Apply(s, steps[0]), steps[1..], t);
    }
  }

  // ---------------------------------------------------------------------------------------------
  // Peers' messages

  function InForward(sdp: SdpPc): seq<Sdp> {
    if sdp.Forwarding? then [sdp.sdp] else []
  }

  ghost predicate RelayOk(s: State) {
    s.relay.read == s.relay.forwarded + InForward(s.sdp)
  }

  lemma RelayStep(s: State, step: Step)
    requires Enabled(s, step) && RelayOk(s) && Inv(s)
    ensures RelayOk(Apply(s, step))
  {
    match step
    case CallStep(c, act) => CallLeavesWorkers(s, c, act); CallLeavesRelay(s, c, act);
    case TearStep(act) => TearLeavesWorkers(s, act); TearLeavesRelay(s, act);
    case ConnectStep(act) => ConnectRelays(s, act);
    case ReaderStep(act) => ReaderAlone(s, act); ReaderLeavesRelay(s, act);
    case SenderStep(act) => SenderAlone(s, act); SenderLeavesRelay(s, act);
    case SdpStep(act) => SdpRelays(s, act);
    case _ =>
  }

  lemma SenderLeavesRelay(s: State, act: SenderAct)
    requires CanSendStep(s, act)
    ensures SenderApply(s, act).relay == s.relay
  {
  }

  lemma SdpRelays(s: State, act: SdpAct)
    requires CanSdp(s, act) && RelayOk(s)
    ensures RelayOk(SdpApply(s, act))
  {
  }

  lemma CallLeavesRelay(s: State, c: Call, act: CallAct)
    requires CanCall(s, c, act)
    ensures CallApply(s, c, act).relay == s.relay
  {
  }

  lemma TearLeavesRelay(s: State, act: TearAct)
    requires CanTear(s, act)
    ensures TearApply(s, act).relay == s.relay
  {
  }

  lemma ReaderLeavesRelay(s: State, act: ReaderAct)
    requires CanRead(s, act)
    ensures ReaderApply(s, act).relay == s.relay
  {
  }

  lemma ConnectRelays(s: State, act: ConnectAct)
    requires CanConnect(s, act) && RelayOk(s) && WorkersOk(s)
    ensures RelayOk(ConnectApply(s, act))
  {
  }

  /** Every message of a peer that was read is sent to receiveSDPs, in order, the last one perhaps still about to be. */
  lemma {:induction false} SdpConservation(capacity: nat, steps: seq<Step>, t: State)
    requires Reaches(Init(capacity), steps, t)
    ensures t.relay.read == t.relay.forwarded + InForward(t.sdp)
  {
    InvInit(capacity);
    RelayRun(Init(capacity), steps, t);
  }

  lemma {:induction false} RelayRun(s: State, steps: seq<Step>, t: State)
    requires Reaches(s, steps, t) && RelayOk(s) && Inv(s)
    ensures RelayOk(t)
    decreases |steps|
  {
    if steps != [] {
      RelayStep(s, steps[0]);
      InvStep(s, steps[0]);
      RelayRun(Apply(s, steps[0]), steps[1..], t);
    }
  }

  // ---------------------------------------------------------------------------------------------
  // What the end of the application excuses

  function ResultOf(pc: CallPc): Option<Answer> {
    match pc case Leaving(a) => Some(a) case Finished(a) => Some(a) case _ => None
  }

  predicate SaysClosing(rec: CallRec) {
    ResultOf(rec.pc) == Some(Refused(App(rec.op, Base(AppClosing))))
  }

  /** Whoever was refused because the application is closing had its message queued, and it is closing. */
  ghost predicate ClosingOk(s: State) {
    forall c :: c in s.table.calls && SaysClosing(s.table.calls[c]) ==>
      s.closed && Message(s.table.calls[c].id, false) in s.queue.enqueued
  }

  /** And whoever waits for its reply has its message queued. */
  ghost predicate WaitersQueued(s: State) {
    forall c :: c in s.table.calls && s.table.calls[c].pc.Waiting? ==>
      Message(s.table.calls[c].id, false) in s.queue.enqueued
  }

  lemma ClosingStep(s: State, step: Step)
    requires Enabled(s, step) && ClosingOk(s) && WaitersQueued(s)
    ensures ClosingOk(Apply(s, step)) && WaitersQueued(Apply(s, step))
  {
    match step
    case CallStep(c, act) => ClosingCall(s, c, act);
    case TearStep(act) => TearLeavesQueue(s, act); TearLeavesIds(s, act);
    case ReaderStep(act) => ReaderLeavesResults(s, act);
    case ConnectStep(act) => ConnectLeavesResults(s, act);
    case _ =>
  }

  lemma ClosingCall(s: State, c: Call, act: CallAct)
    requires CanCall(s, c, act) && ClosingOk(s) && WaitersQueued(s)
    ensures ClosingOk(CallApply(s, c, act)) && WaitersQueued(CallApply(s, c, act))
  {
  }

  lemma TearLeavesIds(s: State, act: TearAct)
    requires CanTear(s, act)
    ensures var t := TearApply(s, act);
      && t.closed == s.closed && t.queue == s.queue && t.table.calls.Keys == s.table.calls.Keys
      && forall c :: c in s.table.calls ==>
           t.table.calls[c].id == s.table.calls[c].id && t.table.calls[c].op == s.table.calls[c].op
           && t.table.calls[c].pc == s.table.calls[c].pc
  {
  }

  lemma ReaderLeavesResults(s: State, act: ReaderAct)
    requires CanRead(s, act)
    ensures var t := ReaderApply(s, act);
      && t.closed == s.closed && t.queue == s.queue && t.table.calls.Keys == s.table.calls.Keys
      && forall c :: c in s.table.calls ==>
           t.table.calls[c].id == s.table.calls[c].id && t.table.calls[c].op == s.table.calls[c].op
           && t.table.calls[c].pc == s.table.calls[c].pc
  {
  }

  lemma ConnectLeavesResults(s: State, act: ConnectAct)
    requires CanConnect(s, act)
    ensures var t := ConnectApply(s, act);
      t.table.calls == s.table.calls && t.queue == s.queue && t.closed == s.closed
  {
  }

  lemma {:induction false} ClosingRun(s: State, steps: seq<Step>, t: State)
    requires Reaches(s, steps, t) && ClosingOk(s) && WaitersQueued(s)
    ensures ClosingOk(t) && WaitersQueued(t)
    decreases |steps|
  {
    if steps != [] {
      ClosingStep(s, steps[0]);
      ClosingRun(Apply(s, steps[0]), steps[1..], t);
    }
  }

  /** In every reachable state: a caller told that the application is closing had queued its message, and it is so. */
  lemma ClosingIsTrue(capacity: nat, steps: seq<Step>, t: State, c: Call)
    requires Reaches(Init(capacity), steps, t) && c in t.table.calls && SaysClosing(t.table.calls[c])
    ensures t.closed && Message(t.table.calls[c].id, false) in t.queue.enqueued
  {
    ClosingRun(Init(capacity), steps, t);
  }

  // ---------------------------------------------------------------------------------------------
  // What a teardown forgets

  /**
   * Connection and coders are forgotten as soon as the loss is dealt with, unless the context is what ended the
   * serving: then they stay. With the application open they are always gone by the time the workers are waited for.
   */
  ghost predicate ForgetsRight(s: State) {
    s.runner.Joining? && !s.closed ==> !s.link.conn && s.link.encoder.None? && s.link.decoder.None?
  }

  lemma ForgetsStep(s: State, step: Step)
    requires Enabled(s, step) && ForgetsRight(s)
    ensures ForgetsRight(Apply(s, step))
    ensures s.runner.Hanging? && s.runner.cause.ByContext? && Apply(s, step).runner.Joining? ==>
      Apply(s, step).link == s.link
  {
    match step
    case CallStep(c, act) => CallLeavesCancel(s, c, act); CallLeavesLink(s, c, act);
    case TearStep(act) => TearForgets(s, act);
    case ReaderStep(act) => ReaderLeavesCancel(s, act); ReaderLeavesLink(s, act);
    case ConnectStep(act) => ConnectStartsNoTeardown(s, act);
    case _ =>
  }

  lemma CallLeavesLink(s: State, c: Call, act: CallAct)
    requires CanCall(s, c, act)
    ensures CallApply(s, c, act).link == s.link
  {
  }

  lemma ReaderLeavesLink(s: State, act: ReaderAct)
    requires CanRead(s, act)
    ensures ReaderApply(s, act).link == s.link
  {
  }

  lemma TearForgets(s: State, act: TearAct)
    requires CanTear(s, act) && ForgetsRight(s)
    ensures ForgetsRight(TearApply(s, act))
    ensures s.runner.Hanging? && s.runner.cause.ByContext? ==> TearApply(s, act).link == s.link
  {
  }

  lemma {:induction false} LossesAreForgotten(s: State, steps: seq<Step>, t: State)
    requires Reaches(s, steps, t) && ForgetsRight(s)
    ensures t.runner.Joining? && !t.closed ==> !t.link.conn && t.link.encoder.None? && t.link.decoder.None?
    decreases |steps|
  {
    if steps != [] {
      ForgetsStep(s, steps[0]);
      LossesAreForgotten(Apply(s, steps[0]), steps[1..], t);
    }
  }

  // ---------------------------------------------------------------------------------------------
  // Coming to rest

  /** The workers are waited for, and none of them is about to use a field that is gone or a reply channel. */
  predicate Waits(s: State) {
    && s.runner.Joining? && !s.panicked && ConnCancelled(s)
    && !s.sender.Holding? && !s.reader.ReaderPassed? && !s.reader.Looked? && !s.sdp.SdpPassed?
  }

  /** The run of one worker after another. */
  ghost predicate Leads(s: State, t: State) {
    exists steps :: Reaches(s, steps, t)
  }

  lemma OneStep(s: State, step: Step, u: State)
    requires Enabled(s, step) && Leads(Apply(s, step), u)
    ensures Leads(s, u)
  {
    var steps :| Reaches(Apply(s, step), steps, u);
    assert ([step] + steps)[1..] == steps;
    assert Reaches(s, [step] + steps, u);
  }

  lemma NoStep(s: State)
    ensures Leads(s, s)
  {
    assert Reaches(s, [], s);
  }

  lemma SenderRests(s: State) returns (t: State)
    requires Waits(s)
    ensures Leads(s, t) && Waits(t) && t.sender.SenderEnded? && t.reader == s.reader && t.sdp == s.sdp
  {
    if s.sender.SenderEnded? {
      t := s;
      NoStep(s);
    } else if s.sender.SenderIdle? {
      t := Apply(s, SenderStep(StopSender));
      NoStep(t);
      OneStep(s, SenderStep(StopSender), t);
    } else {
      t := Apply(s, SenderStep(Encode(false, Fatal)));
      NoStep(t);
      OneStep(s, SenderStep(Encode(false, Fatal)), t);
    }
  }

  lemma ReaderRests(s: State) returns (t: State)
    requires Waits(s)
    ensures Leads(s, t) && Waits(t) && t.reader.ReaderEnded? && t.sender == s.sender && t.sdp == s.sdp
  {
    if s.reader.ReaderEnded? {
      t := s;
      NoStep(s);
    } else {
      var act := if s.reader.ReaderIdle? then StopReader else FailRead(Fatal);
      t := Apply(s, ReaderStep(act));
      NoStep(t);
      OneStep(s, ReaderStep(act), t);
    }
  }

  lemma {:induction false} SdpRests(s: State) returns (t: State)
    requires Waits(s)
    ensures Leads(s, t) && Waits(t) && t.sdp.SdpEnded? && t.sender == s.sender && t.reader == s.reader
    decreases s.sdp.Forwarding?
  {
    if s.sdp.SdpEnded? {
      t := s;
      NoStep(s);
    } else {
      var act := if s.sdp.SdpIdle? then StopSdp else if s.sdp.Forwarding? then Forward else FailSdp(Fatal);
      var s' := Apply(s, SdpStep(act));
      if s.sdp.Forwarding? {
        t := SdpRests(s');
      } else {
        t := s';
        NoStep(t);
      }
      OneStep(s, SdpStep(act), t);
    }
  }

  lemma LeadsTrans(s: State, t: State, u: State)
    requires Leads(s, t) && Leads(t, u)
    ensures Leads(s, u)
  {
    var first :| Reaches(s, first, t);
    var second :| Reaches(t, second, u);
    ReachesTrans(s, first, t, second, u);
  }

  /** From every such state, reachable or not, serveConnection can return: a forwarded message is the only delay. */
  lemma TeardownEnds(s: State) returns (t: State)
    requires Waits(s)
    ensures Leads(s, t) && t.runner.Returned? && !t.panicked
  {
    var s1 := SenderRests(s);
    var s2 := ReaderRests(s1);
    var s3 := SdpRests(s2);
    LeadsTrans(s, s1, s2);
    LeadsTrans(s, s2, s3);
    t := Apply(s3, TearStep(Join));
    NoStep(t);
    OneStep(s3, TearStep(Join), t);
    LeadsTrans(s, s3, t);
  }

  /** In every reachable state between two connections the client can be stopped, and after one failed dial redials. */
  lemma Stops(s: State) returns (t: State)
    requires !s.panicked && (s.runner.Dialing? || s.runner.Returned? || s.runner.BackingOff?)
    ensures Leads(s, t) && t.runner.Exited? && t.closed
  {
    var s1 := Apply(s, CancelContext);
    var s2 := if s1.runner.Dialing? then Apply(s1, ConnectStep(Dial(false))) else s1;
    var last := if s2.runner.Returned? then LoopStep(Return) else LoopStep(Wake(true));
    t := Apply(s2, last);
    NoStep(t);
    OneStep(s2, last, t);
    if s1.runner.Dialing? {
      OneStep(s1, ConnectStep(Dial(false)), t);
    }
    OneStep(s, CancelContext, t);
  }

  lemma Redials(s: State) returns (t: State)
    requires !s.panicked && !s.closed && (s.runner.Returned? || s.runner.BackingOff?)
    ensures Leads(s, t) && t.runner.Dialing? && t.table == s.table && t.queue == s.queue
  {
    var s1 := if s.runner.Returned? then Apply(s, LoopStep(Return)) else s;
    t := Apply(s1, LoopStep(Wake(false)));
    NoStep(t);
    OneStep(s1, LoopStep(Wake(false)), t);
    if s.runner.Returned? {
      OneStep(s, LoopStep(Return), t);
    }
  }
}
