/** The inductive invariant of the multiplexer, kept by every step of every goroutine. */
module MuxInvariant {
  import opened Channels
  import opened Errors
  import opened Sequences
  import opened Mux

  // ---------------------------------------------------------------------------------------------
  // Callers and the table of reply channels

  function Current(runner: RunnerPc): Option<Id> {
    if runner.Walking? then runner.current else None
  }

  function Target(reader: ReaderPc): Option<Call> {
    if reader.Looked? then Some(reader.call) else None
  }

  /** `current` is the id the clearing walk is at, `target` the call the reader is about to deliver to. */
  ghost predicate CallOk(c: Call, rec: CallRec, pending: map<Id, Call>, owner: map<Id, Call>,
                         current: Option<Id>, tearing: bool, target: Option<Call>)
  {
    var registered := rec.id in pending && pending[rec.id] == c;
    && rec.chan.cap == 1 && rec.chan.Valid()
    && (rec.Active() ==> rec.id in owner && owner[rec.id] == c)
    && (rec.Pending() ==> rec.chan.closed || registered)
    && (registered && rec.chan.closed ==> current == Some(rec.id))
    && (target == Some(c) && rec.chan.closed ==> tearing)
  }

  ghost predicate TableGood(tab: Table, current: Option<Id>, tearing: bool, target: Option<Call>) {
    && (forall c :: c in tab.calls ==> CallOk(c, tab.calls[c], tab.pending, tab.owner, current, tearing, target))
    && (forall id :: id in tab.pending ==>
          && tab.pending[id] in tab.calls
          && tab.calls[tab.pending[id]].id == id && tab.calls[tab.pending[id]].Active())
    && (forall id :: id in tab.owner ==>
          && id in tab.used && tab.owner[id] in tab.calls
          && tab.calls[tab.owner[id]].id == id && !tab.calls[tab.owner[id]].pc.Checked?)
    && (current.Some? ==>
          && tearing && current.value in tab.used
          && (current.value in tab.pending ==> tab.calls[tab.pending[current.value]].chan.closed))
  }

  ghost predicate TableOk(s: State) {
    TableGood(s.table, Current(s.runner), s.runner.Tearing(), Target(s.reader)) && WalkOk(s)
  }

  /** Entries the walk has not come to have an open channel, registered or not; those it has dealt with are gone. */
  ghost predicate WalkGood(tab: Table, todo: set<Id>, left: set<Id>, current: Option<Id>) {
    && left <= todo <= tab.used
    && (forall id :: id in left ==>
          id in tab.owner && tab.owner[id] in tab.calls && !tab.calls[tab.owner[id]].chan.closed)
    && (forall id :: id in todo && id !in left && id in tab.pending ==> current == Some(id))
  }

  ghost predicate WalkOk(s: State) {
    s.runner.Walking? ==> WalkGood(s.table, s.runner.todo, s.runner.left, s.runner.current)
  }

  // ---------------------------------------------------------------------------------------------
  // Replies: where they come from and how many there can be

  function CountId(answers: seq<Response>, id: Id): nat {
    if answers == [] then 0
    else CountId(answers[..|answers| - 1], id) + if answers[|answers| - 1].id == id then 1 else 0
  }

  function Success(pc: CallPc): Option<Payload> {
    match pc
    case Leaving(Got(p)) => Some(p)
    case Finished(Got(p)) => Some(p)
    case _ => None
  }

  ghost predicate ReplyOk(c: Call, rec: CallRec, owner: map<Id, Call>, answers: seq<Response>, target: Option<Call>) {
    && (rec.chan.buf != [] ==> rec.chan.buf[0].id == rec.id && rec.chan.buf[0] in answers)
    && (Success(rec.pc).Some? ==>
          && Response(rec.id, rec.expected, Success(rec.pc).value) in answers
          && rec.id in owner && owner[rec.id] == c)
    && (rec.id in owner && owner[rec.id] == c ==>
          |rec.chan.buf| + (if target == Some(c) then 1 else 0) <= CountId(answers, rec.id))
  }

  ghost predicate Replies(calls: map<Call, CallRec>, owner: map<Id, Call>, answers: seq<Response>, reader: ReaderPc) {
    && (forall c :: c in calls ==> ReplyOk(c, calls[c], owner, answers, Target(reader)))
    && (reader.Looked? ==>
          && reader.resp in answers && reader.call in calls && reader.resp.id == calls[reader.call].id
          && reader.resp.id in owner && owner[reader.resp.id] == reader.call)
  }

  ghost predicate RepliesOk(s: State) {
    Replies(s.table.calls, s.table.owner, s.answers, s.reader)
  }

  // ---------------------------------------------------------------------------------------------
  // The send queue and the wire

  /** What went out, registrations aside, over all connections in order. */
  function DataOf(wire: seq<Sent>): seq<Message> {
    if wire == [] then []
    else
      var before, last := DataOf(wire[..|wire| - 1]), wire[|wire| - 1].msg;
      if last.registration then before else before + [last]
  }

  /** A message gets into the queue once its call has moved on from enqueueing. */
  ghost predicate Queued(msg: Message, calls: map<Call, CallRec>, owner: map<Id, Call>) {
    && !msg.registration && msg.id in owner && owner[msg.id] in calls
    && !calls[owner[msg.id]].pc.Checked? && !calls[owner[msg.id]].pc.Enqueueing?
  }

  ghost predicate History(enqueued: seq<Message>, calls: map<Call, CallRec>, owner: map<Id, Call>) {
    && (forall i :: 0 <= i < |enqueued| ==> Queued(enqueued[i], calls, owner))
    && NoDuplicates(enqueued)
  }

  function MsgsOf(handled: seq<Handled>): seq<Message> {
    if handled == [] then [] else MsgsOf(handled[..|handled| - 1]) + [handled[|handled| - 1].msg]
  }

  function ReachedOf(handled: seq<Handled>): seq<Message> {
    if handled == [] then []
    else
      var before, last := ReachedOf(handled[..|handled| - 1]), handled[|handled| - 1];
      if last.reached then before + [last.msg] else before
  }

  function Hand(sender: SenderPc): seq<Message> {
    if sender.Busy() then [sender.msg] else []
  }

  /**
   * What was enqueued is what the sender has dealt with, the message in its hand and the queue, in this order; what it
   * has dealt with is on the wire as far as it got there.
   */
  ghost predicate Flow(buf: seq<Message>, enqueued: seq<Message>, handled: seq<Handled>, sender: SenderPc,
                       data: seq<Message>) {
    enqueued == MsgsOf(handled) + Hand(sender) + buf && data == ReachedOf(handled)
  }

  ghost predicate QueueOk(s: State) {
    && !s.queue.sendMsgs.closed && s.queue.sendMsgs.Valid()
    && History(s.queue.enqueued, s.table.calls, s.table.owner)
    && Flow(s.queue.sendMsgs.buf, s.queue.enqueued, s.queue.handled, s.sender, DataOf(s.link.wire))
  }

  // ---------------------------------------------------------------------------------------------
  // Connections

  ghost predicate Opened(wire: seq<Sent>, epoch: nat) {
    exists k :: 0 <= k < |wire| && wire[k].epoch == epoch
  }

  ghost predicate RegistrationFirst(wire: seq<Sent>) {
    forall k :: 0 <= k < |wire| ==> (wire[k].msg.registration <==> !Opened(wire[..k], wire[k].epoch))
  }

  ghost predicate WireOk(wire: seq<Sent>, epochs: nat) {
    && RegistrationFirst(wire)
    && (forall k :: 0 <= k < |wire| ==> wire[k].epoch < epochs)
    && (forall j, k :: 0 <= j < k < |wire| ==> wire[j].epoch <= wire[k].epoch)
  }

  /** The control stream of the newest connection is the one in use, for as long as there is one. */
  predicate HasStream(link: Link, runner: RunnerPc) {
    || runner.RegSending? || runner.RegWaiting? || runner.Resetting? || runner.GoingOnline?
    || (runner.Working() && !runner.Joining?)
    || (runner.Joining? && (link.encoder.Some? || link.decoder.Some?))
  }

  ghost predicate LinkGood(link: Link, runner: RunnerPc) {
    && WireOk(link.wire, link.epochs) && (runner.OpeningStream? ==> link.conn)
    && (HasStream(link, runner) ==>
          && link.conn && link.epochs > 0 && link.encoder == link.decoder == Some((link.epochs - 1) as nat)
          && (runner.RegSending? <==> !Opened(link.wire, link.epochs - 1)))
  }

  /** Workers live only while their connection does. */
  ghost predicate WorkersOk(s: State) {
    && (!s.sender.SenderEnded? || !s.reader.ReaderEnded? || !s.sdp.SdpEnded? ==> s.runner.Working())
    && (s.sender.Busy() ==> !s.sender.msg.registration)
    && (s.sender.Encoding? ==> s.sender.epoch == s.link.epochs - 1 && Opened(s.link.wire, s.sender.epoch))
  }

  ghost predicate LinkOk(s: State) {
    LinkGood(s.link, s.runner) && WorkersOk(s)
  }

  ghost predicate StatusGood(status: Status, runner: RunnerPc, closed: bool) {
    && (status.online <==>
          status.served == 0 || runner.Serving? || runner.StartingWalk? || runner.Walking? || runner.GoingOffline?)
    && status.resets == status.accepted - (if runner.Resetting? then 1 else 0)
    && status.served == status.resets - (if runner.GoingOnline? then 1 else 0)
    && (runner.Exited? ==> closed)
    && (runner.Working() ==> status.served > 0)
  }

  ghost predicate StatusOk(s: State) {
    StatusGood(s.status, s.runner, s.closed)
  }

  ghost predicate Inv(s: State) {
    TableOk(s) && RepliesOk(s) && QueueOk(s) && LinkOk(s) && StatusOk(s)
  }

  // ---------------------------------------------------------------------------------------------

  /** Changing one call's progress or channel, nothing else in the table. */
  lemma TableUpdate(tab: Table, c: Call, rec: CallRec, current: Option<Id>, tearing: bool,
                    target: Option<Call>, target': Option<Call>)
    requires TableGood(tab, current, tearing, target) && c in tab.calls
    requires rec.id == tab.calls[c].id && rec.Active() == tab.calls[c].Active() && !rec.pc.Checked?
    requires tab.calls[c].chan.closed ==> rec.chan.closed
    requires CallOk(c, rec, tab.pending, tab.owner, current, tearing, target')
    requires target' == target || target' == None
    ensures TableGood(tab.(calls := tab.calls[c := rec]), current, tearing, target')
  {
    var t := tab.(calls := tab.calls[c := rec]);
    forall d | d in t.calls ensures CallOk(d, t.calls[d], t.pending, t.owner, current, tearing, target') {
      assert CallOk(d, tab.calls[d], tab.pending, tab.owner, current, tearing, target);
    }
  }

  lemma TableRegister(tab: Table, c: Call, id: Id, since: nat, current: Option<Id>, tearing: bool,
                      target: Option<Call>)
    requires TableGood(tab, current, tearing, target)
    requires c in tab.calls && tab.calls[c].pc.Checked? && id !in tab.used && target != Some(c)
    ensures TableGood(Table(tab.calls[c := tab.calls[c].(pc := Enqueueing, id := id, chan := Make(1), since := since)],
                            tab.pending[id := c], tab.owner[id := c], tab.used + {id}), current, tearing, target)
  {
    var rec := tab.calls[c].(pc := Enqueueing, id := id, chan := Make(1), since := since);
    var t := Table(tab.calls[c := rec], tab.pending[id := c], tab.owner[id := c], tab.used + {id});
    forall d | d in t.calls ensures CallOk(d, t.calls[d], t.pending, t.owner, current, tearing, target) {
      assert CallOk(d, tab.calls[d], tab.pending, tab.owner, current, tearing, target);
    }
  }

  lemma TableLeave(tab: Table, c: Call, current: Option<Id>, tearing: bool, target: Option<Call>)
    requires TableGood(tab, current, tearing, target)
    requires c in tab.calls && tab.calls[c].pc.Leaving?
    ensures TableGood(tab.(calls := tab.calls[c := tab.calls[c].(pc := Finished(tab.calls[c].pc.result))],
                           pending := tab.pending - {tab.calls[c].id}), current, tearing, target)
  {
    var rec := tab.calls[c].(pc := Finished(tab.calls[c].pc.result));
    var t := tab.(calls := tab.calls[c := rec], pending := tab.pending - {rec.id});
    assert CallOk(c, tab.calls[c], tab.pending, tab.owner, current, tearing, target);
    forall d | d in t.calls ensures CallOk(d, t.calls[d], t.pending, t.owner, current, tearing, target) {
      assert CallOk(d, tab.calls[d], tab.pending, tab.owner, current, tearing, target);
    }
  }

  lemma TableBegin(tab: Table, c: Call, rec: CallRec, current: Option<Id>, tearing: bool, target: Option<Call>)
    requires TableGood(tab, current, tearing, target) && target != Some(c)
    requires c !in tab.calls && !rec.Active() && rec.chan == Make(1)
    ensures TableGood(tab.(calls := tab.calls[c := rec]), current, tearing, target)
  {
    var t := tab.(calls := tab.calls[c := rec]);
    forall d | d in t.calls ensures CallOk(d, t.calls[d], t.pending, t.owner, current, tearing, target) {
      if d != c {
        assert CallOk(d, tab.calls[d], tab.pending, tab.owner, current, tearing, target);
      }
    }
  }

  lemma TableProgress(s: State, c: Call, act: CallAct)
    requires TableOk(s) && RepliesOk(s) && CanCall(s, c, act) && (act.Enqueue? || act.GiveUp? || act.Receive?)
    ensures var t := CallApply(s, c, act); TableGood(t.table, Current(t.runner), t.runner.Tearing(), Target(t.reader))
  {
    var cur, tear, target := Current(s.runner), s.runner.Tearing(), Target(s.reader);
    assert CallOk(c, s.table.calls[c], s.table.pending, s.table.owner, cur, tear, target);
    TableUpdate(s.table, c, CallApply(s, c, act).table.calls[c], cur, tear, target, target);
  }

  lemma TableCall(s: State, c: Call, act: CallAct)
    requires TableOk(s) && RepliesOk(s) && CanCall(s, c, act)
    ensures TableOk(CallApply(s, c, act))
  {
    var cur, tear, target := Current(s.runner), s.runner.Tearing(), Target(s.reader);
    match act {
      case Begin(_, _) => TableBegin(s.table, c, CallApply(s, c, act).table.calls[c], cur, tear, target);
      case Register(id) => TableRegister(s.table, c, id, |s.answers|, cur, tear, target);
      case Leave => TableLeave(s.table, c, cur, tear, target);
      case _ => TableProgress(s, c, act);
    }
    WalkCall(s, c, act);
  }

  /** Callers close no channel and register only ids the walk has not met. */
  lemma WalkCall(s: State, c: Call, act: CallAct)
    requires TableOk(s) && CanCall(s, c, act)
    ensures WalkOk(CallApply(s, c, act))
  {
    CallSpares(s, c, act);
  }

  lemma CallSpares(s: State, c: Call, act: CallAct)
    requires CanCall(s, c, act)
    ensures var tab, tab' := s.table, CallApply(s, c, act).table;
      && CallApply(s, c, act).runner == s.runner && tab.used <= tab'.used
      && (forall id :: id in tab.owner && id in tab.used ==> id in tab'.owner && tab'.owner[id] == tab.owner[id])
      && tab.calls.Keys <= tab'.calls.Keys
      && (forall d :: d in tab.calls && !tab.calls[d].pc.Checked? ==>
            tab'.calls[d].chan.closed == tab.calls[d].chan.closed)
      && (forall id :: id in tab'.pending && id in tab.used ==> id in tab.pending)
  {
  }

  /** Moving on in the loop: the walk is not at any id, and a lookup in hand is still covered. */
  lemma TableMoves(tab: Table, tearing: bool, tearing': bool, target: Option<Call>, target': Option<Call>)
    requires TableGood(tab, None, tearing, target)
    requires target' == target || target' == None
    requires tearing' || !tearing || target' == None
    ensures TableGood(tab, None, tearing', target')
  {
    forall d | d in tab.calls ensures CallOk(d, tab.calls[d], tab.pending, tab.owner, None, tearing', target') {
      assert CallOk(d, tab.calls[d], tab.pending, tab.owner, None, tearing, target);
    }
  }

  lemma TableCloseReply(tab: Table, id: Id, todo: set<Id>, left: set<Id>, target: Option<Call>)
    requires TableGood(tab, None, true, target) && WalkGood(tab, todo, left, None)
    requires (id in left || id in tab.pending) && id in tab.owner && tab.owner[id] in tab.calls
    ensures !tab.calls[tab.owner[id]].chan.closed
    ensures var k := tab.owner[id];
      TableGood(tab.(calls := tab.calls[k := tab.calls[k].(chan := tab.calls[k].chan.(closed := true))]),
                Some(id), true, target)
  {
    var k := tab.owner[id];
    if id in tab.pending {
      assert CallOk(tab.pending[id], tab.calls[tab.pending[id]], tab.pending, tab.owner, None, true, target);
    }
    assert CallOk(k, tab.calls[k], tab.pending, tab.owner, None, true, target);
    var t := tab.(calls := tab.calls[k := tab.calls[k].(chan := tab.calls[k].chan.(closed := true))]);
    forall d | d in t.calls ensures CallOk(d, t.calls[d], t.pending, t.owner, Some(id), true, target) {
      assert CallOk(d, tab.calls[d], tab.pending, tab.owner, None, true, target);
    }
  }

  lemma TableUnregister(tab: Table, id: Id, target: Option<Call>)
    requires TableGood(tab, Some(id), true, target)
    ensures TableGood(tab.(pending := tab.pending - {id}), None, true, target)
  {
    var t := tab.(pending := tab.pending - {id});
    forall d | d in t.calls ensures CallOk(d, t.calls[d], t.pending, t.owner, None, true, target) {
      assert CallOk(d, tab.calls[d], tab.pending, tab.owner, Some(id), true, target);
    }
  }

  lemma TableTear(s: State, act: TearAct)
    requires TableOk(s) && CanTear(s, act)
    ensures TableOk(TearApply(s, act))
    ensures !TearApply(s, act).panicked || s.panicked
  {
    match act {
      case CloseReply(id) => TableCloseReply(s.table, id, s.runner.todo, s.runner.left, Target(s.reader));
      case Unregister => TableUnregister(s.table, s.runner.current.value, Target(s.reader));
      case _ => TableMoves(s.table, s.runner.Tearing(), TearApply(s, act).runner.Tearing(), Target(s.reader),
                           Target(s.reader));
    }
    WalkTear(s, act);
  }

  lemma WalkTear(s: State, act: TearAct)
    requires TableOk(s) && CanTear(s, act)
    ensures WalkOk(TearApply(s, act))
  {
    match act
    case StartWalk => WalkStarts(s.table, Target(s.reader));
    case CloseReply(id) => WalkCloses(s.table, s.runner.todo, s.runner.left, id, Target(s.reader));
    case _ =>
  }

  /** At its start every entry is registered, and so its channel is open. */
  lemma WalkStarts(tab: Table, target: Option<Call>)
    requires TableGood(tab, None, true, target)
    ensures WalkGood(tab, tab.pending.Keys, tab.pending.Keys, None)
  {
    forall id | id in tab.pending
      ensures id in tab.used && id in tab.owner && tab.owner[id] in tab.calls && !tab.calls[tab.owner[id]].chan.closed
    {
      assert CallOk(tab.pending[id], tab.calls[tab.pending[id]], tab.pending, tab.owner, None, true, target);
    }
  }

  /** Closing one channel leaves those of all other entries open: each id has a call of its own. */
  lemma WalkCloses(tab: Table, todo: set<Id>, left: set<Id>, id: Id, target: Option<Call>)
    requires TableGood(tab, None, true, target) && WalkGood(tab, todo, left, None)
    requires id in tab.owner && tab.owner[id] in tab.calls
    ensures var k := tab.owner[id];
      WalkGood(tab.(calls := tab.calls[k := tab.calls[k].(chan := tab.calls[k].chan.(closed := true))]), todo,
               left - {id}, Some(id))
  {
  }

  lemma TableConnect(s: State, act: ConnectAct)
    requires TableOk(s) && WorkersOk(s) && CanConnect(s, act)
    ensures TableOk(ConnectApply(s, act))
  {
    ConnectShape(s, act);
    TableUsed(s.table, ConnectApply(s, act).table.used);
  }

  /** No worker lives and nothing is walked; at most an id is drawn. */
  lemma ConnectShape(s: State, act: ConnectAct)
    requires WorkersOk(s) && CanConnect(s, act)
    ensures var t := ConnectApply(s, act);
      && s.table.used <= t.table.used && t.table == s.table.(used := t.table.used)
      && !s.runner.Tearing() && !t.runner.Tearing() && Target(s.reader) == Target(t.reader) == None
  {
  }

  lemma TableUsed(tab: Table, used: set<Id>)
    requires TableGood(tab, None, false, None) && tab.used <= used
    ensures TableGood(tab.(used := used), None, false, None)
  {
    var t := tab.(used := used);
    forall d | d in t.calls ensures CallOk(d, t.calls[d], t.pending, t.owner, None, false, None) {
      assert CallOk(d, tab.calls[d], tab.pending, tab.owner, None, false, None);
    }
  }

  /** The reader takes hold of a registered call: its channel is open unless the connection is being torn down. */
  lemma TableLookup(tab: Table, id: Id, current: Option<Id>, tearing: bool)
    requires TableGood(tab, current, tearing, None) && id in tab.pending
    ensures TableGood(tab, current, tearing, Some(tab.pending[id]))
  {
    forall d | d in tab.calls
      ensures CallOk(d, tab.calls[d], tab.pending, tab.owner, current, tearing, Some(tab.pending[id]))
    {
      assert CallOk(d, tab.calls[d], tab.pending, tab.owner, current, tearing, None);
    }
  }

  lemma TableDeliver(s: State)
    requires TableOk(s) && RepliesOk(s) && CanRead(s, Deliver)
    ensures TableOk(ReaderApply(s, Deliver))
  {
    var cur, tear, target := Current(s.runner), s.runner.Tearing(), Target(s.reader);
    var c, t := s.reader.call, ReaderApply(s, Deliver);
    assert CallOk(c, s.table.calls[c], s.table.pending, s.table.owner, cur, tear, target);
    if !s.table.calls[c].chan.closed {
      TableUpdate(s.table, c, t.table.calls[c], cur, tear, target, None);
    }
  }

  lemma TableReader(s: State, act: ReaderAct)
    requires TableOk(s) && RepliesOk(s) && CanRead(s, act)
    ensures TableOk(ReaderApply(s, act))
  {
    match act
    case Deliver => TableDeliver(s);
    case Read(resp) =>
      if resp.id in s.table.pending {
        TableLookup(s.table, resp.id, Current(s.runner), s.runner.Tearing());
      }
    case _ =>
  }

  // ---------------------------------------------------------------------------------------------

  lemma CountIdSnoc(answers: seq<Response>, r: Response, id: Id)
    ensures CountId(answers + [r], id) == CountId(answers, id) + if r.id == id then 1 else 0
  {
    assert (answers + [r])[..|answers|] == answers;
  }

  /** Changing one call, and at most dropping what the reader holds. */
  lemma RepliesUpdate(calls: map<Call, CallRec>, owner: map<Id, Call>, owner': map<Id, Call>, answers: seq<Response>,
                      reader: ReaderPc, reader': ReaderPc, c: Call, rec: CallRec)
    requires Replies(calls, owner, answers, reader)
    requires ReplyOk(c, rec, owner', answers, Target(reader'))
    requires forall id :: id in owner ==> id in owner' && owner'[id] == owner[id]
    requires forall id :: id in owner' ==> id in owner || owner'[id] == c
    requires reader' == reader || !reader'.Looked?
    requires reader'.Looked? && reader'.call == c ==> c in calls && calls[c].id == rec.id
    ensures Replies(calls[c := rec], owner', answers, reader')
  {
    forall d | d in calls && d != c ensures ReplyOk(d, calls[d], owner', answers, Target(reader')) {
      assert ReplyOk(d, calls[d], owner, answers, Target(reader));
    }
  }

  /** A call that begins or registers has no reply yet. */
  lemma ReplyNew(s: State, c: Call, act: CallAct)
    requires TableOk(s) && RepliesOk(s) && CanCall(s, c, act) && (act.Begin? || act.Register?)
    ensures var t := CallApply(s, c, act); ReplyOk(c, t.table.calls[c], t.table.owner, s.answers, Target(s.reader))
  {
    if c in s.table.calls {
      assert ReplyOk(c, s.table.calls[c], s.table.owner, s.answers, Target(s.reader));
    }
  }

  lemma ReplyReceive(s: State, c: Call)
    requires TableOk(s) && RepliesOk(s) && CanCall(s, c, Receive)
    ensures var t := CallApply(s, c, Receive); ReplyOk(c, t.table.calls[c], t.table.owner, s.answers, Target(s.reader))
  {
    assert ReplyOk(c, s.table.calls[c], s.table.owner, s.answers, Target(s.reader));
    assert CallOk(c, s.table.calls[c], s.table.pending, s.table.owner, Current(s.runner), s.runner.Tearing(),
                  Target(s.reader));
  }

  lemma ReplyProgress(s: State, c: Call, act: CallAct)
    requires RepliesOk(s) && CanCall(s, c, act) && (act.Enqueue? || act.GiveUp? || act.Leave?)
    ensures var t := CallApply(s, c, act); ReplyOk(c, t.table.calls[c], t.table.owner, s.answers, Target(s.reader))
  {
    assert ReplyOk(c, s.table.calls[c], s.table.owner, s.answers, Target(s.reader));
  }

  lemma CallOwners(s: State, c: Call, act: CallAct)
    requires CanCall(s, c, act) && s.table.owner.Keys <= s.table.used
    ensures var t := CallApply(s, c, act);
      && t.table.calls == s.table.calls[c := t.table.calls[c]] && t.answers == s.answers && t.reader == s.reader
      && (forall id :: id in s.table.owner ==> id in t.table.owner && t.table.owner[id] == s.table.owner[id])
      && (forall id :: id in t.table.owner ==> id in s.table.owner || t.table.owner[id] == c)
      && (c in s.table.calls && !s.table.calls[c].pc.Checked? ==> t.table.calls[c].id == s.table.calls[c].id)
  {
  }

  /** The call in the reader's hand has been registered. */
  lemma ReaderHolds(s: State)
    requires TableOk(s) && RepliesOk(s) && s.reader.Looked?
    ensures s.reader.call in s.table.calls && !s.table.calls[s.reader.call].pc.Checked?
  {
  }

  lemma RepliesCall(s: State, c: Call, act: CallAct)
    requires TableOk(s) && RepliesOk(s) && CanCall(s, c, act)
    ensures RepliesOk(CallApply(s, c, act))
  {
    var t := CallApply(s, c, act);
    if act.Begin? || act.Register? {
      ReplyNew(s, c, act);
    } else if act.Receive? {
      ReplyReceive(s, c);
    } else {
      ReplyProgress(s, c, act);
    }
    CallOwners(s, c, act);
    if s.reader.Looked? {
      ReaderHolds(s);
    }
    RepliesUpdate(s.table.calls, s.table.owner, t.table.owner, s.answers, s.reader, s.reader, c, t.table.calls[c]);
  }

  lemma RepliesTear(s: State, act: TearAct)
    requires RepliesOk(s) && CanTear(s, act)
    ensures RepliesOk(TearApply(s, act))
  {
    if act.CloseReply? && !s.table.calls[s.table.owner[act.id]].chan.closed {
      var c, t := s.table.owner[act.id], TearApply(s, act);
      assert ReplyOk(c, s.table.calls[c], s.table.owner, s.answers, Target(s.reader));
      RepliesUpdate(s.table.calls, s.table.owner, s.table.owner, s.answers, s.reader, s.reader, c, t.table.calls[c]);
    }
  }

  lemma RepliesConnect(s: State, act: ConnectAct)
    requires RepliesOk(s) && WorkersOk(s) && CanConnect(s, act)
    ensures RepliesOk(ConnectApply(s, act))
  {
  }

  lemma ReplyRead(c: Call, rec: CallRec, owner: map<Id, Call>, answers: seq<Response>, resp: Response)
    requires ReplyOk(c, rec, owner, answers, None)
    ensures ReplyOk(c, rec, owner, answers + [resp], None)
    ensures rec.id == resp.id ==> ReplyOk(c, rec, owner, answers + [resp], Some(c))
  {
    CountIdSnoc(answers, resp, rec.id);
    assert forall r :: r in answers ==> r in answers + [resp];
  }

  /** One more response decoded, for a registered id or not. */
  lemma RepliesRead(tab: Table, answers: seq<Response>, resp: Response, current: Option<Id>, tearing: bool)
    requires TableGood(tab, current, tearing, None) && Replies(tab.calls, tab.owner, answers, ReaderIdle)
    ensures Replies(tab.calls, tab.owner, answers + [resp], ReaderIdle)
    ensures resp.id in tab.pending ==>
      Replies(tab.calls, tab.owner, answers + [resp], Looked(resp, tab.pending[resp.id]))
  {
    forall d | d in tab.calls
      ensures ReplyOk(d, tab.calls[d], tab.owner, answers + [resp], None)
      ensures tab.calls[d].id == resp.id ==> ReplyOk(d, tab.calls[d], tab.owner, answers + [resp], Some(d))
    {
      ReplyRead(d, tab.calls[d], tab.owner, answers, resp);
    }
    if resp.id in tab.pending {
      var c := tab.pending[resp.id];
      assert CallOk(c, tab.calls[c], tab.pending, tab.owner, current, tearing, None);
    }
  }

  lemma RepliesDeliver(s: State)
    requires TableOk(s) && RepliesOk(s) && CanRead(s, Deliver)
    ensures RepliesOk(ReaderApply(s, Deliver))
  {
    var c, t := s.reader.call, ReaderApply(s, Deliver);
    assert ReplyOk(c, s.table.calls[c], s.table.owner, s.answers, Target(s.reader));
    assert CallOk(c, s.table.calls[c], s.table.pending, s.table.owner, Current(s.runner), s.runner.Tearing(),
                  Target(s.reader));
    if !s.table.calls[c].chan.closed {
      RepliesUpdate(s.table.calls, s.table.owner, s.table.owner, s.answers, s.reader, ReaderIdle, c, t.table.calls[c]);
    }
  }

  lemma RepliesIdle(s: State, reader: ReaderPc)
    requires RepliesOk(s) && !s.reader.Looked? && !reader.Looked?
    ensures RepliesOk(s.(reader := reader))
  {
  }

  lemma RepliesReader(s: State, act: ReaderAct)
    requires TableOk(s) && RepliesOk(s) && CanRead(s, act)
    ensures RepliesOk(ReaderApply(s, act))
  {
    match act
    case Deliver => RepliesDeliver(s);
    case Read(resp) => RepliesRead(s.table, s.answers, resp, Current(s.runner), s.runner.Tearing());
    case _ => RepliesIdle(s, ReaderApply(s, act).reader);
  }

  // ---------------------------------------------------------------------------------------------

  lemma DataOfSnoc(wire: seq<Sent>, sent: Sent)
    ensures DataOf(wire + [sent]) == DataOf(wire) + if sent.msg.registration then [] else [sent.msg]
  {
    assert (wire + [sent])[..|wire|] == wire;
  }

  /** A caller's progress, the enqueueing apart, changes nothing about what is queued. */
  lemma QueueProgress(s: State, c: Call, act: CallAct)
    requires TableOk(s) && QueueOk(s) && CanCall(s, c, act) && !act.Enqueue?
    ensures var t := CallApply(s, c, act);
      && t.queue == s.queue && t.sender == s.sender && t.link == s.link
      && forall i :: 0 <= i < |s.queue.enqueued| ==> Queued(s.queue.enqueued[i], t.table.calls, t.table.owner)
  {
    var t := CallApply(s, c, act);
    forall i | 0 <= i < |s.queue.enqueued| ensures Queued(s.queue.enqueued[i], t.table.calls, t.table.owner) {
      assert Queued(s.queue.enqueued[i], s.table.calls, s.table.owner);
    }
  }

  /** One more message at the end: it is the first of its call. */
  lemma HistoryEnqueue(enqueued: seq<Message>, calls: map<Call, CallRec>, owner: map<Id, Call>, c: Call)
    requires History(enqueued, calls, owner) && c in calls && calls[c].pc.Enqueueing?
    requires calls[c].id in owner && owner[calls[c].id] == c
    ensures History(enqueued + [Message(calls[c].id, false)], calls[c := calls[c].(pc := Waiting)], owner)
  {
    var calls' := calls[c := calls[c].(pc := Waiting)];
    forall i | 0 <= i < |enqueued|
      ensures Queued(enqueued[i], calls', owner) && enqueued[i] != Message(calls[c].id, false)
    {
      assert Queued(enqueued[i], calls, owner);
    }
  }

  lemma FlowEnqueue(buf: seq<Message>, enqueued: seq<Message>, handled: seq<Handled>, msg: Message, sender: SenderPc,
                    data: seq<Message>)
    requires Flow(buf, enqueued, handled, sender, data)
    ensures Flow(buf + [msg], enqueued + [msg], handled, sender, data)
  {
  }

  lemma QueueCall(s: State, c: Call, act: CallAct)
    requires TableOk(s) && QueueOk(s) && CanCall(s, c, act)
    ensures QueueOk(CallApply(s, c, act))
  {
    if act.Enqueue? {
      assert CallOk(c, s.table.calls[c], s.table.pending, s.table.owner, Current(s.runner), s.runner.Tearing(),
                    Target(s.reader));
      HistoryEnqueue(s.queue.enqueued, s.table.calls, s.table.owner, c);
      FlowEnqueue(s.queue.sendMsgs.buf, s.queue.enqueued, s.queue.handled, Message(s.table.calls[c].id, false),
                  s.sender, DataOf(s.link.wire));
    } else {
      QueueProgress(s, c, act);
    }
  }

  lemma QueueConnect(s: State, act: ConnectAct)
    requires QueueOk(s) && LinkOk(s) && CanConnect(s, act)
    ensures QueueOk(ConnectApply(s, act))
  {
    var t := ConnectApply(s, act);
    forall i | 0 <= i < |t.queue.enqueued| ensures Queued(t.queue.enqueued[i], t.table.calls, t.table.owner) {
      assert Queued(s.queue.enqueued[i], s.table.calls, s.table.owner);
    }
    if act.SendRegistration? && s.link.encoder.Some? {
      DataOfSnoc(s.link.wire, Sent(s.link.encoder.value, Message(act.id, true)));
    }
  }

  /** A teardown step leaves the queue, the wire and everybody's progress alone. */
  lemma TearLeavesQueue(s: State, act: TearAct)
    requires CanTear(s, act)
    ensures var t := TearApply(s, act);
      && t.queue == s.queue && t.sender == s.sender && t.link.wire == s.link.wire && t.table.owner == s.table.owner
      && t.table.calls.Keys == s.table.calls.Keys
      && forall c :: c in s.table.calls ==> t.table.calls[c].pc == s.table.calls[c].pc
  {
  }

  lemma HistoryKept(enqueued: seq<Message>, calls: map<Call, CallRec>, calls': map<Call, CallRec>, owner: map<Id, Call>)
    requires History(enqueued, calls, owner)
    requires calls'.Keys == calls.Keys && forall c :: c in calls ==> calls'[c].pc == calls[c].pc
    ensures History(enqueued, calls', owner)
  {
    forall i | 0 <= i < |enqueued| ensures Queued(enqueued[i], calls', owner) {
      assert Queued(enqueued[i], calls, owner);
    }
  }

  lemma QueueTear(s: State, act: TearAct)
    requires QueueOk(s) && CanTear(s, act)
    ensures QueueOk(TearApply(s, act))
  {
    TearLeavesQueue(s, act);
    HistoryKept(s.queue.enqueued, s.table.calls, TearApply(s, act).table.calls, s.table.owner);
  }

  /** The message in hand is dealt with: on the wire or lost. */
  lemma FlowEncode(buf: seq<Message>, enqueued: seq<Message>, handled: seq<Handled>, msg: Message, data: seq<Message>,
                   busy: SenderPc, idle: SenderPc)
    requires Flow(buf, enqueued, handled, busy, data) && busy.Busy() && busy.msg == msg && !idle.Busy()
    ensures Flow(buf, enqueued, handled + [Handled(msg, true)], idle, data + [msg])
    ensures Flow(buf, enqueued, handled + [Handled(msg, false)], idle, data)
  {
    assert (handled + [Handled(msg, true)])[..|handled|] == (handled + [Handled(msg, false)])[..|handled|] == handled;
    assert MsgsOf(handled) + [msg] + buf == MsgsOf(handled) + [msg] + [] + buf;
  }

  lemma QueueSender(s: State, act: SenderAct)
    requires QueueOk(s) && WorkersOk(s) && CanSendStep(s, act)
    ensures QueueOk(SenderApply(s, act))
  {
    match act
    case Take => FlowTake(s.queue.sendMsgs.buf, s.queue.enqueued, s.queue.handled, s.sender, DataOf(s.link.wire));
    case Encode(reached, fault) => QueueEncode(s, reached, fault);
    case _ =>
  }

  lemma QueueEncode(s: State, reached: bool, fault: Fault)
    requires QueueOk(s) && WorkersOk(s) && CanSendStep(s, Encode(reached, fault))
    ensures QueueOk(SenderApply(s, Encode(reached, fault)))
  {
    DataOfSnoc(s.link.wire, Sent(s.sender.epoch, s.sender.msg));
    FlowEncode(s.queue.sendMsgs.buf, s.queue.enqueued, s.queue.handled, s.sender.msg, DataOf(s.link.wire), s.sender,
               SenderApply(s, Encode(reached, fault)).sender);
  }

  /** The oldest message moves from the queue to the sender's hand. */
  lemma FlowTake(buf: seq<Message>, enqueued: seq<Message>, handled: seq<Handled>, idle: SenderPc, data: seq<Message>)
    requires Flow(buf, enqueued, handled, idle, data) && idle.SenderIdle? && buf != []
    ensures Flow(buf[1..], enqueued, handled, Holding(buf[0]), data)
  {
    assert MsgsOf(handled) + [] + buf == MsgsOf(handled) + [buf[0]] + buf[1..];
  }

  lemma QueueReader(s: State, act: ReaderAct)
    requires QueueOk(s) && CanRead(s, act)
    ensures QueueOk(ReaderApply(s, act))
  {
    var t := ReaderApply(s, act);
    forall i | 0 <= i < |t.queue.enqueued| ensures Queued(t.queue.enqueued[i], t.table.calls, t.table.owner) {
      assert Queued(s.queue.enqueued[i], s.table.calls, s.table.owner);
    }
  }

  // ---------------------------------------------------------------------------------------------

  lemma WireSnoc(wire: seq<Sent>, epochs: nat, sent: Sent)
    requires WireOk(wire, epochs) && sent.epoch == epochs - 1
    requires sent.msg.registration <==> !Opened(wire, sent.epoch)
    ensures WireOk(wire + [sent], epochs)
    ensures forall e :: Opened(wire + [sent], e) <==> Opened(wire, e) || e == sent.epoch
  {
    var w := wire + [sent];
    forall k | 0 <= k < |w| ensures w[k].msg.registration <==> !Opened(w[..k], w[k].epoch) {
      assert w[..k] == wire[..k];
      assert wire[..|wire|] == wire;
    }
    forall e ensures Opened(w, e) <==> Opened(wire, e) || e == sent.epoch {
      if Opened(wire, e) {
        var k :| 0 <= k < |wire| && wire[k].epoch == e;
        assert w[k].epoch == e;
      }
      assert w[|wire|] == sent;
    }
  }

  /** One more message on the newest control stream. */
  lemma LinkPut(link: Link, epoch: nat, msg: Message)
    requires WireOk(link.wire, link.epochs) && epoch == link.epochs - 1
    requires msg.registration <==> !Opened(link.wire, epoch)
    ensures WireOk(Put(link, epoch, msg).wire, link.epochs) && Opened(Put(link, epoch, msg).wire, epoch)
  {
    WireSnoc(link.wire, link.epochs, Sent(epoch, msg));
  }

  lemma LinkSendRegistration(link: Link, id: Id, ok: bool)
    requires LinkGood(link, RegSending)
    ensures var sent := Put(link, link.encoder.value, Message(id, true));
      if ok then LinkGood(sent, RegWaiting) else LinkGood(sent.(conn := false), Returned)
    ensures !ok ==> LinkGood(link.(conn := false), Returned)
  {
    LinkPut(link, link.encoder.value, Message(id, true));
  }

  /** Nothing is on the new control stream yet. */
  lemma LinkOpens(link: Link)
    requires LinkGood(link, OpeningStream)
    ensures var e := link.epochs;
      LinkGood(link.(encoder := Some(e), decoder := Some(e), epochs := e + 1), RegSending)
    ensures LinkGood(link.(conn := false), Returned)
  {
    assert forall k :: 0 <= k < |link.wire| ==> link.wire[k].epoch < link.epochs;
  }

  lemma LinkConnect(s: State, act: ConnectAct)
    requires LinkOk(s) && CanConnect(s, act)
    ensures LinkOk(ConnectApply(s, act))
  {
    match act
    case SendRegistration(id, _, ok) => LinkSendRegistration(s.link, id, ok);
    case OpenControl(ok) => LinkOpens(s.link);
    case _ =>
  }

  /** A sender that finds an encoder is on the newest stream, on which the registration went out. */
  lemma NewestIsOpened(link: Link, runner: RunnerPc)
    requires LinkGood(link, runner) && runner.Working() && link.encoder.Some?
    ensures link.encoder.value == link.epochs - 1 && Opened(link.wire, link.epochs - 1)
  {
  }

  lemma LinkSender(s: State, act: SenderAct)
    requires LinkOk(s) && QueueOk(s) && CanSendStep(s, act)
    ensures LinkOk(SenderApply(s, act))
  {
    match act
    case Encode(_, _) => LinkPut(s.link, s.sender.epoch, s.sender.msg);
    case StartEncode => LinkStartEncode(s);
    case Take => OldestIsNoRegistration(s);
    case StopSender =>
  }

  lemma OldestIsNoRegistration(s: State)
    requires QueueOk(s) && s.queue.sendMsgs.buf != []
    ensures !s.queue.sendMsgs.buf[0].registration
  {
    var n := |s.queue.enqueued| - |s.queue.sendMsgs.buf|;
    assert s.queue.enqueued[n] == s.queue.sendMsgs.buf[0];
    assert Queued(s.queue.enqueued[n], s.table.calls, s.table.owner);
  }

  lemma LinkStartEncode(s: State)
    requires LinkOk(s) && CanSendStep(s, StartEncode)
    ensures LinkOk(SenderApply(s, StartEncode))
  {
    if s.link.encoder.Some? {
      NewestIsOpened(s.link, s.runner);
    }
  }

  lemma LinkTear(s: State, act: TearAct)
    requires LinkOk(s) && CanTear(s, act)
    ensures LinkOk(TearApply(s, act))
  {
  }

  lemma InvCall(s: State, c: Call, act: CallAct)
    requires Inv(s) && CanCall(s, c, act)
    ensures Inv(CallApply(s, c, act))
  {
    TableCall(s, c, act);
    RepliesCall(s, c, act);
    QueueCall(s, c, act);
  }

  lemma InvConnect(s: State, act: ConnectAct)
    requires Inv(s) && CanConnect(s, act)
    ensures Inv(ConnectApply(s, act))
  {
    TableConnect(s, act);
    RepliesConnect(s, act);
    QueueConnect(s, act);
    LinkConnect(s, act);
    StatusConnect(s, act);
  }

  lemma StatusConnect(s: State, act: ConnectAct)
    requires StatusOk(s) && CanConnect(s, act)
    ensures StatusOk(ConnectApply(s, act))
  {
    match act
    case RegistrationReply(reply, readable) => StatusReply(s, reply, readable);
    case SendRegistration(id, reached, ok) => StatusSend(s, id, reached, ok);
    case _ =>
  }

  lemma StatusReply(s: State, reply: Option<Response>, readable: bool)
    requires StatusOk(s) && CanConnect(s, RegistrationReply(reply, readable))
    ensures StatusOk(ConnectApply(s, RegistrationReply(reply, readable)))
  {
  }

  lemma StatusSend(s: State, id: Id, reached: bool, ok: bool)
    requires StatusOk(s) && CanConnect(s, SendRegistration(id, reached, ok))
    ensures StatusOk(ConnectApply(s, SendRegistration(id, reached, ok)))
  {
  }

  lemma StatusTear(s: State, act: TearAct)
    requires StatusOk(s) && CanTear(s, act)
    ensures StatusOk(TearApply(s, act))
  {
  }

  lemma InvTear(s: State, act: TearAct)
    requires Inv(s) && CanTear(s, act)
    ensures Inv(TearApply(s, act))
  {
    TableTear(s, act);
    RepliesTear(s, act);
    QueueTear(s, act);
    LinkTear(s, act);
    StatusTear(s, act);
  }

  lemma InvLoop(s: State, act: LoopAct)
    requires Inv(s) && CanLoop(s, act)
    ensures Inv(LoopApply(s, act))
  {
  }

  lemma InvSender(s: State, act: SenderAct)
    requires Inv(s) && CanSendStep(s, act)
    ensures Inv(SenderApply(s, act))
  {
    QueueSender(s, act);
    LinkSender(s, act);
  }

  lemma InvReader(s: State, act: ReaderAct)
    requires Inv(s) && CanRead(s, act)
    ensures Inv(ReaderApply(s, act))
  {
    TableReader(s, act);
    RepliesReader(s, act);
    QueueReader(s, act);
  }

  lemma InvSdp(s: State, act: SdpAct)
    requires Inv(s) && CanSdp(s, act)
    ensures Inv(SdpApply(s, act))
  {
  }

  /** Every step of every goroutine keeps the invariant. */
  lemma InvStep(s: State, step: Step)
    requires Inv(s) && Enabled(s, step)
    ensures Inv(Apply(s, step))
  {
    match step
    case CallStep(c, act) => InvCall(s, c, act);
    case ConnectStep(act) => InvConnect(s, act);
    case TearStep(act) => InvTear(s, act);
    case LoopStep(act) => InvLoop(s, act);
    case SenderStep(act) => InvSender(s, act);
    case ReaderStep(act) => InvReader(s, act);
    case SdpStep(act) => InvSdp(s, act);
    case _ =>
  }

  lemma InvInit(capacity: nat)
    ensures Inv(Init(capacity))
  {
  }

  lemma {:induction false} InvRun(s: State, steps: seq<Step>, t: State)
    requires Inv(s) && Reaches(s, steps, t)
    ensures Inv(t)
    decreases |steps|
  {
    if steps != [] {
      InvStep(s, steps[0]);
      InvRun(Apply(s, steps[0]), steps[1..], t);
    }
  }
}
