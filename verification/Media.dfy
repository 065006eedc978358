/** Incoming media of one session: dispatch by type byte into three bounded drop-newest queues. */
module Media {
  import opened Channels
  import opened Wire

  const CAPACITY := 100

  datatype Medium = Voice | Webcam | Screen

  datatype Route = Empty | Chat | ToLane(medium: Medium) | Unknown

  function RouteOf(data: bytes): Route {
    if data == [] then Empty
    else if data[0] == CHAT then Chat
    else if data[0] == VOICE then ToLane(Voice)
    else if data[0] == WEBCAM then ToLane(Webcam)
    else if data[0] == SCREEN then ToLane(Screen)
    else Unknown
  }

  /** What can happen to the queues, in any order: any number of receivers, consumers and closers. */
  datatype Op =
    | Arrive(data: bytes)     // processData
    | Take(medium: Medium)    // one turn of the range loop of startDatagramsProcessors
    | Close(medium: Medium)   // disconnectSession

  /** One medium: its channel and what its consumer has passed to the handler so far. */
  datatype Lane = Lane(chan: Chan<bytes>, taken: seq<bytes>)

  datatype Queues = Queues(voice: Lane, webcam: Lane, screen: Lane,
                           chat: seq<bytes>,   // passed to the chat handler
                           panicked: bool)
  {
    function At(m: Medium): Lane {
      match m case Voice => voice case Webcam => webcam case Screen => screen
    }

    function With(m: Medium, lane: Lane): (q: Queues)
      ensures q.At(m) == lane && forall n | n != m :: q.At(n) == At(n)
    {
      match m
      case Voice => this.(voice := lane)
      case Webcam => this.(webcam := lane)
      case Screen => this.(screen := lane)
    }
  }

  const EMPTY := Lane(Make<bytes>(CAPACITY), [])
  const INITIAL := Queues(EMPTY, EMPTY, EMPTY, [], false)

  function Apply(q: Queues, op: Op): Queues {
    if q.panicked then q else
    match op
    case Arrive(data) =>
      (match RouteOf(data)
       case Empty => q.(panicked := true)
       case Unknown => q
       case Chat => q.(chat := q.chat + [data[1..]])
       case ToLane(m) =>
         var lane := q.At(m);
         if lane.chan.closed then q.(panicked := true)
         else if lane.chan.CanSend() then q.With(m, lane.(chan := lane.chan.Send(data[1..])))
         else q)
    case Take(m) =>
      var lane := q.At(m);
      if lane.chan.buf == [] then q
      else q.With(m, Lane(lane.chan.Recv(), lane.taken + [lane.chan.buf[0]]))
    case Close(m) =>
      var lane := q.At(m);
      if lane.chan.closed then q.(panicked := true)
      else q.With(m, lane.(chan := lane.chan.Close()))
  }

  function After(ops: seq<Op>): Queues {
    if ops == [] then INITIAL else Apply(After(ops[..|ops| - 1]), ops[|ops| - 1])
  }

  lemma AfterSnoc(ops: seq<Op>, op: Op)
    ensures After(ops + [op]) == Apply(After(ops), op)
  {
    assert (ops + [op])[..|ops|] == ops;
  }

  // ---------------------------------------------------------------------------------------------
  // The reference: plain counting over the history, with no queue in it.

  /** Payloads addressed to `m` in order of arrival. */
  function Arrivals(m: Medium, ops: seq<Op>): seq<bytes> {
    if ops == [] then [] else
    var before, op := Arrivals(m, ops[..|ops| - 1]), ops[|ops| - 1];
    if op.Arrive? && RouteOf(op.data) == ToLane(m) then before + [op.data[1..]] else before
  }

  function ChatArrivals(ops: seq<Op>): seq<bytes> {
    if ops == [] then [] else
    var before, op := ChatArrivals(ops[..|ops| - 1]), ops[|ops| - 1];
    if op.Arrive? && RouteOf(op.data) == Chat then before + [op.data[1..]] else before
  }

  /** How many items wait for `m`, counted up to the capacity and down to zero. */
  function Waiting(m: Medium, ops: seq<Op>): nat {
    if ops == [] then 0 else
    var before, op := Waiting(m, ops[..|ops| - 1]), ops[|ops| - 1];
    if op.Arrive? && RouteOf(op.data) == ToLane(m) && before < 100 then before + 1
    else if op == Take(m) && before > 0 then before - 1
    else before
  }

  /** Every arrival for `m` paired with whether it found room: fewer than 100 waiting at that moment. */
  function Verdicts(m: Medium, ops: seq<Op>): seq<(bytes, bool)> {
    if ops == [] then [] else
    var before, op := Verdicts(m, ops[..|ops| - 1]), ops[|ops| - 1];
    if op.Arrive? && RouteOf(op.data) == ToLane(m)
    then before + [(op.data[1..], Waiting(m, ops[..|ops| - 1]) < 100)]
    else before
  }

  function Select(verdicts: seq<(bytes, bool)>, kept: bool): seq<bytes> {
    if verdicts == [] then [] else
    var before, v := Select(verdicts[..|verdicts| - 1], kept), verdicts[|verdicts| - 1];
    if v.1 == kept then before + [v.0] else before
  }

  /** The operation a caller must not perform after `ops`. */
  predicate Misuse(op: Op, ops: seq<Op>) {
    match op
    case Arrive(data) => RouteOf(data) == Empty || (RouteOf(data).ToLane? && Close(RouteOf(data).medium) in ops)
    case Take(_) => false
    case Close(m) => Close(m) in ops
  }

  ghost predicate WellUsed(ops: seq<Op>) {
    forall k :: 0 <= k < |ops| ==> !Misuse(ops[k], ops[..k])
  }

  lemma WellUsedSnoc(ops: seq<Op>, op: Op)
    ensures WellUsed(ops + [op]) <==> WellUsed(ops) && !Misuse(op, ops)
  {
    var all := ops + [op];
    assert all[..|ops|] == ops;
    assert forall k :: 0 <= k < |ops| ==> all[..k] == ops[..k] && all[k] == ops[k];
    if WellUsed(all) {
      assert !Misuse(all[|ops|], all[..|ops|]);
      forall k | 0 <= k < |ops| ensures !Misuse(ops[k], ops[..k]) {
        assert !Misuse(all[k], all[..k]);
      }
    }
  }

  // ---------------------------------------------------------------------------------------------
  // The queues refine the reference, in every interleaving.

  ghost predicate AsUsed(q: Queues, ops: seq<Op>) {
    && (q.panicked <==> !WellUsed(ops))
    && (!q.panicked ==> forall m :: q.At(m).chan.closed <==> Close(m) in ops)
  }

  /** A panic happens exactly in histories that feed an empty message or touch a closed queue again. */
  lemma {:induction false} PanicExactly(ops: seq<Op>)
    ensures After(ops).panicked <==> !WellUsed(ops)
    ensures !After(ops).panicked ==> forall m :: After(ops).At(m).chan.closed <==> Close(m) in ops
  {
    if ops != [] {
      var before, op := ops[..|ops| - 1], ops[|ops| - 1];
      PanicExactly(before);
      assert ops == before + [op];
      OneMoreOp(After(before), before, op);
    }
  }

  lemma OneMoreOp(q: Queues, before: seq<Op>, op: Op)
    requires AsUsed(q, before)
    ensures AsUsed(Apply(q, op), before + [op])
  {
    WellUsedSnoc(before, op);
    OneOp(q, op);
    assert forall m :: Close(m) in before + [op] <==> Close(m) in before || op == Close(m);
  }

  /** What one operation panics on, and what it closes. */
  lemma OneOp(q: Queues, op: Op)
    ensures !q.panicked ==>
      (Apply(q, op).panicked <==>
         match op
         case Arrive(data) =>
           RouteOf(data) == Empty || (RouteOf(data).ToLane? && q.At(RouteOf(data).medium).chan.closed)
         case Take(_) => false
         case Close(m) => q.At(m).chan.closed)
    ensures !Apply(q, op).panicked ==>
      forall m :: Apply(q, op).At(m).chan.closed <==> q.At(m).chan.closed || op == Close(m)
    ensures q.panicked ==> Apply(q, op).panicked
  {
  }

  /** The lane in the terms of the reference: the items accepted so far and the number waiting. */
  ghost predicate Holds(lane: Lane, accepted: seq<bytes>, waiting: nat) {
    && lane.chan.cap == CAPACITY
    && lane.taken + lane.chan.buf == accepted
    && |lane.chan.buf| == waiting <= 100
  }

  ghost predicate Matches(lane: Lane, m: Medium, ops: seq<Op>) {
    Holds(lane, Select(Verdicts(m, ops), true), Waiting(m, ops))
  }

  /** One operation, as the reference sees it. */
  lemma ReferenceStep(m: Medium, before: seq<Op>, op: Op)
    ensures var w := Waiting(m, before);
      var arrives := op.Arrive? && RouteOf(op.data) == ToLane(m);
      && Waiting(m, before + [op]) ==
           (if arrives && w < 100 then w + 1 else if op == Take(m) && w > 0 then w - 1 else w)
      && Select(Verdicts(m, before + [op]), true)
         == Select(Verdicts(m, before), true) + (if arrives && w < 100 then [op.data[1..]] else [])
  {
    var ops := before + [op];
    assert ops[..|ops| - 1] == before;
    if op.Arrive? && RouteOf(op.data) == ToLane(m) {
      var v, last := Verdicts(m, before), (op.data[1..], Waiting(m, before) < 100);
      assert Verdicts(m, ops) == v + [last];
      assert (v + [last])[..|v|] == v;
    } else {
      assert Verdicts(m, ops) == Verdicts(m, before);
    }
  }

  /** One operation, as the queue performs it. */
  lemma QueueStep(q: Queues, m: Medium, accepted: seq<bytes>, w: nat, op: Op)
    requires Holds(q.At(m), accepted, w)
    requires !Apply(q, op).panicked
    ensures var arrives := op.Arrive? && RouteOf(op.data) == ToLane(m);
      Holds(Apply(q, op).At(m), accepted + (if arrives && w < 100 then [op.data[1..]] else []),
            if arrives && w < 100 then w + 1 else if op == Take(m) && w > 0 then w - 1 else w)
  {
    var lane, lane' := q.At(m), Apply(q, op).At(m);
    if op.Arrive? && RouteOf(op.data) == ToLane(m) && w < 100 {
      assert lane'.taken + lane'.chan.buf == (lane.taken + lane.chan.buf) + [op.data[1..]];
    } else if op == Take(m) && w > 0 {
      assert lane'.taken + lane'.chan.buf == lane.taken + ([lane.chan.buf[0]] + lane.chan.buf[1..]);
      assert [lane.chan.buf[0]] + lane.chan.buf[1..] == lane.chan.buf;
      assert accepted + [] == accepted;
    } else {
      assert accepted + [] == accepted;
      assert lane' == lane || (op == Close(m) && lane'.chan.buf == lane.chan.buf);
    }
  }

  /**
   * Conservation: what was taken followed by what waits is exactly the accepted arrivals in order; an
   * arrival is refused only while 100 wait; nothing crosses to another medium; closing drops nothing.
   */
  lemma {:induction false} Conservation(m: Medium, ops: seq<Op>)
    requires WellUsed(ops)
    ensures Matches(After(ops).At(m), m, ops)
  {
    if ops != [] {
      var before, op := ops[..|ops| - 1], ops[|ops| - 1];
      assert ops == before + [op];
      WellUsedSnoc(before, op);
      PanicExactly(ops);
      Conservation(m, before);
      ReferenceStep(m, before, op);
      QueueStep(After(before), m, Select(Verdicts(m, before), true), Waiting(m, before), op);
    }
  }

  lemma {:induction false} ChatIsImmediate(ops: seq<Op>)
    requires WellUsed(ops)
    ensures After(ops).chat == ChatArrivals(ops)
  {
    if ops != [] {
      var before, op := ops[..|ops| - 1], ops[|ops| - 1];
      assert ops == before + [op];
      WellUsedSnoc(before, op);
      PanicExactly(ops);
      PanicExactly(before);
      ChatIsImmediate(before);
    }
  }

  /** The verdicts list every arrival once, so accepted and refused add up to the arrivals. */
  lemma {:induction false} VerdictsCoverArrivals(m: Medium, ops: seq<Op>)
    ensures |Verdicts(m, ops)| == |Arrivals(m, ops)|
    ensures forall k :: 0 <= k < |Verdicts(m, ops)| ==> Verdicts(m, ops)[k].0 == Arrivals(m, ops)[k]
    ensures |Select(Verdicts(m, ops), true)| + |Select(Verdicts(m, ops), false)| == |Arrivals(m, ops)|
  {
    if ops != [] {
      var before := ops[..|ops| - 1];
      VerdictsCoverArrivals(m, before);
      var v := Verdicts(m, before);
      if Verdicts(m, ops) != v {
        assert Verdicts(m, ops)[..|v|] == v;
      }
    }
  }

  function Takes(m: Medium, n: nat): seq<Op> {
    seq(n, _ => Take(m))
  }

  lemma TakesOneMore(m: Medium, ops: seq<Op>, n: nat)
    ensures ops + Takes(m, n + 1) == (ops + [Take(m)]) + Takes(m, n)
  {
  }

  lemma TakeStep(m: Medium, ops: seq<Op>)
    requires WellUsed(ops)
    ensures WellUsed(ops + [Take(m)])
    ensures After(ops + [Take(m)]) == Apply(After(ops), Take(m))
    ensures Waiting(m, ops + [Take(m)]) == if Waiting(m, ops) > 0 then Waiting(m, ops) - 1 else 0
    ensures Verdicts(m, ops + [Take(m)]) == Verdicts(m, ops)
  {
    WellUsedSnoc(ops, Take(m));
    assert (ops + [Take(m)])[..|ops|] == ops;
  }

  /** Closed or not, a consumer that keeps taking empties the queue and gets all that was accepted before. */
  lemma {:induction false} KeepsDraining(m: Medium, ops: seq<Op>)
    requires WellUsed(ops)
    ensures WellUsed(ops + Takes(m, Waiting(m, ops)))
    ensures After(ops + Takes(m, Waiting(m, ops))).At(m).chan.buf == []
    ensures After(ops + Takes(m, Waiting(m, ops))).At(m).taken == Select(Verdicts(m, ops), true)
    decreases Waiting(m, ops)
  {
    Conservation(m, ops);
    var n := Waiting(m, ops);
    if n == 0 {
      assert ops + Takes(m, 0) == ops;
      var lane := After(ops).At(m);
      assert lane.taken + lane.chan.buf == lane.taken;
    } else {
      TakeStep(m, ops);
      TakesOneMore(m, ops, n - 1);
      KeepsDraining(m, ops + [Take(m)]);
    }
  }

  /** A tagged message reaches exactly its own branch, with exactly its own bytes. */
  lemma {:induction false} TagSelectsBranch(tag: byte, msg: bytes)
    ensures Tagged(tag, msg)[1..] == msg
    ensures RouteOf(Tagged(tag, msg)) == Chat <==> tag == 0
    ensures forall m :: RouteOf(Tagged(tag, msg)) == ToLane(m) <==> tag == TagOf(m)
    ensures TagOf(Voice) == 1 && TagOf(Webcam) == 2 && TagOf(Screen) == 3
    ensures RouteOf(Tagged(tag, msg)) == Unknown <==> tag > 3
  {
    assert Tagged(tag, msg)[1..] == msg;
    assert Tagged(tag, msg)[0] == tag;
  }

  function TagOf(m: Medium): byte {
    match m case Voice => VOICE case Webcam => WEBCAM case Screen => SCREEN
  }

  // ---------------------------------------------------------------------------------------------
  // The session's own channels, updated in place

  datatype Outcome = Handled | Queued(medium: Medium) | Dropped(medium: Medium) | Rejected | Panicked

  class MediaChannels {
    var voiceChan: Chan<bytes>
    var webcamChan: Chan<bytes>
    var screenChan: Chan<bytes>
    var voiceCalls: seq<bytes>    // calls of the media handlers
    var webcamCalls: seq<bytes>
    var screenCalls: seq<bytes>
    var chatCalls: seq<bytes>     // calls of the chat handler
    var panicked: bool
    ghost var ops: seq<Op>

    function ChanOf(m: Medium): Chan<bytes>
      reads this
    {
      match m case Voice => voiceChan case Webcam => webcamChan case Screen => screenChan
    }

    ghost function Contents(): Queues
      reads this
    {
      Queues(Lane(voiceChan, voiceCalls), Lane(webcamChan, webcamCalls), Lane(screenChan, screenCalls),
             chatCalls, panicked)
    }

    /** The channels are where some interleaving of the recorded operations leaves them. */
    ghost predicate Valid()
      reads this
    {
      Contents() == After(ops)
    }

    constructor ()
      ensures Valid() && ops == []
    {
      voiceChan, webcamChan, screenChan := Make(CAPACITY), Make(CAPACITY), Make(CAPACITY);
      voiceCalls, webcamCalls, screenCalls, chatCalls, panicked := [], [], [], [], false;
      ops := [];
    }

    method SetChan(m: Medium, c: Chan<bytes>)
      modifies this`voiceChan, this`webcamChan, this`screenChan
      ensures Contents() == old(Contents()).With(m, old(Contents()).At(m).(chan := c))
    {
      match m {
        case Voice => voiceChan := c;
        case Webcam => webcamChan := c;
        case Screen => screenChan := c;
      }
    }

    method CallHandler(m: Medium, payload: bytes)
      modifies this`voiceCalls, this`webcamCalls, this`screenCalls
      ensures Contents() == old(Contents()).With(m, Lane(old(ChanOf(m)), old(Contents()).At(m).taken + [payload]))
    {
      match m {
        case Voice => voiceCalls := voiceCalls + [payload];
        case Webcam => webcamCalls := webcamCalls + [payload];
        case Screen => screenCalls := screenCalls + [payload];
      }
    }

    method ProcessData(data: bytes) returns (r: Outcome)
      requires Valid() && !panicked
      modifies this
      ensures Valid() && ops == old(ops) + [Arrive(data)]
      ensures r == Panicked <==> panicked
      ensures r == Panicked <==> Misuse(Arrive(data), old(ops))
      ensures forall m :: r == Queued(m) <==> !panicked && RouteOf(data) == ToLane(m) && Waiting(m, old(ops)) < 100
      ensures forall m ::
        r == Dropped(m) <==> !panicked && RouteOf(data) == ToLane(m) && Waiting(m, old(ops)) == 100
      ensures r == Rejected ==> Contents() == old(Contents())
    {
      if data != [] && data[0] == VOICE {
        r := ProcessMedia(Voice, data);
      } else if data != [] && data[0] == WEBCAM {
        r := ProcessMedia(Webcam, data);
      } else if data != [] && data[0] == SCREEN {
        r := ProcessMedia(Screen, data);
      } else {
        PanicExactly(ops);
        AfterSnoc(ops, Arrive(data));
        ops := ops + [Arrive(data)];
        if data == [] {
          panicked := true;
          r := Panicked;
        } else if data[0] == CHAT {
          chatCalls := chatCalls + [data[1..]];
          r := Handled;
        } else {
          r := Rejected;
        }
      }
    }

    method ProcessMedia(m: Medium, data: bytes) returns (r: Outcome)
      requires Valid() && !panicked && RouteOf(data) == ToLane(m)
      modifies this
      ensures Valid() && ops == old(ops) + [Arrive(data)]
      ensures r == Panicked <==> panicked
      ensures panicked <==> Close(m) in old(ops)
      ensures !panicked ==> r == if Waiting(m, old(ops)) < 100 then Queued(m) else Dropped(m)
      ensures !panicked ==> Waiting(m, old(ops)) <= 100
    {
      PanicExactly(ops);
      Conservation(m, ops);
      AfterSnoc(ops, Arrive(data));
      ops := ops + [Arrive(data)];
      r := Offer(m, data[1..]);
    }

    /** select with a default branch: send if there is room, otherwise drop the new item. */
    method Offer(m: Medium, payload: bytes) returns (r: Outcome)
      modifies this`voiceChan, this`webcamChan, this`screenChan, this`panicked
      ensures r == if old(ChanOf(m)).closed then Panicked
                   else if old(ChanOf(m)).CanSend() then Queued(m) else Dropped(m)
      ensures r == Panicked ==> Contents() == old(Contents()).(panicked := true)
      ensures r == Queued(m) ==>
        Contents() == old(Contents()).With(m, old(Contents()).At(m).(chan := old(ChanOf(m)).Send(payload)))
      ensures r == Dropped(m) ==> Contents() == old(Contents())
    {
      var c := ChanOf(m);
      if c.closed {
        panicked := true;
        r := Panicked;
      } else if c.CanSend() {
        SetChan(m, c.Send(payload));
        r := Queued(m);
      } else {
        r := Dropped(m);
      }
    }

    /** One turn of the range loop. */
    method TakeOne(m: Medium)
      requires Valid() && !panicked && WellUsed(ops) && ChanOf(m).buf != []
      modifies this
      ensures Valid() && !panicked && WellUsed(ops) && ops == old(ops) + [Take(m)]
      ensures ChanOf(m) == old(ChanOf(m)).Recv()
      ensures Contents().At(m).taken == old(Contents()).At(m).taken + [old(ChanOf(m)).buf[0]]
    {
      TakeStep(m, ops);
      var c := ChanOf(m);
      CallHandler(m, c.buf[0]);
      SetChan(m, c.Recv());
      ops := ops + [Take(m)];
    }

    /** The range loop over one channel, until it would block; `ended` when the loop is over for good. */
    method Consume(m: Medium) returns (ended: bool)
      requires Valid() && !panicked
      modifies this
      ensures Valid() && !panicked && ops == old(ops) + Takes(m, Waiting(m, old(ops)))
      ensures ended == (Close(m) in old(ops))
      ensures ChanOf(m).buf == []
      ensures Contents().At(m).taken == Select(Verdicts(m, old(ops)), true)
    {
      PanicExactly(ops);
      KeepsDraining(m, ops);
      Conservation(m, ops);
      ghost var n := Waiting(m, ops);
      assert ops + Takes(m, 0) == ops;
      while ChanOf(m).buf != []
        invariant Valid() && !panicked && WellUsed(ops)
        invariant |ChanOf(m).buf| == n && ops + Takes(m, n) == old(ops) + Takes(m, Waiting(m, old(ops)))
        invariant ChanOf(m).closed == old(ChanOf(m)).closed
        decreases |ChanOf(m).buf|
      {
        TakesOneMore(m, ops, n - 1);
        TakeOne(m);
        n := n - 1;
      }
      assert ops + Takes(m, 0) == ops;
      ended := ChanOf(m).closed;
    }

    /** The three closes of a teardown: no queue is closed twice and no waiting item is lost. */
    method CloseAll()
      requires Valid() && !panicked && forall m :: Close(m) !in ops
      modifies this
      ensures Valid() && !panicked && ops == old(ops) + [Close(Voice), Close(Webcam), Close(Screen)]
      ensures forall m: Medium :: ChanOf(m) == old(ChanOf(m)).(closed := true)
    {
      CloseOne(Voice);
      CloseOne(Webcam);
      CloseOne(Screen);
      assert ops == old(ops) + [Close(Voice), Close(Webcam), Close(Screen)];
    }

    method CloseOne(m: Medium)
      requires Valid() && !panicked && Close(m) !in ops
      modifies this
      ensures Valid() && !panicked && ops == old(ops) + [Close(m)]
      ensures Contents() == old(Contents()).With(m, old(Contents()).At(m).(chan := old(ChanOf(m)).(closed := true)))
    {
      PanicExactly(ops);
      SetChan(m, ChanOf(m).Close());
      ops := ops + [Close(m)];
      assert ops[..|ops| - 1] == old(ops);
    }
  }

  /** End to end: tag, seal, carry in any pieces, open, dispatch. The message lands in its own branch unchanged. */
  method SendAndDispatch(aes: bytes -> Aead, key: bytes, random: bytes, tag: byte, msg: bytes, sizes: seq<nat>)
    returns (route: Route, payload: bytes)
    requires aes(key).Lawful() && |key| == KEY_SIZE && aes(key).nonceSize <= |random|
    ensures payload == msg
    ensures tag <= SCREEN ==> route == if tag == CHAT then Chat else ToLane(MediumOf(tag))
    ensures tag > SCREEN ==> route == Unknown
  {
    var data := SetFirstByte(tag, msg);
    var got, n := CarryMessage(aes, key, random, data, sizes);
    TagSelectsBranch(tag, msg);
    route, payload := RouteOf(got.value), got.value[1..];
  }

  function MediumOf(tag: byte): Medium
    requires VOICE <= tag <= SCREEN
  {
    if tag == VOICE then Voice else if tag == WEBCAM then Webcam else Screen
  }
}
