/** The two-party key exchange of setupE2EE, over all interleavings of the two sides. */
module KeyExchange {
  import opened Channels
  import opened Wire

  /** X25519 and HKDF-SHA256 as parameters. */
  datatype Suite = Suite(publicKey: nat -> bytes,
                         dh: (nat, bytes) -> Option<bytes>,
                         hkdf: bytes -> bytes)
  {
    /** Section 6.1 of RFC 7748 (both sides reach one secret) and section 2 of RFC 5869 (requested output size). */
    ghost predicate Lawful() {
      && (forall x: nat, y: nat :: dh(x, publicKey(y)).Some? && dh(x, publicKey(y)) == dh(y, publicKey(x)))
      && (forall secret: bytes :: |hkdf(secret)| == KEY_SIZE)
    }
  }

  /** NewMasterKey: an unusable public key is an error. */
  function MasterKey(suite: Suite, priv: nat, peerKey: bytes): Option<bytes> {
    match suite.dh(priv, peerKey)
    case Some(secret) => Some(suite.hkdf(secret))
    case None => None
  }

  /** Exactly when there is a key, and which: what the derivation makes of the secret of this agreement. */
  lemma MasterKeyDerives(suite: Suite, priv: nat, peerKey: bytes)
    ensures MasterKey(suite, priv, peerKey).None? <==> suite.dh(priv, peerKey).None?
    ensures suite.dh(priv, peerKey).Some? ==>
      MasterKey(suite, priv, peerKey) == Some(suite.hkdf(suite.dh(priv, peerKey).value))
  {
  }

  /** The key is what the derivation makes of the secret that these two key pairs agree on. */
  ghost predicate IsKeyOf(suite: Suite, key: bytes, x: nat, y: nat) {
    && suite.dh(x, suite.publicKey(y)).Some? && key == suite.hkdf(suite.dh(x, suite.publicKey(y)).value)
    && |key| == 32
  }

  /** The key both sides ought to hold. */
  function SharedKey(suite: Suite, x: nat, y: nat): Option<bytes> {
    MasterKey(suite, x, suite.publicKey(y))
  }

  lemma SharedKeyIsSymmetric(suite: Suite, x: nat, y: nat)
    requires suite.Lawful()
    ensures SharedKey(suite, x, y) == SharedKey(suite, y, x)
    ensures SharedKey(suite, x, y) == Some(suite.hkdf(suite.dh(x, suite.publicKey(y)).value))
    ensures |SharedKey(suite, x, y).value| == KEY_SIZE
  {
    assert suite.dh(x, suite.publicKey(y)) == suite.dh(y, suite.publicKey(x));
  }

  // ---------------------------------------------------------------------------------------------

  datatype Side = Left | Right {
    function Other(): Side { if this == Left then Right else Left }
  }

  datatype Purpose = KeyStream | DataStream

  /**
   * A unidirectional stream as its opener has filled it so far. Nothing is sent for it before its first byte or its
   * end.
   */
  datatype UniStream = UniStream(purpose: Purpose, data: bytes, closed: bool) {
    predicate Shown() {
      data != [] || closed
    }
  }

  /** The peer can accept a stream once it, or one opened after it, has been shown. */
  predicate CanAccept(streams: seq<UniStream>, k: nat) {
    exists j :: k <= j < |streams| && streams[j].Shown()
  }

  /** Where setupE2EE stands; Done is followed by the data phase, Stopped is any error return. */
  datatype Pc = Opening | Writing | Closing | Accepting | Reading(i: nat) | Deriving(peerKey: bytes)
              | Done(key: bytes) | Stopped

  datatype Party = Party(priv: nat, pc: Pc, streams: seq<UniStream>, accepted: nat)

  datatype State = State(left: Party, right: Party) {
    function At(s: Side): Party { if s == Left then left else right }

    function With(s: Side, p: Party): State {
      if s == Left then this.(left := p) else this.(right := p)
    }
  }

  function Init(x: nat, y: nat): State {
    State(Party(x, Opening, [], 0), Party(y, Opening, [], 0))
  }

  datatype Action =
    | Advance                  // the next statement of setupE2EE
    | Fail                     // a stream or context error
    | SendData(data: bytes)    // a message on a stream of its own, behind the ready gate
    | AcceptData               // the receiving loop, started after the exchange

  datatype Step = Step(side: Side, action: Action)

  /** ReadyChan is closed when establishment has ended, successfully or not: a failed side passes the gate as well. */
  predicate PastGate(pc: Pc) {
    pc.Done? || pc.Stopped?
  }

  predicate CanMove(me: Party, peer: Party, action: Action) {
    match action
    case Advance =>
      (match me.pc
       case Accepting => CanAccept(peer.streams, me.accepted)
       case Reading(i) => i < |peer.streams| && peer.streams[i].closed   // ReadAll waits for the end
       case Done(_) => false
       case Stopped => false
       case _ => true)
    case Fail => !me.pc.Done? && !me.pc.Stopped?
    case SendData(_) => PastGate(me.pc)
    case AcceptData => me.pc.Done? && CanAccept(peer.streams, me.accepted)
  }

  function Move(suite: Suite, me: Party, peer: Party, action: Action): Party
    requires CanMove(me, peer, action)
  {
    match action
    case Fail => me.(pc := Stopped)
    case SendData(data) =>
      // without a key NewSecureStream refuses after the stream has been opened: nothing is written on it
      var stream := if me.pc.Done? then UniStream(DataStream, data, true) else UniStream(DataStream, [], false);
      me.(streams := me.streams + [stream])
    case AcceptData => me.(accepted := me.accepted + 1)
    case Advance =>
      match me.pc
      case Opening => me.(pc := Writing, streams := me.streams + [UniStream(KeyStream, [], false)])
      case Writing => OnLast(me, UniStream(KeyStream, suite.publicKey(me.priv), false)).(pc := Closing)
      case Closing => OnLast(me, UniStream(KeyStream, suite.publicKey(me.priv), true)).(pc := Accepting)
      case Accepting => me.(pc := Reading(me.accepted), accepted := me.accepted + 1)
      case Reading(i) => me.(pc := Deriving(peer.streams[i].data))
      case Deriving(peerKey) =>
        (match MasterKey(suite, me.priv, peerKey)
         case Some(key) => me.(pc := Done(key))
         case None => me.(pc := Stopped))
      case _ => me
  }

  predicate Enabled(s: State, step: Step) {
    CanMove(s.At(step.side), s.At(step.side.Other()), step.action)
  }

  function Apply(suite: Suite, s: State, step: Step): State
    requires Enabled(s, step)
  {
    s.With(step.side, Move(suite, s.At(step.side), s.At(step.side.Other()), step.action))
  }

  /** The stream being filled is the last one this side streams. */
  function OnLast(p: Party, stream: UniStream): Party {
    if p.streams == [] then p else p.(streams := p.streams[|p.streams| - 1 := stream])
  }

  // ---------------------------------------------------------------------------------------------

  /** A side that failed before it opened its key stream: none of its streams is ever shown. */
  ghost predicate Silent(me: Party) {
    me.pc.Stopped? && forall k :: 0 <= k < |me.streams| ==> !me.streams[k].Shown()
  }

  ghost predicate PartyOk(suite: Suite, me: Party, peer: Party) {
    && (me.pc.Opening? ==> me.streams == [] && me.accepted == 0)
    && (me.pc.Writing? || me.pc.Closing? ==> |me.streams| == 1 && me.accepted == 0 && !me.streams[0].closed)
    && (me.pc.Closing? ==> me.streams[0].data == suite.publicKey(me.priv))
    && (me.pc.Accepting? ==> me.accepted == 0)
    && (me.pc.Accepting? || me.pc.Reading? || me.pc.Deriving? || me.pc.Done? ==>
          |me.streams| >= 1 && me.streams[0].closed)
    && (forall k :: 0 < k < |me.streams| ==> me.streams[k].purpose == DataStream)
    && (me.streams != [] && me.streams[0].purpose == DataStream ==> Silent(me))
    && (me.streams != [] && me.streams[0].closed ==>
          me.streams[0].purpose == KeyStream && me.streams[0].data == suite.publicKey(me.priv))
    && me.accepted <= |peer.streams|
    && (me.pc.Reading? ==> me.pc.i == 0 && me.accepted == 1)
    && (me.pc.Deriving? ==> me.pc.peerKey == suite.publicKey(peer.priv))
    && (me.pc.Deriving? || me.pc.Done? ==> me.accepted >= 1)
    && (me.pc.Done? ==> Some(me.pc.key) == SharedKey(suite, me.priv, peer.priv))
  }

  ghost predicate Inv(suite: Suite, s: State) {
    PartyOk(suite, s.left, s.right) && PartyOk(suite, s.right, s.left)
  }

  lemma MoverStaysOk(suite: Suite, me: Party, peer: Party, action: Action)
    requires PartyOk(suite, me, peer) && PartyOk(suite, peer, me) && CanMove(me, peer, action)
    ensures PartyOk(suite, Move(suite, me, peer, action), peer)
  {
  }

  lemma PeerStaysOk(suite: Suite, me: Party, peer: Party, action: Action)
    requires PartyOk(suite, me, peer) && PartyOk(suite, peer, me) && CanMove(me, peer, action)
    ensures PartyOk(suite, peer, Move(suite, me, peer, action))
  {
    var me' := Move(suite, me, peer, action);
    assert me'.priv == me.priv && |me.streams| <= |me'.streams|;
  }

  lemma InvStep(suite: Suite, s: State, step: Step)
    requires Inv(suite, s) && Enabled(s, step)
    ensures Inv(suite, Apply(suite, s, step))
  {
    MoverStaysOk(suite, s.At(step.side), s.At(step.side.Other()), step.action);
    PeerStaysOk(suite, s.At(step.side), s.At(step.side.Other()), step.action);
  }

  ghost predicate Reaches(suite: Suite, s: State, steps: seq<Step>, t: State)
    decreases |steps|
  {
    if steps == [] then s == t
    else Enabled(s, steps[0]) && Reaches(suite, Apply(suite, s, steps[0]), steps[1..], t)
  }

  lemma {:induction false} InvRun(suite: Suite, s: State, steps: seq<Step>, t: State)
    requires Inv(suite, s) && Reaches(suite, s, steps, t)
    ensures Inv(suite, t)
    ensures t.left.priv == s.left.priv && t.right.priv == s.right.priv
    decreases |steps|
  {
    if steps != [] {
      InvStep(suite, s, steps[0]);
      InvRun(suite, Apply(suite, s, steps[0]), steps[1..], t);
    }
  }

  /**
   * Every interleaving: a side that finishes holds the key derived from its own private key and the other's public key,
   * whatever the other has done; the two keys are the same.
   */
  lemma {:induction false} Agreement(suite: Suite, x: nat, y: nat, steps: seq<Step>, t: State)
    requires suite.Lawful() && Reaches(suite, Init(x, y), steps, t)
    ensures t.left.pc.Done? ==> IsKeyOf(suite, t.left.pc.key, x, y)
    ensures t.right.pc.Done? ==> IsKeyOf(suite, t.right.pc.key, y, x)
    ensures t.left.pc.Done? && t.right.pc.Done? ==> t.left.pc.key == t.right.pc.key
  {
    InvRun(suite, Init(x, y), steps, t);
    SharedKeyIsSymmetric(suite, x, y);
    MasterKeyDerives(suite, x, suite.publicKey(y));
    MasterKeyDerives(suite, y, suite.publicKey(x));
  }

  /**
   * The stream a side accepts first is the peer's key stream, even when the peer has finished and is already sending
   * data, or has failed and opens streams it can write nothing on; every stream accepted later is a data stream.
   */
  lemma {:induction false} FirstAcceptedIsKeyStream(suite: Suite, x: nat, y: nat, steps: seq<Step>, t: State,
                                                    side: Side)
    requires Reaches(suite, Init(x, y), steps, t)
    ensures var me, peer := t.At(side), t.At(side.Other());
      && (Enabled(t, Step(side, Advance)) && me.pc.Accepting? ==>
            me.accepted < |peer.streams| && peer.streams[me.accepted].purpose == KeyStream)
      && (Enabled(t, Step(side, AcceptData)) ==>
            me.accepted < |peer.streams| && peer.streams[me.accepted].purpose == DataStream)
  {
    InvRun(suite, Init(x, y), steps, t);
  }

  // ---------------------------------------------------------------------------------------------
  // The data phase

  /** The messages this side sends in a run, in order. */
  function SentBy(steps: seq<Step>, side: Side): seq<bytes> {
    if steps == [] then []
    else
      (if steps[0].side == side && steps[0].action.SendData? then [steps[0].action.data] else [])
      + SentBy(steps[1..], side)
  }

  function AcceptedBy(steps: seq<Step>, side: Side): nat {
    if steps == [] then 0
    else
      (if steps[0].side == side && steps[0].action.AcceptData? then 1 else 0) + AcceptedBy(steps[1..], side)
  }

  function DataStreams(data: seq<bytes>): seq<UniStream> {
    seq(|data|, k requires 0 <= k < |data| => UniStream(DataStream, data[k], true))
  }

  /**
   * After its exchange a side keeps its key; each message goes out whole on a stream of its own, in order, behind the
   * streams it has opened before, and each accept takes the next stream of the peer.
   */
  lemma {:induction false} DataPhase(suite: Suite, s: State, steps: seq<Step>, t: State, side: Side)
    requires Reaches(suite, s, steps, t) && s.At(side).pc.Done?
    ensures t.At(side).pc == s.At(side).pc
    ensures t.At(side).streams == s.At(side).streams + DataStreams(SentBy(steps, side))
    ensures t.At(side).accepted == s.At(side).accepted + AcceptedBy(steps, side)
    decreases |steps|
  {
    if steps != [] {
      var u := Apply(suite, s, steps[0]);
      DataPhaseStep(suite, s, steps[0], side);
      DataPhase(suite, u, steps[1..], t, side);
      DataStreamsSplit(SentBy(steps, side), SentBy(steps[1..], side));
    }
  }

  lemma DataPhaseStep(suite: Suite, s: State, step: Step, side: Side)
    requires Enabled(s, step) && s.At(side).pc.Done?
    ensures var u := Apply(suite, s, step);
      && u.At(side).pc == s.At(side).pc
      && u.At(side).streams == s.At(side).streams
           + (if step.side == side && step.action.SendData?
              then [UniStream(DataStream, step.action.data, true)] else [])
      && u.At(side).accepted == s.At(side).accepted
           + (if step.side == side && step.action.AcceptData? then 1 else 0)
  {
    if step.side != side {
      OneMoves(suite, s, step.side, step.action);
    }
  }

  lemma DataStreamsSplit(all: seq<bytes>, rest: seq<bytes>)
    requires all == rest || (all != [] && all[1..] == rest)
    ensures DataStreams(all) ==
      (if all == rest then [] else [UniStream(DataStream, all[0], true)]) + DataStreams(rest)
  {
  }

  /** Statements of setupE2EE still to run. */
  function Remaining(p: Party): nat {
    match p.pc
    case Opening => 6 case Writing => 5 case Closing => 4 case Accepting => 3
    case Reading(_) => 2 case Deriving(_) => 1 case _ => 0
  }

  /**
   * No deadlock: until both are done some side can run its next statement, and each such statement
   * brings the end nearer. It rests on each side writing and closing before it accepts.
   */
  lemma {:induction false} NoDeadlock(suite: Suite, x: nat, y: nat, steps: seq<Step>, t: State) returns (side: Side)
    requires suite.Lawful() && Reaches(suite, Init(x, y), steps, t)
    requires !t.left.pc.Stopped? && !t.right.pc.Stopped?
    requires !(t.left.pc.Done? && t.right.pc.Done?)
    ensures Enabled(t, Step(side, Advance))
    ensures var u := Apply(suite, t, Step(side, Advance));
      && !u.left.pc.Stopped? && !u.right.pc.Stopped?
      && Remaining(u.left) + Remaining(u.right) < Remaining(t.left) + Remaining(t.right) <= 12
  {
    InvRun(suite, Init(x, y), steps, t);
    SharedKeyIsSymmetric(suite, x, y);
    side := if Enabled(t, Step(Left, Advance)) then Left else Right;
  }

  // ---------------------------------------------------------------------------------------------
  // The statements of setupE2EE on one side, the other side running in between

  /** A side's move leaves the other side alone, keeps its own key pair and takes back no stream. */
  lemma OneMoves(suite: Suite, s: State, side: Side, action: Action)
    requires Enabled(s, Step(side, action))
    ensures var t := Apply(suite, s, Step(side, action));
      && t.At(side.Other()) == s.At(side.Other()) && t.At(side).priv == s.At(side).priv
      && |s.At(side).streams| <= |t.At(side).streams|
  {
  }

  class Link {
    const suite: Suite
    var left: Party
    var right: Party

    function Now(): State
      reads this
    {
      State(left, right)
    }

    constructor (suite: Suite, x: nat, y: nat)
      ensures this.suite == suite && Now() == Init(x, y) && Inv(suite, Now())
    {
      this.suite := suite;
      left, right := Party(x, Opening, [], 0), Party(y, Opening, [], 0);
    }

    method Do(side: Side, action: Action)
      requires Inv(suite, Now()) && Enabled(Now(), Step(side, action))
      modifies this
      ensures Now() == Apply(suite, old(Now()), Step(side, action)) && Inv(suite, Now())
    {
      InvStep(suite, Now(), Step(side, action));
      var next := Apply(suite, Now(), Step(side, action));
      left, right := next.left, next.right;
    }

    ghost predicate Undisturbed(me: Side, before: State)
      reads this
    {
      && Now().At(me) == before.At(me)
      && Now().At(me.Other()).priv == before.At(me.Other()).priv
      && |before.At(me.Other()).streams| <= |Now().At(me.Other()).streams|
    }

    /** The peer makes any number of moves, in any order it can. */
    method PeerRuns(me: Side, actions: seq<Action>)
      requires Inv(suite, Now())
      modifies this
      ensures Inv(suite, Now()) && Undisturbed(me, old(Now()))
    {
      for i := 0 to |actions|
        invariant Inv(suite, Now()) && Undisturbed(me, old(Now()))
      {
        if Enabled(Now(), Step(me.Other(), actions[i])) {
          OneMoves(suite, Now(), me.Other(), actions[i]);
          Do(me.Other(), actions[i]);
        }
      }
    }

    /** The peer's key stream has not been shown yet, or has not been finished. */
    ghost predicate PeerMissing(s: State, me: Side) {
      var streams := s.At(me.Other()).streams;
      || (s.At(me).pc.Accepting? && forall k :: 0 <= k < |streams| ==> !streams[k].Shown())
      || (s.At(me).pc.Reading? && (streams == [] || !streams[0].closed))
    }

    /**
     * `peer` is what the other side does after each of our statements. None is an error return: the context ran out
     * while the peer's stream was missing or unfinished; `seen` is the state before it.
     */
    method SetupE2EE(me: Side, peer: nat -> seq<Action>) returns (key: Option<bytes>, ghost seen: State)
      requires suite.Lawful() && Inv(suite, Now()) && Now().At(me).pc.Opening?
      modifies this
      ensures Inv(suite, Now())
      ensures Now().At(me).pc == match key case Some(k) => Done(k) case None => Stopped
      ensures key.Some? ==>
        IsKeyOf(suite, key.value, old(Now()).At(me).priv, old(Now()).At(me.Other()).priv)
      ensures key.None? ==> PeerMissing(seen, me) && Now() == seen.With(me, seen.At(me).(pc := Stopped))
    {
      ghost var x, y := Now().At(me).priv, Now().At(me.Other()).priv;
      SendKey(me, peer);
      key, seen := ReceiveKey(me, peer);
      assert Now().At(me).priv == x && Now().At(me.Other()).priv == y;
    }

    /** OpenUniStreamSync, Write(publicKey), Close. */
    method SendKey(me: Side, peer: nat -> seq<Action>)
      requires Inv(suite, Now()) && Now().At(me).pc.Opening?
      modifies this
      ensures Inv(suite, Now()) && Now().At(me).pc.Accepting? && SameKeys(old(Now()))
    {
      Do(me, Advance);
      PeerRuns(me, peer(0));
      Do(me, Advance);
      PeerRuns(me, peer(1));
      Do(me, Advance);
      PeerRuns(me, peer(2));
    }

    predicate SameKeys(s: State)
      reads this
    {
      left.priv == s.left.priv && right.priv == s.right.priv
    }

    /** AcceptUniStream, ReadAll, NewMasterKey. */
    method ReceiveKey(me: Side, peer: nat -> seq<Action>) returns (key: Option<bytes>, ghost seen: State)
      requires suite.Lawful() && Inv(suite, Now()) && Now().At(me).pc.Accepting?
      modifies this
      ensures Inv(suite, Now()) && SameKeys(old(Now()))
      ensures Now().At(me).pc == match key case Some(k) => Done(k) case None => Stopped
      ensures key.Some? ==> IsKeyOf(suite, key.value, old(Now()).At(me).priv, old(Now()).At(me.Other()).priv)
      ensures key.None? ==> PeerMissing(seen, me) && Now() == seen.With(me, seen.At(me).(pc := Stopped))
    {
      seen := Now();
      if !Enabled(Now(), Step(me, Advance)) {
        Do(me, Fail);
        return None, seen;
      }
      Do(me, Advance);
      PeerRuns(me, peer(3));
      seen := Now();
      if !Enabled(Now(), Step(me, Advance)) {
        Do(me, Fail);
        return None, seen;
      }
      Do(me, Advance);
      PeerRuns(me, peer(4));
      key := Derive(me);
    }

    method Derive(me: Side) returns (key: Option<bytes>)
      requires suite.Lawful() && Inv(suite, Now()) && Now().At(me).pc.Deriving?
      modifies this
      ensures Inv(suite, Now()) && SameKeys(old(Now())) && key.Some? && Now().At(me).pc == Done(key.value)
      ensures IsKeyOf(suite, key.value, old(Now()).At(me).priv, old(Now()).At(me.Other()).priv)
    {
      SharedKeyIsSymmetric(suite, left.priv, right.priv);
      MasterKeyDerives(suite, left.priv, suite.publicKey(right.priv));
      MasterKeyDerives(suite, right.priv, suite.publicKey(left.priv));
      Do(me, Advance);
      key := Some(Now().At(me).pc.key);
    }
  }
}
