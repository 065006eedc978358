/** The error tree of pkg/errs, its classification into result codes, and the benign-error test. */
module Errors {
  import opened Channels

  datatype Sentinel =
    | NotFound | AlreadyExists | RequestTimeout | InvalidJson | Validation
    | InternalServer | AppClosing | InvalidType | Offline | ConnToHimself

  datatype Error =
    | Base(sentinel: Sentinel)
    | App(op: string, err: Error)            // AppError
    | Joined(first: Error, second: Error)    // fmt.Errorf("%w : %w", first, second)
    | Canceled
    | EOF
    | QuicApplication(code: nat)
    | Foreign(text: string)

  // Result codes of pkg/errs/handlers; 1 to 3 have the same meaning in the signalling protocol.
  const NOT_FOUND := 1
  const ALREADY_EXISTS := 2
  const REQUEST_TIMEOUT := 3
  const VALIDATION_ERROR := 4
  const OFFLINE := 8
  const INTERNAL_ERROR := 9

  /** errors.Is: the node itself, or anything it unwraps to. */
  predicate Is(e: Error, target: Error) {
    || e == target
    || (match e
        case App(_, inner) => Is(inner, target)
        case Joined(a, b) => Is(a, target) || Is(b, target)
        case _ => false)
  }

  function ProcessError(e: Error): nat {
    if Is(e, Base(AlreadyExists)) then ALREADY_EXISTS
    else if Is(e, Base(NotFound)) then NOT_FOUND
    else if Is(e, Base(RequestTimeout)) then REQUEST_TIMEOUT
    else if Is(e, Base(Validation)) then VALIDATION_ERROR
    else if Is(e, Base(Offline)) then OFFLINE
    else INTERNAL_ERROR
  }

  function ErrInvalidJson(op: string, e: Error): Error {
    App(op, Joined(Base(InvalidJson), e))
  }

  function ErrValidation(op: string, e: Error): Error {
    App(op, Joined(Base(Validation), e))
  }

  function CodeToError(op: string, code: nat): Error {
    if code == NOT_FOUND then App(op, Base(NotFound))
    else if code == ALREADY_EXISTS then App(op, Base(AlreadyExists))
    else if code == REQUEST_TIMEOUT then App(op, Base(RequestTimeout))
    else App(op, Base(InternalServer))
  }

  /** Wraps once for every operation the error passes through, innermost first. */
  function WrapAll(ops: seq<string>, e: Error): Error {
    if ops == [] then e else App(ops[|ops| - 1], WrapAll(ops[..|ops| - 1], e))
  }

  // ---------------------------------------------------------------------------------------------
  // An independent reading of the tree: its leaves from left to right.

  function Leaves(e: Error): (ls: seq<Error>)
    ensures ls != []
    ensures forall l :: l in ls ==> !l.App? && !l.Joined?
  {
    match e
    case App(_, inner) => Leaves(inner)
    case Joined(a, b) => Leaves(a) + Leaves(b)
    case _ => [e]
  }

  /** Position in the priority order; 5 for every error without a code of its own. */
  function Rank(leaf: Error): nat {
    match leaf
    case Base(AlreadyExists) => 0
    case Base(NotFound) => 1
    case Base(RequestTimeout) => 2
    case Base(Validation) => 3
    case Base(Offline) => 4
    case _ => 5
  }

  /** Already exists, not found, request timeout, validation, offline, internal: the codes a caller sees. */
  const CODE_BY_RANK: seq<nat> := [2, 1, 3, 4, 8, 9]

  ghost predicate IsBestRank(r: nat, leaves: seq<Error>) {
    && (exists l :: l in leaves && Rank(l) == r)
    && (forall l :: l in leaves ==> r <= Rank(l))
  }

  lemma {:induction false} IsMeansLeaf(e: Error, s: Sentinel)
    ensures Is(e, Base(s)) <==> Base(s) in Leaves(e)
  {
    match e
    case App(_, inner) => IsMeansLeaf(inner, s);
    case Joined(a, b) => IsMeansLeaf(a, s); IsMeansLeaf(b, s);
    case _ =>
  }

  /** The code is that of the highest-priority base error occurring anywhere in the tree. */
  lemma {:induction false} ProcessErrorPicksBest(e: Error, r: nat)
    requires IsBestRank(r, Leaves(e))
    ensures r < |CODE_BY_RANK| && ProcessError(e) == CODE_BY_RANK[r]
  {
    forall s: Sentinel {
      IsMeansLeaf(e, s);
    }
    var l :| l in Leaves(e) && Rank(l) == r;
    assert Rank(Base(AlreadyExists)) == 0 && Rank(Base(NotFound)) == 1;
    assert Rank(Base(RequestTimeout)) == 2 && Rank(Base(Validation)) == 3 && Rank(Base(Offline)) == 4;
  }

  /** Every tree has a best rank, so the lemma above covers every tree. */
  lemma {:induction false} BestRankExists(ls: seq<Error>) returns (r: nat)
    requires ls != []
    ensures IsBestRank(r, ls)
  {
    r := Rank(ls[0]);
    assert ls[0] in ls;
    if |ls| > 1 {
      var rest := BestRankExists(ls[1..]);
      assert ls == [ls[0]] + ls[1..];
      if rest < r {
        r := rest;
      }
    }
  }

  /** Classification ignores how often, and under which operations, an error was wrapped. */
  lemma {:induction false} WrappingKeepsLeaves(ops: seq<string>, e: Error)
    ensures Leaves(WrapAll(ops, e)) == Leaves(e)
    ensures ProcessError(WrapAll(ops, e)) == ProcessError(e)
  {
    if ops != [] {
      WrappingKeepsLeaves(ops[..|ops| - 1], e);
    }
    var r := BestRankExists(Leaves(e));
    ProcessErrorPicksBest(e, r);
    ProcessErrorPicksBest(WrapAll(ops, e), r);
  }

  /** A double-wrapped node is classified by the better of its two branches, in either order. */
  lemma {:induction false} JoinedTakesBetter(a: Error, b: Error)
    ensures ProcessError(Joined(a, b)) == ProcessError(Joined(b, a))
    ensures ProcessError(Joined(a, b)) in {ProcessError(a), ProcessError(b)}
    ensures ProcessError(b) == 9 ==> ProcessError(Joined(a, b)) == ProcessError(a)
  {
    var ra := BestRankExists(Leaves(a));
    var rb := BestRankExists(Leaves(b));
    ProcessErrorPicksBest(a, ra);
    ProcessErrorPicksBest(b, rb);
    var r := if ra <= rb then ra else rb;
    assert IsBestRank(r, Leaves(a) + Leaves(b));
    assert IsBestRank(r, Leaves(b) + Leaves(a));
    ProcessErrorPicksBest(Joined(a, b), r);
    ProcessErrorPicksBest(Joined(b, a), r);
  }

  /**
   * What the two double-wrapping constructors do to the classification: a validation error hides only
   * what ranks below it, an invalid-JSON error hides nothing.
   */
  lemma {:induction false} DoubleWrappedConstructors(op: string, e: Error)
    ensures ProcessError(ErrInvalidJson(op, e)) == ProcessError(e)
    ensures ProcessError(ErrValidation(op, e)) == VALIDATION_ERROR
       <==> ProcessError(e) !in {ALREADY_EXISTS, NOT_FOUND, REQUEST_TIMEOUT}
    ensures ProcessError(e) in {ALREADY_EXISTS, NOT_FOUND, REQUEST_TIMEOUT}
        ==> ProcessError(ErrValidation(op, e)) == ProcessError(e)
  {
    var i, v := Joined(Base(InvalidJson), e), Joined(Base(Validation), e);
    assert Leaves(Base(InvalidJson)) == [Base(InvalidJson)] && Leaves(Base(Validation)) == [Base(Validation)];
    assert Leaves(ErrInvalidJson(op, e)) == Leaves(i) == [Base(InvalidJson)] + Leaves(e);
    assert Leaves(ErrValidation(op, e)) == Leaves(v) == [Base(Validation)] + Leaves(e);
    var r := BestRankExists(Leaves(e));
    ProcessErrorPicksBest(e, r);
    assert IsBestRank(r, Leaves(ErrInvalidJson(op, e)));
    ProcessErrorPicksBest(ErrInvalidJson(op, e), r);
    var w := if r <= 3 then r else 3;
    assert Rank(Base(Validation)) == 3;
    assert IsBestRank(w, Leaves(ErrValidation(op, e)));
    ProcessErrorPicksBest(ErrValidation(op, e), w);
  }

  /** A signalling code survives any wrapping exactly when it is 1, 2 or 3 (or already the internal code). */
  lemma {:induction false} SignallingCodeRoundTrip(op: string, ops: seq<string>, code: nat)
    ensures ProcessError(WrapAll(ops, CodeToError(op, code)))
         == if 1 <= code <= 3 then code else 9
  {
    WrappingKeepsLeaves(ops, CodeToError(op, code));
    forall s: Sentinel {
      IsMeansLeaf(CodeToError(op, code), s);
    }
    assert |Leaves(CodeToError(op, code))| == 1;
  }

  // ---------------------------------------------------------------------------------------------
  // Benign errors (internal/utils/utils.go): cancellation, end of stream, application close with code 0.

  /** errors.AsType[*quic.ApplicationError]: the first one met in a depth-first walk. */
  function AsQuicApplication(e: Error): Option<nat> {
    match e
    case QuicApplication(c) => Some(c)
    case App(_, inner) => AsQuicApplication(inner)
    case Joined(a, b) => if AsQuicApplication(a).Some? then AsQuicApplication(a) else AsQuicApplication(b)
    case _ => None
  }

  /** None when the error is benign, otherwise the error itself. */
  function CheckErr(e: Error): Option<Error> {
    if Is(e, Canceled) || Is(e, EOF) then None
    else if AsQuicApplication(e) == Some(0) then None
    else Some(e)
  }

  function FirstQuicCode(ls: seq<Error>): Option<nat> {
    if ls == [] then None
    else if ls[0].QuicApplication? then Some(ls[0].code)
    else FirstQuicCode(ls[1..])
  }

  lemma {:induction false} FirstQuicCodeOfConcat(a: seq<Error>, b: seq<Error>)
    ensures FirstQuicCode(a + b) == if FirstQuicCode(a).Some? then FirstQuicCode(a) else FirstQuicCode(b)
  {
    if a == [] {
      assert a + b == b;
    } else {
      assert (a + b)[1..] == a[1..] + b;
      FirstQuicCodeOfConcat(a[1..], b);
    }
  }

  lemma {:induction false} IsMeansPlainLeaf(e: Error, target: Error)
    requires target.Canceled? || target.EOF?
    ensures Is(e, target) <==> target in Leaves(e)
  {
    match e
    case App(_, inner) => IsMeansPlainLeaf(inner, target);
    case Joined(a, b) => IsMeansPlainLeaf(a, target); IsMeansPlainLeaf(b, target);
    case _ =>
  }

  lemma {:induction false} AsQuicIsFirstLeaf(e: Error)
    ensures AsQuicApplication(e) == FirstQuicCode(Leaves(e))
  {
    match e
    case App(_, inner) => AsQuicIsFirstLeaf(inner);
    case Joined(a, b) =>
      AsQuicIsFirstLeaf(a);
      AsQuicIsFirstLeaf(b);
      FirstQuicCodeOfConcat(Leaves(a), Leaves(b));
    case _ =>
  }

  /** Exactly which trees are benign, read off the leaves: only the leftmost application close counts. */
  lemma {:induction false} BenignExactly(e: Error)
    ensures CheckErr(e).None?
       <==> Canceled in Leaves(e) || EOF in Leaves(e) || FirstQuicCode(Leaves(e)) == Some(0)
    ensures CheckErr(e).Some? ==> CheckErr(e).value == e
  {
    IsMeansPlainLeaf(e, Canceled);
    IsMeansPlainLeaf(e, EOF);
    AsQuicIsFirstLeaf(e);
  }
}
