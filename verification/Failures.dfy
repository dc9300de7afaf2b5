/** Failure kinds, wrapped errors, and the two classifiers that the retry paths use. */
module Failures {

  datatype Kind =
    | NoFailure
    | Retryable
    | Permanent
    | Timeout
    | Cancelled
    | Overloaded
    | Rejected
    | DeadlineExhausted
    | Panic
    | Unknown
    | Custom(name: string)

  datatype Failure = Failure(kind: Kind, retryable: bool)

  /**
   * An error and what it wraps.  The leaves are the sentinels that classification looks for;
   * `BudgetSpent` is the pipeline's own, which also answers to the deadline sentinel.
   */
  datatype Err =
    | Canceled
    | DeadlineExceeded
    | BudgetSpent
    | Overload
    | Refusal(throttled: bool)
    | Plain
    | Wrapped(inner: Err)
    | InStage(inner: Err)
    | Typed(failure: Failure, inner: Err)

  datatype Option<T> = None | Some(value: T)

  function Leaf(e: Err): Err {
    match e
    case Wrapped(inner) => Leaf(inner)
    case InStage(inner) => Leaf(inner)
    case Typed(_, inner) => Leaf(inner)
    case _ => e
  }

  /** The outermost typed failure in the chain. */
  function FirstTyped(e: Err): Option<Failure> {
    match e
    case Typed(f, _) => Some(f)
    case Wrapped(inner) => FirstTyped(inner)
    case InStage(inner) => FirstTyped(inner)
    case _ => None
  }

  /** What the outermost stage failure in the chain wraps. */
  function StageInner(e: Err): Option<Err> {
    match e
    case InStage(inner) => Some(inner)
    case Wrapped(inner) => StageInner(inner)
    case Typed(_, inner) => StageInner(inner)
    case _ => None
  }

  predicate OfContext(e: Err) {
    Leaf(e).Canceled? || Leaf(e).DeadlineExceeded? || Leaf(e).BudgetSpent?
  }

  /** The application's classifier, with its answer for the error at hand. */
  datatype Classifier = Silent | Says(failure: Failure)

  predicate Heard(c: Classifier) {
    c.Says? && c.failure.kind != Unknown && c.failure.kind != Custom("")
  }

  function ByDefault(e: Err): Failure {
    match FirstTyped(e)
    case Some(f) => f
    case None =>
      match Leaf(e)
      case Canceled => Failure(Cancelled, false)
      case DeadlineExceeded => Failure(Timeout, false)
      case BudgetSpent => Failure(Timeout, false)
      case Overload => Failure(Overloaded, false)
      case Refusal(throttled) => Failure(Rejected, throttled)
      case _ => Failure(Unknown, false)
  }

  /** How the retry loop classifies: a typed failure, else the application, else the default. */
  function ByPolicy(e: Err, c: Classifier): Failure {
    if FirstTyped(e).None? && Heard(c) then c.failure else ByDefault(e)
  }

  function OfContextError(e: Err): Failure {
    if Leaf(e).Canceled? then Failure(Cancelled, false) else Failure(Timeout, false)
  }

  /** The one context error that keeps its own classification: the budget ran out before a stage. */
  predicate BudgetBeforeStage(e: Err) {
    match StageInner(e)
    case None => false
    case Some(root) =>
      Leaf(root).BudgetSpent? && FirstTyped(root).Some? && FirstTyped(root).value.kind == DeadlineExhausted
  }

  /** How a completed pipeline attempt is classified: what wraps a context error is a context error. */
  function AtCompletion(e: Err, c: Classifier): Failure {
    if BudgetBeforeStage(e) then ByPolicy(e, c)
    else
      var root := if StageInner(e).Some? then StageInner(e).value else e;
      if OfContext(root) then OfContextError(root) else ByPolicy(e, c)
  }

  // ---- What an error is classified as --------------------------------------------------------------

  /** Wrapping an error, or failing a stage with it, does not change its class; the outermost typed
      failure decides, and without one what lies at the bottom. */
  lemma ClassOfChain(e: Err, f: Failure, throttled: bool)
    ensures ByDefault(Wrapped(e)) == ByDefault(e) == ByDefault(InStage(e)) && ByDefault(Typed(f, e)) == f
    ensures ByDefault(Canceled) == Failure(Cancelled, false)
    ensures ByDefault(DeadlineExceeded) == ByDefault(BudgetSpent) == Failure(Timeout, false)
    ensures ByDefault(Overload) == Failure(Overloaded, false)
    ensures ByDefault(Refusal(throttled)) == Failure(Rejected, throttled)
    ensures ByDefault(Plain) == Failure(Unknown, false)
  {
  }

  /** The application is heard exactly on errors without a typed failure, and unless it answers that it
      does not know. */
  lemma ApplicationIsHeard(e: Err, f: Failure)
    ensures ByPolicy(e, Silent) == ByDefault(e)
    ensures ByPolicy(e, Says(f)) == f || ByPolicy(e, Says(f)) == ByDefault(e)
    ensures FirstTyped(e).None? && f.kind != Unknown && f.kind != Custom("") ==> ByPolicy(e, Says(f)) == f
    ensures FirstTyped(e).Some? ==> ByPolicy(e, Says(f)) == FirstTyped(e).value
    ensures f.kind == Unknown || f.kind == Custom("") ==> ByPolicy(e, Says(f)) == ByDefault(e)
  {
  }

  // ---- Where the two differ --------------------------------------------------------------------

  lemma {:induction false} SameLeaf(e: Err)
    ensures StageInner(e).Some? ==> Leaf(StageInner(e).value) == Leaf(e)
  {
    match e
    case Wrapped(inner) => SameLeaf(inner);
    case Typed(_, inner) => SameLeaf(inner);
    case _ =>
  }

  /** The error carries a context error that completion does not spare. */
  predicate Masked(e: Err) {
    OfContext(e) && !BudgetBeforeStage(e)
  }

  /**
   * The classifiers agree on an error exactly if it carries no context error, or is the spared one,
   * or the loop's classification happens to be that of the context error: always when nothing in
   * the chain is typed and the application has nothing to say.
   */
  lemma ClassifiersAgree(e: Err, c: Classifier)
    ensures AtCompletion(e, c) == if Masked(e) then OfContextError(e) else ByPolicy(e, c)
    ensures AtCompletion(e, c) == ByPolicy(e, c) <==>
      || !Masked(e)
      || (FirstTyped(e).None? && !Heard(c))
      || (FirstTyped(e).None? && Heard(c) && c.failure == OfContextError(e))
      || (FirstTyped(e).Some? && FirstTyped(e).value == OfContextError(e))
  {
    SameLeaf(e);
  }
}
