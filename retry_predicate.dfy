/**
 * The database retry predicate: decides whether a failed persistence
 * operation may sanely be retried (`true`) or failed permanently (`false`).
 */
module RetryPredicate {
  import opened Wrappers
  import opened Failures

  /** The fixed set of JPA exception kinds that mean a permanent failure. */
  const FilteredKinds: set<Kind> := {
    EntityExists, EntityNotFound, LockTimeout, NoResult, NonUniqueResult,
    OptimisticLock, PessimisticLock, QueryTimeout, TransactionRequired
  }

  /** Membership is by exact kind: neither the JPA base kind nor `Rollback` is in the set. */
  predicate Filtered(k: Kind)
  {
    k in FilteredKinds
  }

  /**
   * An Oozie `JPAExecutorException` or a JDK `RuntimeException` built from a
   * message alone: it carries a message and wraps no cause.
   */
  predicate PlainWithMessage(f: Failure)
  {
    (f.kind == JPAExecutor || f.kind == Runtime) && f.cause.None? && f.message.Some?
  }

  /** No level of the cause chain, starting at `f` itself, has a filtered kind. */
  predicate ChainClear(f: Failure)
  {
    !Filtered(f.kind) &&
    match f.cause
    case None => true
    case Some(c) => ChainClear(c)
  }

  /** `ChainClear` inspects exactly the levels of the cause chain, all of them. */
  lemma {:induction false} ChainClearSpec(f: Failure)
    ensures ChainClear(f) <==> forall i :: 0 <= i < |Chain(f)| ==> !Filtered(Chain(f)[i].kind)
  {
    match f.cause
    case None =>
      assert Chain(f) == [f];
    case Some(c) =>
      ChainClearSpec(c);
      assert Chain(f) == [f] + Chain(c);
      if ChainClear(f) {
        forall i | 0 <= i < |Chain(f)| ensures !Filtered(Chain(f)[i].kind) {
          if i > 0 { assert Chain(f)[i] == Chain(c)[i - 1]; }
        }
      }
      if forall i :: 0 <= i < |Chain(f)| ==> !Filtered(Chain(f)[i].kind) {
        forall i | 0 <= i < |Chain(c)| ensures !Filtered(Chain(c)[i].kind) {
          assert Chain(c)[i] == Chain(f)[i + 1];
        }
      }
  }

  /**
   * The verdict: `false` ("permanent, do not retry") when some level of the
   * cause chain has a filtered kind, or when the failure itself is a plain
   * message-carrying `JPAExecutorException` or `RuntimeException`; `true`
   * ("retry is sane") otherwise.
   */
  function ShouldRetry(f: Failure): (r: bool)
    ensures r <==>
      && (forall i :: 0 <= i < |Chain(f)| ==> !Filtered(Chain(f)[i].kind))
      && !PlainWithMessage(f)
  {
    ChainClearSpec(f);
    ChainClear(f) && !PlainWithMessage(f)
  }

  /** A filtered kind at any depth of the cause chain makes the failure permanent. */
  lemma FilteredAtAnyDepth(f: Failure, depth: nat)
    requires depth < |Chain(f)| && Filtered(Chain(f)[depth].kind)
    ensures !ShouldRetry(f)
  {
  }

  /**
   * A permanent verdict always has a reason: a filtered kind somewhere in the
   * chain, or the plain-message rule on the failure itself.
   */
  lemma PermanentHasReason(f: Failure)
    requires !ShouldRetry(f)
    ensures PlainWithMessage(f) || exists i :: 0 <= i < |Chain(f)| && Filtered(Chain(f)[i].kind)
  {
    if !PlainWithMessage(f) {
      assert !forall i :: 0 <= i < |Chain(f)| ==> !Filtered(Chain(f)[i].kind);
      var i :| 0 <= i < |Chain(f)| && Filtered(Chain(f)[i].kind);
      assert Filtered(Chain(f)[i].kind);
    }
  }

  /** A failure with neither cause nor message is permanent exactly when its kind is filtered. */
  lemma BareVerdict(k: Kind)
    ensures ShouldRetry(Failure(k, None, None)) <==> !Filtered(k)
  {
    assert Chain(Failure(k, None, None)) == [Failure(k, None, None)];
  }

  /**
   * Wrapping in a layer of an unfiltered kind that carries a cause makes the
   * verdict that of the wrapped chain alone: whatever the layer's message, the
   * layer itself neither adds a permanent reason nor lets the wrapped
   * failure's plain-message rule through.
   */
  lemma WrapLayerVerdict(k: Kind, c: Failure, m: Option<string>)
    requires !Filtered(k)
    ensures ShouldRetry(Failure(k, Some(c), m)) <==> ChainClear(c)
  {
  }

  /**
   * Consequently a layer of an unfiltered kind never turns a retryable failure
   * into a permanent one, and it keeps every permanent verdict that comes from
   * a filtered kind in the chain.
   */
  lemma WrapLayerMonotone(k: Kind, c: Failure, m: Option<string>)
    requires !Filtered(k)
    ensures ShouldRetry(c) ==> ShouldRetry(Failure(k, Some(c), m))
    ensures !ShouldRetry(c) && !PlainWithMessage(c) ==> !ShouldRetry(Failure(k, Some(c), m))
    ensures ShouldRetry(Failure(k, Some(c), m)) && !ShouldRetry(c) ==> PlainWithMessage(c)
  {
    WrapLayerVerdict(k, c, m);
  }

  /**
   * The message is inspected only on a plain `JPAExecutorException` or
   * `RuntimeException` without a cause: for every other failure, changing or
   * removing the message leaves the verdict unchanged.
   */
  lemma MessageIgnored(f: Failure, m: Option<string>)
    requires !(f.kind == JPAExecutor || f.kind == Runtime) || f.cause.Some?
    ensures ShouldRetry(f.(message := m)) == ShouldRetry(f)
  {
    ChainClearSpec(f);
    ChainClearSpec(f.(message := m));
    assert ChainClear(f.(message := m)) == ChainClear(f);
  }

  /**
   * On a plain `JPAExecutorException` or `RuntimeException` the verdict turns
   * on the presence of a message only, never on its text.
   */
  lemma MessageTextIgnored(k: Kind, m1: string, m2: string)
    requires k == JPAExecutor || k == Runtime
    ensures !ShouldRetry(Failure(k, None, Some(m1)))
    ensures ShouldRetry(Failure(k, None, Some(m1))) == ShouldRetry(Failure(k, None, Some(m2)))
    ensures ShouldRetry(Failure(k, None, None))
  {
    BareVerdict(k);
  }
}
