/**
 * The failure shapes the predicate's test suite builds, and each of its
 * test cases stated as a lemma about `ShouldRetry`.
 */
module RetryPredicateTests {
  import opened Wrappers
  import opened Failures
  import opened RetryPredicate

  /**
   * The message Oozie's `XException` takes from error code E0603.  Its
   * catalogue text is not part of this model; only its presence matters.
   */
  const E0603Message: string := "E0603"

  /** `new K()`: a failure of kind `k` with neither cause nor message. */
  function Bare(k: Kind): (r: Failure)
    ensures Chain(r) == [r] && r.kind == k && r.message.None?
  {
    Failure(k, None, None)
  }

  /**
   * `new JPAExecutorException(new XException(E0603, new PersistenceException(cause)))`:
   * `cause` buried three levels deep.  The `PersistenceException` takes the
   * description of its cause as its message; the two Oozie layers carry the
   * E0603 message.
   */
  function WrapCause(cause: Failure): (r: Failure)
    ensures |Chain(r)| == |Chain(cause)| + 3
    ensures Chain(r)[3..] == Chain(cause)
    ensures Chain(r)[0].kind == JPAExecutor && Chain(r)[1].kind == XException && Chain(r)[2].kind == Persistence
    ensures forall i :: 0 <= i < 3 ==> Chain(r)[i].message.Some?
  {
    var persistence := Failure(Persistence, Some(cause), Some(Describe(cause)));
    var xException := Failure(XException, Some(persistence), Some(E0603Message));
    var jpaExecutor := Failure(JPAExecutor, Some(xException), Some(E0603Message));
    ChainOfWrapped(persistence, cause);
    ChainOfWrapped(xException, persistence);
    ChainOfWrapped(jpaExecutor, xException);
    assert Chain(jpaExecutor) == [jpaExecutor, xException, persistence] + Chain(cause);
    jpaExecutor
  }

  /** `new JPAExecutorException(E0603, message)`: a message and no cause. */
  function WrapMessage(message: string): (r: Failure)
    ensures PlainWithMessage(r) && r.kind == JPAExecutor
  {
    Failure(JPAExecutor, None, Some(message))
  }

  /** `new RuntimeException(message)`: a message and no cause. */
  function WrapMessageRuntime(message: string): (r: Failure)
    ensures PlainWithMessage(r) && r.kind == Runtime
  {
    Failure(Runtime, None, Some(message))
  }

  /**
   * Burying a failure with `WrapCause` keeps exactly its chain's verdict:
   * the three outer layers are of unfiltered kinds and all carry a cause.
   */
  lemma {:induction false} WrapCauseVerdict(cause: Failure)
    ensures ShouldRetry(WrapCause(cause)) <==> ChainClear(cause)
  {
    var persistence := Failure(Persistence, Some(cause), Some(Describe(cause)));
    var xException := Failure(XException, Some(persistence), Some(E0603Message));
    WrapLayerVerdict(JPAExecutor, xException, Some(E0603Message));
    assert ChainClear(xException) == ChainClear(persistence) == ChainClear(cause);
  }

  /** A bare failure buried by `WrapCause` is permanent exactly when its kind is filtered. */
  lemma WrapCauseBareVerdict(k: Kind)
    ensures ShouldRetry(WrapCause(Bare(k))) <==> !Filtered(k)
  {
    assert ChainClear(Bare(k)) <==> !Filtered(k);
    WrapCauseVerdict(Bare(k));
  }

  /**
   * The plain-message rule looks at the failure itself only: a message-only
   * `JPAExecutorException` or `RuntimeException` buried by `WrapCause` is
   * retryable, although on its own it is permanent.
   */
  lemma WrappedPlainMessageRetryable(message: string)
    ensures !ShouldRetry(WrapMessage(message)) && ShouldRetry(WrapCause(WrapMessage(message)))
    ensures !ShouldRetry(WrapMessageRuntime(message)) && ShouldRetry(WrapCause(WrapMessageRuntime(message)))
  {
    WrapCauseVerdict(WrapMessage(message));
    WrapCauseVerdict(WrapMessageRuntime(message));
  }

  /** Every filtered kind is permanent when thrown bare. */
  lemma FilteredJPAExceptions()
    ensures !ShouldRetry(Bare(EntityExists))
    ensures !ShouldRetry(Bare(EntityNotFound))
    ensures !ShouldRetry(Bare(LockTimeout))
    ensures !ShouldRetry(Bare(NoResult))
    ensures !ShouldRetry(Bare(NonUniqueResult))
    ensures !ShouldRetry(Bare(OptimisticLock))
    ensures !ShouldRetry(Bare(PessimisticLock))
    ensures !ShouldRetry(Bare(QueryTimeout))
    ensures !ShouldRetry(Bare(TransactionRequired))
  {
  }

  /** `RollbackException` and the base `PersistenceException` are retryable. */
  lemma NotFilteredJPAExceptions()
    ensures ShouldRetry(Bare(Rollback))
    ensures ShouldRetry(Bare(Persistence))
  {
  }

  /** Message-less `IllegalStateException` and `Exception` are retryable. */
  lemma NonJPAExceptions()
    ensures ShouldRetry(Bare(IllegalState))
    ensures ShouldRetry(Bare(Exception))
  {
  }

  /** Every filtered kind stays permanent three levels deep. */
  lemma NestedFilteredJPAExceptions()
    ensures !ShouldRetry(WrapCause(Bare(EntityExists)))
    ensures !ShouldRetry(WrapCause(Bare(EntityNotFound)))
    ensures !ShouldRetry(WrapCause(Bare(LockTimeout)))
    ensures !ShouldRetry(WrapCause(Bare(NoResult)))
    ensures !ShouldRetry(WrapCause(Bare(NonUniqueResult)))
    ensures !ShouldRetry(WrapCause(Bare(OptimisticLock)))
    ensures !ShouldRetry(WrapCause(Bare(PessimisticLock)))
    ensures !ShouldRetry(WrapCause(Bare(QueryTimeout)))
    ensures !ShouldRetry(WrapCause(Bare(TransactionRequired)))
  {
    WrapCauseBareVerdict(EntityExists);
    WrapCauseBareVerdict(EntityNotFound);
    WrapCauseBareVerdict(LockTimeout);
    WrapCauseBareVerdict(NoResult);
    WrapCauseBareVerdict(NonUniqueResult);
    WrapCauseBareVerdict(OptimisticLock);
    WrapCauseBareVerdict(PessimisticLock);
    WrapCauseBareVerdict(QueryTimeout);
    WrapCauseBareVerdict(TransactionRequired);
  }

  /** `RollbackException` and `PersistenceException` stay retryable when wrapped. */
  lemma NestedNotFilteredJPAExceptions()
    ensures ShouldRetry(WrapCause(Bare(Rollback)))
    ensures ShouldRetry(WrapCause(Bare(Persistence)))
  {
    WrapCauseBareVerdict(Rollback);
    WrapCauseBareVerdict(Persistence);
  }

  /** Message-less `RuntimeException` and `Exception` stay retryable when wrapped. */
  lemma NestedNonJPAExceptions()
    ensures ShouldRetry(WrapCause(Bare(Runtime)))
    ensures ShouldRetry(WrapCause(Bare(Exception)))
  {
    WrapCauseBareVerdict(Runtime);
    WrapCauseBareVerdict(Exception);
  }

  /**
   * A `JPAExecutorException` or `RuntimeException` built from a message alone
   * is permanent, whatever the message says.
   */
  lemma PlainJPAExecutorExceptionWithMessage()
    ensures !ShouldRetry(WrapMessage("No WorkflowJobBean found in database"))
    ensures !ShouldRetry(WrapMessage("Some other message"))
    ensures !ShouldRetry(WrapMessageRuntime("Some runtime problem"))
  {
  }
}
