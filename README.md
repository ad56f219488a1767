# Oozie database retry predicate

Apache Oozie retries a failed database operation only when the failure looks
transient. The decision is made by `PersistenceExceptionSubclassFilterRetryPredicate.test(Throwable)`.
Its verdict is `true` for "retry is sane" and `false` for "permanent, do not retry".
The production class is not part of this model. Its behaviour is taken from its
JUnit suite, `TestPersistenceExceptionSubclassFilterRetryPredicate`, whose helpers build
the failure shapes and whose assertions pin the verdicts.

The model is pure and has four modules:

- `Wrappers` (`wrappers.dfy`): `Option`, standing for a nullable Java reference.
- `Failures` (`failures.dfy`): the closed enumeration `Kind` of the sixteen exception
  classes the suite uses, the inductive `Failure(kind, cause, message)`, the text
  `Throwable.toString()` gives (`Describe`), and the cause chain `Chain`.
- `RetryPredicate` (`retry_predicate.dfy`): the fixed set of nine filtered JPA kinds and
  `ShouldRetry`. `ShouldRetry` is `false` when some level of the cause chain has a filtered kind.
  It is also `false` when the failure itself is a `JPAExecutorException` or
  `RuntimeException` that has a message and no cause. Otherwise it is `true`.
- `RetryPredicateTests` (`retry_predicate_tests.dfy`): the suite's helpers `wrapCause`,
  `wrapMessage` and `wrapMessageRuntime` as functions, and each `@Test` method as a lemma.

The predicate is a function, so it is deterministic and idempotent by construction.
`Failure` is inductive, so every cause chain is finite and acyclic and no depth guard is needed.

Line 100 of the suite asserts that a `RuntimeException` with a message and no cause is
permanent, and the model makes it so.

## Model

| member | source | states |
|---|---|---|
| Failures.Chain | core/src/test/java/org/apache/oozie/util/db/TestPersistenceExceptionSubclassFilterRetryPredicate.java:103-105 | the chain starts at the failure, each element's cause is the next element, and the last element has no cause |
| Failures.ChainUnique | core/src/test/java/org/apache/oozie/util/db/TestPersistenceExceptionSubclassFilterRetryPredicate.java:103-105 | any sequence with those three properties is the cause chain, so `Chain` is the only such unwrapping |
| Failures.Describe | core/src/test/java/org/apache/oozie/util/db/TestPersistenceExceptionSubclassFilterRetryPredicate.java:104 | the message a JDK exception takes from its cause is the cause's class name, extended by ": " and the cause's message exactly when it has one |
| RetryPredicate.ChainClearSpec | core/src/test/java/org/apache/oozie/util/db/TestPersistenceExceptionSubclassFilterRetryPredicate.java:71-81 | the recursive chain check is false exactly when some level of the cause chain, at any depth, has a filtered kind |
| RetryPredicate.ShouldRetry | core/src/test/java/org/apache/oozie/util/db/TestPersistenceExceptionSubclassFilterRetryPredicate.java:45-101 | the verdict is true if and only if no level of the cause chain has a filtered kind and the failure is not a message-only JPAExecutorException or RuntimeException |
| RetryPredicate.FilteredAtAnyDepth | core/src/test/java/org/apache/oozie/util/db/TestPersistenceExceptionSubclassFilterRetryPredicate.java:71-81 | a filtered kind at any depth of the chain makes the verdict false |
| RetryPredicate.PermanentHasReason | core/src/test/java/org/apache/oozie/util/db/TestPersistenceExceptionSubclassFilterRetryPredicate.java:58-68 | a false verdict always comes from a filtered kind in the chain or from the plain-message rule, never from anything else |
| RetryPredicate.BareVerdict | core/src/test/java/org/apache/oozie/util/db/TestPersistenceExceptionSubclassFilterRetryPredicate.java:46-68 | a failure with no cause and no message is permanent exactly when its kind is one of the nine filtered kinds |
| RetryPredicate.WrapLayerVerdict | core/src/test/java/org/apache/oozie/util/db/TestPersistenceExceptionSubclassFilterRetryPredicate.java:84-93 | a layer of an unfiltered kind that carries a cause has the verdict of its wrapped chain, whatever its own message |
| RetryPredicate.WrapLayerMonotone | core/src/test/java/org/apache/oozie/util/db/TestPersistenceExceptionSubclassFilterRetryPredicate.java:84-93 | such a layer never makes a retryable failure permanent, keeps every filter-based permanent verdict, and drops only the wrapped failure's plain-message rule |
| RetryPredicate.MessageIgnored | core/src/test/java/org/apache/oozie/util/db/TestPersistenceExceptionSubclassFilterRetryPredicate.java:96-100 | the message is irrelevant to the verdict except on a JPAExecutorException or RuntimeException without a cause |
| RetryPredicate.MessageTextIgnored | core/src/test/java/org/apache/oozie/util/db/TestPersistenceExceptionSubclassFilterRetryPredicate.java:96-100 | on a JPAExecutorException or RuntimeException without a cause, any message makes it permanent, every text gives the same verdict, and no message makes it retryable |
| RetryPredicateTests.Bare | core/src/test/java/org/apache/oozie/util/db/TestPersistenceExceptionSubclassFilterRetryPredicate.java:47-67 | a no-argument exception is its own whole cause chain and carries no message |
| RetryPredicateTests.WrapCause | core/src/test/java/org/apache/oozie/util/db/TestPersistenceExceptionSubclassFilterRetryPredicate.java:103-105 | the cause sits three levels deep under JPAExecutor, XException and Persistence layers that all carry a message |
| RetryPredicateTests.WrapMessage | core/src/test/java/org/apache/oozie/util/db/TestPersistenceExceptionSubclassFilterRetryPredicate.java:107-109 | the result is a JPAExecutorException carrying a message and no cause |
| RetryPredicateTests.WrapMessageRuntime | core/src/test/java/org/apache/oozie/util/db/TestPersistenceExceptionSubclassFilterRetryPredicate.java:111-113 | the result is a RuntimeException carrying a message and no cause |
| RetryPredicateTests.WrapCauseVerdict | core/src/test/java/org/apache/oozie/util/db/TestPersistenceExceptionSubclassFilterRetryPredicate.java:103-105 | burying a failure with wrapCause gives exactly the verdict of the buried failure's chain check |
| RetryPredicateTests.WrapCauseBareVerdict | core/src/test/java/org/apache/oozie/util/db/TestPersistenceExceptionSubclassFilterRetryPredicate.java:71-93 | a bare failure buried by wrapCause is permanent exactly when its kind is filtered |
| RetryPredicateTests.WrappedPlainMessageRetryable | core/src/test/java/org/apache/oozie/util/db/TestPersistenceExceptionSubclassFilterRetryPredicate.java:96-113 | a message-only JPAExecutorException or RuntimeException is permanent alone and retryable once buried by wrapCause |
| RetryPredicateTests.FilteredJPAExceptions | core/src/test/java/org/apache/oozie/util/db/TestPersistenceExceptionSubclassFilterRetryPredicate.java:46-56 | each of the nine filtered kinds, thrown bare, is permanent |
| RetryPredicateTests.NotFilteredJPAExceptions | core/src/test/java/org/apache/oozie/util/db/TestPersistenceExceptionSubclassFilterRetryPredicate.java:59-62 | bare RollbackException and PersistenceException are retryable |
| RetryPredicateTests.NonJPAExceptions | core/src/test/java/org/apache/oozie/util/db/TestPersistenceExceptionSubclassFilterRetryPredicate.java:65-68 | bare IllegalStateException and Exception are retryable |
| RetryPredicateTests.NestedFilteredJPAExceptions | core/src/test/java/org/apache/oozie/util/db/TestPersistenceExceptionSubclassFilterRetryPredicate.java:71-81 | each of the nine filtered kinds stays permanent when buried by wrapCause |
| RetryPredicateTests.NestedNotFilteredJPAExceptions | core/src/test/java/org/apache/oozie/util/db/TestPersistenceExceptionSubclassFilterRetryPredicate.java:84-87 | RollbackException and PersistenceException stay retryable when buried by wrapCause |
| RetryPredicateTests.NestedNonJPAExceptions | core/src/test/java/org/apache/oozie/util/db/TestPersistenceExceptionSubclassFilterRetryPredicate.java:90-93 | message-less RuntimeException and Exception stay retryable when buried by wrapCause |
| RetryPredicateTests.PlainJPAExecutorExceptionWithMessage | core/src/test/java/org/apache/oozie/util/db/TestPersistenceExceptionSubclassFilterRetryPredicate.java:96-101 | both message-only JPAExecutorExceptions and the message-only RuntimeException are permanent |

## Left out

- The production class `PersistenceExceptionSubclassFilterRetryPredicate` is not part of this model. Its rule is reconstructed from the assertions of its test suite.
- The plain-message rule is applied to the failure itself only, not to deeper levels of the chain. The suite builds no chain that tells the two readings apart; `WrappedPlainMessageRetryable` states the consequence of this choice.
- The Java class hierarchy, `instanceof` and reflection: kinds are a closed enumeration, and the filtered set is matched by exact kind. None of the enumerated kinds is a subclass of a filtered kind, so for the filtered set the two agree.
- PlainWithMessage: the plain-message rule matches the two exact kinds `JPAExecutor` and `Runtime`. In Java, `IllegalStateException`, `PersistenceException` and `RollbackException` are also `RuntimeException`s. The suite builds message-carrying, cause-less failures only of those two kinds (lines 97-100), so it does not pin the rule for other kinds: exact kind, `instanceof RuntimeException` and "any kind" all agree with every assertion. The model calls `Failure(IllegalState, None, Some(m))` and `Failure(Persistence, None, Some(m))` retryable. `MessageIgnored` rests on this choice.
- Error code E0603 and its catalogue text: the text is a foreign Oozie resource. `E0603Message` is a placeholder, and `wrapMessage` keeps the caller's text as the whole message. Only the presence of a message matters to the verdict.
- A `null` message given to `wrapMessageRuntime` or `wrapMessage`: the helpers take a string, as the suite always passes one.
- Retry scheduling, backoff and the caller that acts on the verdict, which are outside the predicate.
- Logging inside the predicate and the JUnit harness. Each assertion is a lemma `ensures` clause.
