/**
 * Failure values as the retry predicate sees them: a concrete kind, an
 * optional wrapped cause and an optional detail message.
 */
module Failures {
  import opened Wrappers

  /**
   * The closed set of failure kinds the predicate is exercised with.  It
   * stands in for the Java classes: the nine filtered JPA exceptions, the
   * JPA `RollbackException` and `PersistenceException`, the JDK's
   * `IllegalStateException`, `RuntimeException` and `Exception`, and
   * Oozie's `XException` and `JPAExecutorException`.
   */
  datatype Kind =
    | EntityExists
    | EntityNotFound
    | LockTimeout
    | NoResult
    | NonUniqueResult
    | OptimisticLock
    | PessimisticLock
    | QueryTimeout
    | TransactionRequired
    | Rollback
    | Persistence
    | IllegalState
    | Runtime
    | Exception
    | XException
    | JPAExecutor

  /**
   * A caught failure.  The datatype is inductive, so every cause chain is
   * finite and acyclic.
   */
  datatype Failure = Failure(kind: Kind, cause: Option<Failure>, message: Option<string>)

  /** The fully qualified Java class name of each kind. */
  function ClassName(k: Kind): string
  {
    match k
    case EntityExists => "javax.persistence.EntityExistsException"
    case EntityNotFound => "javax.persistence.EntityNotFoundException"
    case LockTimeout => "javax.persistence.LockTimeoutException"
    case NoResult => "javax.persistence.NoResultException"
    case NonUniqueResult => "javax.persistence.NonUniqueResultException"
    case OptimisticLock => "javax.persistence.OptimisticLockException"
    case PessimisticLock => "javax.persistence.PessimisticLockException"
    case QueryTimeout => "javax.persistence.QueryTimeoutException"
    case TransactionRequired => "javax.persistence.TransactionRequiredException"
    case Rollback => "javax.persistence.RollbackException"
    case Persistence => "javax.persistence.PersistenceException"
    case IllegalState => "java.lang.IllegalStateException"
    case Runtime => "java.lang.RuntimeException"
    case Exception => "java.lang.Exception"
    case XException => "org.apache.oozie.XException"
    case JPAExecutor => "org.apache.oozie.executor.jpa.JPAExecutorException"
  }

  /**
   * The text `Throwable.toString()` gives: the class name, followed by
   * ": " and the message when there is one.  A JDK exception built from a
   * cause alone takes this text of its cause as its own message.
   */
  function Describe(f: Failure): (s: string)
    ensures ClassName(f.kind) <= s
    ensures f.message.None? <==> s == ClassName(f.kind)
    ensures f.message.Some? ==> s[|ClassName(f.kind)|..] == ": " + f.message.value
  {
    match f.message
    case None => ClassName(f.kind)
    case Some(m) => ClassName(f.kind) + ": " + m
  }

  /**
   * The cause chain of `f`: `f` itself, then its cause, its cause's cause
   * and so on, down to the innermost failure, which has no cause.
   */
  function Chain(f: Failure): (r: seq<Failure>)
    ensures |r| >= 1 && r[0] == f
    ensures forall i {:trigger r[i].cause} :: 0 <= i < |r| - 1 ==> r[i].cause == Some(r[i + 1])
    ensures r[|r| - 1].cause.None?
  {
    match f.cause
    case None => [f]
    case Some(c) => [f] + Chain(c)
  }

  /** A failure with a cause has its cause's chain beneath it. */
  lemma ChainOfWrapped(f: Failure, c: Failure)
    requires f.cause == Some(c)
    ensures Chain(f) == [f] + Chain(c)
    ensures |Chain(f)| == |Chain(c)| + 1
  {
  }

  /** The chain is determined by its shape: it is the only such sequence. */
  lemma {:induction false} ChainUnique(f: Failure, s: seq<Failure>)
    requires |s| >= 1 && s[0] == f
    requires forall i {:trigger s[i].cause} :: 0 <= i < |s| - 1 ==> s[i].cause == Some(s[i + 1])
    requires s[|s| - 1].cause.None?
    ensures s == Chain(f)
    decreases |s|
  {
    if |s| == 1 {
    } else {
      assert f.cause == Some(s[1]);
      ChainUnique(s[1], s[1..]);
    }
  }
}
