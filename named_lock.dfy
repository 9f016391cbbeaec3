/**
 * Running a callable under a MySQL named lock: the commands issued on the
 * connection and the outcome of the call. The lock's server-side behaviour
 * is not modelled.
 */
module NamedLock {
  import Decimal

  /** The throwables seen by the template; `id` stands for the identity of the exception object. */
  datatype Exception =
    | SQLException(id: nat)
    /** An unchecked exception other than Flyway's. */
    | RuntimeException(id: nat)
    /** A checked exception other than SQLException. */
    | CheckedException(id: nat)
    | FlywaySqlException(message: string, sqlCause: Exception)
    | FlywayException(cause: Exception)

  /** Whether the exception is a RuntimeException; Flyway's exceptions are. */
  predicate IsRuntimeException(e: Exception) {
    e.RuntimeException? || e.FlywaySqlException? || e.FlywayException?
  }

  /** How a call ends: it returns a value or throws. */
  datatype Completion<T> = Normal(value: T) | Abrupt(exception: Exception)

  /** How the server answers one JDBC command: it completes, or the driver throws a SQLException. */
  datatype JdbcOutcome = Completed | Failed(sqlExceptionId: nat)

  const LockNamePrefix: string := "Flyway-"

  /** The name of the lock for a discriminator. */
  function LockName(discriminator: Decimal.Int32): (name: string)
    ensures |name| > |LockNamePrefix| && name[..|LockNamePrefix|] == LockNamePrefix
    ensures Decimal.ParseDecimal(name[|LockNamePrefix|..]) == discriminator
  {
    var name := LockNamePrefix + Decimal.IntToDecimal(discriminator);
    assert name[|LockNamePrefix|..] == Decimal.IntToDecimal(discriminator);
    Decimal.DecimalRoundTrip(discriminator);
    name
  }

  /** Distinct discriminators give distinct lock names. */
  lemma LockNameInjective(a: Decimal.Int32, b: Decimal.Int32)
    ensures LockName(a) == LockName(b) <==> a == b
  {
  }

  function GetLockStatement(lockName: string): string {
    "SELECT GET_LOCK('" + lockName + "',100000)"
  }

  function ReleaseLockStatement(lockName: string): string {
    "SELECT RELEASE_LOCK('" + lockName + "')"
  }

  function AcquireFailureMessage(lockName: string): string {
    "Unable to acquire MySQL named lock: " + lockName
  }

  /**
   * What the catch blocks make of an exception from the acquire command or
   * the callable: always an unchecked exception, the one thrown when it
   * already was unchecked.
   */
  function Rethrow(lockName: string, e: Exception): (r: Exception)
    ensures IsRuntimeException(r)
    ensures r == e <==> IsRuntimeException(e)
    ensures e.SQLException? ==> r == FlywaySqlException(AcquireFailureMessage(lockName), e)
    ensures e.CheckedException? ==> r == FlywayException(e)
  {
    if e.SQLException? then FlywaySqlException(AcquireFailureMessage(lockName), e)
    else if IsRuntimeException(e) then e
    else FlywayException(e)
  }

  /** The JDBC connection, as the trace of the commands executed on it. */
  class JdbcTemplate {
    var executed: seq<string>

    constructor ()
      ensures executed == []
    {
      executed := [];
    }

    /** Executes `sql`; the server's answer is `outcome`. */
    method Execute(sql: string, outcome: JdbcOutcome) returns (r: JdbcOutcome)
      modifies this
      ensures executed == old(executed) + [sql]
      ensures r == outcome
    {
      executed := executed + [sql];
      r := outcome;
    }
  }

  /** The callback to run under the lock, with a count of its invocations. */
  class Callable<T> {
    const result: Completion<T>
    var calls: nat

    constructor (result: Completion<T>)
      ensures this.result == result && calls == 0
    {
      this.result := result;
      calls := 0;
    }

    method Call() returns (r: Completion<T>)
      modifies this
      ensures calls == old(calls) + 1
      ensures r == result
    {
      calls := calls + 1;
      r := result;
    }
  }

  class MySQLNamedLockTemplate {
    const jdbcTemplate: JdbcTemplate
    const lockName: string

    constructor (jdbcTemplate: JdbcTemplate, discriminator: Decimal.Int32)
      ensures this.jdbcTemplate == jdbcTemplate
      ensures lockName == LockName(discriminator)
    {
      this.jdbcTemplate := jdbcTemplate;
      lockName := LockName(discriminator);
    }

    /**
     * Acquires the lock, runs the callable and releases the lock in a
     * finally block. The acquire's answer is never inspected, the release is
     * issued on every path, and a SQLException from the release is only
     * logged.
     */
    method Execute<T>(callable: Callable<T>, acquireOutcome: JdbcOutcome, releaseOutcome: JdbcOutcome)
      returns (r: Completion<T>)
      modifies jdbcTemplate, callable
      ensures jdbcTemplate.executed == old(jdbcTemplate.executed) + [GetLockStatement(lockName), ReleaseLockStatement(lockName)]
      ensures callable.calls == old(callable.calls) + (if acquireOutcome.Completed? then 1 else 0)
      ensures acquireOutcome.Failed? ==>
        r == Abrupt(FlywaySqlException(AcquireFailureMessage(lockName), SQLException(acquireOutcome.sqlExceptionId)))
      ensures acquireOutcome.Completed? && callable.result.Normal? ==> r == callable.result
      ensures acquireOutcome.Completed? && callable.result.Abrupt? ==>
        r == Abrupt(Rethrow(lockName, callable.result.exception))
      ensures r.Abrupt? ==> IsRuntimeException(r.exception)
    {
      // try: acquire, then call; catch: classify what either threw
      var acquired := jdbcTemplate.Execute(GetLockStatement(lockName), acquireOutcome);
      if acquired.Failed? {
        r := Abrupt(Rethrow(lockName, SQLException(acquired.sqlExceptionId)));
      } else {
        var called := callable.Call();
        r := if called.Normal? then called else Abrupt(Rethrow(lockName, called.exception));
      }
      // finally: release; a SQLException from it is logged and dropped
      var released := jdbcTemplate.Execute(ReleaseLockStatement(lockName), releaseOutcome);
    }
  }
}

/** Scenarios of the template's behaviour, derived from its contracts alone. */
module NamedLockScenarios {
  import opened NamedLock

  /** A failing acquire: the callable is never called and both commands are still issued. */
  method AcquireFailureSkipsCallable() returns (r: Completion<int>, calls: nat, executed: seq<string>)
    ensures r == Abrupt(FlywaySqlException("Unable to acquire MySQL named lock: Flyway-1", SQLException(7)))
    ensures calls == 0
    ensures executed == ["SELECT GET_LOCK('Flyway-1',100000)", "SELECT RELEASE_LOCK('Flyway-1')"]
  {
    var jdbc := new JdbcTemplate();
    var template := new MySQLNamedLockTemplate(jdbc, 1);
    var callable := new Callable<int>(Normal(42));
    assert LockName(1) == "Flyway-1";
    assert GetLockStatement("Flyway-1") == "SELECT GET_LOCK('Flyway-1',100000)";
    assert ReleaseLockStatement("Flyway-1") == "SELECT RELEASE_LOCK('Flyway-1')";
    r := template.Execute(callable, Failed(7), Completed);
    calls, executed := callable.calls, jdbc.executed;
  }

  /** A failing release does not change the callable's value. */
  method ReleaseFailureIgnored() returns (r: Completion<int>, calls: nat)
    ensures r == Normal(42) && calls == 1
  {
    var jdbc := new JdbcTemplate();
    var template := new MySQLNamedLockTemplate(jdbc, -5);
    var callable := new Callable<int>(Normal(42));
    r := template.Execute(callable, Completed, Failed(3));
    calls := callable.calls;
  }
}
