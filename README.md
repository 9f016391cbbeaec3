# Flyway: SQL script parsing and the MySQL named-lock template, in Dafny

This project models two pieces of Flyway's core and proves properties of them.

- `ParserSqlScript` turns a migration script into its SQL statements. It parses lazily and sets `parsed` at most once. A failed parse leaves the statements it read in the fields. While it reads it checks transactional consistency: when mixing is not allowed, the script has no `executeInTransaction` directive and the configuration runs scripts in a transaction, a script may not hold both statements that can run inside a transaction and statements that cannot. It then answers queries: the statements, their count, the referenced scripts, whether to run in a transaction, whether to run at all, and the order of scripts by path.
- `MySQLNamedLockTemplate` runs a callable under a MySQL named lock. The lock is named `Flyway-<discriminator>`. The template issues `GET_LOCK`, calls the callable, classifies any exception, and issues `RELEASE_LOCK` in a `finally` block.

Files:

- `results.dfy`: `Option`, `Result` and `Outcome`. They model a nullable `Boolean` and a call that returns or throws.
- `decimal.dfy`: Java's `int` and `Integer.toString`. It comes with a parse-back function and a round-trip proof.
- `java_string.dfy`: `String.compareTo` over sequences of characters. It is proved antisymmetric and transitive, zero exactly on equal strings, and negative exactly when the first string is lexicographically smaller.
- `sql_script.dfy`: module `SqlScript`, holding the class `ParserSqlScript`, plus the module `SqlScriptScenarios`.
- `named_lock.dfy`: module `NamedLock`, holding the classes `JdbcTemplate`, `Callable` and `MySQLNamedLockTemplate`, plus the module `NamedLockScenarios`.

## How the script is modelled

The dialect parser is abstract. It is a value `Parser(stream, supportsReferencedSqlScripts, executeInTransactionByDefault)`:

- `stream` is what the statement iterator yields for this script.
- `stream.statements` are the statements, in order.
- `stream.failsAtEnd` says whether the iterator throws after the last of them. An iterator that throws after k statements has those k as `statements`. One that throws on opening has none.

The per-script metadata is a value `SqlScriptMetadata(executeInTransaction, shouldExecute)`.

The class keeps the source's mutable fields: `sqlStatements`, `sqlStatementCount`, `nonTransactionalStatementFound` and `parsed`. A ghost field `parserCalls` counts how often the parser was asked for a stream. This makes "this query does not parse" a checkable statement.

`Parse` is the source's `while` loop. It appends to the fields one statement at a time and may return early with the mixed-statements error. Its contract is the two-state predicate `ParseStep`. `ParseStep` says that the fields gain the statements up to and including the first conflict, or all of them when there is none. The fields are not reset first and not rolled back on failure. `parsed` is set only on a clean end of the stream.

The first conflict is specified by the ghost function `FirstConflict`. It gives the least index after which both a transactional and a non-transactional statement have been seen. It counts the flag as it stood when the parse began, because the source sets `nonTransactionalStatementFound` on the object and never resets it, while `transactionalStatementFound` is local.

`Valid()` is the object invariant. It holds after every operation, a failed parse included:

- the count equals the number of stored statements;
- the flag says whether some stored statement is non-transactional;
- once parsed, the stored statements are exactly the parser's;
- after a failed parse, every later parse fails too.

### Behaviour of the code worth knowing

- `parse` writes `sqlStatements`, `sqlStatementCount` and `nonTransactionalStatementFound` in place while it reads (ParserSqlScript.java:79, :84, :89). It does not roll them back when it throws (:93), and it does not reset them when it starts. A retry therefore appends again and starts with the old `nonTransactionalStatementFound`. `SqlScriptScenarios.MixedScriptRejected` shows the result on the script `[A (transactional), B (non-transactional)]`. The first `validate` reports B. The second reports A, as a transactional statement. The stored list becomes `[A, B, A]`.
- `RELEASE_LOCK` is issued in `finally`, so it runs even when `GET_LOCK` threw (MySQLNamedLockTemplate.java:71-77).
- `GET_LOCK`'s result is never read (:59), so an acquire that times out still runs the callable. The model's acquire outcome has no result value, because the code cannot see one.
- A `SQLException` thrown by the callable is reported the same way as one from the acquire, as `FlywaySqlException("Unable to acquire MySQL named lock: " + lockName)` (:61-62).

## Model

| member | source | states |
|---|---|---|
| SqlScript.ParserSqlScript.constructor | flyway-core/src/main/java/org/flywaydb/core/internal/sqlscript/ParserSqlScript.java:61-69 | a fresh script is valid and unparsed, holds no statements, has the flag clear, and has not consulted the parser |
| SqlScript.ParserSqlScript.Parse | flyway-core/src/main/java/org/flywaydb/core/internal/sqlscript/ParserSqlScript.java:71-115 | appends the statements through the first conflict (all of them when there is none) to the list and the count, and sets the flag iff one of them is non-transactional; on a conflict, throws the error for that statement and leaves `parsed` as it was; on a failing stream, throws and leaves `parsed`; otherwise sets `parsed`; nothing is rolled back |
| SqlScript.ParserSqlScript.Validate | flyway-core/src/main/java/org/flywaydb/core/internal/sqlscript/ParserSqlScript.java:117-122 | when already parsed, changes no field and does not consult the parser (idempotent); otherwise one parse; succeeds iff the parser's stream ends normally and no conflict arises under the mixed check; keeps the invariant (count = length, flag = some statement is non-transactional, parsed ⇒ statements = parser's) |
| SqlScript.ParserSqlScript.GetSqlStatements | flyway-core/src/main/java/org/flywaydb/core/internal/sqlscript/ParserSqlScript.java:124-155 | validates, then yields exactly the stored statements, which are the parser's statements in order |
| SqlScript.ParserSqlScript.GetSqlStatementCount | flyway-core/src/main/java/org/flywaydb/core/internal/sqlscript/ParserSqlScript.java:157-162 | validates, then returns the count, which equals the number of statements the parser produced |
| SqlScript.ParserSqlScript.GetReferencedSqlScripts | flyway-core/src/main/java/org/flywaydb/core/internal/sqlscript/ParserSqlScript.java:164-172 | without parser support it changes nothing and returns the empty set; with support it validates first; the set is always empty |
| SqlScript.ParserSqlScript.ExecuteInTransaction | flyway-core/src/main/java/org/flywaydb/core/internal/sqlscript/ParserSqlScript.java:179-190 | with a metadata override, returns it and changes nothing; otherwise validates and returns "no statement is non-transactional and the configuration runs in a transaction" |
| SqlScript.ParserSqlScript.ShouldExecute | flyway-core/src/main/java/org/flywaydb/core/internal/sqlscript/ParserSqlScript.java:192-195 | returns the metadata's `shouldExecute`; as a function of constant fields it cannot parse |
| SqlScript.ParserSqlScript.CompareTo | flyway-core/src/main/java/org/flywaydb/core/internal/sqlscript/ParserSqlScript.java:197-200 | zero iff the relative paths are equal, negative iff this path is lexicographically smaller, positive iff the other is, and exactly the negation of the reverse comparison |
| SqlScript.FirstConflict | flyway-core/src/main/java/org/flywaydb/core/internal/sqlscript/ParserSqlScript.java:73-98 | the index at which the check fires is one after which both kinds have been seen, and no earlier index has that property |
| SqlScript.ConflictIffBothKinds | flyway-core/src/main/java/org/flywaydb/core/internal/sqlscript/ParserSqlScript.java:86-92 | on a first parse, the check fires iff the statements contain both a transactional and a non-transactional statement |
| SqlScript.ConflictWithStaleFlag | flyway-core/src/main/java/org/flywaydb/core/internal/sqlscript/ParserSqlScript.java:86-92 | when a parse from a clear flag conflicts, a parse that starts with the flag left from an earlier attempt conflicts too, no later |
| SqlScript.MixedError | flyway-core/src/main/java/org/flywaydb/core/internal/sqlscript/ParserSqlScript.java:92-97 | the error cites the offending statement's line and SQL, and is marked non-transactional exactly when that statement is |
| SqlScript.MixedMessage | flyway-core/src/main/java/org/flywaydb/core/internal/sqlscript/ParserSqlScript.java:93-97 | the message starts with the fixed text, and ends with " [non-transactional]" for a non-transactional statement and with its SQL otherwise |
| SqlScriptScenarios.MixedScriptRejected | flyway-core/src/main/java/org/flywaydb/core/internal/sqlscript/ParserSqlScript.java:79-98 | [A transactional, B non-transactional], mixing not allowed: validate reports B (line 2, non-transactional); a retry reports A and the list becomes [A, B, A]; the script stays unparsed |
| SqlScriptScenarios.MixedScriptAllowed | flyway-core/src/main/java/org/flywaydb/core/internal/sqlscript/ParserSqlScript.java:157-190 | the same statements with mixing allowed: count 2, not run in a transaction |
| SqlScriptScenarios.OverrideWithoutParse | flyway-core/src/main/java/org/flywaydb/core/internal/sqlscript/ParserSqlScript.java:180-185 | an override of true on a script of only non-transactional statements gives true without consulting the parser |
| SqlScriptScenarios.ReferencedScriptsWithoutParse | flyway-core/src/main/java/org/flywaydb/core/internal/sqlscript/ParserSqlScript.java:165-171 | without parser support, referenced scripts are empty and the parser is never consulted, even for a failing stream |
| SqlScriptScenarios.OrderByPath | flyway-core/src/main/java/org/flywaydb/core/internal/sqlscript/ParserSqlScript.java:197-200 | the script at "V1__a.sql" sorts before the one at "V2__b.sql" |
| JavaString.CompareAntisymmetric | flyway-core/src/main/java/org/flywaydb/core/internal/sqlscript/ParserSqlScript.java:199 | comparing b with a gives the negation of comparing a with b |
| JavaString.CompareZeroIffEqual | flyway-core/src/main/java/org/flywaydb/core/internal/sqlscript/ParserSqlScript.java:199 | the comparison is zero exactly on equal strings |
| JavaString.CompareNegativeIffLexLess | flyway-core/src/main/java/org/flywaydb/core/internal/sqlscript/ParserSqlScript.java:199 | the comparison is negative exactly when the first string is a proper prefix of the second, or is smaller at the first difference |
| JavaString.CompareTransitive | flyway-core/src/main/java/org/flywaydb/core/internal/sqlscript/ParserSqlScript.java:199 | the order is transitive |
| Decimal.NaturalDigits | flyway-core/src/main/java/org/flywaydb/core/internal/dbsupport/mysql/MySQLNamedLockTemplate.java:48 | a non-empty run of digits whose first digit is '0' only for zero |
| Decimal.IntToDecimal | flyway-core/src/main/java/org/flywaydb/core/internal/dbsupport/mysql/MySQLNamedLockTemplate.java:48 | starts with '-' exactly for negative values, and is otherwise all digits |
| Decimal.NaturalDigitsRoundTrip | flyway-core/src/main/java/org/flywaydb/core/internal/dbsupport/mysql/MySQLNamedLockTemplate.java:48 | reading back the digits of n gives n |
| Decimal.DecimalRoundTrip | flyway-core/src/main/java/org/flywaydb/core/internal/dbsupport/mysql/MySQLNamedLockTemplate.java:48 | reading back the rendering of any integer gives that integer |
| Decimal.IntToDecimalInjective | flyway-core/src/main/java/org/flywaydb/core/internal/dbsupport/mysql/MySQLNamedLockTemplate.java:48 | two integers render the same iff they are equal |
| NamedLock.LockName | flyway-core/src/main/java/org/flywaydb/core/internal/dbsupport/mysql/MySQLNamedLockTemplate.java:46-49 | the name is "Flyway-" followed by text that reads back as the discriminator |
| NamedLock.LockNameInjective | flyway-core/src/main/java/org/flywaydb/core/internal/dbsupport/mysql/MySQLNamedLockTemplate.java:48 | two discriminators give the same lock name iff they are equal |
| NamedLock.MySQLNamedLockTemplate.constructor | flyway-core/src/main/java/org/flywaydb/core/internal/dbsupport/mysql/MySQLNamedLockTemplate.java:46-49 | keeps the connection and derives the lock name from the discriminator |
| NamedLock.Rethrow | flyway-core/src/main/java/org/flywaydb/core/internal/dbsupport/mysql/MySQLNamedLockTemplate.java:61-70 | the result is always unchecked; it is the exception itself iff that is already a RuntimeException; a SQLException becomes a FlywaySqlException citing the lock name, and a checked exception is wrapped in a FlywayException |
| NamedLock.JdbcTemplate.Execute | flyway-core/src/main/java/org/flywaydb/core/internal/dbsupport/mysql/MySQLNamedLockTemplate.java:59 | appends the command to the connection's trace and answers with the given outcome |
| NamedLock.Callable.Call | flyway-core/src/main/java/org/flywaydb/core/internal/dbsupport/mysql/MySQLNamedLockTemplate.java:60 | counts one invocation and returns or throws the callable's result |
| NamedLock.MySQLNamedLockTemplate.Execute | flyway-core/src/main/java/org/flywaydb/core/internal/dbsupport/mysql/MySQLNamedLockTemplate.java:57-78 | on every path it issues exactly GET_LOCK then RELEASE_LOCK for the lock name; it calls the callable once iff the acquire completed; an acquire SQLException becomes FlywaySqlException("Unable to acquire MySQL named lock: " + lockName); the callable's value is returned whatever the release does; its exceptions are classified by Rethrow; a thrown exception is always unchecked |
| NamedLockScenarios.AcquireFailureSkipsCallable | flyway-core/src/main/java/org/flywaydb/core/internal/dbsupport/mysql/MySQLNamedLockTemplate.java:57-78 | discriminator 1, failing acquire: the callable is never called, the outcome is the acquire-failure exception for "Flyway-1", and both commands are still issued |
| NamedLockScenarios.ReleaseFailureIgnored | flyway-core/src/main/java/org/flywaydb/core/internal/dbsupport/mysql/MySQLNamedLockTemplate.java:71-77 | a failing release leaves the callable's value as the result, with the callable called once |

## Left out

- Logging: the debug and error log calls have no effect on state or results.
- The real dialect parser and `SqlScriptMetadata.fromResource`: the constructor takes the parser's stream, capability, configuration and the metadata as values.
- Re-reading the resource: every parse of a script sees the same statement stream, so a resource whose content changes between attempts is not modelled.
- Closing the statement iterator, and the empty `close()` of the iterator that `getSqlStatements` returns: these only release resources.
- SqlScript.ParserSqlScript.GetSqlStatements: returns the stored sequence rather than an iterator, so the iterator's `remove()` is not modelled. That call would shorten `sqlStatements` without updating `sqlStatementCount`.
- Referenced scripts: nothing in the class adds to the set, so it is always empty, and the path ordering of the `TreeSet` is not modelled.
- `getResource`: a plain accessor, modelled by the constant field `resource`.
- SqlScript.ParserSqlScript.Parse: `sqlStatementCount` is an unbounded integer, so Java's `int` overflow after 2^31 statements is not modelled.
- SqlScript.MixedMessage: states the message's start and end, not the exact text around the line number.
- SqlScript.ParserSqlScript.ShouldExecute: its contract is the direct read of the metadata, which is all the source does.
- JavaString.CompareTo: works on Dafny characters (Unicode scalar values), while Java compares UTF-16 code units, so strings with characters outside the Basic Multilingual Plane may order differently.
- JDBC and MySQL: statements are not executed, and `GET_LOCK`/`RELEASE_LOCK` server behaviour (waiting, timeouts, mutual exclusion across connections) is not modelled. Each command's outcome is an input: it completes or throws a SQLException.
- Exception detail: causes are kept as constructor arguments. Stack traces and the message of the wrapping `FlywayException` are left out.
- Throwables beyond those listed: a `java.lang.Error` from the callable, an unchecked exception from the JDBC commands, and any non-SQL exception from the release in `finally` are not modelled.
- Concurrency: each script and template is used by one thread.
