/**
 * A SQL migration script that is parsed lazily, at most once successfully,
 * into its statements, and that refuses to mix transactional and
 * non-transactional statements unless it is allowed to.
 */
module SqlScript {
  import opened Results
  import Decimal
  import JavaString

  /** One statement the dialect parser produced. */
  datatype SqlStatement = SqlStatement(lineNumber: Decimal.Int32, sql: string, canExecuteInTransaction: bool)

  /**
   * What the parser's statement iterator yields for the script: `statements`
   * in order, then either the end of the stream or, when `failsAtEnd`, an
   * exception. A stream that throws after k statements is one whose
   * `statements` are those k; one that throws on opening has none.
   */
  datatype StatementStream = StatementStream(statements: seq<SqlStatement>, failsAtEnd: bool)

  /** The dialect parser, seen from the script: what it yields for this script and its configuration. */
  datatype Parser = Parser(
    stream: StatementStream,
    supportsReferencedSqlScripts: bool,
    /** The configuration's `isExecuteInTransaction()`. */
    executeInTransactionByDefault: bool)

  /** The per-script directives read from the script's metadata resource. */
  datatype SqlScriptMetadata = SqlScriptMetadata(executeInTransaction: Results.Option<bool>, shouldExecute: bool)

  datatype LoadableResource = LoadableResource(relativePath: string)

  /** What a parse throws. */
  datatype ScriptError =
    | MixedStatements(lineNumber: Decimal.Int32, sql: string, nonTransactional: bool)
    | ParserFailure

  const MixedPrefix: string :=
    "Detected both transactional and non-transactional statements within the same migration"
    + " (even though mixed is false). Offending statement found at line "

  const NonTransactionalMarker: string := " [non-transactional]"

  /** The error raised for the statement at which both kinds have been seen. */
  function MixedError(st: SqlStatement): (e: ScriptError)
    ensures e.MixedStatements? && e.lineNumber == st.lineNumber && e.sql == st.sql
    ensures e.nonTransactional <==> !st.canExecuteInTransaction
  {
    MixedStatements(st.lineNumber, st.sql, !st.canExecuteInTransaction)
  }

  /** The message of the mixed-statements exception. */
  function MixedMessage(e: ScriptError): (m: string)
    requires e.MixedStatements?
    ensures |m| >= |MixedPrefix| && m[..|MixedPrefix|] == MixedPrefix
    ensures e.nonTransactional ==> |m| >= |NonTransactionalMarker| && m[|m| - |NonTransactionalMarker|..] == NonTransactionalMarker
    ensures !e.nonTransactional ==> |m| >= |e.sql| && m[|m| - |e.sql|..] == e.sql
  {
    var head := Decimal.IntToDecimal(e.lineNumber) + ": ";
    var tail := if e.nonTransactional then NonTransactionalMarker else "";
    JoinParts(MixedPrefix, head, e.sql, tail)
  }

  /** Joins four parts, keeping track of where the first, third and fourth end up. */
  function JoinParts<T>(p: seq<T>, h: seq<T>, x: seq<T>, t: seq<T>): (m: seq<T>)
    ensures |m| == |p| + |h| + |x| + |t|
    ensures m[..|p|] == p
    ensures m[|m| - |t|..] == t
    ensures t == [] ==> m[|m| - |x|..] == x
  {
    p + (h + x + t)
  }

  /** Some statement of `s` can (when `transactional`) or cannot run in a transaction. */
  ghost predicate HasKind(s: seq<SqlStatement>, transactional: bool) {
    exists j :: 0 <= j < |s| && s[j].canExecuteInTransaction == transactional
  }

  /**
   * Once the first `k` statements of `s` have been read, both kinds have been
   * seen; `nonTransactionalBefore` is the flag as it stood when reading began.
   */
  ghost predicate BothKindsSeen(s: seq<SqlStatement>, k: nat, nonTransactionalBefore: bool)
    requires k <= |s|
  {
    BothKindsIn(s[..k], nonTransactionalBefore)
  }

  ghost predicate BothKindsIn(prefix: seq<SqlStatement>, nonTransactionalBefore: bool) {
    HasKind(prefix, true) && (nonTransactionalBefore || HasKind(prefix, false))
  }

  /** The index of the first statement of `s` at which both kinds have been seen, if any. */
  ghost function FirstConflict(s: seq<SqlStatement>, nonTransactionalBefore: bool): (r: Option<nat>)
    ensures r.Some? ==> r.value < |s| && BothKindsSeen(s, r.value + 1, nonTransactionalBefore)
    ensures forall k :: 0 <= k <= |s| && BothKindsSeen(s, k, nonTransactionalBefore) ==> r.Some? && r.value < k
    decreases |s|
  {
    if s == [] then None
    else
      var init := s[..|s| - 1];
      var r := FirstConflict(init, nonTransactionalBefore);
      assert forall k :: 0 <= k <= |init| ==> init[..k] == s[..k];
      assert forall k :: 0 <= k <= |init| ==> BothKindsSeen(init, k, nonTransactionalBefore) == BothKindsSeen(s, k, nonTransactionalBefore);
      if r.Some? then r
      else if BothKindsSeen(s, |s|, nonTransactionalBefore) then Some(|s| - 1)
      else None
  }

  lemma {:induction false} HasKindConcat(a: seq<SqlStatement>, b: seq<SqlStatement>, transactional: bool)
    ensures HasKind(a + b, transactional) <==> HasKind(a, transactional) || HasKind(b, transactional)
  {
    if HasKind(a, transactional) {
      var j :| 0 <= j < |a| && a[j].canExecuteInTransaction == transactional;
      assert (a + b)[j] == a[j];
    }
    if HasKind(b, transactional) {
      var j :| 0 <= j < |b| && b[j].canExecuteInTransaction == transactional;
      assert (a + b)[|a| + j] == b[j];
    }
    if HasKind(a + b, transactional) {
      var j :| 0 <= j < |a + b| && (a + b)[j].canExecuteInTransaction == transactional;
      if j >= |a| { assert b[j - |a|] == (a + b)[j]; } else { assert a[j] == (a + b)[j]; }
    }
  }

  /** Reading one more statement extends the prefix read so far by that statement. */
  lemma ReadOne(s: seq<SqlStatement>, next: nat)
    requires next < |s|
    ensures s[..next + 1] == s[..next] + [s[next]]
    ensures HasKind(s[..next + 1], true) <==> HasKind(s[..next], true) || s[next].canExecuteInTransaction
    ensures HasKind(s[..next + 1], false) <==> HasKind(s[..next], false) || !s[next].canExecuteInTransaction
  {
    assert s[..next + 1] == s[..next] + [s[next]];
    assert [s[next]][0] == s[next];
    HasKindConcat(s[..next], [s[next]], true);
    HasKindConcat(s[..next], [s[next]], false);
  }

  /** Reading the statements one more time conflicts at a statement no later than the first reading did. */
  lemma {:induction false} ConflictWithStaleFlag(s: seq<SqlStatement>, nonTransactionalBefore: bool)
    requires FirstConflict(s, false).Some?
    ensures FirstConflict(s, nonTransactionalBefore).Some?
    ensures FirstConflict(s, nonTransactionalBefore).value <= FirstConflict(s, false).value
  {
    var i := FirstConflict(s, false).value;
    assert BothKindsSeen(s, i + 1, nonTransactionalBefore);
  }

  /** Starting from a clear flag, a conflict exists exactly when both kinds occur in the statements. */
  lemma {:induction false} ConflictIffBothKinds(s: seq<SqlStatement>)
    ensures FirstConflict(s, false).Some? <==> HasKind(s, true) && HasKind(s, false)
  {
    var r := FirstConflict(s, false);
    if r.Some? {
      var p := s[..r.value + 1];
      assert BothKindsIn(p, false);
      assert p + s[r.value + 1..] == s;
      HasKindConcat(p, s[r.value + 1..], true);
      HasKindConcat(p, s[r.value + 1..], false);
    }
    if HasKind(s, true) && HasKind(s, false) {
      assert s[..|s|] == s;
      assert BothKindsSeen(s, |s|, false);
    }
  }

  class ParserSqlScript {
    /** The statements read so far, in order. */
    var sqlStatements: seq<SqlStatement>
    var sqlStatementCount: int
    /** Whether a statement that cannot run in a transaction has been read. */
    var nonTransactionalStatementFound: bool
    var parsed: bool
    /** How many times the parser has been asked for a statement stream. */
    ghost var parserCalls: nat

    const resource: LoadableResource
    const metadata: SqlScriptMetadata
    const parser: Parser
    /** Whether mixing transactional and non-transactional statements is allowed. */
    const mixed: bool
    /** Scripts referenced by this one; nothing ever adds to it. */
    const referencedSqlScripts: set<ParserSqlScript> := {}

    /** Whether reading a statement checks for mixed kinds. */
    predicate MixedCheckEnabled() {
      !mixed && metadata.executeInTransaction.None? && parser.executeInTransactionByDefault
    }

    /** Whether a parse of this script, started from a fresh object, throws. */
    ghost predicate ParseFails() {
      parser.stream.failsAtEnd || (MixedCheckEnabled() && FirstConflict(parser.stream.statements, false).Some?)
    }

    /** The object invariant; it holds on every path, a failed parse included. */
    ghost predicate Valid()
      reads this
    {
      && sqlStatementCount == |sqlStatements|
      && nonTransactionalStatementFound == HasKind(sqlStatements, false)
      && (parserCalls == 0 ==> sqlStatements == [] && !parsed)
      && (parsed ==> sqlStatements == parser.stream.statements && !ParseFails())
      && (!parsed && parserCalls > 0 ==> ParseFails())
    }

    constructor (parser: Parser, resource: LoadableResource, metadata: SqlScriptMetadata, mixed: bool)
      ensures Valid()
      ensures this.parser == parser && this.resource == resource && this.metadata == metadata && this.mixed == mixed
      ensures sqlStatements == [] && sqlStatementCount == 0
      ensures !nonTransactionalStatementFound && !parsed && parserCalls == 0
    {
      this.resource := resource;
      this.metadata := metadata;
      this.parser := parser;
      this.mixed := mixed;
      sqlStatements := [];
      sqlStatementCount := 0;
      nonTransactionalStatementFound := false;
      parsed := false;
      parserCalls := 0;
    }

    /**
     * The effect of one parse: the statements up to and including the first
     * conflict (all of them when there is none) are appended to the fields,
     * which are neither reset first nor rolled back on failure; `parsed` is set
     * only when the stream ends normally without a conflict.
     */
    twostate predicate ParseStep(new r: Outcome<ScriptError>)
      reads this
    {
      var s := parser.stream.statements;
      var conflict := if MixedCheckEnabled() then FirstConflict(s, old(nonTransactionalStatementFound)) else None;
      var k := if conflict.Some? then conflict.value + 1 else |s|;
      && k <= |s|
      && sqlStatements == old(sqlStatements) + s[..k]
      && sqlStatementCount == old(sqlStatementCount) + k
      && nonTransactionalStatementFound == (old(nonTransactionalStatementFound) || HasKind(s[..k], false))
      && parserCalls == old(parserCalls) + 1
      && (conflict.Some? ==> r == Fail(MixedError(s[conflict.value])) && parsed == old(parsed))
      && (conflict.None? && parser.stream.failsAtEnd ==> r == Fail(ParserFailure) && parsed == old(parsed))
      && (conflict.None? && !parser.stream.failsAtEnd ==> r == Pass && parsed)
    }

    /** The effect of `validate`: nothing once parsed, one parse otherwise. */
    twostate predicate ValidateStep(new r: Outcome<ScriptError>)
      reads this
    {
      if old(parsed) then unchanged(this) && r == Pass else ParseStep(r)
    }

    method Parse() returns (r: Outcome<ScriptError>)
      modifies this
      ensures ParseStep(r)
    {
      parserCalls := parserCalls + 1;
      var s := parser.stream.statements;
      ghost var before := nonTransactionalStatementFound;
      ghost var conflict := FirstConflict(s, before);
      var next := 0;
      var transactionalStatementFound := false;
      while next < |s|
        invariant 0 <= next <= |s|
        invariant sqlStatements == old(sqlStatements) + s[..next]
        invariant sqlStatementCount == old(sqlStatementCount) + next
        invariant nonTransactionalStatementFound == (before || HasKind(s[..next], false))
        invariant transactionalStatementFound == HasKind(s[..next], true)
        invariant MixedCheckEnabled() ==> conflict.None? || conflict.value >= next
        invariant parserCalls == old(parserCalls) + 1 && parsed == old(parsed)
      {
        var sqlStatement := s[next];
        ReadOne(s, next);
        next := next + 1;
        sqlStatements := sqlStatements + [sqlStatement];
        sqlStatementCount := sqlStatementCount + 1;
        if sqlStatement.canExecuteInTransaction {
          transactionalStatementFound := true;
        } else {
          nonTransactionalStatementFound := true;
        }
        if !mixed && transactionalStatementFound && nonTransactionalStatementFound
          && metadata.executeInTransaction.None? && parser.executeInTransactionByDefault
        {
          assert BothKindsSeen(s, next, before);
          assert conflict.value == next - 1;
          return Fail(MixedError(sqlStatement));
        }
        assert !BothKindsSeen(s, next, before) || !MixedCheckEnabled();
      }
      assert s[..next] == s;
      if parser.stream.failsAtEnd {
        return Fail(ParserFailure);
      }
      parsed := true;
      return Pass;
    }

    /** Parses unless already parsed; once parsed, it changes nothing and does not consult the parser. */
    method Validate() returns (r: Outcome<ScriptError>)
      requires Valid()
      modifies this
      ensures Valid()
      ensures ValidateStep(r)
      ensures r.Pass? <==> !ParseFails()
      ensures r.Pass? ==> parsed
    {
      if !parsed {
        r := Parse();
        var s := parser.stream.statements;
        var conflict := if MixedCheckEnabled() then FirstConflict(s, old(nonTransactionalStatementFound)) else None;
        var k := if conflict.Some? then conflict.value + 1 else |s|;
        HasKindConcat(old(sqlStatements), s[..k], false);
        if old(parserCalls) == 0 {
          assert old(sqlStatements) + s[..k] == s[..k];
          assert conflict.None? ==> s[..k] == s;
        } else if MixedCheckEnabled() && FirstConflict(s, false).Some? {
          ConflictWithStaleFlag(s, old(nonTransactionalStatementFound));
        }
      } else {
        r := Pass;
      }
    }

    /** The statements, in the order the parser produced them. */
    method GetSqlStatements() returns (r: Result<seq<SqlStatement>, ScriptError>)
      requires Valid()
      modifies this
      ensures Valid()
      ensures ValidateStep(r.ToOutcome())
      ensures r.Success? <==> !ParseFails()
      ensures r.Success? ==> r.value == sqlStatements == parser.stream.statements
    {
      var v := Validate();
      if v.Fail? {
        return Failure(v.error);
      }
      return Success(sqlStatements);
    }

    /** The number of statements the parser produced. */
    method GetSqlStatementCount() returns (r: Result<int, ScriptError>)
      requires Valid()
      modifies this
      ensures Valid()
      ensures ValidateStep(r.ToOutcome())
      ensures r.Success? <==> !ParseFails()
      ensures r.Success? ==> r.value == sqlStatementCount == |parser.stream.statements|
    {
      var v := Validate();
      if v.Fail? {
        return Failure(v.error);
      }
      return Success(sqlStatementCount);
    }

    /** The referenced scripts, always none; validates only when the parser could find some. */
    method GetReferencedSqlScripts() returns (r: Result<set<ParserSqlScript>, ScriptError>)
      requires Valid()
      modifies this
      ensures Valid()
      ensures !parser.supportsReferencedSqlScripts ==> unchanged(this) && r == Success({})
      ensures parser.supportsReferencedSqlScripts ==> ValidateStep(r.ToOutcome()) && (r.Success? <==> !ParseFails())
      ensures r.Success? ==> r.value == {}
    {
      if parser.supportsReferencedSqlScripts {
        var v := Validate();
        if v.Fail? {
          return Failure(v.error);
        }
      }
      return Success(referencedSqlScripts);
    }

    /**
     * The metadata's override when it has one, without parsing; otherwise
     * whether no statement is non-transactional and the configuration runs
     * scripts in a transaction.
     */
    method ExecuteInTransaction() returns (r: Result<bool, ScriptError>)
      requires Valid()
      modifies this
      ensures Valid()
      ensures metadata.executeInTransaction.Some? ==> unchanged(this) && r == Success(metadata.executeInTransaction.value)
      ensures metadata.executeInTransaction.None? ==> ValidateStep(r.ToOutcome()) && (r.Success? <==> !ParseFails())
      ensures metadata.executeInTransaction.None? && r.Success? ==>
        r.value == (!HasKind(parser.stream.statements, false) && parser.executeInTransactionByDefault)
    {
      var executeInTransactionOverride := metadata.executeInTransaction;
      if executeInTransactionOverride.Some? {
        return Success(executeInTransactionOverride.value);
      }
      var v := Validate();
      if v.Fail? {
        return Failure(v.error);
      }
      return Success(!nonTransactionalStatementFound && parser.executeInTransactionByDefault);
    }

    /** The metadata's `shouldExecute`; reads no mutable field, so it never parses. */
    function ShouldExecute(): (r: bool)
      ensures r == metadata.shouldExecute
    {
      metadata.shouldExecute
    }

    /** Orders scripts by the relative paths of their resources. */
    function CompareTo(o: ParserSqlScript): (r: int)
      ensures r == 0 <==> resource.relativePath == o.resource.relativePath
      ensures r < 0 <==> JavaString.LexLess(resource.relativePath, o.resource.relativePath)
      ensures r > 0 <==> JavaString.LexLess(o.resource.relativePath, resource.relativePath)
      ensures r == -JavaString.CompareTo(o.resource.relativePath, resource.relativePath)
    {
      var a, b := resource.relativePath, o.resource.relativePath;
      JavaString.CompareZeroIffEqual(a, b);
      JavaString.CompareNegativeIffLexLess(a, b);
      JavaString.CompareNegativeIffLexLess(b, a);
      JavaString.CompareAntisymmetric(a, b);
      JavaString.CompareTo(a, b)
    }
  }
}

/** Scenarios of the script's behaviour, derived from the contracts above alone. */
module SqlScriptScenarios {
  import opened Results
  import opened SqlScript

  const A := SqlStatement(1, "A", true)
  const B := SqlStatement(2, "B", false)

  /** A transactional then a non-transactional statement, mixing not allowed: the second one is reported. */
  method MixedScriptRejected() returns (first: Outcome<ScriptError>, second: Outcome<ScriptError>, kept: seq<SqlStatement>, count: int, parsed: bool)
    ensures first == Fail(MixedStatements(2, "B", true))
    ensures second == Fail(MixedStatements(1, "A", false))
    ensures kept == [A, B, A] && count == 3 && !parsed
  {
    var script := new ParserSqlScript(Parser(StatementStream([A, B], false), false, true),
                                      LoadableResource("V1__a.sql"), SqlScriptMetadata(None, true), false);
    assert [A, B][..2] == [A, B] && [A, B][..1] == [A];
    assert [A, B][0] == A && [A, B][1] == B;
    assert HasKind([A, B], true) && HasKind([A, B], false);
    assert BothKindsSeen([A, B], 2, false);
    assert [A][0] == A;
    assert HasKind([A], true) && !HasKind([A], false);
    first := script.Validate();
    assert BothKindsSeen([A, B], 1, true);
    second := script.Validate();
    kept, count, parsed := script.sqlStatements, script.sqlStatementCount, script.parsed;
  }

  /** The same statements with mixing allowed: both are kept and the script runs outside a transaction. */
  method MixedScriptAllowed() returns (count: Result<int, ScriptError>, inTransaction: Result<bool, ScriptError>)
    ensures count == Success(2)
    ensures inTransaction == Success(false)
  {
    var script := new ParserSqlScript(Parser(StatementStream([A, B], false), false, true),
                                      LoadableResource("V1__a.sql"), SqlScriptMetadata(None, true), true);
    count := script.GetSqlStatementCount();
    assert [A, B][1] == B;
    inTransaction := script.ExecuteInTransaction();
  }

  /** The metadata override wins over the statements and no parse happens. */
  method OverrideWithoutParse() returns (inTransaction: Result<bool, ScriptError>, ghost calls: nat)
    ensures inTransaction == Success(true) && calls == 0
  {
    var script := new ParserSqlScript(Parser(StatementStream([B], false), false, true),
                                      LoadableResource("V1__a.sql"), SqlScriptMetadata(Some(true), true), false);
    inTransaction := script.ExecuteInTransaction();
    calls := script.parserCalls;
  }

  /** A parser without referenced scripts is never consulted for them. */
  method ReferencedScriptsWithoutParse() returns (referenced: Result<set<ParserSqlScript>, ScriptError>, ghost calls: nat)
    ensures referenced == Success({}) && calls == 0
  {
    var script := new ParserSqlScript(Parser(StatementStream([A], true), false, true),
                                      LoadableResource("V1__a.sql"), SqlScriptMetadata(None, true), false);
    referenced := script.GetReferencedSqlScripts();
    calls := script.parserCalls;
  }

  /** Scripts sort by relative path. */
  method OrderByPath() returns (c: int)
    ensures c < 0
  {
    var v1 := new ParserSqlScript(Parser(StatementStream([], false), false, true),
                                  LoadableResource("V1__a.sql"), SqlScriptMetadata(None, true), false);
    var v2 := new ParserSqlScript(Parser(StatementStream([], false), false, true),
                                  LoadableResource("V2__b.sql"), SqlScriptMetadata(None, true), false);
    c := v1.CompareTo(v2);
  }
}
