/**
  Package ctxdb: a database handle carried in a propagation context, a
  transaction helper that commits, rolls back on error or rolls back silently
  on the Rollback signal, and pass-through helpers that resolve the handle
  from the context.

  The database/sql collaborator is not modelled; what each delegated call
  answers is an oracle (the fields of Backend), and every delegated call the
  package makes is recorded, in order, in a call trace.
 */
module Ctxdb {
  import opened Wrappers
  import opened Contexts

  // ---------------------------------------------------------------- entities

  /**
    Error values, compared by identity. Nil is Go's nil error. MissingDB and
    CantTx are the package's private errors, Rollback its exported signal;
    Failure stands for any other error (from the driver or from the work
    function), told apart by its code.
   */
  datatype Error = Nil | MissingDB | CantTx | Rollback | Failure(code: nat)

  /**
    A Databaser. DbHandle is an sql.DB, an sql.Conn or any other
    implementation; canBegin says whether it also has BeginTx. TxHandle is the
    sql.Tx of transaction `tx`, which has no BeginTx.
   */
  datatype Handle = DbHandle(id: nat, canBegin: bool) | TxHandle(tx: nat)

  /** The type switch `db.(beginTxer)`. */
  predicate CanBeginTx(h: Handle)
  {
    h.DbHandle? && h.canBegin
  }

  /** Context keys: the package's private connKey{}, and keys of other packages. */
  datatype Key = ConnKey | OtherKey(id: nat)

  /** Context values: a nil interface, a Databaser, or a value of another package. */
  datatype Val = NilVal | DbVal(db: Handle) | OtherVal(id: nat)

  type Ctx = Context<Key, Val>

  /** Placeholders for what the driver takes and gives back. */
  datatype Arg = Arg(id: nat)
  datatype ExecResult = ExecResult(id: nat)   // sql.Result
  datatype Rows = Rows(id: nat)               // *sql.Rows
  /** *sql.Row: either a row whose error surfaces at Scan, or a row produced by the driver. */
  datatype Row = DeferredError(err: Error) | DriverRow(id: nat)

  /**
    The answers of the database/sql collaborator. beginTx gives the new
    transaction and an error (the transaction is meaningless when the error is
    not Nil); commit and rollback give the error of ending transaction `tx`.
   */
  datatype Backend = Backend(
    beginTx: (Handle, Ctx) -> (nat, Error),
    commit: nat -> Error,
    rollback: nat -> Error,
    exec: (Handle, Ctx, string, seq<Arg>) -> (Option<ExecResult>, Error),
    query: (Handle, Ctx, string, seq<Arg>) -> (Option<Rows>, Error),
    queryRow: (Handle, Ctx, string, seq<Arg>) -> Row)

  /** One call the package makes into the collaborator or into the caller's work function. */
  datatype Call =
    | BeginCall(db: Handle, ctx: Ctx)
    | WorkCall(ctx: Ctx)
    | CommitCall(tx: nat)
    | RollbackCall(tx: nat)
    | ExecCall(db: Handle, ctx: Ctx, query: string, args: seq<Arg>)
    | QueryCall(db: Handle, ctx: Ctx, query: string, args: seq<Arg>)
    | QueryRowCall(db: Handle, ctx: Ctx, query: string, args: seq<Arg>)

  /** How many calls of `calls` satisfy `p`. */
  function Count(calls: seq<Call>, p: Call -> bool): (n: nat)
    ensures n <= |calls|
  {
    if calls == [] then 0 else (if p(calls[0]) then 1 else 0) + Count(calls[1..], p)
  }

  lemma CountThree(a: Call, b: Call, c: Call, p: Call -> bool)
    ensures Count([a, b, c], p) == (if p(a) then 1 else 0) + (if p(b) then 1 else 0) + (if p(c) then 1 else 0)
  {
    assert [a, b, c][1..] == [b, c];
    assert [b, c][1..] == [c];
    assert [c][1..] == [];
    assert Count([c], p) == (if p(c) then 1 else 0) + Count([], p);
    assert Count([b, c], p) == (if p(b) then 1 else 0) + Count([c], p);
  }

  // ---------------------------------------------------------- handle registry

  /** The type assertion `.(Databaser)`: a nil or foreign value is not a handle. */
  function AsHandle(v: Val): Option<Handle>
  {
    if v.DbVal? then Some(v.db) else None
  }

  /** getDB: the Databaser of the nearest connKey binding. */
  function GetDB(ctx: Ctx): Option<Handle>
  {
    match Value(ctx, ConnKey)
    case None => None
    case Some(v) => AsHandle(v)
  }

  /**
    With: a new context whose nearest connKey binding is `db` (None is a nil
    Databaser). The parent is kept as it is, and every other key still
    resolves as it did in the parent.
   */
  function With(ctx: Ctx, db: Option<Handle>): (r: Ctx)
    ensures GetDB(r) == db
    ensures r.WithValue? && r.parent == ctx
    ensures forall k :: k != ConnKey ==> Value(r, k) == Value(ctx, k)
  {
    WithValue(ctx, ConnKey, if db.Some? then DbVal(db.value) else NilVal)
  }

  /** getDB answers with the handle of the nearest connKey binding of the chain. */
  lemma GetDBIsNearest(ctx: Ctx, i: nat)
    requires NearestAt(Bindings(ctx), ConnKey, i)
    ensures GetDB(ctx) == AsHandle(Bindings(ctx)[i].1)
  {
    ValueIsNearest(ctx, ConnKey, i);
  }

  /** getDB finds nothing in a chain with no connKey binding. */
  lemma GetDBUnbound(ctx: Ctx)
    requires forall i :: 0 <= i < |Bindings(ctx)| ==> Bindings(ctx)[i].0 != ConnKey
    ensures GetDB(ctx) == None
  {
    ValueUnbound(ctx, ConnKey);
  }

  /** Contexts derived with other keys or with cancellation keep resolving to the same handle. */
  lemma {:induction false} GetDBThroughDerived(child: Ctx, ancestor: Ctx)
    requires DerivedWithout(child, ancestor, ConnKey)
    ensures GetDB(child) == GetDB(ancestor)
  {
    ValueThroughDerived(child, ancestor, ConnKey);
  }

  /** A later With shadows an earlier one, and the earlier context still resolves to its own handle. */
  lemma WithShadows(ctx: Ctx, outer: Handle, inner: Handle)
    ensures GetDB(With(With(ctx, Some(outer)), Some(inner))) == Some(inner)
    ensures GetDB(With(ctx, Some(outer))) == Some(outer)
  {
  }

  // ------------------------------------------------- transaction orchestrator

  /** The outcome of one call of Tx: the error it returns and the calls it made. */
  datatype Run = Run(err: Error, calls: seq<Call>)

  /** The context `work` runs in: `ctx` with transaction `tx` installed. */
  function TxContext(ctx: Ctx, tx: nat): Ctx
  {
    With(ctx, Some(TxHandle(tx)))
  }

  /** Reference decision table for Tx. */
  function TxRun(ctx: Ctx, work: Ctx -> Error, b: Backend): Run
  {
    match GetDB(ctx)
    case None => Run(MissingDB, [])
    case Some(db) =>
      if !CanBeginTx(db) then Run(CantTx, [])
      else
        var (tx, berr) := b.beginTx(db, ctx);
        if berr != Nil then Run(berr, [BeginCall(db, ctx)])
        else
          var werr := work(TxContext(ctx, tx));
          var begun := [BeginCall(db, ctx), WorkCall(TxContext(ctx, tx))];
          if werr == Nil then Run(b.commit(tx), begun + [CommitCall(tx)])
          else Run(if werr == Rollback then Nil else werr, begun + [RollbackCall(tx)])
  }

  /** Tx, step by step: resolve, check the capability, begin, run the work once, then end the transaction. */
  method Tx(ctx: Ctx, work: Ctx -> Error, b: Backend) returns (err: Error, calls: seq<Call>)
    ensures Run(err, calls) == TxRun(ctx, work, b)
  {
    calls := [];
    var found := GetDB(ctx);
    if found.None? {
      return MissingDB, calls;
    }
    var db := found.value;
    if !CanBeginTx(db) {
      return CantTx, calls;
    }
    var tx: nat;
    var begun := b.beginTx(db, ctx);
    tx, err := begun.0, begun.1;
    calls := calls + [BeginCall(db, ctx)];
    if err != Nil {
      return;
    }
    var inner := With(ctx, Some(TxHandle(tx)));
    err := work(inner);
    calls := calls + [WorkCall(inner)];
    if err != Nil {
      var discarded := b.rollback(tx);
      calls := calls + [RollbackCall(tx)];
      if err == Rollback {
        return Nil, calls;
      }
      return;
    }
    err := b.commit(tx);
    calls := calls + [CommitCall(tx)];
  }

  /** No handle: errMissingDB, and nothing is begun, run, committed or rolled back. */
  lemma TxWithoutHandle(ctx: Ctx, work: Ctx -> Error, b: Backend)
    requires GetDB(ctx) == None
    ensures TxRun(ctx, work, b) == Run(MissingDB, [])
  {
  }

  /** A handle without BeginTx: errCantTx, and nothing is begun or run. */
  lemma TxWithoutBegin(ctx: Ctx, work: Ctx -> Error, b: Backend)
    requires GetDB(ctx).Some? && !CanBeginTx(GetDB(ctx).value)
    ensures TxRun(ctx, work, b) == Run(CantTx, [])
  {
  }

  /** BeginTx fails: its error is returned as it is, after the one begin call and nothing else. */
  lemma TxBeginFails(ctx: Ctx, work: Ctx -> Error, b: Backend)
    requires GetDB(ctx).Some? && CanBeginTx(GetDB(ctx).value)
    requires b.beginTx(GetDB(ctx).value, ctx).1 != Nil
    ensures TxRun(ctx, work, b).err == b.beginTx(GetDB(ctx).value, ctx).1
    ensures TxRun(ctx, work, b).calls == [BeginCall(GetDB(ctx).value, ctx)]
  {
  }

  predicate IsBegin(c: Call) { c.BeginCall? }
  predicate IsWork(c: Call) { c.WorkCall? }
  predicate IsCommit(c: Call) { c.CommitCall? }
  predicate IsRollback(c: Call) { c.RollbackCall? }

  /**
    Once BeginTx succeeds: one begin, then the work exactly once in a context
    that resolves to the new transaction (shadowing the outer handle), then
    exactly one of commit and rollback, on that transaction, last. Every other
    key of the work's context resolves as it does in `ctx`.
   */
  lemma TxRunsWorkOnce(ctx: Ctx, work: Ctx -> Error, b: Backend)
    requires GetDB(ctx).Some? && CanBeginTx(GetDB(ctx).value)
    requires b.beginTx(GetDB(ctx).value, ctx).1 == Nil
    ensures var r := TxRun(ctx, work, b);
            var tx := b.beginTx(GetDB(ctx).value, ctx).0;
            && |r.calls| == 3
            && r.calls[0] == BeginCall(GetDB(ctx).value, ctx)
            && r.calls[1].WorkCall? && GetDB(r.calls[1].ctx) == Some(TxHandle(tx))
            && (forall k :: k != ConnKey ==> Value(r.calls[1].ctx, k) == Value(ctx, k))
            && (r.calls[2] == CommitCall(tx) || r.calls[2] == RollbackCall(tx))
            && Count(r.calls, IsBegin) == 1
            && Count(r.calls, IsWork) == 1
            && Count(r.calls, IsCommit) + Count(r.calls, IsRollback) == 1
  {
    var r := TxRun(ctx, work, b);
    CountThree(r.calls[0], r.calls[1], r.calls[2], IsBegin);
    CountThree(r.calls[0], r.calls[1], r.calls[2], IsWork);
    CountThree(r.calls[0], r.calls[1], r.calls[2], IsCommit);
    CountThree(r.calls[0], r.calls[1], r.calls[2], IsRollback);
  }

  /** The work succeeds: commit once, no rollback, and commit's error is what Tx returns. */
  lemma TxCommits(ctx: Ctx, work: Ctx -> Error, b: Backend)
    requires GetDB(ctx).Some? && CanBeginTx(GetDB(ctx).value)
    requires b.beginTx(GetDB(ctx).value, ctx).1 == Nil
    requires work(TxContext(ctx, b.beginTx(GetDB(ctx).value, ctx).0)) == Nil
    ensures var r := TxRun(ctx, work, b);
            var tx := b.beginTx(GetDB(ctx).value, ctx).0;
            && r.err == b.commit(tx)
            && r.calls[|r.calls| - 1] == CommitCall(tx)
            && Count(r.calls, IsCommit) == 1
            && Count(r.calls, IsRollback) == 0
  {
    var r := TxRun(ctx, work, b);
    CountThree(r.calls[0], r.calls[1], r.calls[2], IsCommit);
    CountThree(r.calls[0], r.calls[1], r.calls[2], IsRollback);
  }

  /** The work returns the Rollback signal: rollback once, no commit, and Tx returns nil. */
  lemma TxAbsorbsRollback(ctx: Ctx, work: Ctx -> Error, b: Backend)
    requires GetDB(ctx).Some? && CanBeginTx(GetDB(ctx).value)
    requires b.beginTx(GetDB(ctx).value, ctx).1 == Nil
    requires work(TxContext(ctx, b.beginTx(GetDB(ctx).value, ctx).0)) == Rollback
    ensures var r := TxRun(ctx, work, b);
            var tx := b.beginTx(GetDB(ctx).value, ctx).0;
            && r.err == Nil
            && r.calls[|r.calls| - 1] == RollbackCall(tx)
            && Count(r.calls, IsRollback) == 1
            && Count(r.calls, IsCommit) == 0
  {
    var r := TxRun(ctx, work, b);
    CountThree(r.calls[0], r.calls[1], r.calls[2], IsCommit);
    CountThree(r.calls[0], r.calls[1], r.calls[2], IsRollback);
  }

  /** The work fails with any other error: rollback once, no commit, and that same error is returned. */
  lemma TxRollsBackOnError(ctx: Ctx, work: Ctx -> Error, b: Backend)
    requires GetDB(ctx).Some? && CanBeginTx(GetDB(ctx).value)
    requires b.beginTx(GetDB(ctx).value, ctx).1 == Nil
    requires work(TxContext(ctx, b.beginTx(GetDB(ctx).value, ctx).0)) !in {Nil, Rollback}
    ensures var r := TxRun(ctx, work, b);
            var tx := b.beginTx(GetDB(ctx).value, ctx).0;
            && r.err == work(TxContext(ctx, tx))
            && r.calls[|r.calls| - 1] == RollbackCall(tx)
            && Count(r.calls, IsRollback) == 1
            && Count(r.calls, IsCommit) == 0
  {
    var r := TxRun(ctx, work, b);
    CountThree(r.calls[0], r.calls[1], r.calls[2], IsCommit);
    CountThree(r.calls[0], r.calls[1], r.calls[2], IsRollback);
  }

  /** Rollback's own error never reaches the caller. */
  lemma TxIgnoresRollbackError(ctx: Ctx, work: Ctx -> Error, b: Backend, rollback: nat -> Error)
    ensures TxRun(ctx, work, b.(rollback := rollback)) == TxRun(ctx, work, b)
  {
  }

  /**
    No silent nesting: a Tx started from the context the work receives finds
    the transaction handle, which cannot begin, and returns errCantTx without
    making any call.
   */
  lemma TxDoesNotNest(ctx: Ctx, work: Ctx -> Error, b: Backend, innerWork: Ctx -> Error, innerB: Backend)
    ensures forall i :: 0 <= i < |TxRun(ctx, work, b).calls| && TxRun(ctx, work, b).calls[i].WorkCall? ==>
              TxRun(TxRun(ctx, work, b).calls[i].ctx, innerWork, innerB) == Run(CantTx, [])
  {
  }

  /** Every trace of Tx is bracketed: the work runs only inside a begun transaction, which it always ends. */
  lemma TxBracketed(ctx: Ctx, work: Ctx -> Error, b: Backend)
    ensures var r := TxRun(ctx, work, b);
            && Count(r.calls, IsBegin) <= 1
            && Count(r.calls, IsWork) <= Count(r.calls, IsBegin)
            && Count(r.calls, IsCommit) + Count(r.calls, IsRollback) == Count(r.calls, IsWork)
  {
    var r := TxRun(ctx, work, b);
    if |r.calls| == 3 {
      CountThree(r.calls[0], r.calls[1], r.calls[2], IsBegin);
      CountThree(r.calls[0], r.calls[1], r.calls[2], IsWork);
      CountThree(r.calls[0], r.calls[1], r.calls[2], IsCommit);
      CountThree(r.calls[0], r.calls[1], r.calls[2], IsRollback);
    } else if |r.calls| == 1 {
      assert r.calls[1..] == [];
    }
  }

  // ------------------------------------------------------ delegating helpers

  /** Exec: errMissingDB without a handle; otherwise one ExecContext call on the handle, its answer unchanged. */
  method Exec(ctx: Ctx, query: string, args: seq<Arg>, b: Backend)
    returns (res: Option<ExecResult>, err: Error, calls: seq<Call>)
    ensures GetDB(ctx) == None ==> res == None && err == MissingDB && calls == []
    ensures GetDB(ctx).Some? ==>
              (res, err) == b.exec(GetDB(ctx).value, ctx, query, args) &&
              calls == [ExecCall(GetDB(ctx).value, ctx, query, args)]
  {
    var found := GetDB(ctx);
    if found.None? {
      return None, MissingDB, [];
    }
    var db := found.value;
    var answer := b.exec(db, ctx, query, args);
    res, err := answer.0, answer.1;
    calls := [ExecCall(db, ctx, query, args)];
  }

  /** Query: errMissingDB without a handle; otherwise one QueryContext call on the handle, its answer unchanged. */
  method Query(ctx: Ctx, query: string, args: seq<Arg>, b: Backend)
    returns (rows: Option<Rows>, err: Error, calls: seq<Call>)
    ensures GetDB(ctx) == None ==> rows == None && err == MissingDB && calls == []
    ensures GetDB(ctx).Some? ==>
              (rows, err) == b.query(GetDB(ctx).value, ctx, query, args) &&
              calls == [QueryCall(GetDB(ctx).value, ctx, query, args)]
  {
    var found := GetDB(ctx);
    if found.None? {
      return None, MissingDB, [];
    }
    var db := found.value;
    var answer := b.query(db, ctx, query, args);
    rows, err := answer.0, answer.1;
    calls := [QueryCall(db, ctx, query, args)];
  }

  /** QueryRow: without a handle, a row that carries errMissingDB; otherwise the handle's row. */
  method QueryRow(ctx: Ctx, query: string, args: seq<Arg>, b: Backend)
    returns (row: Row, calls: seq<Call>)
    ensures GetDB(ctx) == None ==> row == DeferredError(MissingDB) && calls == []
    ensures GetDB(ctx).Some? ==>
              row == b.queryRow(GetDB(ctx).value, ctx, query, args) &&
              calls == [QueryRowCall(GetDB(ctx).value, ctx, query, args)]
  {
    var found := GetDB(ctx);
    if found.None? {
      return DeferredError(MissingDB), [];
    }
    var db := found.value;
    row := b.queryRow(db, ctx, query, args);
    calls := [QueryRowCall(db, ctx, query, args)];
  }
}
