# ctxdb in Dafny

A verified model of the Go package `ctxdb`. The package keeps a database handle
(a `Databaser`: an `sql.DB`, an `sql.Conn` or an `sql.Tx`) in a `context.Context`.
It offers:

- `With`, which returns a new context that carries a handle.
- `getDB`, which finds the nearest handle in a context.
- `Tx`, which begins a transaction on the handle and runs a work function
  once, in a context that carries the transaction. Then it commits, or rolls
  back and returns the work's error. On the exported `Rollback` signal it
  rolls back and returns nil.
- `Exec`, `Query` and `QueryRow`, which resolve the handle and pass the call
  on to it.

Files:

- `wrappers.dfy`: module `Wrappers`, the `Option` type.
- `contexts.dfy`: module `Contexts`. The context is an immutable chain of
  `WithValue` and `WithCancel` nodes over `Background`. `Value` is the Go
  lookup. `Bindings` lists the chain's bindings, nearest first; it is the
  reference view that the lookup lemmas are stated against.
- `ctxdb.dfy`: module `Ctxdb`, which is the package itself:
  - Entities: errors compared by identity, handles tagged with the
    begin-transaction capability, the private `connKey`.
  - The registry: `With`, `GetDB`.
  - The orchestrator: the decision table `TxRun`, the step-by-step method
    `Tx` proved equal to it, and lemmas for each outcome.
  - The helpers: `Exec`, `Query`, `QueryRow`.

The `database/sql` collaborator is an oracle, the `Backend` datatype. Its
fields say what `BeginTx`, `Commit`, `Rollback`, `ExecContext`, `QueryContext`
and `QueryRowContext` answer. The work function is a parameter
`work: Ctx -> Error`. Each operation returns, next to its Go results, the
trace of calls it made: begin, work, commit, rollback or a delegated query.
"Called exactly once" and "never called" are properties of that trace.

A nil `Databaser` passed to `With` is modelled as `None`. Go stores the nil
value, and `getDB`'s type assertion then fails. So `With(ctx, None)` hides any
outer handle, and `GetDB(With(ctx, db)) == db` holds for both cases.

## Model

| member | source | states |
|---|---|---|
| Contexts.ValueIsNearest | ctxdb.go:45 | a context lookup returns the value of the nearest binding of the key in the chain |
| Contexts.ValueUnbound | ctxdb.go:45 | a lookup of a key that no node of the chain binds finds nothing |
| Contexts.ValueThroughDerived | ctxdb.go:45 | nodes that bind other keys, and cancel/deadline nodes, do not change what a lookup of the key finds |
| Ctxdb.With | ctxdb.go:39-42 | the new context resolves to exactly the handle given, or to none for a nil handle; its parent is the original context, kept as it is; every other key resolves as before |
| Ctxdb.GetDBIsNearest | ctxdb.go:44-47 | getDB answers with the handle of the nearest connKey binding, and with not-found when that binding holds no Databaser |
| Ctxdb.GetDBUnbound | ctxdb.go:44-47 | getDB reports not-found for a chain without a connKey binding |
| Ctxdb.GetDBThroughDerived | ctxdb.go:44-47 | a context derived with other keys or with cancellation resolves to the same handle as its ancestor |
| Ctxdb.WithShadows | ctxdb.go:39-47 | a later With shadows an earlier one, and the earlier context still resolves to its own handle |
| Ctxdb.Tx | ctxdb.go:53-81 | the step-by-step transaction helper returns the same error and makes the same calls, in the same order, as the decision table TxRun |
| Ctxdb.TxWithoutHandle | ctxdb.go:55-58 | without a handle, Tx returns errMissingDB and nothing is begun, run, committed or rolled back |
| Ctxdb.TxWithoutBegin | ctxdb.go:60-63 | with a handle that has no BeginTx, Tx returns errCantTx and nothing is begun or run |
| Ctxdb.TxBeginFails | ctxdb.go:65-68 | a BeginTx error is returned unchanged; the only call made is the begin; the work, commit and rollback never run |
| Ctxdb.TxRunsWorkOnce | ctxdb.go:65-80 | once begun: one begin, the work exactly once in a context that resolves to the new transaction (shadowing the outer handle) and inherits every other key, then exactly one commit or rollback of that transaction, last |
| Ctxdb.TxCommits | ctxdb.go:70-80 | when the work returns nil: one commit, no rollback, and Tx returns commit's error unchanged |
| Ctxdb.TxAbsorbsRollback | ctxdb.go:70-75 | when the work returns the Rollback signal (matched by identity): one rollback, no commit, and Tx returns nil |
| Ctxdb.TxRollsBackOnError | ctxdb.go:70-78 | when the work returns any other error: one rollback, no commit, and Tx returns that same error |
| Ctxdb.TxIgnoresRollbackError | ctxdb.go:72 | what Rollback answers has no effect on Tx's result or calls |
| Ctxdb.TxDoesNotNest | ctxdb.go:60-70 | a Tx started from the context the work receives returns errCantTx and makes no call: no silent nested transaction |
| Ctxdb.TxBracketed | ctxdb.go:54-81 | on every path: at most one begin, the work only after a begin, and exactly one commit or rollback per work call |
| Ctxdb.Exec | ctxdb.go:83-90 | without a handle: nil result, errMissingDB and no call; otherwise one ExecContext call on the handle with the same context, query and arguments, and its answer returned unchanged |
| Ctxdb.Query | ctxdb.go:92-99 | without a handle: nil rows, errMissingDB and no call; otherwise one QueryContext call on the handle, its answer returned unchanged |
| Ctxdb.QueryRow | ctxdb.go:101-108 | without a handle: a row that carries errMissingDB (for Scan to report) and no call; otherwise the row of one QueryRowContext call on the handle |

## Left out

- The SQL engine, the connection pool, query text, `sql.Result`, `sql.Rows` and
  row scanning all belong to `database/sql`. Here they are the oracle fields of
  `Backend` and the placeholder values `Arg`, `ExecResult`, `Rows` and `Row`.
- `Row.Scan` is not modelled. The `row` type and its `intoDBRow` conversion,
  which `QueryRow` uses on the missing-handle path, are not part of this model.
  That path is modelled as a `DeferredError(MissingDB)` row.
- The error message texts (`"rolling back"`, `"missing Databaser in context"`,
  `"can't begin transaction on Databaser in context"`) are not modelled.
  Errors are compared by identity only, so an error that merely shares the
  signal's text is a `Failure`, and Tx treats it as an error.
- Context cancellation and deadlines are not modelled. A cancel node only
  passes lookups on to its parent, and the package adds no logic for
  cancellation.
- Concurrent use of a transaction handle is not modelled; nothing in the
  package coordinates it.
- A panic inside the work function is not modelled. Go would then skip the
  rollback, because `Tx` uses no `defer`.
- `BeginTx` is always called with nil options, so the options are not recorded
  in the trace.
- Commit and rollback oracles see only the transaction, not a context, which
  matches `sql.Tx.Commit()` and `sql.Tx.Rollback()`.
- Go interface type assertions are modelled as tags: `CanBeginTx` for the
  `beginTxer` check, and `AsHandle` for the `.(Databaser)` assertion in
  `getDB`.
