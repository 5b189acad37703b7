# Statement substrate of a database-access toolkit, in Dafny

This project models three small stateful pieces of the toolkit's statement
execution core and proves what each one promises.

- **BaseStatement** (`statement.dfy`, module `Statement`). A statement holds a
  configuration registry and a statement context, both fixed at construction.
  It also holds an append-only list of statement customizers. The
  `beforeExecution` and `afterExecution` passes call each customizer's hook in
  insertion order. A pass stops at the first hook that throws. An
  `SQLException` from a hook leaves the pass wrapped as
  `UnableToExecuteStatementException`, with the fixed message and this
  statement's context. Any other exception leaves it unwrapped. A customizer
  is modelled by the outcome of each of its two hooks. The loop is
  `BaseStatement.RunHooks`. It is proved against the reference function
  `RunPass`, and a ghost trace records which positions were called.
  `close` delegates to the context.
- **ConstantHandleSupplier** (`handle_supplier.dfy`, module `HandleSupplier`).
  A supplier for one fixed handle. `withConfig` saves the handle's registry,
  installs the given one, runs the task, and restores the saved registry in a
  `finally`. The task is a function from the registry active while it runs to
  its outcome: a value or an exception. Since the outcome covers both exits,
  one restore covers both the normal and the exceptional path.
- **SqlObject** (`sql_object.dfy`, module `SqlObjects`). A copyable
  configuration object with one nullable locator reference. Its invariant
  `Valid()` says the locator is not null.

`config.dfy` (module `Config`) holds the configuration registry as an opaque
collaborator: `get(type)` is a lookup whose internals are not modelled.
`wrappers.dfy` holds `Option` and `Result`.

Only `SQLException` is caught (BaseStatement.java:89 and :101); any other
exception from a hook escapes unwrapped (`Unchecked`).

## Model

| member | source | states |
|---|---|---|
| Statement.FirstFailure | core/src/main/java/org/jdbi/v3/core/BaseStatement.java:85-92 | the position where a fail-fast pass stops: every earlier hook returned normally, and the hook there, if any, threw |
| Statement.RunPass | core/src/main/java/org/jdbi/v3/core/BaseStatement.java:83-105 | a pass ends normally exactly when every hook returns. Otherwise it stops at a failing hook whose predecessors all returned, and it throws that hook's exception translated with the context |
| Statement.InvokedCount | core/src/main/java/org/jdbi/v3/core/BaseStatement.java:85-92 | a pass calls every hook, or every hook up to and including the first failing one and none after it |
| Statement.FirstFailureAppend | core/src/main/java/org/jdbi/v3/core/BaseStatement.java:85-92 | over a concatenated list, the stop position is inside the first part if that part fails, and is shifted past it otherwise |
| Statement.RunPassAppend | core/src/main/java/org/jdbi/v3/core/BaseStatement.java:68-76 | after customizers are appended, a pass that already failed on the old list is unchanged. Otherwise the pass goes on into the new customizers, and the call count adds up the same way |
| Statement.RunPassIgnoresSuffix | core/src/main/java/org/jdbi/v3/core/BaseStatement.java:85-91 | customizers after the failing one cannot influence the pass's result or the number of hooks called |
| Statement.BaseStatement.constructor | core/src/main/java/org/jdbi/v3/core/BaseStatement.java:28-36 | the registry and context are the ones given (both `const` from then on), and the customizer list starts empty |
| Statement.BaseStatement.GetConfig | core/src/main/java/org/jdbi/v3/core/BaseStatement.java:44-46 | returns exactly what the statement's registry yields for that configuration type |
| Statement.BaseStatement.GetRegistry | core/src/main/java/org/jdbi/v3/core/BaseStatement.java:51-53 | returns the registry given at construction |
| Statement.BaseStatement.GetContext | core/src/main/java/org/jdbi/v3/core/BaseStatement.java:58-61 | returns the context given at construction |
| Statement.BaseStatement.AddCleanable | core/src/main/java/org/jdbi/v3/core/BaseStatement.java:63-66 | the context's cleanables become the old ones with this one appended. The customizer list, the close count, the registry and the context are unchanged |
| Statement.BaseStatement.AddCustomizers | core/src/main/java/org/jdbi/v3/core/BaseStatement.java:68-71 | the list becomes the old list followed by the given customizers, in their order |
| Statement.BaseStatement.AddCustomizer | core/src/main/java/org/jdbi/v3/core/BaseStatement.java:73-76 | the list becomes the old list with the customizer appended, and earlier entries keep their order |
| Statement.BaseStatement.GetStatementCustomizers | core/src/main/java/org/jdbi/v3/core/BaseStatement.java:78-81 | returns the current customizer list |
| Statement.BaseStatement.RunHooks | core/src/main/java/org/jdbi/v3/core/BaseStatement.java:85-92 | the loop's result is the reference pass. The positions called are 0, 1, … in order, each once, and there are as many of them as the reference count |
| Statement.BaseStatement.BeforeExecution | core/src/main/java/org/jdbi/v3/core/BaseStatement.java:83-93 | ends normally exactly when every before-hook returns, and then every hook was called once in order. If it stops at k, hooks 0..k were called and none after k, all hooks before k returned, and an `SQLException` from hook k is wrapped with the message and this statement's context. Any other exception from hook k escapes as it is |
| Statement.BaseStatement.AfterExecution | core/src/main/java/org/jdbi/v3/core/BaseStatement.java:95-105 | the same in-order, fail-fast and wrap-with-context behaviour for the after-hooks |
| Statement.BaseStatement.Close | core/src/main/java/org/jdbi/v3/core/BaseStatement.java:107-111 | the context is asked to close once, the statement changes nothing but the context, and the customizer list is unchanged |
| HandleSupplier.ConstantHandleSupplier.constructor | core/src/main/java/org/jdbi/v3/core/ConstantHandleSupplier.java:19-27 | the supplier's handle is the one given, fixed from then on |
| HandleSupplier.ConstantHandleSupplier.Of | core/src/main/java/org/jdbi/v3/core/ConstantHandleSupplier.java:21-23 | returns a new supplier bound to the given handle |
| HandleSupplier.ConstantHandleSupplier.GetConfig | core/src/main/java/org/jdbi/v3/core/ConstantHandleSupplier.java:30-32 | returns the handle's active registry |
| HandleSupplier.ConstantHandleSupplier.WithConfig | core/src/main/java/org/jdbi/v3/core/ConstantHandleSupplier.java:35-44 | the task runs with the given registry active on the handle. The task's outcome, value or exception, is returned unchanged. Afterwards the handle's registry is the one it had before the call, on the normal and the exceptional path alike, and its extension method is untouched |
| HandleSupplier.ConstantHandleSupplier.GetHandle | core/src/main/java/org/jdbi/v3/core/ConstantHandleSupplier.java:47-49 | returns the handle given at construction |
| HandleSupplier.ConstantHandleSupplier.GetExtensionMethod | core/src/main/java/org/jdbi/v3/core/ConstantHandleSupplier.java:52-54 | returns the handle's current extension method |
| HandleSupplier.ConstantHandleSupplier.SetExtensionMethod | core/src/main/java/org/jdbi/v3/core/ConstantHandleSupplier.java:57-59 | the handle's extension method becomes the given one. Only the handle is modified, and its registry is unchanged |
| SqlObjects.SqlObject.constructor | sqlobject/src/main/java/org/jdbi/v3/sqlobject/SqlObject.java:25-27 | a new object holds a new annotation-based locator, so the invariant holds |
| SqlObjects.SqlObject.Copy | sqlobject/src/main/java/org/jdbi/v3/sqlobject/SqlObject.java:29-31 | the copy shares the parent's locator reference, and it satisfies the invariant exactly when the parent does |
| SqlObjects.SqlObject.GetSqlLocator | sqlobject/src/main/java/org/jdbi/v3/sqlobject/SqlObject.java:33-35 | returns the current locator, which is non-null under the invariant |
| SqlObjects.SqlObject.SetSqlLocator | sqlobject/src/main/java/org/jdbi/v3/sqlobject/SqlObject.java:37-40 | null is refused with a `NullPointerException` and the locator is kept. A non-null locator is installed and the object itself is returned. The invariant is preserved |
| SqlObjects.SqlObject.CreateCopy | sqlobject/src/main/java/org/jdbi/v3/sqlobject/SqlObject.java:42-45 | returns a newly allocated object, so it is distinct from this one, with the same locator and the same validity |
| SqlObjects.SetOnCopy | sqlobject/src/main/java/org/jdbi/v3/sqlobject/SqlObject.java:29-45 | setting the locator on a copy leaves the original's locator and invariant untouched |
| SqlObjects.SetOnOriginal | sqlobject/src/main/java/org/jdbi/v3/sqlobject/SqlObject.java:29-45 | setting the locator on the original leaves an earlier copy's locator untouched |

## Left out

- The JDBC prepared statement is an opaque token. `SQLException` carries only a reason string.
- What a hook does to the statement or the context is not modelled. A customizer is reduced to the outcome of its two hooks, and that outcome is taken to be the same on every pass.
- `ConfigRegistry` is modelled only as a `get` lookup that the registry object holds. Its lazy creation of defaults on `get`, its caching and its `fork` are not modelled.
- `StatementContext` is modelled only as an append-only cleanable list and a count of close requests. What its `close` does with the cleanables is left open. The cleanable collection is a list that `add` appends to, because the collection's type is not shown.
- `Statement.BaseStatement.GetStatementCustomizers`: returns a snapshot of the list. The Java method returns the live `ArrayList`, so aliasing through that reference is not captured.
- `Handle` is reduced to a registry field and an extension-method field. Its other state and behaviour are not part of this model.
- `HandleSupplier.ConstantHandleSupplier.WithConfig`: the task is a side-effect-free function of the registry active while it runs. A task that itself changes the handle, or calls `withConfig` again (nesting), is not modelled.
- `SqlLocator` lookup of SQL by annotation and reflection is not modelled. A locator object only records which kind it is.
- Thread safety of the registry swap is not modelled. The source relies on one thread per handle.
