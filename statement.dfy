/**
 * The base of every statement: a configuration registry and a statement
 * context fixed at construction, an append-only list of statement
 * customizers, and the two fail-fast hook passes that run the customizers
 * around the driver call.
 */
module Statement {
  import opened Config

  /** The raw JDBC prepared statement: an opaque token that the abstract hooks do not look at. */
  datatype PreparedStatement = PreparedStatement(id: nat)

  /** A driver-level failure (`SQLException`). */
  datatype SqlException = SqlException(reason: string)

  /** Any other exception a hook may throw; it is not caught by the passes. */
  datatype RuntimeException = RuntimeException(reason: string)

  /** A cleanup obligation registered with the statement context. */
  datatype Cleanable = Cleanable(id: nat)

  /** How one call of a customizer hook ends. */
  datatype HookOutcome =
    | Returned
    | ThrewSql(cause: SqlException)
    | ThrewUnchecked(error: RuntimeException)

  /**
   * A statement customizer, abstracted to the outcome of each of its two
   * hooks.  What a hook does to the prepared statement or the context is
   * not modelled.
   */
  datatype Customizer = Customizer(id: nat, before: HookOutcome, after: HookOutcome)

  /** Which of the two passes runs. */
  datatype Phase = Before | After

  /** The hook of customizer `c` that the pass for phase `p` calls. */
  function Hook(c: Customizer, p: Phase): HookOutcome
  {
    match p
    case Before => c.before
    case After => c.after
  }

  /** The message of the exception a pass throws when a hook throws `SQLException`. */
  const CustomizationFailed := "Exception thrown in statement customization"

  /** What a pass throws. */
  datatype StatementFailure =
    | UnableToExecuteStatement(message: string, cause: SqlException, context: StatementContext)
    | Unchecked(error: RuntimeException)

  /** How a pass ends: every hook returned, or the pass stopped at hook `at`. */
  datatype PassResult = AllRan | Aborted(at: nat, failure: StatementFailure)

  /**
   * The exception that leaves a pass when a hook ends with `o`: an
   * `SQLException` is wrapped together with the context, anything else
   * escapes as it is.
   */
  function Translate(o: HookOutcome, context: StatementContext): StatementFailure
    requires !o.Returned?
  {
    match o
    case ThrewSql(e) => UnableToExecuteStatement(CustomizationFailed, e, context)
    case ThrewUnchecked(e) => Unchecked(e)
  }

  /** Index of the first customizer whose hook for `p` does not return normally, or `|cs|`. */
  function FirstFailure(cs: seq<Customizer>, p: Phase): (k: nat)
    ensures k <= |cs|
    ensures forall i :: 0 <= i < k ==> Hook(cs[i], p).Returned?
    ensures k < |cs| ==> !Hook(cs[k], p).Returned?
  {
    if cs == [] || !Hook(cs[0], p).Returned? then 0 else 1 + FirstFailure(cs[1..], p)
  }

  /** The reference meaning of one fail-fast pass over `cs`. */
  function RunPass(cs: seq<Customizer>, p: Phase, context: StatementContext): (r: PassResult)
    ensures r.AllRan? <==> forall i :: 0 <= i < |cs| ==> Hook(cs[i], p).Returned?
    ensures r.Aborted? ==>
              && r.at < |cs|
              && (forall i :: 0 <= i < r.at ==> Hook(cs[i], p).Returned?)
              && !Hook(cs[r.at], p).Returned?
              && r.failure == Translate(Hook(cs[r.at], p), context)
  {
    var k := FirstFailure(cs, p);
    if k == |cs| then AllRan else Aborted(k, Translate(Hook(cs[k], p), context))
  }

  /** How many hooks one pass over `cs` calls: all of them, or up to and including the failing one. */
  function InvokedCount(cs: seq<Customizer>, p: Phase): (n: nat)
    ensures n <= |cs|
    ensures forall i :: 0 <= i < n - 1 ==> Hook(cs[i], p).Returned?
    ensures n < |cs| ==> 0 < n && !Hook(cs[n - 1], p).Returned?
  {
    var k := FirstFailure(cs, p);
    if k == |cs| then k else k + 1
  }

  /** A pass result over a list shifted `n` places to the right. */
  function Shifted(r: PassResult, n: nat): PassResult
  {
    match r
    case AllRan => AllRan
    case Aborted(k, f) => Aborted(k + n, f)
  }

  /** Fail-fast search over a concatenation: the second list is only looked at if the first has no failure. */
  lemma {:induction false} FirstFailureAppend(xs: seq<Customizer>, ys: seq<Customizer>, p: Phase)
    ensures FirstFailure(xs + ys, p) ==
            if FirstFailure(xs, p) < |xs| then FirstFailure(xs, p) else |xs| + FirstFailure(ys, p)
  {
    if xs == [] {
      assert xs + ys == ys;
    } else if Hook(xs[0], p).Returned? {
      assert (xs + ys)[1..] == xs[1..] + ys;
      FirstFailureAppend(xs[1..], ys, p);
    }
  }

  /**
   * A pass over a list extended by `addCustomizers`: if the old list already
   * fails, the new customizers cannot change anything; otherwise the pass
   * goes on into them, with indices shifted past the old list.
   */
  lemma RunPassAppend(xs: seq<Customizer>, ys: seq<Customizer>, p: Phase, context: StatementContext)
    ensures RunPass(xs + ys, p, context) ==
            if RunPass(xs, p, context).Aborted? then RunPass(xs, p, context)
            else Shifted(RunPass(ys, p, context), |xs|)
    ensures InvokedCount(xs + ys, p) ==
            if RunPass(xs, p, context).Aborted? then InvokedCount(xs, p)
            else |xs| + InvokedCount(ys, p)
  {
    FirstFailureAppend(xs, ys, p);
    var k := FirstFailure(xs, p);
    if k < |xs| {
      assert (xs + ys)[k] == xs[k];
    } else {
      var j := FirstFailure(ys, p);
      if j < |ys| {
        assert (xs + ys)[|xs| + j] == ys[j];
      }
    }
  }

  /**
   * Hooks after the failing one are never consulted: two lists that agree
   * up to and including the failing customizer give the same pass.
   */
  lemma RunPassIgnoresSuffix(cs: seq<Customizer>, ds: seq<Customizer>, p: Phase, context: StatementContext)
    requires RunPass(cs, p, context).Aborted?
    requires RunPass(cs, p, context).at < |ds|
    requires cs[..RunPass(cs, p, context).at + 1] == ds[..RunPass(cs, p, context).at + 1]
    ensures RunPass(ds, p, context) == RunPass(cs, p, context)
    ensures InvokedCount(ds, p) == InvokedCount(cs, p)
  {
    var k := RunPass(cs, p, context).at;
    forall i | 0 <= i <= k
      ensures ds[i] == cs[i]
    {
      assert ds[i] == ds[..k + 1][i] && cs[i] == cs[..k + 1][i];
    }
    assert FirstFailure(ds, p) == k;
  }

  /**
   * The statement context: an abstract collaborator.  Its cleanable
   * collection grows as cleanables are added; what `close` does with it is
   * not modelled, only that it was asked to close.
   */
  class StatementContext {
    var cleanables: seq<Cleanable>
    /** How many times `close` has been called. */
    var closeRequests: nat

    constructor ()
      ensures cleanables == [] && closeRequests == 0
    {
      cleanables := [];
      closeRequests := 0;
    }

    /** `getCleanables().add(cleanable)`. */
    method AddCleanable(cleanable: Cleanable)
      modifies this
      ensures cleanables == old(cleanables) + [cleanable]
      ensures closeRequests == old(closeRequests)
    {
      cleanables := cleanables + [cleanable];
    }

    /** `close()`: only the request is recorded; its effect on the cleanables is left open. */
    method Close()
      modifies this
      ensures closeRequests == old(closeRequests) + 1
    {
      closeRequests := closeRequests + 1;
    }
  }

  class BaseStatement {
    const config: ConfigRegistry
    const context: StatementContext
    var customizers: seq<Customizer>

    constructor (config: ConfigRegistry, context: StatementContext)
      ensures this.config == config && this.context == context
      ensures customizers == []
    {
      this.config := config;
      this.context := context;
      customizers := [];
    }

    /** `getConfig(configClass)`: the registry's answer for that type. */
    method GetConfig(configClass: ConfigClass) returns (c: ConfigObject)
      ensures c == config.Get(configClass)
    {
      c := config.Get(configClass);
    }

    /** `getConfig()`: the registry given at construction. */
    method GetRegistry() returns (r: ConfigRegistry)
      ensures r == config
    {
      r := config;
    }

    /** `getContext()`: the context given at construction. */
    method GetContext() returns (c: StatementContext)
      ensures c == context
    {
      c := context;
    }

    method AddCleanable(cleanable: Cleanable)
      modifies context
      ensures context.cleanables == old(context.cleanables) + [cleanable]
      ensures context.closeRequests == old(context.closeRequests)
      ensures customizers == old(customizers)
    {
      context.AddCleanable(cleanable);
    }

    method AddCustomizers(cs: seq<Customizer>)
      modifies this
      ensures customizers == old(customizers) + cs
    {
      customizers := customizers + cs;
    }

    method AddCustomizer(customizer: Customizer)
      modifies this
      ensures customizers == old(customizers) + [customizer]
    {
      customizers := customizers + [customizer];
    }

    method GetStatementCustomizers() returns (cs: seq<Customizer>)
      ensures cs == customizers
    {
      cs := customizers;
    }

    /**
     * One pass over the customizers, in insertion order, calling each one's
     * hook for `p`.  `invoked` lists the positions whose hook was called.
     */
    method RunHooks(stmt: PreparedStatement, p: Phase) returns (r: PassResult, ghost invoked: seq<nat>)
      ensures r == RunPass(customizers, p, context)
      ensures |invoked| == InvokedCount(customizers, p)
      ensures forall i :: 0 <= i < |invoked| ==> invoked[i] == i
    {
      invoked := [];
      var i := 0;
      while i < |customizers|
        invariant 0 <= i <= |customizers|
        invariant |invoked| == i
        invariant forall j :: 0 <= j < i ==> invoked[j] == j
        invariant forall j :: 0 <= j < i ==> Hook(customizers[j], p).Returned?
      {
        invoked := invoked + [i];
        var outcome := Hook(customizers[i], p);
        if !outcome.Returned? {
          r := Aborted(i, Translate(outcome, context));
          return;
        }
        i := i + 1;
      }
      r := AllRan;
    }

    /**
     * `beforeExecution(stmt)`: every before-hook runs once, in order, until
     * one throws; an `SQLException` leaves wrapped with this statement's
     * context.
     */
    method BeforeExecution(stmt: PreparedStatement) returns (r: PassResult, ghost invoked: seq<nat>)
      ensures r.AllRan? <==> forall i :: 0 <= i < |customizers| ==> customizers[i].before.Returned?
      ensures r.AllRan? ==> |invoked| == |customizers|
      ensures r.Aborted? ==>
                && r.at < |customizers|
                && |invoked| == r.at + 1
                && (forall i :: 0 <= i < r.at ==> customizers[i].before.Returned?)
                && (customizers[r.at].before.ThrewSql? ==>
                      r.failure == UnableToExecuteStatement(CustomizationFailed, customizers[r.at].before.cause, context))
                && (customizers[r.at].before.ThrewUnchecked? ==>
                      r.failure == Unchecked(customizers[r.at].before.error))
      ensures forall i :: 0 <= i < |invoked| ==> invoked[i] == i
      ensures r == RunPass(customizers, Before, context)
    {
      r, invoked := RunHooks(stmt, Before);
    }

    /** `afterExecution(stmt)`: the same fail-fast pass over the after-hooks. */
    method AfterExecution(stmt: PreparedStatement) returns (r: PassResult, ghost invoked: seq<nat>)
      ensures r.AllRan? <==> forall i :: 0 <= i < |customizers| ==> customizers[i].after.Returned?
      ensures r.AllRan? ==> |invoked| == |customizers|
      ensures r.Aborted? ==>
                && r.at < |customizers|
                && |invoked| == r.at + 1
                && (forall i :: 0 <= i < r.at ==> customizers[i].after.Returned?)
                && (customizers[r.at].after.ThrewSql? ==>
                      r.failure == UnableToExecuteStatement(CustomizationFailed, customizers[r.at].after.cause, context))
                && (customizers[r.at].after.ThrewUnchecked? ==>
                      r.failure == Unchecked(customizers[r.at].after.error))
      ensures forall i :: 0 <= i < |invoked| ==> invoked[i] == i
      ensures r == RunPass(customizers, After, context)
    {
      r, invoked := RunHooks(stmt, After);
    }

    /** `close()`: delegates to the context and leaves the statement's own state alone. */
    method Close()
      modifies context
      ensures context.closeRequests == old(context.closeRequests) + 1
      ensures customizers == old(customizers)
    {
      context.Close();
    }
  }
}
