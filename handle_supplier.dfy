/**
 * A handle supplier bound to one fixed handle.  Its `withConfig` installs a
 * configuration registry on the shared handle for the duration of a task and
 * puts the previous registry back on every exit path.
 */
module HandleSupplier {
  import opened Config
  import opened Wrappers

  /** The extension method being executed on a handle: metadata the core only passes through. */
  datatype ExtensionMethod = ExtensionMethod(extensionType: string, methodName: string)

  /** An exception thrown by the task of `withConfig`. */
  datatype Exception = Exception(reason: string)

  /** How a `Callable` task ends: with a value, or by throwing. */
  datatype TaskOutcome<V> = Value(value: V) | Raised(exception: Exception)

  /**
   * The handle, reduced to the two pieces of state the supplier touches:
   * its active configuration registry and its current extension method
   * (`None` for Java's null).
   */
  class Handle {
    var config: ConfigRegistry
    var extensionMethod: Option<ExtensionMethod>

    constructor (config: ConfigRegistry)
      ensures this.config == config && extensionMethod == None
    {
      this.config := config;
      extensionMethod := None;
    }

    method GetConfig() returns (c: ConfigRegistry)
      ensures c == config
    {
      c := config;
    }

    method SetConfig(c: ConfigRegistry)
      modifies this
      ensures config == c
      ensures extensionMethod == old(extensionMethod)
    {
      config := c;
    }

    method GetExtensionMethod() returns (m: Option<ExtensionMethod>)
      ensures m == extensionMethod
    {
      m := extensionMethod;
    }

    method SetExtensionMethod(m: Option<ExtensionMethod>)
      modifies this
      ensures extensionMethod == m
      ensures config == old(config)
    {
      extensionMethod := m;
    }
  }

  class ConstantHandleSupplier {
    const handle: Handle

    constructor (handle: Handle)
      ensures this.handle == handle
    {
      this.handle := handle;
    }

    /** `of(handle)`: a new supplier for that handle. */
    static method Of(handle: Handle) returns (s: ConstantHandleSupplier)
      ensures fresh(s) && s.handle == handle
    {
      s := new ConstantHandleSupplier(handle);
    }

    /** The handle's active registry. */
    method GetConfig() returns (c: ConfigRegistry)
      ensures c == handle.config
    {
      c := handle.GetConfig();
    }

    /**
     * `withConfig(config, task)`.  The task sees the handle's active
     * registry when it runs; `active` is that registry.  Whether the task
     * returns or throws, the previous registry is back in place afterwards
     * and the task's outcome is passed through unchanged.
     */
    method WithConfig<V>(config: ConfigRegistry, task: ConfigRegistry -> TaskOutcome<V>)
      returns (r: TaskOutcome<V>, ghost active: ConfigRegistry)
      modifies handle
      ensures active == config
      ensures r == task(config)
      ensures handle.config == old(handle.config)
      ensures handle.extensionMethod == old(handle.extensionMethod)
    {
      var oldConfig := handle.GetConfig();
      handle.SetConfig(config);
      active := handle.config;
      r := task(handle.config);
      // The `finally` block: runs after a value and after an exception alike.
      handle.SetConfig(oldConfig);
    }

    /** The handle given at construction. */
    method GetHandle() returns (h: Handle)
      ensures h == handle
    {
      h := handle;
    }

    /** The handle's current extension method. */
    method GetExtensionMethod() returns (m: Option<ExtensionMethod>)
      ensures m == handle.extensionMethod
    {
      m := handle.GetExtensionMethod();
    }

    /** Forwards to the handle; the supplier itself keeps no state to change. */
    method SetExtensionMethod(m: Option<ExtensionMethod>)
      modifies handle
      ensures handle.extensionMethod == m
      ensures handle.config == old(handle.config)
    {
      handle.SetExtensionMethod(m);
    }
  }
}
