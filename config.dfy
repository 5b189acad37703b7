/**
 * The configuration registry, as seen by the statement substrate.
 *
 * The registry itself is a collaborator whose implementation is not part of
 * this model: the only thing the core relies on is that `get(type)` yields
 * some configuration object for each configuration type.  That lookup is
 * modelled as an opaque function held by the registry object.
 */
module Config {

  /** Identity of a configuration type (a `Class<C>` token in the source). */
  datatype ConfigClass = ConfigClass(name: string)

  /** An opaque configuration object. */
  datatype ConfigObject = ConfigObject(id: nat)

  class ConfigRegistry {
    /** What `get` yields for each configuration type. */
    var bindings: ConfigClass -> ConfigObject

    constructor (bindings: ConfigClass -> ConfigObject)
      ensures this.bindings == bindings
    {
      this.bindings := bindings;
    }

    /** The registry's `get(configClass)`. */
    function Get(configClass: ConfigClass): ConfigObject
      reads this
    {
      bindings(configClass)
    }
  }
}
