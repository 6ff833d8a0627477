/**
 * The `StreamMongoCursor` decorator factory and the handler-metadata table it
 * writes (src/stream-mongo-cursor.decorator.ts).
 *
 * `Reflect.defineMetadata(key, value, fn)` keeps a per-function table of
 * metadata entries. Only the two keys this component uses are modelled:
 * `mongoCursor` and `cursorType`; an absent entry is `None`, which is what
 * `Reflect.getMetadata` returns as `undefined`.
 */
module Metadata {
  import opened Wrappers

  /** Identity of a handler function (`descriptor.value`, `context.getHandler()`). */
  type HandlerId = nat

  /** A reference to a class-transformer class, the projection type. */
  datatype ClassRef = ClassRef(name: string)

  /** The metadata entries of one handler function. */
  datatype Meta = Meta(mongoCursor: Option<bool>, cursorType: Option<ClassRef>)

  const NoMeta := Meta(None, None)

  /** The handler is marked when its `mongoCursor` entry is truthy. */
  predicate IsMarked(m: Meta) {
    m.mongoCursor == Some(true)
  }

  /** The process-wide metadata table, keyed by handler function. */
  class Registry {
    var entries: map<HandlerId, Meta>

    constructor ()
      ensures entries == map[]
    {
      entries := map[];
    }

    /** `Reflect.getMetadata` for both keys: a handler never written has no entries. */
    function Lookup(h: HandlerId): Meta
      reads this
    {
      if h in entries then entries[h] else NoMeta
    }

    /** `Reflect.defineMetadata('mongoCursor', value, h)`. */
    method DefineMongoCursor(value: bool, h: HandlerId)
      modifies this
      ensures entries == old(entries)[h := old(Lookup(h)).(mongoCursor := Some(value))]
    {
      entries := entries[h := Lookup(h).(mongoCursor := Some(value))];
    }

    /** `Reflect.defineMetadata('cursorType', value, h)`. */
    method DefineCursorType(value: ClassRef, h: HandlerId)
      modifies this
      ensures entries == old(entries)[h := old(Lookup(h)).(cursorType := Some(value))]
    {
      entries := entries[h := Lookup(h).(cursorType := Some(value))];
    }
  }

  /** The decorator's options object `{ type?: ClassConstructor }`. */
  datatype Options = Options(projection: Option<ClassRef>)

  /** The method decorator returned by the factory; it closes over `type`. */
  datatype Decorator = Decorator(projection: Option<ClassRef>)

  /** The class being decorated and the descriptor of the decorated method. */
  datatype Target = Target(className: string)
  datatype PropertyDescriptor = PropertyDescriptor(value: HandlerId)

  /**
   * `StreamMongoCursor(options = {})`: a missing options object is the empty
   * one, so both give a decorator without a projection type.
   */
  function StreamMongoCursor(options: Option<Options>): Decorator
  {
    var opts := if options.Some? then options.value else Options(None);
    Decorator(opts.projection)
  }

  /** Calling the factory with no argument is calling it with `{}`. */
  lemma NoArgumentIsEmptyOptions()
    ensures StreamMongoCursor(None) == StreamMongoCursor(Some(Options(None)))
  {
  }

  /**
   * Applying the decorator to `target[key]`: one unconditional write of
   * `mongoCursor = true` and, when a type was given, one write of
   * `cursorType`, both against the method's own function. `target`, `key` and
   * `descriptor` are values here, so they are left as they were.
   */
  method Apply(d: Decorator, registry: Registry, target: Target, key: string, descriptor: PropertyDescriptor)
    modifies registry
    ensures registry.entries.Keys == old(registry.entries.Keys) + {descriptor.value}
    ensures IsMarked(registry.Lookup(descriptor.value))
    ensures registry.Lookup(descriptor.value).cursorType ==
              if d.projection.Some? then d.projection else old(registry.Lookup(descriptor.value).cursorType)
    ensures forall h :: h in old(registry.entries) && h != descriptor.value ==>
              registry.entries[h] == old(registry.entries[h])
  {
    registry.DefineMongoCursor(true, descriptor.value);
    if d.projection.Some? {
      registry.DefineCursorType(d.projection.value, descriptor.value);
    }
  }

  /** A freshly decorated handler reads as marked, with exactly the given type. */
  method DecorateFresh(options: Option<Options>, registry: Registry, target: Target, key: string,
                       descriptor: PropertyDescriptor)
    requires descriptor.value !in registry.entries
    modifies registry
    ensures registry.Lookup(descriptor.value) ==
              Meta(Some(true), if options.Some? then options.value.projection else None)
    ensures forall h :: h != descriptor.value ==> registry.Lookup(h) == old(registry.Lookup(h))
  {
    var d := StreamMongoCursor(options);
    Apply(d, registry, target, key, descriptor);
  }
}
