/**
 * Value types shared by several screens of the prototype.
 */
module Base {

  /** A value that may be absent: JavaScript's `undefined` / `null`. */
  datatype Option<T> = None | Some(value: T)

  /**
   * The property names every JavaScript object inherits from
   * `Object.prototype`. Looking one of them up in an object literal finds
   * the inherited member rather than `undefined`.
   */
  predicate ObjectPrototypeName(s: string)
  {
    s in {"constructor", "__proto__", "__defineGetter__", "__defineSetter__",
      "__lookupGetter__", "__lookupSetter__", "hasOwnProperty", "isPrototypeOf",
      "propertyIsEnumerable", "toLocaleString", "toString", "valueOf"}
  }

  /** The colour families the badges and labels are drawn in. */
  datatype Tone = Yellow | Blue | Green | Red | Gray

  /** A status badge: its colour family and the text it shows. */
  datatype Badge = Badge(tone: Tone, caption: string)

  /**
   * The traffic-light tiers of the dashboards' threshold colourings,
   * ordered from worst to best by `Level`.
   */
  datatype Tier = RedTier | YellowTier | GreenTier

  function Level(t: Tier): nat
  {
    match t
    case RedTier => 0
    case YellowTier => 1
    case GreenTier => 2
  }

  /** The per-category breakdown (`detalle`) carried by a monthly record. */
  datatype Detalle = Detalle(
    inyecciones: int,
    orales: int,
    dispositivos: int,
    barrera: int,
    naturales: int,
    definitivos: int)

  /** The number of users a breakdown accounts for. */
  function DetalleTotal(d: Detalle): int
  {
    d.inyecciones + d.orales + d.dispositivos + d.barrera + d.naturales + d.definitivos
  }
}
