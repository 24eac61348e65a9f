/** Small definitions shared by the other modules. */
module Prelude {
  datatype Option<+T> = None | Some(value: T)
  {
    function GetOr(default: T): T {
      match this
      case Some(v) => v
      case None => default
    }

    /** The first of two options that holds a value, like a chain of fallbacks. */
    function OrElse(other: Option<T>): Option<T> {
      if Some? then this else other
    }
  }

  function Abs(r: real): real {
    if r < 0.0 then -r else r
  }

  function Sum(rs: seq<real>): real {
    if rs == [] then 0.0 else Sum(rs[..|rs| - 1]) + rs[|rs| - 1]
  }

  type Output = nat
  type SurfaceId = nat

  /** Layer-shell layers, from back to front. */
  datatype Layer = Background | Bottom | Top | Overlay

  /**
   * A background surface whose rule asks for it is moved into the overview backdrop, provided that it ignores the
   * exclusive zones of others.
   */
  predicate PlacedInBackdrop(layer: Layer, rule: bool, ignoresZones: bool) {
    rule && layer == Background && ignoresZones
  }
}
