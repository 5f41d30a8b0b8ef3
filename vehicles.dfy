/**
 Vehicles: three variants that differ only in how they describe moving.
 A datatype stands for the abstract capability: every variant must give
 `Move` a case, and a value's own variant decides which string it returns.
 */
module Vehicles {

  datatype Vehicle = Car | Bike | Plane {

    /** How this vehicle moves. */
    function Move(): (r: string)
      ensures |r| > 0
    {
      match this
      case Car => "Driving \U{1F697}"
      case Bike => "Riding \U{1F6B2}"
      case Plane => "Flying \U{2708}\U{FE0F}"
    }
  }

  /** Each variant's description is its own: two vehicles move alike exactly
      when they are the same variant, so no variant falls back on another's. */
  lemma MoveIdentifiesVariant(v: Vehicle, w: Vehicle)
    ensures v.Move() == w.Move() <==> v == w
  {
  }
}
