/** Option, the stand-in for Python's None and for a dictionary key that is absent. */
module Wrappers {

  datatype Option<+T> = None | Some(value: T) {

    /** `d.get(key, default)`: the value if present, otherwise the default. */
    function GetOr(default: T): T {
      if Some? then value else default
    }
  }
}

/** Primary keys of the database tables. Autoincrement keys are natural numbers. */
module Ids {
  type UserId = nat
  type ProductId = nat
  type ShopId = nat
  type CategoryId = nat
  type AddressId = nat
  type OrderId = nat
  type ItemId = nat
  type Time = int
}
