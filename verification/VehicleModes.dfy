/** The vehicle modes and the graph of permitted changes. A mode is a byte: the setter casts whatever it is sent. */
module VehicleModes {
  import opened Ports

  const OFF: byte := 0
  const ACCESSORY: byte := 1
  const RUN: byte := 2
  const CRANK: byte := 3

  /** Staying put is always permitted; from a byte that is no mode nothing else is. */
  predicate ValidTransition(from: byte, to: byte) {
    || from == to
    || (from == OFF && to == ACCESSORY)
    || (from == ACCESSORY && (to == OFF || to == RUN || to == CRANK))
    || (from == RUN && (to == ACCESSORY || to == CRANK))
    || (from == CRANK && (to == RUN || to == ACCESSORY))
  }
}
