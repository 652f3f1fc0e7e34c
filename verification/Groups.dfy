/** Clock points of a P/D pair. */
module Groups {
  datatype ClockPoint = ClockPoint(prefillMhz: nat, decodeMhz: nat)

  /** The conservative point while a change is in flight. */
  function Slower(a: ClockPoint, b: ClockPoint): ClockPoint {
    ClockPoint(
      if a.prefillMhz < b.prefillMhz then a.prefillMhz else b.prefillMhz,
      if a.decodeMhz < b.decodeMhz then a.decodeMhz else b.decodeMhz)
  }

  /** Neither clock of `a` is higher than that of `b`. */
  predicate Below(a: ClockPoint, b: ClockPoint) { a.prefillMhz <= b.prefillMhz && a.decodeMhz <= b.decodeMhz }

  /** `Slower` is the greatest point below both. */
  lemma SlowerIsMeet(a: ClockPoint, b: ClockPoint, c: ClockPoint)
    ensures Below(c, a) && Below(c, b) <==> Below(c, Slower(a, b))
  {}
}
