/** The value validators of entities/validation.py: inclusive bounds and a time check
    delegated to a predicate this model does not define. A validator's bounds are
    set once when it is built and never change, so each is a value here. */
module Validation {

  datatype Validator =
    | Range(min: real, max: real)
    | Min(min: real)
    | Max(max: real)
    | Time

  /** `validate(data)`; `isTimeValueValid` stands for the time-value check of the
      charge-period sensors, which is not part of this model. */
  function Validate(v: Validator, data: real, isTimeValueValid: real -> bool): (ok: bool)
    ensures v.Range? ==> (ok <==> v.min <= data && data <= v.max)
    ensures v.Min? ==> (ok <==> v.min <= data)
    ensures v.Max? ==> (ok <==> data <= v.max)
    ensures v.Time? ==> ok == isTimeValueValid(data)
  {
    match v
    case Range(lo, hi) => data >= lo && data <= hi
    case Min(lo) => data >= lo
    case Max(hi) => data <= hi
    case Time => isTimeValueValid(data)
  }

  /** A range is its lower bound and its upper bound checked together. */
  lemma RangeIsMinAndMax(lo: real, hi: real, data: real, isTimeValueValid: real -> bool)
    ensures Validate(Range(lo, hi), data, isTimeValueValid) ==
            (Validate(Min(lo), data, isTimeValueValid) && Validate(Max(hi), data, isTimeValueValid))
  {
  }

  /** Both bounds are inclusive. */
  lemma BoundsAreInclusive(lo: real, hi: real, isTimeValueValid: real -> bool)
    requires lo <= hi
    ensures Validate(Range(lo, hi), lo, isTimeValueValid) && Validate(Range(lo, hi), hi, isTimeValueValid)
    ensures Validate(Min(lo), lo, isTimeValueValid) && Validate(Max(hi), hi, isTimeValueValid)
  {
  }

  /** A range whose minimum exceeds its maximum accepts nothing. */
  lemma EmptyRangeRejectsAll(lo: real, hi: real, data: real, isTimeValueValid: real -> bool)
    requires lo > hi
    ensures !Validate(Range(lo, hi), data, isTimeValueValid)
  {
  }

  /** Widening a range never rejects a value it accepted. */
  lemma RangeMonotone(lo: real, hi: real, lo': real, hi': real, data: real, isTimeValueValid: real -> bool)
    requires lo' <= lo && hi <= hi'
    requires Validate(Range(lo, hi), data, isTimeValueValid)
    ensures Validate(Range(lo', hi'), data, isTimeValueValid)
  {
  }
}
