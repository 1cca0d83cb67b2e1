/** The `max(lo, min(hi, x))` idiom the source uses to clamp settings. */
module Clamp {

  /** `max(lo, min(hi, x))` over integers. */
  function ClampInt(lo: int, hi: int, x: int): (r: int)
    requires lo <= hi
    ensures lo <= r <= hi
    ensures lo <= x <= hi ==> r == x
    ensures x < lo ==> r == lo
    ensures hi < x ==> r == hi
  {
    var m := if hi < x then hi else x;
    if m < lo then lo else m
  }

  /** `max(lo, min(hi, x))` over reals (Python floats, without NaN). */
  function ClampReal(lo: real, hi: real, x: real): (r: real)
    requires lo <= hi
    ensures lo <= r <= hi
    ensures lo <= x <= hi ==> r == x
    ensures x < lo ==> r == lo
    ensures hi < x ==> r == hi
  {
    var m := if hi < x then hi else x;
    if m < lo then lo else m
  }

  /** `max(lo, x)` over reals. */
  function AtLeast(lo: real, x: real): (r: real)
    ensures lo <= r
    ensures lo <= x ==> r == x
    ensures x < lo ==> r == lo
  {
    if x < lo then lo else x
  }
}
