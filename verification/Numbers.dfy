/** Arithmetic that Python has built in. */
module Numbers {
  function Min(a: real, b: real): real {
    if a <= b then a else b
  }

  function Abs(x: real): real {
    if x < 0.0 then -x else x
  }

  /** 1 for a condition that holds, as in counting. */
  function Bump(b: bool): nat {
    if b then 1 else 0
  }
}
