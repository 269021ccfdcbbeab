/** Small shared vocabulary: an optional value and integer/real minimum, maximum, absolute value. */
module Prelude {

  /** A value that may be absent; `None` also stands for a foreign call that raised. */
  datatype Option<T> = None | Some(value: T)

  function Min(a: int, b: int): int { if a <= b then a else b }

  function Max(a: int, b: int): int { if a >= b then a else b }

  function Abs(a: int): nat { if a < 0 then -a else a }

  function MinR(a: real, b: real): real { if a <= b then a else b }

  function MaxR(a: real, b: real): real { if a >= b then a else b }
}
