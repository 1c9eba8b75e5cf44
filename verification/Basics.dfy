/** Datatypes and string tests shared by the component modules. */
module Basics {

  datatype Option<+T> = None | Some(value: T)

  datatype Result<+T, +E> = Ok(value: T) | Err(error: E)

  function Min(a: int, b: int): int {
    if a <= b then a else b
  }

  function Max(a: int, b: int): int {
    if a >= b then a else b
  }

  function Lower(text: string): (r: string)
    ensures |r| == |text|
  {
    seq(|text|, i requires 0 <= i < |text| =>
      if 'A' <= text[i] <= 'Z' then (text[i] as int + 32) as char else text[i])
  }

  /** `needle` occurs somewhere in `text`. */
  predicate Contains(text: string, needle: string) {
    needle <= text || (text != [] && Contains(text[1..], needle))
  }
}
