/** Small number types and functions that several components share. */
module Numbers {
  type Byte = x: int | 0 <= x < 256

  function Min(a: nat, b: nat): nat { if a < b then a else b }

  function MaxReal(a: real, b: real): real { if a < b then b else a }
}
