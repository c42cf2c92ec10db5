/** Small datatypes shared by every module. */
module Prelude {
  datatype Option<+T> = None | Some(value: T)

  /** The value of a Go slice.  `reflect.DeepEqual` tells a nil slice from an
      empty one, so the two are different values here; `len` and `range` do not,
      and go through `Elems`. */
  datatype Slice<+T> = Nil | Of(items: seq<T>) {
    function Elems(): seq<T> {
      if Nil? then [] else items
    }
  }

  /** Go's conversion `int32(n)`: the low 32 bits, read as two's complement. */
  function Int32(n: int): (r: int)
    ensures -0x8000_0000 <= r < 0x8000_0000
    ensures (n - r) % 0x1_0000_0000 == 0
    ensures -0x8000_0000 <= n < 0x8000_0000 ==> r == n
  {
    (n + 0x8000_0000) % 0x1_0000_0000 - 0x8000_0000
  }

  /** `counter++` on an int32 that holds the truncation of n. */
  lemma Int32Increment(n: int)
    ensures Int32(Int32(n) + 1) == Int32(n + 1)
  {
    assert (n + 0x8000_0000) % 0x1_0000_0000 + 1 < 0x1_0000_0000
      || (n + 1 + 0x8000_0000) % 0x1_0000_0000 == 0;
  }
}
