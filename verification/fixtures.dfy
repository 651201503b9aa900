/**
  The extension functions of the crate's test module (src/lib.rs:66-99) and
  the `it_works` chain built from them. A shared reference `&Option<T>` is a
  `Ref`, as `apply_ref` produces it; a slice `&[T]` is the sequence of its
  elements.
 */
module Fixtures {
  import opened Options
  import opened ModExt

  newtype i32 = x: int | -0x8000_0000 <= x < 0x8000_0000
  /** `usize` as on a 64-bit target. */
  newtype usize = x: int | 0 <= x < 0x1_0000_0000_0000_0000

  predicate InI32(v: int) {
    -0x8000_0000 <= v < 0x8000_0000
  }

  /** `option::as_slice`: the contents of an option as a slice of zero or
      one elements. */
  function AsSlice<T>(opt: Ref<Option<T>>): (s: seq<T>)
    ensures |s| <= 1
    ensures |s| == 1 <==> opt.target.Some?
    ensures forall i :: 0 <= i < |s| ==> opt.target == Some(s[i])
  {
    match opt.target
    case Some(v) => [v]
    case None => []
  }

  /** `slice::get`: the element at `index`. Indexing past the end panics,
      so the index must be in range. */
  function Get(slice: seq<i32>, index: usize): (r: i32)
    requires index as int < |slice|
    ensures slice == slice[..index] + [r] + slice[index as int + 1..]
  {
    slice[index]
  }

  /** `i32::add_then_multiply`. Rust's debug arithmetic panics on overflow,
      so both the sum and the product must fit in an `i32`. */
  function AddThenMultiply(x: i32, add: i32, mul: i32): (r: i32)
    requires InI32(x as int + add as int)
    requires InI32((x as int + add as int) * mul as int)
    ensures r as int == x as int * mul as int + add as int * mul as int
  {
    (x + add) * mul
  }

  /** The `it_works` chain: `Some(0)`, through `as_slice`, `get(0)` and
      `add_then_multiply(2, 2)`, ends in 4. */
  function ItWorks(): (y: i32)
    ensures y == 4
  {
    var x: Option<i32> := Some(0);
    var s := Pass0(ApplyRef(x, AsSlice));
    assert s == [0];
    var v := Pass1(Apply(s, Get), 0);
    assert v == Get(s, 0) && [v] == s[0..1];
    assert InI32(v as int + 2) && InI32((v as int + 2) * 2);
    Pass2(Apply(v, AddThenMultiply), 2, 2)
  }

  /** Each step of `it_works`: `as_slice` yields `[0]`, `get(0)` yields 0,
      and the chain equals the nested call of the three fixtures. */
  lemma ItWorksTrace()
    ensures Pass0(ApplyRef(Some(0), AsSlice<i32>)) == [0]
    ensures Pass1(Apply([0], Get), 0) == 0
    ensures ItWorks() == AddThenMultiply(Get(AsSlice(Ref(Some(0))), 0), 2, 2)
  {
  }
}
