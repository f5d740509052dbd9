/** Small datatypes shared by every module. */
module Prelude {
  datatype Option<+T> = None | Some(value: T)

  /** The Go pair (value, error): a value, or an error that carries nothing the model needs. */
  datatype Result<+T> = Ok(value: T) | Err

  const MAX_INT32: int := 0x7fff_ffff

  const TWO_TO_32: int := 0x1_0000_0000

  const TWO_TO_64: int := 0x1_0000_0000_0000_0000

  /** The Go conversion int32(x), and int32 arithmetic: two's complement, wrapping. */
  function Wrap32(x: int): (r: int)
    ensures -MAX_INT32 - 1 <= r <= MAX_INT32
    ensures -MAX_INT32 - 1 <= x <= MAX_INT32 ==> r == x
  {
    (x + MAX_INT32 + 1) % TWO_TO_32 - MAX_INT32 - 1
  }

  /** It differs by a multiple of 2^32, and so is determined. */
  lemma WrapExactly(x: int)
    ensures -0x8000_0000 <= Wrap32(x) <= 0x7fff_ffff && (Wrap32(x) - x) % 0x1_0000_0000 == 0
  {
    var k := (x + MAX_INT32 + 1) / TWO_TO_32;
    assert Wrap32(x) - x == -k * TWO_TO_32;
  }

  /** int64 arithmetic: two's complement, wrapping. */
  function Wrap64(x: int): (r: int)
    ensures -(TWO_TO_64 / 2) <= r < TWO_TO_64 / 2
    ensures -(TWO_TO_64 / 2) <= x < TWO_TO_64 / 2 ==> r == x
  {
    (x + TWO_TO_64 / 2) % TWO_TO_64 - TWO_TO_64 / 2
  }

  /** time.Second * time.Duration(s): nanoseconds in an int64. */
  function Seconds(s: int): int {
    Wrap64(s * 1_000_000_000)
  }

  /** A number of seconds is that many nanoseconds, unless they do not fit an int64. */
  lemma SecondsExactly(s: int)
    ensures -9_223_372_036 <= s <= 9_223_372_036 ==> Seconds(s) == s * 1_000_000_000
    ensures (Seconds(s) - s * 1_000_000_000) % 0x1_0000_0000_0000_0000 == 0
    ensures -0x8000_0000_0000_0000 <= Seconds(s) < 0x8000_0000_0000_0000
  {
    var x := s * 1_000_000_000;
    var k := (x + TWO_TO_64 / 2) / TWO_TO_64;
    assert Seconds(s) - x == -k * TWO_TO_64;
  }

  /** The elements of s that satisfy p, in their order. */
  function Filter<T(!new)>(s: seq<T>, p: T -> bool): (r: seq<T>)
    ensures forall x :: x in r <==> x in s && p(x)
    ensures |r| <= |s|
  {
    if s == [] then []
    else
      var rest := Filter(s[..|s| - 1], p);
      if p(s[|s| - 1]) then rest + [s[|s| - 1]] else rest
  }
}
