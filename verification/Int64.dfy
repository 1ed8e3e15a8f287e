/** Go's 64-bit signed integers: the wrap-around of `+`, `*` and `<<`, and the
    saturation of `time.Time.Sub`. */
module Int64 {

  const MAX := 0x7FFF_FFFF_FFFF_FFFF
  const MIN := -0x8000_0000_0000_0000
  const SPAN := 0x1_0000_0000_0000_0000

  predicate Fits(x: int) {
    MIN <= x <= MAX
  }

  type int64 = x: int | Fits(x)

  /** The value stored when a Go expression whose exact value is x overflows. */
  function Wrap(x: int): (r: int64)
    ensures Fits(x) ==> r == x
    ensures MAX < x <= 2 * MAX ==> r == x - SPAN
  {
    (x - MIN) % SPAN + MIN
  }

  /** Wrapping q times round. */
  lemma WrapsRound(x: int, q: nat)
    requires q * SPAN + MIN <= x <= q * SPAN + MAX
    ensures Wrap(x) == x - q * SPAN
  {
    assert x - MIN == q * SPAN + (x - q * SPAN - MIN);
    RemainderOf(q, x - q * SPAN - MIN);
  }

  /** A sum of wrapped values is the wrapped sum. */
  lemma WrapSum(x: int, y: int)
    ensures Wrap(Wrap(x) + y) == Wrap(x + y)
  {
    var q := (x - MIN) / SPAN;
    assert x == Wrap(x) + q * SPAN;
    SameWrap(Wrap(x) + y, q);
  }

  lemma SameWrap(x: int, q: int)
    ensures Wrap(x + q * SPAN) == Wrap(x)
  {
    var k := (x - MIN) / SPAN;
    var r := (x - MIN) % SPAN;
    assert x + q * SPAN - MIN == (k + q) * SPAN + r;
    RemainderOf(k + q, r);
  }

  lemma RemainderOf(k: int, r: int)
    requires 0 <= r < SPAN
    ensures (k * SPAN + r) % SPAN == r
  {
  }

  /** time.Time.Sub: the difference of two instants, saturating. */
  function Saturate(x: int): int64 {
    if x < MIN then MIN else if x > MAX then MAX else x
  }

  function Min(a: int, b: int): int {
    if a <= b then a else b
  }

  function Max(a: int, b: int): int {
    if a <= b then b else a
  }
}
