/**
 * The quantity stepper rule shared by the cart page's `+`/`-` buttons and the
 * product page's `increaseQuantity`/`decreaseQuantity`: `+` always adds one,
 * `-` subtracts one only while the value is above 1.
 */
module Quantity {

  /** The `+` control. From any start of at least 1, `-` takes it straight back. */
  function Increment(q: int): (r: int)
    ensures r > q
    ensures q >= 1 ==> r > 1 && Decrement(r) == q
  {
    q + 1
  }

  /** The `-` control: one less while above 1, otherwise nothing happens. */
  function Decrement(q: int): (r: int)
    ensures r == q || r == q - 1
    ensures r < q <==> q > 1
    ensures q >= 1 ==> r >= 1
  {
    if q > 1 then q - 1 else q
  }

  datatype Press = Plus | Minus

  /** The value after a sequence of presses, the first press first. */
  function Presses(q: int, ps: seq<Press>): int
    decreases |ps|
  {
    if ps == [] then q
    else Presses(if ps[0] == Plus then Increment(q) else Decrement(q), ps[1..])
  }

  function CountPlus(ps: seq<Press>): nat
  {
    if ps == [] then 0 else (if ps[0] == Plus then 1 else 0) + CountPlus(ps[1..])
  }

  /** Whatever is pressed, a stepper that starts at 1 or more never shows less than 1,
      and it never exceeds its start by more than the number of `+` presses. */
  lemma {:induction false} PressesStayPositive(q: int, ps: seq<Press>)
    requires q >= 1
    ensures 1 <= Presses(q, ps) <= q + CountPlus(ps)
    decreases |ps|
  {
    if ps != [] {
      var next := if ps[0] == Plus then Increment(q) else Decrement(q);
      PressesStayPositive(next, ps[1..]);
    }
  }
}
