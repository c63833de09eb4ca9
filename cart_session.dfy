/**
 * The cart page's session (`renderCart`): a copy of the loaded cart lines, the
 * selected payment method, the totals every repaint recomputes, and the checkout
 * attempts the "pay now" button has started. HTML and currency formatting are
 * left out; only the state the painted page reads and writes is kept.
 */
module CartSession {
  import opened Quantity
  import opened Checkout

  /** One cart line as loaded; `total` is written by every repaint. */
  datatype CartItem = CartItem(id: int, name: string, price: int, quantity: int, image: string, total: int)

  /** The amount a line is worth: unit price times quantity (VND has no minor unit). */
  function LineTotal(item: CartItem): int
  {
    item.price * item.quantity
  }

  /** The order value: the sum of the line worths, in display order. */
  function Subtotal(items: seq<CartItem>): int
  {
    if items == [] then 0
    else Subtotal(items[..|items| - 1]) + LineTotal(items[|items| - 1])
  }

  /** The sum of the stored `total` fields. */
  function SumOfTotals(items: seq<CartItem>): int
  {
    if items == [] then 0
    else SumOfTotals(items[..|items| - 1]) + items[|items| - 1].total
  }

  /** Every line's stored total is its current worth. */
  ghost predicate TotalsFresh(items: seq<CartItem>)
  {
    forall i :: 0 <= i < |items| ==> items[i].total == LineTotal(items[i])
  }

  /** The lines with every stored total recomputed and nothing else changed. */
  function Repriced(items: seq<CartItem>): (r: seq<CartItem>)
    ensures |r| == |items| && TotalsFresh(r)
    ensures forall i :: 0 <= i < |items| ==> r[i].(total := items[i].total) == items[i]
  {
    seq(|items|, i requires 0 <= i < |items| => items[i].(total := LineTotal(items[i])))
  }

  /** Lines whose totals are already fresh are left as they are by a repaint. */
  lemma RepricedFresh(items: seq<CartItem>)
    requires TotalsFresh(items)
    ensures Repriced(items) == items
  {
  }

  /** When the stored totals are fresh, summing them gives the order value. */
  lemma {:induction false} FreshTotalsSum(items: seq<CartItem>)
    requires TotalsFresh(items)
    ensures SumOfTotals(items) == Subtotal(items)
    decreases |items|
  {
    if items != [] {
      FreshTotalsSum(items[..|items| - 1]);
    }
  }

  /** The order value depends only on prices and quantities, not on stored totals. */
  lemma {:induction false} SubtotalIgnoresTotals(a: seq<CartItem>, b: seq<CartItem>)
    requires |a| == |b|
    requires forall i :: 0 <= i < |a| ==> a[i].price == b[i].price && a[i].quantity == b[i].quantity
    ensures Subtotal(a) == Subtotal(b)
    decreases |a|
  {
    if a != [] {
      SubtotalIgnoresTotals(a[..|a| - 1], b[..|b| - 1]);
    }
  }

  /** The repaint loop: writes each line's total and accumulates the subtotal. */
  method UpdateTotals(items: seq<CartItem>) returns (priced: seq<CartItem>, subtotal: int)
    ensures priced == Repriced(items)
    ensures subtotal == Subtotal(items) && subtotal == SumOfTotals(priced)
  {
    priced := items;
    subtotal := 0;
    var i := 0;
    while i < |priced|
      invariant 0 <= i <= |priced| == |items|
      invariant forall k :: 0 <= k < i ==> priced[k] == items[k].(total := LineTotal(items[k]))
      invariant forall k :: i <= k < |priced| ==> priced[k] == items[k]
      invariant subtotal == Subtotal(items[..i])
    {
      assert items[..i + 1][..i] == items[..i];
      priced := priced[i := priced[i].(total := priced[i].price * priced[i].quantity)];
      subtotal := subtotal + priced[i].total;
      i := i + 1;
    }
    assert items[..i] == items;
    FreshTotalsSum(priced);
    SubtotalIgnoresTotals(priced, items);
  }

  /** Line idx after a `+` press. */
  function IncAt(items: seq<CartItem>, idx: nat): seq<CartItem>
    requires idx < |items|
  {
    items[idx := items[idx].(quantity := Increment(items[idx].quantity))]
  }

  /** Line idx after a `-` press. */
  function DecAt(items: seq<CartItem>, idx: nat): seq<CartItem>
    requires idx < |items|
  {
    items[idx := items[idx].(quantity := Decrement(items[idx].quantity))]
  }

  /** Changing one line's quantity to q moves the order value by that line's price times the change. */
  lemma {:induction false} SubtotalWithQuantity(items: seq<CartItem>, idx: nat, q: int)
    requires idx < |items|
    ensures Subtotal(items[idx := items[idx].(quantity := q)]) ==
      Subtotal(items) + items[idx].price * (q - items[idx].quantity)
    decreases |items|
  {
    var n := |items|;
    var updated := items[idx := items[idx].(quantity := q)];
    if idx == n - 1 {
      assert updated[..n - 1] == items[..n - 1];
      var p, q0 := items[idx].price, items[idx].quantity;
      assert p * q == p * q0 + p * (q - q0);
    } else {
      assert updated[..n - 1] == items[..n - 1][idx := items[idx].(quantity := q)];
      SubtotalWithQuantity(items[..n - 1], idx, q);
    }
  }

  /** `+` raises the order value by exactly that line's unit price. */
  lemma SubtotalAfterInc(items: seq<CartItem>, idx: nat)
    requires idx < |items|
    ensures Subtotal(IncAt(items, idx)) == Subtotal(items) + items[idx].price
  {
    SubtotalWithQuantity(items, idx, items[idx].quantity + 1);
  }

  /** `-` lowers the order value by that line's unit price when the quantity is above 1
      and leaves the lines untouched otherwise. */
  lemma SubtotalAfterDec(items: seq<CartItem>, idx: nat)
    requires idx < |items|
    ensures items[idx].quantity > 1 ==> Subtotal(DecAt(items, idx)) == Subtotal(items) - items[idx].price
    ensures items[idx].quantity <= 1 ==> DecAt(items, idx) == items
  {
    var q := items[idx].quantity;
    if q > 1 {
      SubtotalWithQuantity(items, idx, q - 1);
      assert items[idx].price * (q - 1 - q) == -items[idx].price;
    } else {
      assert items[idx].(quantity := Decrement(q)) == items[idx];
    }
  }

  /** `-` undoes `+` on a line whose quantity is at least 1. */
  lemma DecUndoesInc(items: seq<CartItem>, idx: nat)
    requires idx < |items| && items[idx].quantity >= 1
    ensures DecAt(IncAt(items, idx), idx) == items
  {
  }

  ghost predicate QuantitiesPositive(items: seq<CartItem>)
  {
    forall i :: 0 <= i < |items| ==> items[i].quantity >= 1
  }

  /** A press on one line's stepper: `+` or `-` on line idx. */
  datatype QtyPress = QtyPress(idx: nat, press: Press)

  /** The lines after a sequence of presses, each followed by a repaint. */
  function ApplyPresses(items: seq<CartItem>, ps: seq<QtyPress>): seq<CartItem>
    requires forall k :: 0 <= k < |ps| ==> ps[k].idx < |items|
    decreases |ps|
  {
    if ps == [] then items
    else
      var stepped := if ps[0].press == Plus then IncAt(items, ps[0].idx) else DecAt(items, ps[0].idx);
      ApplyPresses(Repriced(stepped), ps[1..])
  }

  /** Whatever presses follow, a session whose quantities start at 1 or more keeps every
      quantity at 1 or more, keeps its lines (their number, ids, names, prices, images)
      and keeps every stored total equal to price times quantity. */
  lemma {:induction false} PressesKeepCartSound(items: seq<CartItem>, ps: seq<QtyPress>)
    requires TotalsFresh(items) && QuantitiesPositive(items)
    requires forall k :: 0 <= k < |ps| ==> ps[k].idx < |items|
    ensures var r := ApplyPresses(items, ps);
      |r| == |items| && TotalsFresh(r) && QuantitiesPositive(r) &&
      forall i :: 0 <= i < |r| ==>
        r[i].id == items[i].id && r[i].name == items[i].name &&
        r[i].price == items[i].price && r[i].image == items[i].image
    decreases |ps|
  {
    if ps != [] {
      var stepped := if ps[0].press == Plus then IncAt(items, ps[0].idx) else DecAt(items, ps[0].idx);
      var next := Repriced(stepped);
      assert forall k :: 0 <= k < |ps[1..]| ==> ps[1..][k].idx < |next| by {
        forall k | 0 <= k < |ps[1..]| ensures ps[1..][k].idx < |next| {
          assert ps[1..][k] == ps[k + 1];
        }
      }
      PressesKeepCartSound(next, ps[1..]);
    }
  }

  /**
   * One visit of the cart page. `items` and `paymentMethod` are the closure
   * variables of `renderCart`; `subtotal` and `total` are what the latest
   * repaint computed; `attempts` are the checkout clicks so far, in order, and
   * `navigations` counts the moves to the storefront they caused.
   */
  class Session {
    var items: seq<CartItem>
    var paymentMethod: PaymentMethod
    var subtotal: int
    var total: int
    var attempts: seq<Attempt>
    var navigations: nat

    /** Totals never drift, and every navigation belongs to exactly one completed attempt. */
    ghost predicate Valid()
      reads this
    {
      && TotalsFresh(items)
      && subtotal == Subtotal(items)
      && total == subtotal + ShippingFee
      && navigations == Completions(attempts)
    }

    /** Opening the cart page: a copy of the loaded lines (a value, so later edits never
        reach the loaded data), cash on delivery selected, and a first repaint. */
    constructor (loaded: seq<CartItem>)
      ensures Valid()
      ensures items == Repriced(loaded) && paymentMethod == Cod
      ensures subtotal == Subtotal(loaded) && total == Subtotal(loaded) + ShippingFee
      ensures attempts == [] && navigations == 0
    {
      items := loaded;
      paymentMethod := Cod;
      attempts := [];
      navigations := 0;
      new;
      Repaint();
    }

    /** `updateCart`: recompute every line total, the subtotal and the grand total. */
    method Repaint()
      requires navigations == Completions(attempts)
      modifies this
      ensures Valid()
      ensures items == Repriced(old(items))
      ensures subtotal == Subtotal(old(items))
      ensures paymentMethod == old(paymentMethod)
      ensures attempts == old(attempts) && navigations == old(navigations)
    {
      var priced, sum := UpdateTotals(items);
      items := priced;
      subtotal := sum;
      total := subtotal + ShippingFee;
      SubtotalIgnoresTotals(priced, old(items));
    }

    /** The `+` button of line idx, followed by a repaint. */
    method Inc(idx: nat)
      requires Valid() && idx < |items|
      modifies this
      ensures Valid()
      ensures items == Repriced(IncAt(old(items), idx))
      ensures items[idx].quantity == old(items[idx].quantity) + 1
      ensures items[idx].total == items[idx].price * items[idx].quantity
      ensures forall j :: 0 <= j < |items| && j != idx ==> items[j] == old(items[j])
      ensures subtotal == old(subtotal) + items[idx].price
      ensures paymentMethod == old(paymentMethod)
      ensures attempts == old(attempts) && navigations == old(navigations)
    {
      SubtotalAfterInc(items, idx);
      items := IncAt(items, idx);
      Repaint();
    }

    /** The `-` button of line idx, followed by a repaint: only above 1 does it lower the quantity. */
    method Dec(idx: nat)
      requires Valid() && idx < |items|
      modifies this
      ensures Valid()
      ensures items == Repriced(DecAt(old(items), idx))
      ensures old(items[idx].quantity) > 1 ==>
        items[idx].quantity == old(items[idx].quantity) - 1 && subtotal == old(subtotal) - items[idx].price
      ensures old(items[idx].quantity) <= 1 ==> items == old(items) && subtotal == old(subtotal)
      ensures old(items[idx].quantity) >= 1 ==> items[idx].quantity >= 1
      ensures forall j :: 0 <= j < |items| && j != idx ==> items[j] == old(items[j])
      ensures paymentMethod == old(paymentMethod)
      ensures attempts == old(attempts) && navigations == old(navigations)
    {
      SubtotalAfterDec(items, idx);
      items := DecAt(items, idx);
      Repaint();
    }

    /** A payment radio button: only the method changes. */
    method SetMethod(m: PaymentMethod)
      requires Valid()
      modifies this
      ensures Valid() && paymentMethod == m
      ensures items == old(items) && subtotal == old(subtotal) && total == old(total)
      ensures attempts == old(attempts) && navigations == old(navigations)
    {
      paymentMethod := m;
    }

    /** The "pay now" button. There is no guard against an attempt already waiting:
        every click starts a new attempt with the method selected and the subtotal
        of the latest repaint; cash on delivery navigates once. The cart is not cleared. */
    method CheckoutClick()
      requires Valid()
      modifies this
      ensures Valid()
      ensures |attempts| == |old(attempts)| + 1 && attempts[..|old(attempts)|] == old(attempts)
      ensures attempts[|attempts| - 1] == Start(paymentMethod, subtotal).0
      ensures IsQr(paymentMethod) ==> var a := attempts[|attempts| - 1];
        a.Awaiting? && a.timer == CountdownStart && a.qr.amount == subtotal && DisplayedTotal(a.qr) == total
      ensures IsQr(paymentMethod) ==> attempts[|attempts| - 1].qr == Recipient(paymentMethod, subtotal)
      ensures navigations == old(navigations) + (if paymentMethod == Cod then 1 else 0)
      ensures items == old(items) && subtotal == old(subtotal) && total == old(total)
      ensures paymentMethod == old(paymentMethod)
    {
      var (a, nav) := Start(paymentMethod, subtotal);
      CompletionsAppend(attempts, a);
      assert (attempts + [a])[..|attempts|] == attempts;
      attempts := attempts + [a];
      if nav {
        navigations := navigations + 1;
      }
    }

    /** One firing of attempt k's interval. Only a live countdown changes; reaching 0
        completes it and navigates exactly once. The cart is untouched. */
    method TickAttempt(k: nat)
      requires Valid() && k < |attempts|
      modifies this
      ensures Valid()
      ensures attempts == old(attempts)[k := Tick(old(attempts[k])).0]
      ensures navigations == old(navigations) + (if Tick(old(attempts[k])).1 then 1 else 0)
      ensures !old(attempts[k]).Awaiting? ==> attempts == old(attempts) && navigations == old(navigations)
      ensures items == old(items) && subtotal == old(subtotal) && total == old(total)
      ensures paymentMethod == old(paymentMethod)
    {
      var (a, nav) := Tick(attempts[k]);
      CompletionsUpdate(attempts, k, a);
      attempts := attempts[k := a];
      if nav {
        navigations := navigations + 1;
      }
    }

    /** The close button of attempt k's overlay: its interval is cleared, nothing
        navigates and the cart is untouched. */
    method CloseOverlay(k: nat)
      requires Valid() && k < |attempts| && attempts[k].Awaiting?
      modifies this
      ensures Valid()
      ensures attempts == old(attempts)[k := Closed]
      ensures navigations == old(navigations)
      ensures items == old(items) && subtotal == old(subtotal) && total == old(total)
      ensures paymentMethod == old(paymentMethod)
    {
      CompletionsUpdate(attempts, k, Closed);
      attempts := attempts[k := Close(attempts[k])];
    }
  }

  /** A cart of one line, 100000 VND times 2, paid by MoMo and left alone for ten ticks:
      the QR asks for 200000, the page shows 250000 and navigates exactly once. */
  method MomoCheckoutScenario() returns (amount: int, shown: int, navs: nat)
    ensures amount == 200000 && shown == 250000 && navs == 1
  {
    var s := new Session([CartItem(1, "A", 100000, 2, "a.png", 0)]);
    s.SetMethod(Momo);
    s.CheckoutClick();
    var q := s.attempts[0].qr;
    amount, shown := q.amount, DisplayedTotal(q);
    var i := 0;
    while i < 10
      invariant 0 <= i <= 10
      invariant s.Valid() && |s.attempts| == 1
      invariant s.attempts[0] == if i < 10 then Awaiting(10 - i, q) else Completed
      invariant s.navigations == if i < 10 then 0 else 1
    {
      s.TickAttempt(0);
      i := i + 1;
    }
    navs := s.navigations;
  }

  /** The same cart paid by bank QR, closed after five ticks, then five more ticks:
      nothing navigates, the attempt stays closed and the cart lines are as they were. */
  method BankCancelScenario() returns (navs: nat, linesKept: bool, closed: bool)
    ensures navs == 0 && linesKept && closed
  {
    var s := new Session([CartItem(1, "A", 100000, 2, "a.png", 0)]);
    var before := s.items;
    s.SetMethod(Bank);
    s.CheckoutClick();
    var i := 0;
    while i < 5
      invariant 0 <= i <= 5
      invariant s.Valid() && |s.attempts| == 1 && s.items == before
      invariant s.attempts[0].Awaiting? && s.attempts[0].timer == 10 - i
      invariant s.navigations == 0
    {
      s.TickAttempt(0);
      i := i + 1;
    }
    s.CloseOverlay(0);
    while i < 10
      invariant 5 <= i <= 10
      invariant s.Valid() && s.attempts == [Closed] && s.items == before
      invariant s.navigations == 0
    {
      s.TickAttempt(0);
      i := i + 1;
    }
    navs, linesKept, closed := s.navigations, s.items == before, s.attempts[0] == Closed;
  }
}
