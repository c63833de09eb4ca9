/**
 * The checkout simulator behind the cart page's "pay now" button, with the
 * one-second interval turned into discrete ticks. One checkout click creates
 * one attempt: cash on delivery completes at once and navigates to the
 * storefront; a MoMo or bank QR payment opens an overlay whose countdown
 * starts at 10, loses one per tick and, on reaching 0, clears the interval,
 * removes the overlay and navigates. Closing the overlay clears the interval.
 */
module Checkout {

  datatype PaymentMethod = Cod | Momo | Bank

  /** Fixed shipping fee in VND; the overlay shows it and adds it to the amount. */
  const ShippingFee: int := 50000

  /** The countdown shown when the QR overlay opens. */
  const CountdownStart: int := 10

  /** What the QR image encodes: the demo account chosen by the method and the amount. */
  datatype QrRequest = QrRequest(bankId: string, accountNo: string, accountName: string, amount: int)

  /** One checkout click and what became of it. A closed or completed attempt has no live interval. */
  datatype Attempt =
    | Awaiting(timer: int, qr: QrRequest)
    | Closed
    | Completed

  predicate IsQr(m: PaymentMethod)
  {
    m == Momo || m == Bank
  }

  /** The demo recipient for a QR method: MoMo's bank id 970422, otherwise 970436. */
  function Recipient(m: PaymentMethod, amount: int): (r: QrRequest)
    requires IsQr(m)
    ensures r.amount == amount
    ensures r.bankId == (if m == Momo then "970422" else "970436")
    ensures m == Momo ==> r.accountNo == "999999999" && r.accountName == "MOMO DEMO"
    ensures m == Bank ==> r.accountNo == "123456789" && r.accountName == "NGUYEN VAN A"
  {
    if m == Momo then QrRequest("970422", "999999999", "MOMO DEMO", amount)
    else QrRequest("970436", "123456789", "NGUYEN VAN A", amount)
  }

  /** The grand total the overlay displays beside the QR amount. */
  function DisplayedTotal(q: QrRequest): int
  {
    q.amount + ShippingFee
  }

  /** A checkout click with the given method and the subtotal of the latest repaint;
      the flag says whether it navigates. */
  function Start(m: PaymentMethod, subtotal: int): (r: (Attempt, bool))
    ensures r.1 <==> m == Cod
    ensures r.1 <==> r.0.Completed?
    ensures IsQr(m) ==> r.0.Awaiting? && r.0.timer == CountdownStart && r.0.qr.amount == subtotal
    ensures IsQr(m) ==> r.0.qr == Recipient(m, subtotal)
    ensures r.0.Awaiting? ==> DisplayedTotal(r.0.qr) == subtotal + ShippingFee
  {
    if IsQr(m) then (Awaiting(CountdownStart, Recipient(m, subtotal)), false)
    else (Completed, true)
  }

  /** One firing of an attempt's interval; the flag says whether it navigated.
      The interval of a closed or completed attempt has been cleared, so nothing fires. */
  function Tick(a: Attempt): (r: (Attempt, bool))
    ensures r.1 <==> a.Awaiting? && r.0.Completed?
    ensures r.1 <==> a.Awaiting? && a.timer == 1
    ensures !a.Awaiting? ==> r == (a, false)
    ensures a.Awaiting? && !r.1 ==> r.0.Awaiting? && r.0.timer == a.timer - 1 && r.0.qr == a.qr
  {
    match a
    case Awaiting(t, q) =>
      if t - 1 == 0 then (Completed, true) else (Awaiting(t - 1, q), false)
    case _ => (a, false)
  }

  /** The overlay's close button, present only while the overlay is shown. */
  function Close(a: Attempt): (r: Attempt)
    requires a.Awaiting?
    ensures !r.Awaiting? && !r.Completed?
  {
    Closed
  }

  /** The state after n ticks, with the number of navigations they caused. */
  function Run(a: Attempt, n: nat): (Attempt, nat)
    decreases n
  {
    if n == 0 then (a, 0)
    else
      var (a', nav) := Tick(a);
      var (final, navs) := Run(a', n - 1);
      (final, navs + (if nav then 1 else 0))
  }

  /** A countdown at t >= 1 is still waiting, at t - n, after n < t ticks, and after
      t or more ticks it has completed with exactly one navigation. */
  lemma {:induction false} CountdownRun(t: int, q: QrRequest, n: nat)
    requires t >= 1
    ensures Run(Awaiting(t, q), n) == if n < t then (Awaiting(t - n, q), 0) else (Completed, 1)
    decreases n
  {
    if n > 0 {
      if t == 1 {
        CompletedIsQuiet(n - 1);
      } else {
        CountdownRun(t - 1, q, n - 1);
      }
    }
  }

  /** A completed attempt's interval is gone: no tick changes it or navigates again. */
  lemma {:induction false} CompletedIsQuiet(n: nat)
    ensures Run(Completed, n) == (Completed, 0)
    decreases n
  {
    if n > 0 {
      CompletedIsQuiet(n - 1);
    }
  }

  /** A closed attempt's interval is gone: no tick reopens it, completes it or navigates. */
  lemma {:induction false} ClosedIsQuiet(n: nat)
    ensures Run(Closed, n) == (Closed, 0)
    decreases n
  {
    if n > 0 {
      ClosedIsQuiet(n - 1);
    }
  }

  /** A QR checkout navigates exactly once, after exactly ten ticks, and not before. */
  lemma QrCheckoutNavigatesOnceAfterTenTicks(m: PaymentMethod, subtotal: int, n: nat)
    requires IsQr(m)
    ensures var (a, _) := Start(m, subtotal);
      Run(a, n) == if n < 10 then (Awaiting(10 - n, a.qr), 0) else (Completed, 1)
  {
    CountdownRun(CountdownStart, Recipient(m, subtotal), n);
  }

  /** Closing an overlay after k < 10 ticks, then letting any number of ticks pass,
      never completes the attempt and never navigates. */
  lemma CloseBeforeZeroNeverNavigates(m: PaymentMethod, subtotal: int, k: nat, n: nat)
    requires IsQr(m) && k < 10
    ensures var (a, _) := Start(m, subtotal);
      var (waiting, navs) := Run(a, k);
      navs == 0 && waiting.Awaiting? && Run(Close(waiting), n) == (Closed, 0)
  {
    CountdownRun(CountdownStart, Recipient(m, subtotal), k);
    ClosedIsQuiet(n);
  }

  /** The number of attempts that reached completion. */
  function Completions(attempts: seq<Attempt>): nat
  {
    if attempts == [] then 0
    else Completions(attempts[..|attempts| - 1]) + (if attempts[|attempts| - 1].Completed? then 1 else 0)
  }

  /** Appending an attempt adds one completion exactly when it is completed. */
  lemma CompletionsAppend(attempts: seq<Attempt>, a: Attempt)
    ensures Completions(attempts + [a]) == Completions(attempts) + (if a.Completed? then 1 else 0)
  {
    assert (attempts + [a])[..|attempts|] == attempts;
  }

  /** Replacing attempt k updates the completion count by the change at k alone. */
  lemma {:induction false} CompletionsUpdate(attempts: seq<Attempt>, k: nat, a: Attempt)
    requires k < |attempts|
    ensures Completions(attempts[k := a]) ==
      Completions(attempts) - (if attempts[k].Completed? then 1 else 0) + (if a.Completed? then 1 else 0)
    decreases |attempts|
  {
    var n := |attempts|;
    var updated := attempts[k := a];
    assert updated[..n - 1] == if k == n - 1 then attempts[..n - 1] else attempts[..n - 1][k := a];
    if k < n - 1 {
      CompletionsUpdate(attempts[..n - 1], k, a);
    }
  }
}
