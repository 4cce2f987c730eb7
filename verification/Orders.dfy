/** Pricing of an order (internal/domain/orders) and the amounts asked from the provider. */
module Orders {
  import opened Common

  const MAX_INT64: int := 0x7FFF_FFFF_FFFF_FFFF
  const MAX_QUANTITY: int := 1000

  predicate ValidQuantity(quantity: int) { 1 <= quantity <= MAX_QUANTITY }

  /** Integer division of the source truncates toward zero. */
  function Quotient(a: int, b: int): int
    requires b != 0
  {
    if (a >= 0) == (b > 0) then Abs(a) / Abs(b) else -(Abs(a) / Abs(b))
  }

  function Abs(a: int): nat { if a < 0 then -a else a }

  /** multiply: the 64-bit product, or nothing when the overflow guard fires. */
  function Multiply(unitAmount: int, quantity: int): Option<int>
    requires quantity != 0
  {
    if unitAmount > Quotient(MAX_INT64, quantity) then None else Some(unitAmount * quantity)
  }

  /** The amount of a new order: catalog price times quantity. */
  function Price(unitAmount: int, quantity: int): Option<int> {
    if unitAmount <= 0 || !ValidQuantity(quantity) then None else Multiply(unitAmount, quantity)
  }

  /** The unit amount sent to the provider with an order's quantity. */
  function ProviderUnit(amount: int, quantity: int): int
    requires quantity != 0
  {
    Quotient(amount, quantity)
  }

  /** For a valid price and quantity the guard rejects exactly the products int64 cannot hold. */
  lemma OverflowRejectedExactly(unitAmount: int, quantity: int)
    requires unitAmount > 0 && ValidQuantity(quantity)
    ensures Price(unitAmount, quantity).None? <==> unitAmount * quantity > 9_223_372_036_854_775_807
    ensures Price(unitAmount, quantity).Some? ==> Price(unitAmount, quantity).value == unitAmount * quantity
  {
    var q := MAX_INT64 / quantity;
    assert q * quantity <= MAX_INT64 < (q + 1) * quantity;
    if unitAmount > q {
      MulMonotone(q + 1, unitAmount, quantity);
    } else {
      MulMonotone(unitAmount, q, quantity);
    }
  }

  /** An order is taken exactly for a positive price, a quantity from one to a thousand and a product that
      fits. */
  lemma PricedIff(unitAmount: int, quantity: int)
    ensures Price(unitAmount, quantity).Some?
            <==> unitAmount > 0 && 1 <= quantity <= 1000 && unitAmount * quantity <= 9_223_372_036_854_775_807
  {
    if unitAmount > 0 && ValidQuantity(quantity) { OverflowRejectedExactly(unitAmount, quantity); }
  }

  /** The provider is asked for exactly the order's amount: the division never drops a cent. */
  lemma ProviderTotalIsExact(unitAmount: int, quantity: int)
    requires Price(unitAmount, quantity).Some?
    ensures var amount := Price(unitAmount, quantity).value;
            && ProviderUnit(amount, quantity) == unitAmount
            && ProviderUnit(amount, quantity) * quantity == amount && 0 < amount <= MAX_INT64
  {
    OverflowRejectedExactly(unitAmount, quantity);
    MulMonotone(1, unitAmount, quantity);
    ProductDivides(unitAmount, quantity);
  }

  lemma ProductDivides(u: int, q: int)
    requires q > 0
    ensures u * q / q == u
  {
    var d := u * q / q;
    assert d * q <= u * q < d * q + q;
    if d < u { MulMonotone(d + 1, u, q); }
    if d > u { MulMonotone(u + 1, d, q); }
  }
}
