/** Rounding errors on the way from the cart to the payments table: every amount that a service
    computes in binary64 is the exact one. */
module Money {
  import opened Stock
  import opened Protocol
  import opened Binary64
  import opened Amounts

  // The prices that a numeric(12,2) column holds, in cents.
  const PRICE_LIMIT := 1_000_000_000_000

  // ---- Exact amounts

  function LineTotal(line: Line): int {
    line.price * line.item.quantity
  }

  function TotalCents(lines: seq<Line>): int {
    if lines == [] then 0 else TotalCents(lines[..|lines| - 1]) + LineTotal(lines[|lines| - 1])
  }

  // ---- Error bounds

  /** `y` is `x` up to `units` times 2^-53 of it. */
  predicate Near(y: real, x: real, units: real) {
    y >= 0.0 && Abs(y - x) * SIGNIFICANDS as real <= units * x
  }

  lemma FlNear(x: real)
    requires x == 0.0 || x >= 0.00390625
    ensures Near(Fl(x), x, 1.0)
  {
    FlOfAmount(x);
    IntIsDouble(0);
    hide Fl, Double;
    FlAtLeast(x, 0.0);
  }

  lemma SecondRounding(exact: real, a: real, b: real)
    requires exact >= 0.0 && Near(a, exact, 1.0) && Near(b, a, 1.0)
    ensures Near(b, exact, 2.5)
  {
  }

  lemma ThirdRounding(exact: real, b: real, d: real)
    requires exact >= 0.0 && Near(b, exact, 2.5) && Near(d, b, 1.0)
    ensures Near(d, exact, 4.0)
  {
  }

  lemma ScaledNear(p: real, x: real, k: real, units: real, scaled: real, exact: real)
    requires k >= 0.0 && x >= 0.0 && Near(p, x, units) && scaled == p * k && exact == x * k
    ensures Near(scaled, exact, units)
  {
    var e, s := p - x, SIGNIFICANDS as real;
    assert p * k - x * k == e * k;
    assert Abs(e * k) == Abs(e) * k;
    assert (Abs(e) * s) * k <= (units * x) * k;
    assert (Abs(e) * s) * k == (Abs(e) * k) * s;
    assert (units * x) * k == units * (x * k);
    hide Abs;
  }

  /** An error of less than half a cent is rounded away. */
  lemma NearRoundsTo(y: real, n: nat, units: real)
    requires Near(y, n as real, units) && units * n as real * 2.0 < SIGNIFICANDS as real
    ensures (y + 0.5).Floor == n
  {
    assert Abs(y - n as real) < 0.5;
  }

  predicate ZeroOrAtLeast(x: real, least: real) {
    x == 0.0 || x >= least
  }

  lemma NotTiny(x: real, k: real, p: real)
    requires ZeroOrAtLeast(x, 0.01) && ZeroOrAtLeast(k, 1.0) && Near(p, x, 1.0)
    ensures ZeroOrAtLeast(p * k, 0.00390625)
  {
    if k != 0.0 && x != 0.0 {
      assert p >= 0.00390625;
      assert p * k >= p;
    }
  }

  /** Rounding a price and rounding its product. */
  lemma ProductNear(x: real, k: real, product: real, exact: real)
    requires ZeroOrAtLeast(x, 0.01) && ZeroOrAtLeast(k, 1.0)
    requires product == Fl(x) * k && exact == x * k
    ensures Near(Fl(product), exact, 2.5)
  {
    hide Fl, Near;
    FlNear(x);
    ScaledNear(Fl(x), x, k, 1.0, product, exact);
    NotTiny(x, k, Fl(x));
    FlNear(product);
    SecondRounding(exact, product, Fl(product));
  }

  lemma Hundredths(c: nat, q: nat)
    ensures (c as real / 100.0) * q as real == (c * q) as real / 100.0
  {
    assert (c * q) as real == c as real * q as real;
  }

  lemma LineValueNear(c: nat, q: nat)
    ensures IsAmount(CentsText(c)) && Near(LineValue(CentsText(c), q), (c * q) as real / 100.0, 2.5)
  {
    PrintParse(c);
    Hundredths(c, q);
    hide Fl, CentsText, CentsOf, IsAmount, Near;
    ProductNear(c as real / 100.0, q as real, ParseFloat(CentsText(c)) * q as real, (c * q) as real / 100.0);
  }

  lemma BoundedProduct(c: nat, q: nat)
    requires c < PRICE_LIMIT && q <= MAX_ORDER_QUANTITY
    ensures c * q < 1_000_000_000_000_000
  {
    assert c * (1000 - q) >= 0;
  }

  lemma NearWhole(y: real, t: nat)
    requires Near(y, t as real, 2.5)
    ensures ZeroOrAtLeast(y, 0.00390625)
  {
  }

  lemma CentsNear(b: real, t: nat)
    requires Near(b, t as real / 100.0, 2.5) && 8 * t < SIGNIFICANDS
    ensures MathRound(Fl(b * 100.0)) == t
  {
    hide Fl, Near;
    ScaledNear(b, t as real / 100.0, 100.0, 2.5, b * 100.0, t as real);
    NearWhole(b * 100.0, t);
    FlNear(b * 100.0);
    ThirdRounding(t as real, b * 100.0, Fl(b * 100.0));
    NearRoundsTo(Fl(b * 100.0), t, 4.0);
  }

  predicate StorableLine(line: Line) {
    line.price < PRICE_LIMIT && 1 <= line.item.quantity <= MAX_ORDER_QUANTITY
  }

  lemma LineTotalRange(line: Line)
    requires StorableLine(line)
    ensures 0 <= LineTotal(line) < 1_000_000_000_000_000
  {
    BoundedProduct(line.price, line.item.quantity);
    assert line.price * line.item.quantity >= 0;
  }

  /** The rounded line total is exactly price times quantity. */
  lemma LineCentsExact(line: Line)
    requires StorableLine(line)
    ensures IsAmount(CentsText(line.price)) && LineCents(CentsText(line.price), line.item.quantity) == LineTotal(line)
  {
    hide IsAmount, CentsText, LineValue, MathRound, Near;
    LineValueNear(line.price, line.item.quantity);
    LineTotalRange(line);
    CentsNear(LineValue(CentsText(line.price), line.item.quantity), LineTotal(line));
  }

  // ---- The order total (orders/utils/index.ts)

  /** Prices fit their numeric(12,2) column, quantities have passed `validateOrderItems`. */
  predicate Storable(lines: seq<Line>) {
    forall i :: 0 <= i < |lines| ==> StorableLine(lines[i])
  }

  /** The computed total is the exact one up to 2^53, and beyond that it does not fall below 2^53. */
  lemma {:induction false} TotalSumExact(lines: seq<Line>)
    requires Storable(lines)
    ensures TotalCents(lines) >= 0
    ensures if TotalCents(lines) <= SIGNIFICANDS then TotalSum(lines) == TotalCents(lines) as real
            else TotalSum(lines) >= SIGNIFICANDS as real
  {
    hide Fl, LineCents, CentsText, IsAmount, Double, LineTotal, StorableLine;
    if lines != [] {
      var front, last := lines[..|lines| - 1], lines[|lines| - 1];
      TotalSumExact(front);
      LineCentsExact(last);
      LineTotalRange(last);
      var x := TotalSum(front) + LineTotal(last) as real;
      if TotalCents(lines) <= SIGNIFICANDS {
        IntIsDouble(TotalCents(lines));
        FlExact(x);
      } else {
        IntIsDouble(SIGNIFICANDS);
        FlAtLeast(x, SIGNIFICANDS as real);
      }
    }
  }

  /** So is the amount that is sent. */
  lemma SentCentsExact(lines: seq<Line>)
    requires Storable(lines)
    ensures TotalCents(lines) >= 0
    ensures if TotalCents(lines) <= SIGNIFICANDS then SentCents(lines) == TotalCents(lines)
            else SentCents(lines) >= SIGNIFICANDS
  {
    hide TotalSum;
    TotalSumExact(lines);
  }

  // ---- The stored payment (payments.service.ts)

  lemma NonNegativeRounds(x: real)
    requires x >= 0.0
    ensures Fl(x) >= 0.0
  {
    IntIsDouble(0);
    hide Fl, Double;
    FlAtLeast(x, 0.0);
  }

  lemma StoredAmountExact(cents: nat)
    requires 2 * cents < SIGNIFICANDS
    ensures StoredAmount(cents) == CentsText(cents)
  {
    hide Fl, CentsText;
    var x := cents as real / 100.0;
    FlNear(x);
    ScaledNear(Fl(x), x, 100.0, 1.0, Fl(x) * 100.0, cents as real);
    NearRoundsTo(Fl(x) * 100.0, cents, 1.0);
  }

  /** The column refuses the stored text exactly when the requested amount is too large for it. */
  lemma RefusedIff(cents: nat)
    ensures FitsColumn(StoredAmount(cents)) <==> cents < AMOUNT_LIMIT
  {
    hide Fl, CentsText, CentsOf, IsAmount, Double;
    var x := cents as real / 100.0;
    NonNegativeRounds(x);
    PrintParse((Fl(x) * 100.0 + 0.5).Floor);
    if cents < AMOUNT_LIMIT {
      StoredAmountExact(cents);
      PrintParse(cents);
    } else {
      IntIsDouble(10_000_000_000);
      FlAtLeast(x, 10_000_000_000.0);
    }
  }

  // ---- The cart (cart/utils/index.ts)

  function ItemTotal(line: Line): string {
    PrintParse(line.price);
    ToFixed2(LineValue(CentsText(line.price), line.item.quantity))
  }

  /** The quantities that a cart accepts. */
  predicate Countable(lines: seq<Line>) {
    forall i :: 0 <= i < |lines| ==> lines[i].item.quantity >= 1
  }

  lemma LineValueNonNegative(c: nat, q: nat)
    ensures IsAmount(CentsText(c)) && LineValue(CentsText(c), q) >= 0.0
  {
    LineValueNear(c, q);
  }

  lemma ItemTotalIsText(line: Line)
    requires line.item.quantity >= 1
    ensures IsAmount(ItemTotal(line))
  {
    LineValueNonNegative(line.price, line.item.quantity);
    hide LineValue, CentsText, IsAmount, CentsOf;
    PrintParse((LineValue(CentsText(line.price), line.item.quantity) * 100.0 + 0.5).Floor);
  }

  lemma ItemTotalExact(line: Line)
    requires StorableLine(line)
    ensures LineTotal(line) >= 0 && ItemTotal(line) == CentsText(LineTotal(line))
  {
    LineTotalRange(line);
    hide CentsText, LineValue, IsAmount;
    LineValueNear(line.price, line.item.quantity);
    ItemText(LineValue(CentsText(line.price), line.item.quantity), LineTotal(line));
  }

  lemma ItemText(b: real, t: nat)
    requires Near(b, t as real / 100.0, 2.5) && 8 * t < SIGNIFICANDS
    ensures ToFixed2(b) == CentsText(t)
  {
    hide CentsText;
    ScaledNear(b, t as real / 100.0, 100.0, 2.5, b * 100.0, t as real);
    NearRoundsTo(b * 100.0, t, 2.5);
  }

  lemma ItemTotalIsAmount(line: Line)
    requires StorableLine(line)
    ensures IsAmount(ItemTotal(line)) && CentsOf(ItemTotal(line)) == LineTotal(line)
  {
    hide CentsText, IsAmount, CentsOf, ItemTotal, LineTotal;
    ItemTotalExact(line);
    PrintParse(LineTotal(line));
  }

  /** `sum + parseFloat(item.itemTotal)`, over all items. */
  function CartSum(lines: seq<Line>): real
    requires Countable(lines)
  {
    if lines == [] then 0.0
    else
      ItemTotalIsText(lines[|lines| - 1]);
      Fl(CartSum(lines[..|lines| - 1]) + ParseFloat(ItemTotal(lines[|lines| - 1])))
  }

  lemma ScaleUp(a: real, b: real, x: real)
    requires a <= b && x >= 0.0
    ensures a * x <= b * x
  {
  }

  lemma DriftBound(u: real, v: real, k: real, front: real, last: real)
    requires front >= 0.0 && last >= 0.0 && k > 0.0
    requires v >= u + 1.0 + u / k && v >= 2.0 + 1.0 / k
    ensures u * front + front + last + last + u * front / k + last / k <= v * (front + last)
  {
    ScaleUp(u + 1.0 + u / k, v, front);
    ScaleUp(2.0 + 1.0 / k, v, last);
    assert (u + 1.0 + u / k) * front == u * front + front + u * front / k by {
      assert u / k * front == u * front / k;
    }
    assert v * (front + last) == v * front + v * last;
  }

  /** One more rounded addend and one more rounded addition. */
  lemma AddedNear(s: real, p: real, front: real, last: real, u: real, v: real, f: real)
    requires front >= 0.0 && last >= 0.0
    requires v >= u + 1.0 + u / SIGNIFICANDS as real && v >= 2.0 + 1.0 / SIGNIFICANDS as real
    requires Near(s, front, u) && Near(p, last, 1.0) && Near(f, s + p, 1.0)
    ensures Near(f, front + last, v)
  {
    AddedErrors(s, p, front, last, f, u * front);
    DriftBound(u, v, SIGNIFICANDS as real, front, last);
    hide Abs;
  }

  lemma AddedErrors(s: real, p: real, front: real, last: real, f: real, drift: real)
    requires s >= 0.0 && Abs(s - front) * SIGNIFICANDS as real <= drift && Near(p, last, 1.0) && Near(f, s + p, 1.0)
    ensures f >= 0.0
    ensures Abs(f - (front + last)) * SIGNIFICANDS as real
         <= drift + front + last + last + drift / SIGNIFICANDS as real + last / SIGNIFICANDS as real
  {
  }

  /** How far the running sum may be off after n items, in units of 2^-53: n + 1, and a little more for
      the rounding of rounded sums. */
  function Units(n: nat): real {
    Weight(n) as real / SIGNIFICANDS as real
  }

  function Weight(n: nat): nat {
    (n + 1) * (SIGNIFICANDS + n)
  }

  lemma WeightGrows(n: nat)
    requires n <= SIGNIFICANDS
    ensures Weight(n + 1) == Weight(n) + SIGNIFICANDS + 2 * (n + 1)
    ensures Weight(n) <= 2 * (n + 1) * SIGNIFICANDS
    ensures Weight(n + 1) >= 2 * SIGNIFICANDS + 2
  {
    ProductOrder(n + 1, n + 1, SIGNIFICANDS + n, 2 * SIGNIFICANDS);
    assert (n + 2) * (n + 1) == (n + 1) * n + 2 * (n + 1);
  }

  lemma UnitsGrow(n: nat)
    requires n <= SIGNIFICANDS
    ensures Units(n) >= 0.0
    ensures Units(n + 1) >= Units(n) + 1.0 + Units(n) / SIGNIFICANDS as real
    ensures Units(n + 1) >= 2.0 + 1.0 / SIGNIFICANDS as real
  {
    WeightGrows(n);
    hide Weight;
    var w, v := Weight(n) as real, Weight(n + 1) as real;
    assert v == w + SIGNIFICANDS as real + 2.0 * (n + 1) as real;
    assert w <= 2.0 * (n + 1) as real * SIGNIFICANDS as real;
  }

  /** The condition under which rounding errors in the cart stay below half a cent. */
  predicate WithinCart(lines: seq<Line>) {
    Within(|lines|, TotalCents(lines))
  }

  predicate Within(items: nat, total: int) {
    2 * (Weight(items) * total) < SIGNIFICANDS * SIGNIFICANDS
  }

  lemma ProductOrder(a: nat, b: nat, c: nat, d: nat)
    requires a <= b && c <= d
    ensures a * c <= b * d
  {
    assert (b - a) * c >= 0;
    assert b * (d - c) >= 0;
  }

  /** For carts of up to 94 million rows it is enough that 2 (n + 2) times the total stays below 2^53. */
  lemma WithinSmall(items: nat, total: nat)
    requires items * (items + 1) <= SIGNIFICANDS && 2 * ((items + 2) * total) < SIGNIFICANDS
    ensures Within(items, total)
  {
    assert Weight(items) <= (items + 2) * SIGNIFICANDS;
    ProductOrder(Weight(items), (items + 2) * SIGNIFICANDS, total, total);
    assert (items + 2) * SIGNIFICANDS * total == (items + 2) * total * SIGNIFICANDS;
  }

  lemma WithinFront(n: nat, front: nat, last: nat)
    requires Within(n + 1, front + last)
    ensures Within(n, front)
    ensures front + last > 0 ==> n <= SIGNIFICANDS && 2.0 * Units(n) <= SIGNIFICANDS as real
  {
    ProductOrder(n + 1, n + 2, SIGNIFICANDS + n, SIGNIFICANDS + n + 1);
    assert Weight(n) <= Weight(n + 1);
    ProductOrder(Weight(n), Weight(n + 1), front, front + last);
    if front + last > 0 {
      ProductOrder(Weight(n), Weight(n + 1), 1, front + last);
      ProductOrder(n + 1, n + 1, SIGNIFICANDS, SIGNIFICANDS + n);
      hide Weight;
      assert 2.0 * Weight(n) as real <= SIGNIFICANDS as real * SIGNIFICANDS as real;
    }
  }

  lemma {:induction false} CartSumNear(lines: seq<Line>)
    requires Storable(lines) && WithinCart(lines)
    ensures TotalCents(lines) >= 0
    ensures Near(CartSum(lines), TotalCents(lines) as real / 100.0, Units(|lines|))
  {
    hide Fl, CentsText, CentsOf, IsAmount, ItemTotal, LineTotal, Near, Within, Units;
    if lines != [] {
      var front, last, n := lines[..|lines| - 1], lines[|lines| - 1], |lines| - 1;
      TotalSumExact(front);
      LineTotalRange(last);
      WithinFront(n, TotalCents(front), LineTotal(last));
      CartSumNear(front);
      ItemTotalIsAmount(last);
      CartStep(CartSum(front), TotalCents(front), LineTotal(last), n);
    } else {
      ZeroNear();
    }
  }

  lemma ZeroNear()
    ensures Near(0.0, 0.0, Units(0))
  {
  }

  lemma CartStep(s: real, front: nat, t: nat, n: nat)
    requires Near(s, front as real / 100.0, Units(n))
    requires front + t > 0 ==> n <= SIGNIFICANDS && 2.0 * Units(n) <= SIGNIFICANDS as real
    ensures Near(Fl(s + Fl(t as real / 100.0)), (front + t) as real / 100.0, Units(n + 1))
  {
    hide Fl, Units;
    var x := t as real / 100.0;
    FlNear(x);
    if front + t == 0 {
      assert s == 0.0 && Fl(x) == 0.0;
      FlNear(0.0);
    } else {
      UnitsGrow(n);
      SumNotTiny(s, front, t, Fl(x), Units(n));
      hide Near;
      FlNear(s + Fl(x));
      AddedNear(s, Fl(x), front as real / 100.0, x, Units(n), Units(n + 1), Fl(s + Fl(x)));
    }
  }

  lemma SumNotTiny(s: real, front: nat, t: nat, p: real, u: real)
    requires Near(s, front as real / 100.0, u) && 0.0 <= u <= SIGNIFICANDS as real / 2.0
    requires Near(p, t as real / 100.0, 1.0)
    requires front + t > 0
    ensures s + p >= 0.00390625
  {
    var x, y := front as real / 100.0, t as real / 100.0;
    AtLeastHalf(s, x, u);
    AtLeastHalf(p, y, 1.0);
    hide Near;
    assert x + y >= 0.01;
  }

  lemma AtLeastHalf(y: real, x: real, u: real)
    requires x >= 0.0 && Near(y, x, u) && 0.0 <= u <= SIGNIFICANDS as real / 2.0
    ensures y >= x / 2.0
  {
    Halved(Abs(y - x), x, u, SIGNIFICANDS as real);
  }

  lemma Halved(d: real, x: real, u: real, k: real)
    requires d * k <= u * x && u <= k / 2.0 && x >= 0.0 && k > 0.0
    ensures d <= x / 2.0
  {
    ScaleUp(u, k / 2.0, x);
    assert k / 2.0 * x == x / 2.0 * k;
  }

  /** `toCartResponse`: the grand total of the cart. */
  function CartTotal(lines: seq<Line>): string
    requires Countable(lines)
  {
    ToFixed2(CartSum(lines))
  }

  lemma CartTotalExact(lines: seq<Line>)
    requires Storable(lines) && WithinCart(lines)
    ensures TotalCents(lines) >= 0 && CartTotal(lines) == CentsText(TotalCents(lines))
  {
    hide CentsText, CartSum, Near, Within, TotalCents;
    CartSumNear(lines);
    TotalText(CartSum(lines), TotalCents(lines), |lines|);
  }

  lemma TotalText(s: real, t: nat, n: nat)
    requires Near(s, t as real / 100.0, Units(n)) && Within(n, t)
    ensures ToFixed2(s) == CentsText(t)
  {
    hide CentsText;
    ScaledNear(s, t as real / 100.0, 100.0, Units(n), s * 100.0, t as real);
    UnitsWithin(n, t);
    hide Near, Units;
    NearRoundsTo(s * 100.0, t, Units(n));
  }

  lemma UnitsWithin(n: nat, t: nat)
    requires Within(n, t)
    ensures Units(n) * t as real * 2.0 < SIGNIFICANDS as real
  {
    var w, k := Weight(n), SIGNIFICANDS as real;
    hide Weight;
    assert (w * t) as real == w as real * t as real;
    assert w as real / k * t as real == w as real * t as real / k;
  }

  /** The total that the cart shows, the amount sent to authorization and the text stored with the
      payment denote the same amount, and it is the exact one. */
  lemma AmountsAgree(lines: seq<Line>)
    requires Storable(lines) && WithinCart(lines)
    ensures TotalSum(lines) == TotalCents(lines) as real && SentCents(lines) == TotalCents(lines)
    ensures TotalCents(lines) >= 0
    ensures CartTotal(lines) == StoredAmount(SentCents(lines)) == CentsText(TotalCents(lines))
    ensures IsAmount(CartTotal(lines)) && CentsOf(CartTotal(lines)) == TotalCents(lines)
  {
    hide CartTotal, StoredAmount, CentsText, CentsOf, IsAmount, TotalSum, Within;
    TotalSumExact(lines);
    CartTotalExact(lines);
    SmallTotal(|lines|, TotalCents(lines));
    if lines == [] {
      assert TotalCents(lines) == 0;
    }
    StoredAmountExact(TotalCents(lines));
    PrintParse(TotalCents(lines));
  }

  lemma SmallTotal(n: nat, t: nat)
    requires Within(n, t)
    ensures 2 * t < SIGNIFICANDS
  {
    ProductOrder(1, n + 1, SIGNIFICANDS, SIGNIFICANDS + n);
    ProductOrder(SIGNIFICANDS, Weight(n), t, t);
  }
}
