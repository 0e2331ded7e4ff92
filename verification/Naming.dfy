/** The names the portal gives its gateway objects: one consumer per application and
    one route per product. */
module Naming {

  function Digit(d: nat): char
    requires d < 10
  {
    "0123456789"[d]
  }

  /** Decimal rendering, as fmt's %d prints a non-negative id. */
  function Decimal(n: nat): (s: string)
    ensures |s| > 0
  {
    if n < 10 then [Digit(n)] else Decimal(n / 10) + [Digit(n % 10)]
  }

  function ConsumerName(app: nat): string {
    "app_" + Decimal(app)
  }

  function RouteID(product: nat): string {
    "prod_" + Decimal(product)
  }

  lemma {:induction false} DecimalInjective(a: nat, b: nat)
    requires Decimal(a) == Decimal(b)
    ensures a == b
  {
    var s, t := Decimal(a), Decimal(b);
    assert forall d: nat, e: nat | d < 10 && e < 10 && Digit(d) == Digit(e) :: d == e;
    if a >= 10 && b >= 10 {
      assert s[..|s| - 1] == Decimal(a / 10) && t[..|t| - 1] == Decimal(b / 10);
      assert s[|s| - 1] == Digit(a % 10) && t[|t| - 1] == Digit(b % 10);
      DecimalInjective(a / 10, b / 10);
    } else if a < 10 && b < 10 {
      assert s[0] == Digit(a) && t[0] == Digit(b);
    }
  }

  /** Two applications never share a consumer name, and two products never share a
      route: what one product's provisioning writes, another's never touches. */
  lemma NamesAreInjective()
    ensures forall a: nat, b: nat :: ConsumerName(a) == ConsumerName(b) ==> a == b
    ensures forall p: nat, q: nat :: RouteID(p) == RouteID(q) ==> p == q
  {
    forall a: nat, b: nat | ConsumerName(a) == ConsumerName(b) ensures a == b {
      assert ConsumerName(a)[4..] == Decimal(a) && ConsumerName(b)[4..] == Decimal(b);
      DecimalInjective(a, b);
    }
    forall p: nat, q: nat | RouteID(p) == RouteID(q) ensures p == q {
      assert RouteID(p)[5..] == Decimal(p) && RouteID(q)[5..] == Decimal(q);
      DecimalInjective(p, q);
    }
  }
}
