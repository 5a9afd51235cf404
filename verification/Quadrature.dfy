/** One-dimensional quadrature rules on [0, 1], orders 1 to 5. */
module Quadrature {

  /** A C variable that may not have been assigned yet. */
  datatype Cell = Unset | Value(v: real)

  datatype Rule = Rule(points: seq<real>, weights: seq<real>)

  function Lobatto(order: int): Rule {
    if order == 1 then Rule([0.5], [1.0])
    else if order == 2 then Rule([0.0, 1.0], [0.5, 0.5])
    else if order == 3 then Rule([0.0, 0.5, 1.0], [0.166666666666666667, 0.666666666666666667, 0.166666666666666667])
    else if order == 4 then
      Rule([0.0, 0.276393202250021030, 0.723606797749978970, 1.0],
           [0.0833333333333333333, 0.416666666666666667, 0.416666666666666667, 0.0833333333333333333])
    else if order == 5 then
      Rule([0.0, 0.172673164646011428, 0.5, 0.827326835353988572, 1.0],
           [0.05, 0.272222222222222222, 0.355555555555555556, 0.272222222222222222, 0.05])
    else Rule([], [])
  }

  function Legendre(order: int): Rule {
    if order == 1 then Rule([0.5], [1.0])
    else if order == 2 then Rule([0.211324865405187118, 0.788675134594812882], [0.5, 0.5])
    else if order == 3 then
      Rule([0.112701665379258311, 0.5, 0.887298334620741689],
           [0.277777777777777778, 0.444444444444444444, 0.277777777777777778])
    else if order == 4 then
      Rule([0.0694318442029737124, 0.330009478207571868, 0.669990521792428132, 0.930568155797026288],
           [0.173927422568726929, 0.326072577431273071, 0.326072577431273071, 0.173927422568726929])
    else if order == 5 then
      Rule([0.0469100770306680036, 0.230765344947158454, 0.5, 0.769234655052841546, 0.953089922969331996],
           [0.118463442528094544, 0.239314335249683234, 0.284444444444444444, 0.239314335249683234,
            0.118463442528094544])
    else Rule([], [])
  }

  /** Type 0 is Gauss-Lobatto and type 1 Gauss-Legendre; any other sets nothing. */
  function RuleOf(kind: int, order: int): Rule {
    if kind == 0 then Lobatto(order) else if kind == 1 then Legendre(order) else Rule([], [])
  }

  predicate Supported(kind: int, order: int) {
    (kind == 0 || kind == 1) && 1 <= order <= 5
  }

  /** A supported rule has `order` points in [0, 1] with positive, symmetric weights. */
  lemma RuleProperties(kind: int, order: int, i: nat)
    requires Supported(kind, order) && i < order
    ensures var r := RuleOf(kind, order);
            && |r.points| == |r.weights| == order && 0.0 <= r.points[i] <= 1.0 && r.weights[i] > 0.0
            && r.weights[i] == r.weights[order - 1 - i]
  {
  }

  function Power(x: real, k: nat): real {
    if k == 0 then 1.0 else x * Power(x, k - 1)
  }

  /** What the first n points of a rule make of x^k. */
  function Moment(r: Rule, n: nat, k: nat): real
    requires n <= |r.points| == |r.weights|
  {
    if n == 0 then 0.0 else Moment(r, n - 1, k) + r.weights[n - 1] * Power(r.points[n - 1], k)
  }

  predicate Near(a: real, b: real) {
    -1.0e-15 < a - b < 1.0e-15
  }

  // The moments of each rule, power by power.

  lemma LegendreMoments1(k: nat)
    requires k <= 1
    ensures Near(Moment(Legendre(1), 1, k), 1.0 / (k + 1) as real)
  {
    match k
    case 0 =>
    case _ =>
  }

  lemma LegendreMoments2(k: nat)
    requires k <= 3
    ensures Near(Moment(Legendre(2), 2, k), 1.0 / (k + 1) as real)
  {
    match k
    case 0 =>
    case 1 =>
    case 2 =>
    case _ =>
  }

  lemma LegendreMoments3(k: nat)
    requires k <= 5
    ensures Near(Moment(Legendre(3), 3, k), 1.0 / (k + 1) as real)
  {
    match k
    case 0 =>
    case 1 =>
    case 2 =>
    case 3 =>
    case 4 =>
    case _ =>
  }

  lemma LegendreLow4(k: nat)
    requires k <= 3
    ensures Near(Moment(Legendre(4), 4, k), 1.0 / (k + 1) as real)
  {
    match k
    case 0 =>
    case 1 =>
    case 2 =>
    case _ =>
  }

  lemma LegendreHigh4(k: nat)
    requires 4 <= k <= 5
    ensures Near(Moment(Legendre(4), 4, k), 1.0 / (k + 1) as real)
  {
    match k
    case 4 =>
    case _ =>
  }

  lemma LegendreTop4(k: nat)
    requires 6 <= k <= 7
    ensures Near(Moment(Legendre(4), 4, k), 1.0 / (k + 1) as real)
  {
    match k
    case 6 =>
    case _ =>
  }

  lemma LegendreLow5(k: nat)
    requires k <= 4
    ensures Near(Moment(Legendre(5), 5, k), 1.0 / (k + 1) as real)
  {
    match k
    case 0 =>
    case 1 =>
    case 2 =>
    case 3 =>
    case _ =>
  }

  lemma LegendreHigh5(k: nat)
    requires 5 <= k <= 6
    ensures Near(Moment(Legendre(5), 5, k), 1.0 / (k + 1) as real)
  {
    match k
    case 5 =>
    case _ =>
  }

  lemma LegendreTop5(k: nat)
    requires 7 <= k <= 8
    ensures Near(Moment(Legendre(5), 5, k), 1.0 / (k + 1) as real)
  {
    match k
    case 7 =>
    case _ =>
  }

  lemma LegendreLast5(k: nat)
    requires k == 9
    ensures Near(Moment(Legendre(5), 5, k), 1.0 / (k + 1) as real)
  {
  }

  lemma LobattoMoments1(k: nat)
    requires k <= 1
    ensures Near(Moment(Lobatto(1), 1, k), 1.0 / (k + 1) as real)
  {
    match k
    case 0 =>
    case _ =>
  }

  lemma LobattoMoments2(k: nat)
    requires k <= 1
    ensures Near(Moment(Lobatto(2), 2, k), 1.0 / (k + 1) as real)
  {
    match k
    case 0 =>
    case _ =>
  }

  lemma LobattoMoments3(k: nat)
    requires k <= 3
    ensures Near(Moment(Lobatto(3), 3, k), 1.0 / (k + 1) as real)
  {
    match k
    case 0 =>
    case 1 =>
    case 2 =>
    case _ =>
  }

  lemma LobattoMoments4(k: nat)
    requires k <= 5
    ensures Near(Moment(Lobatto(4), 4, k), 1.0 / (k + 1) as real)
  {
    match k
    case 0 =>
    case 1 =>
    case 2 =>
    case 3 =>
    case 4 =>
    case _ =>
  }

  lemma LobattoLow5(k: nat)
    requires k <= 3
    ensures Near(Moment(Lobatto(5), 5, k), 1.0 / (k + 1) as real)
  {
    match k
    case 0 =>
    case 1 =>
    case 2 =>
    case _ =>
  }

  lemma LobattoHigh5(k: nat)
    requires 4 <= k <= 7
    ensures Near(Moment(Lobatto(5), 5, k), 1.0 / (k + 1) as real)
  {
    match k
    case 4 =>
    case 5 =>
    case 6 =>
    case _ =>
  }

  /** The degree a rule integrates exactly: 2n - 1 points from inside, 2n - 3 with both ends taken. */
  function Degree(kind: int, order: int): int {
    if kind == 1 || order == 1 then 2 * order - 1 else 2 * order - 3
  }

  /** Up to that degree the monomials come out right within the digits printed. */
  lemma Exact(kind: int, order: int, k: nat)
    requires Supported(kind, order) && k <= Degree(kind, order)
    ensures |RuleOf(kind, order).points| == |RuleOf(kind, order).weights| == order
    ensures Near(Moment(RuleOf(kind, order), order, k), 1.0 / (k + 1) as real)
  {
    RuleProperties(kind, order, 0);
    if kind == 1 { LegendreExact(order, k); } else { LobattoExact(order, k); }
  }

  lemma LegendreExact(order: int, k: nat)
    requires 1 <= order <= 5 && k <= 2 * order - 1
    ensures |Legendre(order).points| == |Legendre(order).weights| == order
    ensures Near(Moment(Legendre(order), order, k), 1.0 / (k + 1) as real)
  {
    match order
    case 1 => LegendreMoments1(k);
    case 2 => LegendreMoments2(k);
    case 3 => LegendreMoments3(k);
    case 4 => if k < 4 { LegendreLow4(k); } else if k < 6 { LegendreHigh4(k); } else { LegendreTop4(k); }
    case _ =>
      if k < 5 { LegendreLow5(k); } else if k < 7 { LegendreHigh5(k); } else if k < 9 { LegendreTop5(k); }
      else { LegendreLast5(k); }
  }

  lemma LobattoExact(order: int, k: nat)
    requires 1 <= order <= 5 && k <= Degree(0, order)
    ensures |Lobatto(order).points| == |Lobatto(order).weights| == order
    ensures Near(Moment(Lobatto(order), order, k), 1.0 / (k + 1) as real)
  {
    match order
    case 1 => LobattoMoments1(k);
    case 2 => LobattoMoments2(k);
    case 3 => LobattoMoments3(k);
    case 4 => LobattoMoments4(k);
    case _ => if k < 4 { LobattoLow5(k); } else { LobattoHigh5(k); }
  }

  /** get_quadrature_rule: fills the front of two arrays of five and leaves the rest unset. */
  method GetQuadratureRule(kind: int, order: int, points: array<Cell>, weights: array<Cell>)
    requires points != weights && points.Length == weights.Length == 5
    modifies points, weights
    ensures Supported(kind, order) ==> forall i | 0 <= i < order ::
              && points[i] == Value(RuleOf(kind, order).points[i])
              && weights[i] == Value(RuleOf(kind, order).weights[i])
    ensures !Supported(kind, order) ==> points[..] == old(points[..]) && weights[..] == old(weights[..])
  {
    var rule := RuleOf(kind, order);
    if Supported(kind, order) { RuleProperties(kind, order, 0); }
    for i := 0 to |rule.points|
      invariant |rule.points| == |rule.weights| <= 5
      invariant forall j | 0 <= j < i :: points[j] == Value(rule.points[j]) && weights[j] == Value(rule.weights[j])
      invariant !Supported(kind, order) ==> points[..] == old(points[..]) && weights[..] == old(weights[..])
    {
      points[i] := Value(rule.points[i]);
      weights[i] := Value(rule.weights[i]);
    }
  }
}
