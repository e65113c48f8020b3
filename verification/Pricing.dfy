/**
Fixed-point pricing over the money kernel (domain/src/money.rs): units to cash and back, NAV from
assets, and the custody edge. Each result is the exact quotient rounded down; the lemmas bound
what the rounding leaves and who keeps it.
 */
module Pricing {
  import opened Base
  import opened Money
  import opened Ledger

  /** Units priced in cash, rounded down. */
  function Value(price: u128, units: u128): Option<u128> {
    MulDivFloor(units, price, SCALE)
  }

  /** The units `cash` buys at `nav`. */
  function UnitsFor(cash: u128, nav: u128): Option<u128> {
    MulDivFloor(cash, SCALE, nav)
  }

  /** NAV from posted assets over units outstanding; undefined without units. */
  function NavFromAum(aum: u128, units: u128): Option<u128> {
    if units == 0 then None else MulDivFloor(aum, SCALE, units)
  }

  /** A result brackets the exact quotient. */
  lemma MulDivBracket(a: u128, b: u128, d: u128)
    requires MulDivFloor(a, b, d).Some?
    ensures var v := MulDivFloor(a, b, d).value;
            v * d <= a * b < v * d + d
  {
    FloorBracket(a * b, d);
  }

  /** A product within a bound on the quotient has a representable floor under that bound. */
  lemma MulDivWithin(a: u128, b: u128, d: u128, bound: u128)
    requires d > 0
    requires a * b < (bound + 1) * d
    ensures MulDivFloor(a, b, d).Some?
    ensures MulDivFloor(a, b, d).value <= bound
  {
    MulNonNegative(a, b);
    FloorBracket(a * b, d);
    if a * b / d > bound {
      MulMonoInt(bound + 1, a * b / d, d);
    }
  }

  lemma ValueMono(price: u128, price': u128, units: u128, units': u128)
    requires price <= price' && units <= units'
    requires Value(price', units').Some?
    ensures Value(price, units).Some?
    ensures Value(price, units).value <= Value(price', units').value
  {
    MulMono(price, price', units);
    MulMono(units, units', price');
    MulDivBracket(units', price', SCALE);
    var v := Value(price', units').value;
    assert (v + 1) * SCALE == v * SCALE + SCALE;
    MulDivWithin(units, price, SCALE, v);
  }

  /**
  Pricing cash into units and any part of those units back never gains cash, and the round trip of
  all of them loses less than one unit's price plus one base unit.
   */
  lemma UnitsAndBackNeverGain(cash: u128, nav: u128, part: u128)
    requires UnitsFor(cash, nav).Some?
    requires part <= UnitsFor(cash, nav).value
    ensures Value(nav, part).Some? && Value(nav, part).value <= cash
    ensures part == UnitsFor(cash, nav).value ==>
              (cash - Value(nav, part).value) * SCALE < nav + SCALE
  {
    var units := UnitsFor(cash, nav).value;
    MulDivBracket(cash, SCALE, nav);
    MulMono(part, units, nav);
    assert (cash + 1) * SCALE == cash * SCALE + SCALE;
    MulDivWithin(part, nav, SCALE, cash);
    MulDivBracket(part, nav, SCALE);
    var back := Value(nav, part).value;
    assert (cash - back) * SCALE == cash * SCALE - back * SCALE;
  }

  function Sum(xs: seq<nat>): nat {
    if xs == [] then 0 else Sum(xs[..|xs| - 1]) + xs[|xs| - 1]
  }

  /** What paying out each holding at one NAV costs in total. */
  function TotalValue(nav: u128, holdings: seq<u128>): Option<nat> {
    if holdings == [] then Some(0)
    else
      var rest :- TotalValue(nav, holdings[..|holdings| - 1]);
      var last :- Value(nav, holdings[|holdings| - 1]);
      Some(rest + last)
  }

  lemma {:induction false} TotalValueBound(nav: u128, holdings: seq<u128>)
    requires TotalValue(nav, holdings).Some?
    ensures TotalValue(nav, holdings).value * SCALE <= Sum(holdings) * nav
  {
    if holdings != [] {
      var init, last := holdings[..|holdings| - 1], holdings[|holdings| - 1];
      TotalValueBound(nav, init);
      MulDivBracket(last, nav, SCALE);
      var rest, v := TotalValue(nav, init).value, Value(nav, last).value;
      assert (rest + v) * SCALE == rest * SCALE + v * SCALE;
      assert (Sum(init) + last) * nav == Sum(init) * nav + last * nav;
    }
  }

  /**
  Redeeming every holder at the NAV derived from the fund's assets never costs more than those
  assets: the floors leave the residue with the fund.
   */
  lemma HoldersNeverOutvalueTheFund(aum: u128, units: u128, holdings: seq<u128>)
    requires NavFromAum(aum, units).Some?
    requires Sum(holdings) <= units
    requires TotalValue(NavFromAum(aum, units).value, holdings).Some?
    ensures TotalValue(NavFromAum(aum, units).value, holdings).value <= aum
  {
    var nav := NavFromAum(aum, units).value;
    TotalValueBound(nav, holdings);
    MulDivBracket(aum, SCALE, units);
    MulMono(Sum(holdings), units, nav);
  }

  // ----- the custody edge -----

  /** `10^(18 - on-chain decimals)`. */
  function ChainFactor(n: Network): nat {
    match n
    case Bep20 => 1
    case Trc20 | Ton | Polygon => 1_000_000_000_000
  }

  function FromOnchain(n: Network, raw: u128): Option<u128> {
    CheckedMul(raw, ChainFactor(n))
  }

  function ToOnchain(n: Network, amount: u128): Option<u128> {
    if amount % ChainFactor(n) != 0 then None else Some(amount / ChainFactor(n))
  }

  /** The two directions of the custody edge are mutually inverse wherever they answer. */
  lemma CustodyEdgeRoundTrip(n: Network, raw: u128, amount: u128)
    ensures FromOnchain(n, raw) == Some(amount) <==> ToOnchain(n, amount) == Some(raw)
  {
    var f := ChainFactor(n);
    assert amount == f * (amount / f) + amount % f;
    if FromOnchain(n, raw) == Some(amount) {
      FloorUnique(amount, f, raw);
    }
  }

  /** A whole token, in a chain's own decimals: eighteen of them on BEP20, six on the others. */
  function WholeToken(n: Network): nat {
    if n == Bep20 then 1_000_000_000_000_000_000 else 1_000_000
  }

  /** So many whole tokens on any chain are so many whole USDT, and the other way round. */
  lemma WholeTokensAreWholeUsdt(n: Network, k: nat)
    requires k * 1_000_000_000_000_000_000 < TWO128
    ensures k * WholeToken(n) < TWO128
    ensures FromOnchain(n, k * WholeToken(n)) == Some(k * 1_000_000_000_000_000_000)
    ensures ToOnchain(n, k * 1_000_000_000_000_000_000) == Some(k * WholeToken(n))
  {
    var f := 1_000_000_000_000_000_000 / WholeToken(n);
    assert WholeToken(n) * f == 1_000_000_000_000_000_000;
    MulAssociates(k, WholeToken(n), f);
    MulMono(WholeToken(n), 1_000_000_000_000_000_000, k);
    assert FromOnchain(n, k * WholeToken(n)) == Some(k * 1_000_000_000_000_000_000);
    CustodyEdgeRoundTrip(n, k * WholeToken(n), k * 1_000_000_000_000_000_000);
  }

  lemma MulAssociates(a: int, b: int, c: int)
    ensures (a * b) * c == a * (b * c)
  {
  }

  /** Dust: nothing is on BEP20, and elsewhere exactly what is no multiple of a millionth of a USDT. */
  lemma DustIff(n: Network, amount: u128)
    ensures ToOnchain(n, amount).None? <==> n != Bep20 && amount % 1_000_000_000_000 != 0
  {
  }

  // ----- the floors -----

  /** `q` is the exact quotient with its fraction dropped. */
  ghost predicate FloorOf(q: nat, product: nat, d: nat) {
    q * d <= product < (q + 1) * d
  }

  lemma MulDivIsFloor(a: u128, b: u128, d: u128)
    requires d > 0
    ensures MulDivFloor(a, b, d).Some? <==> a * b < TWO128 * d
    ensures MulDivFloor(a, b, d).Some? ==> FloorOf(MulDivFloor(a, b, d).value, a * b, d)
  {
    MulNonNegative(a, b);
    FloorBracket(a * b, d);
    if MulDivFloor(a, b, d).Some? {
      MulMonoInt(MulDivFloor(a, b, d).value + 1, TWO128, d);
    } else {
      MulMonoInt(TWO128, a * b / d, d);
    }
  }

  /** Every price is the exact quotient with its fraction dropped, and is refused exactly when that does not fit. */
  lemma PricesAreFloors(cash: u128, nav: u128, units: u128)
    ensures Value(nav, units).Some? <==> units * nav < TWO128 * 1_000_000_000_000_000_000
    ensures Value(nav, units).Some? ==> FloorOf(Value(nav, units).value, units * nav, 1_000_000_000_000_000_000)
    ensures UnitsFor(cash, nav).Some? <==> nav > 0 && cash * 1_000_000_000_000_000_000 < TWO128 * nav
    ensures UnitsFor(cash, nav).Some? ==> FloorOf(UnitsFor(cash, nav).value, cash * 1_000_000_000_000_000_000, nav)
    ensures NavFromAum(cash, units).Some? <==> units > 0 && cash * 1_000_000_000_000_000_000 < TWO128 * units
    ensures NavFromAum(cash, units).Some? ==> FloorOf(NavFromAum(cash, units).value, cash * 1_000_000_000_000_000_000, units)
  {
    MulDivIsFloor(units, nav, SCALE);
    if nav > 0 {
      MulDivIsFloor(cash, SCALE, nav);
    }
    if units > 0 {
      MulDivIsFloor(cash, SCALE, units);
    }
  }
}
