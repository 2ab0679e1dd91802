/** What the account view of risk says of the portfolio it is taken from. */
module RiskPortfolio {
  import opened Outcomes
  import opened Sums
  import opened Domain
  import opened RiskAccount
  import opened Fixed

  // ---- Values of positions ----------------------------------------------------------------------

  /** A position risk can value: a non-negative spot quantity in dollars at an exact, representable value. */
  predicate Valuable(p: Position, networks: map<InstrumentId, Id>) {
    && p.instrument.spot && p.instrument.quote == USD && p.instrument in networks
    && p.quantity >= 0 && p.mark.Some?
    && p.quantity * p.mark.value % SCALE == 0
    && -MAX_UNITS <= p.quantity * p.mark.value / SCALE <= MAX_UNITS
  }

  function Worth(p: Position): int {
    if p.mark.Some? then p.quantity * p.mark.value / SCALE else 0
  }

  function Worths(ps: seq<Position>): seq<int> {
    seq(|ps|, i requires 0 <= i < |ps| => Worth(ps[i]))
  }

  function AssetWorths(ps: seq<Position>, asset: Id): seq<int> {
    seq(|ps|, i requires 0 <= i < |ps| => if ps[i].instrument.base == asset then Worth(ps[i]) else 0)
  }

  function NetworkWorths(ps: seq<Position>, networks: map<InstrumentId, Id>, network: Id): seq<int> {
    seq(|ps|, i requires 0 <= i < |ps| =>
      if ps[i].instrument in networks && networks[ps[i].instrument] == network then Worth(ps[i]) else 0)
  }

  lemma ValuableIs(p: Position, networks: map<InstrumentId, Id>)
    ensures PositionValue(p, networks).Some? <==> Valuable(p, networks)
    ensures Valuable(p, networks) ==> PositionValue(p, networks).value == Worth(p)
  {
  }

  ghost predicate AllValuable(ps: seq<Position>, networks: map<InstrumentId, Id>) {
    forall i :: 0 <= i < |ps| ==> Valuable(ps[i], networks)
  }

  /** The totals of the position loop, for any asset and network. */
  ghost predicate TotalsOf(h: Holdings, ps: seq<Position>, networks: map<InstrumentId, Id>, asset: Id, network: Id) {
    && h.exposure == Sum(Worths(ps))
    && Get(h.assets, asset) == Sum(AssetWorths(ps, asset))
    && Get(h.networks, network) == Sum(NetworkWorths(ps, networks, network))
  }

  lemma AddedTotals(h: Holdings, ps: seq<Position>, p: Position, networks: map<InstrumentId, Id>, asset: Id, network: Id)
    requires TotalsOf(h, ps, networks, asset, network) && p.instrument in networks
    ensures TotalsOf(AddPosition(h, p, networks[p.instrument], Worth(p)), ps + [p], networks, asset, network)
  {
    hide Sum, Bump, Worth;
    SumAppend(Worths(ps), Worth(p));
    assert Worths(ps + [p]) == Worths(ps) + [Worth(p)];
    var x := if p.instrument.base == asset then Worth(p) else 0;
    SumAppend(AssetWorths(ps, asset), x);
    assert AssetWorths(ps + [p], asset) == AssetWorths(ps, asset) + [x];
    var y := if networks[p.instrument] == network then Worth(p) else 0;
    SumAppend(NetworkWorths(ps, networks, network), y);
    assert NetworkWorths(ps + [p], networks, network) == NetworkWorths(ps, networks, network) + [y];
    BumpGet(h.assets, p.instrument.base, Worth(p), asset);
    BumpGet(h.networks, networks[p.instrument], Worth(p), network);
  }

  /** The position loop succeeds exactly when every position can be valued, and then totals them. */
  lemma {:induction false} ValuedIs(ps: seq<Position>, networks: map<InstrumentId, Id>, asset: Id, network: Id)
    ensures Valued(ps, networks).Some? <==> AllValuable(ps, networks)
    ensures Valued(ps, networks).Some? ==> TotalsOf(Valued(ps, networks).value, ps, networks, asset, network)
  {
    hide Valuable, PositionValue, AddPosition, TotalsOf, Sum;
    if ps == [] {
      assert TotalsOf(Holdings(0, map[], map[], map[]), [], networks, asset, network) by {
        EmptyTotals(networks, asset, network);
      }
    } else {
      var n := |ps| - 1;
      ValuedIs(ps[..n], networks, asset, network);
      ValuableIs(ps[n], networks);
      assert ps == ps[..n] + [ps[n]];
      if AllValuable(ps, networks) {
        ValuableListed(ps[n], networks);
        AddedTotals(Valued(ps[..n], networks).value, ps[..n], ps[n], networks, asset, network);
      }
    }
  }

  lemma EmptyTotals(networks: map<InstrumentId, Id>, asset: Id, network: Id)
    ensures TotalsOf(Holdings(0, map[], map[], map[]), [], networks, asset, network)
  {
  }

  lemma ValuableListed(p: Position, networks: map<InstrumentId, Id>)
    ensures Valuable(p, networks) ==> p.instrument in networks
  {
  }

  /** A portfolio risk trusts: priced in dollars, settled, and worth exactly its cash and positions. */
  ghost predicate Trusted(p: Portfolio, networks: map<InstrumentId, Id>) {
    var total := Sum(Worths(p.positions));
    && AllValuable(p.positions, networks)
    && p.baseCurrency == USD && p.cash >= 0 && p.equity > 0 && p.equity == p.cash + total
    && p.grossExposure == total && p.netExposure == total
    && p.openOrders == 0 && p.reservedCash == 0
  }

  /** What the account shows of the portfolio, for any asset and network. */
  ghost predicate Shows(a: Account, p: Portfolio, networks: map<InstrumentId, Id>, asset: Id, network: Id) {
    && a.cash == p.cash && a.equity == p.equity && a.peak == p.peakEquity
    && a.exposure == Sum(Worths(p.positions))
    && Get(a.assets, asset) == Sum(AssetWorths(p.positions, asset))
    && Get(a.networks, network) == Sum(NetworkWorths(p.positions, networks, network))
    && (asset in a.openAssets <==> Sum(AssetWorths(p.positions, asset)) > 0)
    && a.losses >= 0 && a.losses >= -p.realizedToday && (a.losses == 0 || a.losses == -p.realizedToday)
  }

  /**
   * The account view exists exactly for a trusted portfolio, and shows its cash, equity, peak, the totals
   * of its positions, the assets it is open in, and what it lost today.
   */
  lemma BaseIs(p: Portfolio, networks: map<InstrumentId, Id>, asset: Id, network: Id)
    ensures Base(p, networks).Some? <==> Trusted(p, networks)
    ensures Base(p, networks).Some? ==> Shows(Base(p, networks).value, p, networks, asset, network)
  {
    hide Sum, Worths, AssetWorths, NetworkWorths, Valued, AllValuable;
    ValuedIs(p.positions, networks, asset, network);
  }

  // ---- With reservations --------------------------------------------------------------------------

  /** The assets an account is open in after reservations: those before, and those bought. */
  lemma {:induction false} OpenAfter(a: Account, rs: seq<Reservation>, asset: Id)
    ensures asset in ReserveAll(a, rs).openAssets <==>
            asset in a.openAssets || exists i :: 0 <= i < |rs| && rs[i].asset == asset && rs[i].buyNotional != 0
  {
    hide Bump;
    if rs != [] {
      var n := |rs| - 1;
      OpenAfter(a, rs[..n], asset);
      forall i | 0 <= i < n
        ensures rs[..n][i] == rs[i]
      {
      }
      if exists i :: 0 <= i < |rs| && rs[i].asset == asset && rs[i].buyNotional != 0 {
        var i :| 0 <= i < |rs| && rs[i].asset == asset && rs[i].buyNotional != 0;
        assert i < n ==> rs[..n][i] == rs[i];
      }
    }
  }
}
