/** The account view risk sizes against: a frozen portfolio less the reservations taken so far. */
module RiskAccount {
  import opened Outcomes
  import opened Sums
  import opened Domain
  import Fixed

  datatype Reservation = Reservation(
    intent: Id,
    instrument: InstrumentId,
    asset: Id,
    network: Id,
    buyNotional: int,
    sellQuantity: int,
    cashDebit: int,
    cost: int)

  predicate ReservationOk(r: Reservation) {
    r.buyNotional >= 0 && r.sellQuantity >= 0 && r.cashDebit >= 0 && r.cost >= 0
  }

  datatype Account = Account(
    cash: int,
    equity: int,
    exposure: int,
    assets: map<Id, int>,
    networks: map<Id, int>,
    quantities: map<InstrumentId, int>,
    openAssets: set<Id>,
    losses: int,
    peak: int)

  datatype Holdings = Holdings(
    exposure: int,
    assets: map<Id, int>,
    networks: map<Id, int>,
    quantities: map<InstrumentId, int>)

  function PositionValue(p: Position, networks: map<InstrumentId, Id>): Option<int> {
    if !p.instrument.spot || p.instrument.quote != USD || p.mark.None? || p.quantity < 0 ||
       p.instrument !in networks
    then None
    else Fixed.Product(p.quantity, p.mark.value)
  }

  function AddPosition(h: Holdings, p: Position, network: Id, value: int): Holdings {
    Holdings(
      h.exposure + value,
      Bump(h.assets, p.instrument.base, value),
      Bump(h.networks, network, value),
      h.quantities[p.instrument := p.quantity])
  }

  function Valued(positions: seq<Position>, networks: map<InstrumentId, Id>): Option<Holdings> {
    if positions == [] then Some(Holdings(0, map[], map[], map[]))
    else
      var last := positions[|positions| - 1];
      match Valued(positions[..|positions| - 1], networks)
      case None => None
      case Some(h) =>
        match PositionValue(last, networks)
        case None => None
        case Some(value) => Some(AddPosition(h, last, networks[last.instrument], value))
  }

  predicate Consistent(p: Portfolio, exposure: int) {
    && p.baseCurrency == USD
    && p.cash >= 0
    && p.equity > 0
    && p.equity == p.cash + exposure
    && p.grossExposure == exposure
    && p.netExposure == exposure
    && p.openOrders == 0
    && p.reservedCash == 0
  }

  /** The account before any reservation, or nothing when the portfolio cannot be trusted. */
  function Base(p: Portfolio, networks: map<InstrumentId, Id>): Option<Account> {
    match Valued(p.positions, networks)
    case None => None
    case Some(h) =>
      if !Consistent(p, h.exposure) then None
      else
        Some(Account(
          p.cash, p.equity, h.exposure, h.assets, h.networks, h.quantities,
          (set a | a in h.assets && h.assets[a] > 0),
          Fixed.Max(0, -p.realizedToday), p.peakEquity))
  }

  /** The effect of one reservation on the account. */
  function Reserve(a: Account, r: Reservation): Account {
    Account(
      a.cash - r.cashDebit,
      a.equity - r.cost,
      a.exposure + r.buyNotional,
      Bump(a.assets, r.asset, r.buyNotional),
      Bump(a.networks, r.network, r.buyNotional),
      Bump(a.quantities, r.instrument, -r.sellQuantity),
      if r.buyNotional != 0 then a.openAssets + {r.asset} else a.openAssets,
      a.losses + r.cost,
      a.peak)
  }

  function ReserveAll(a: Account, rs: seq<Reservation>): Account {
    if rs == [] then a else Reserve(ReserveAll(a, rs[..|rs| - 1]), rs[|rs| - 1])
  }

  function AccountState(p: Portfolio, networks: map<InstrumentId, Id>, rs: seq<Reservation>): Option<Account> {
    match Base(p, networks)
    case None => None
    case Some(a) => Some(ReserveAll(a, rs))
  }

  /** The first loop of the evaluator's account view. */
  method SumPositions(positions: seq<Position>, networks: map<InstrumentId, Id>) returns (result: Option<Holdings>)
    ensures result == Valued(positions, networks)
  {
    var exposure := 0;
    var assets: map<Id, int>, groups: map<Id, int>, quantities: map<InstrumentId, int> := map[], map[], map[];
    for i := 0 to |positions|
      invariant Valued(positions[..i], networks) == Some(Holdings(exposure, assets, groups, quantities))
    {
      var position := positions[i];
      assert positions[..i + 1][..i] == positions[..i];
      var value := PositionValue(position, networks);
      if value.None? {
        UnvaluedStays(positions, i + 1, networks);
        return None;
      }
      var base, network := position.instrument.base, networks[position.instrument];
      exposure := exposure + value.value;
      assets := Bump(assets, base, value.value);
      groups := Bump(groups, network, value.value);
      quantities := quantities[position.instrument := position.quantity];
    }
    assert positions[..|positions|] == positions;
    result := Some(Holdings(exposure, assets, groups, quantities));
  }

  /** The second loop: each reservation is charged in turn. */
  method ChargeReservations(base: Account, rs: seq<Reservation>) returns (result: Account)
    ensures result == ReserveAll(base, rs)
  {
    hide Bump;
    var cash, equity, exposure, losses := base.cash, base.equity, base.exposure, base.losses;
    var assets, groups, quantities, openAssets := base.assets, base.networks, base.quantities, base.openAssets;
    for i := 0 to |rs|
      invariant Account(cash, equity, exposure, assets, groups, quantities, openAssets, losses, base.peak)
             == ReserveAll(base, rs[..i])
    {
      var item := rs[i];
      assert rs[..i + 1][..i] == rs[..i];
      assert ReserveAll(base, rs[..i + 1]) == Reserve(ReserveAll(base, rs[..i]), item);
      cash := cash - item.cashDebit;
      equity := equity - item.cost;
      exposure := exposure + item.buyNotional;
      assets := Bump(assets, item.asset, item.buyNotional);
      groups := Bump(groups, item.network, item.buyNotional);
      quantities := Bump(quantities, item.instrument, -item.sellQuantity);
      if item.buyNotional != 0 {
        openAssets := openAssets + {item.asset};
      }
      losses := losses + item.cost;
    }
    assert rs[..|rs|] == rs;
    result := Account(cash, equity, exposure, assets, groups, quantities, openAssets, losses, base.peak);
  }

  method ComputeAccountState(p: Portfolio, networks: map<InstrumentId, Id>, rs: seq<Reservation>)
    returns (result: Option<Account>)
    ensures result == AccountState(p, networks, rs)
  {
    var held := SumPositions(p.positions, networks);
    if held.None? || !Consistent(p, held.value.exposure) {
      return None;
    }
    var h := held.value;
    var openAssets := set a | a in h.assets && h.assets[a] > 0;
    var account := ChargeReservations(
      Account(p.cash, p.equity, h.exposure, h.assets, h.networks, h.quantities, openAssets,
              Fixed.Max(0, -p.realizedToday), p.peakEquity), rs);
    result := Some(account);
  }

  lemma {:induction false} UnvaluedStays(positions: seq<Position>, n: nat, networks: map<InstrumentId, Id>)
    requires n <= |positions| && Valued(positions[..n], networks).None?
    ensures Valued(positions, networks).None?
    decreases |positions| - n
  {
    if n < |positions| {
      assert positions[..n + 1][..n] == positions[..n];
      UnvaluedStays(positions, n + 1, networks);
    } else {
      assert positions[..n] == positions;
    }
  }

  // ---- The order reservations are listed in does not matter -------------------------------

  lemma ReserveCommutes(a: Account, r: Reservation, s: Reservation)
    ensures Reserve(Reserve(a, r), s) == Reserve(Reserve(a, s), r)
  {
    hide Bump;
    BumpCommutes(a.assets, r.asset, r.buyNotional, s.asset, s.buyNotional);
    BumpCommutes(a.networks, r.network, r.buyNotional, s.network, s.buyNotional);
    BumpCommutes(a.quantities, r.instrument, -r.sellQuantity, s.instrument, -s.sellQuantity);
  }

  /** Taking a reservation anywhere in the list has the effect of taking it last. */
  lemma {:induction false} ReserveAnywhere(a: Account, before: seq<Reservation>, r: Reservation, after: seq<Reservation>)
    ensures ReserveAll(a, before + [r] + after) == Reserve(ReserveAll(a, before + after), r)
  {
    hide Reserve;
    var whole := before + [r] + after;
    if after == [] {
      assert whole[..|whole| - 1] == before && before + after == before;
    } else {
      var n := |after| - 1;
      ReserveAnywhere(a, before, r, after[..n]);
      assert whole[..|whole| - 1] == before + [r] + after[..n];
      assert (before + after)[..|before + after| - 1] == before + after[..n];
      ReserveCommutes(ReserveAll(a, before + after[..n]), r, after[n]);
    }
  }

  // ---- Totals over reservations ------------------------------------------------------------

  function Debits(rs: seq<Reservation>): seq<int> { seq(|rs|, i requires 0 <= i < |rs| => rs[i].cashDebit) }

  function Costs(rs: seq<Reservation>): seq<int> { seq(|rs|, i requires 0 <= i < |rs| => rs[i].cost) }

  function Buys(rs: seq<Reservation>): seq<int> { seq(|rs|, i requires 0 <= i < |rs| => rs[i].buyNotional) }

  function AssetBuys(rs: seq<Reservation>, asset: Id): seq<int> {
    seq(|rs|, i requires 0 <= i < |rs| => if rs[i].asset == asset then rs[i].buyNotional else 0)
  }

  function NetworkBuys(rs: seq<Reservation>, network: Id): seq<int> {
    seq(|rs|, i requires 0 <= i < |rs| => if rs[i].network == network then rs[i].buyNotional else 0)
  }

  function Sells(rs: seq<Reservation>, key: InstrumentId): seq<int> {
    seq(|rs|, i requires 0 <= i < |rs| => if rs[i].instrument == key then rs[i].sellQuantity else 0)
  }

  /** What the fold leaves behind, as totals of the reservations. */
  ghost predicate Totals(a: Account, b: Account, rs: seq<Reservation>, asset: Id, network: Id, key: InstrumentId) {
    && b.cash == a.cash - Sum(Debits(rs))
    && b.equity == a.equity - Sum(Costs(rs))
    && b.losses == a.losses + Sum(Costs(rs))
    && b.exposure == a.exposure + Sum(Buys(rs))
    && Get(b.assets, asset) == Get(a.assets, asset) + Sum(AssetBuys(rs, asset))
    && Get(b.networks, network) == Get(a.networks, network) + Sum(NetworkBuys(rs, network))
    && Get(b.quantities, key) == Get(a.quantities, key) - Sum(Sells(rs, key))
    && b.peak == a.peak
  }

  lemma {:induction false} ReserveAllTotals(a: Account, rs: seq<Reservation>, asset: Id, network: Id, key: InstrumentId)
    ensures Totals(a, ReserveAll(a, rs), rs, asset, network, key)
  {
    if rs != [] {
      var front, n := rs[..|rs| - 1], |rs| - 1;
      ReserveAllTotals(a, front, asset, network, key);
      TotalsStep(a, ReserveAll(a, front), front, rs[n], asset, network, key);
      assert front + [rs[n]] == rs;
    }
  }

  lemma TotalsStep(a: Account, b: Account, rs: seq<Reservation>, r: Reservation, asset: Id, network: Id, key: InstrumentId)
    requires Totals(a, b, rs, asset, network, key)
    ensures Totals(a, Reserve(b, r), rs + [r], asset, network, key)
  {
    ListTotals(rs, r, asset, network, key);
    BumpGet(b.assets, r.asset, r.buyNotional, asset);
    BumpGet(b.networks, r.network, r.buyNotional, network);
    BumpGet(b.quantities, r.instrument, -r.sellQuantity, key);
    hide Sum, Debits, Costs, Buys, AssetBuys, NetworkBuys, Sells, Bump;
  }

  lemma ListTotals(rs: seq<Reservation>, r: Reservation, asset: Id, network: Id, key: InstrumentId)
    ensures Sum(Debits(rs + [r])) == Sum(Debits(rs)) + r.cashDebit
    ensures Sum(Costs(rs + [r])) == Sum(Costs(rs)) + r.cost
    ensures Sum(Buys(rs + [r])) == Sum(Buys(rs)) + r.buyNotional
    ensures Sum(AssetBuys(rs + [r], asset)) == Sum(AssetBuys(rs, asset)) + if r.asset == asset then r.buyNotional else 0
    ensures Sum(NetworkBuys(rs + [r], network)) ==
            Sum(NetworkBuys(rs, network)) + if r.network == network then r.buyNotional else 0
    ensures Sum(Sells(rs + [r], key)) == Sum(Sells(rs, key)) + if r.instrument == key then r.sellQuantity else 0
  {
    hide Sum;
    SumAppend(Debits(rs), r.cashDebit);
    assert Debits(rs + [r]) == Debits(rs) + [r.cashDebit];
    SumAppend(Costs(rs), r.cost);
    assert Costs(rs + [r]) == Costs(rs) + [r.cost];
    SumAppend(Buys(rs), r.buyNotional);
    assert Buys(rs + [r]) == Buys(rs) + [r.buyNotional];
    var x := if r.asset == asset then r.buyNotional else 0;
    SumAppend(AssetBuys(rs, asset), x);
    assert AssetBuys(rs + [r], asset) == AssetBuys(rs, asset) + [x];
    var y := if r.network == network then r.buyNotional else 0;
    SumAppend(NetworkBuys(rs, network), y);
    assert NetworkBuys(rs + [r], network) == NetworkBuys(rs, network) + [y];
    var z := if r.instrument == key then r.sellQuantity else 0;
    SumAppend(Sells(rs, key), z);
    assert Sells(rs + [r], key) == Sells(rs, key) + [z];
  }
}
