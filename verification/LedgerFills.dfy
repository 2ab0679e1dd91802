/** Fills of one order at one level: maximal, bounded, and exactly settled. */
module LedgerFills {
  import opened Outcomes
  import opened Sums
  import opened Domain
  import opened Fixed
  import opened LedgerModel

  // ---- The lot search -------------------------------------------------------------------------

  ghost predicate TermsOk(t: Terms) {
    t.lot > 0 && t.price >= 0 && t.feeBps >= 0
  }

  lemma FeeMonotone(t: Terms, g: int, h: int)
    requires t.feeBps >= 0 && g <= h
    ensures FillFee(t, g) <= FillFee(t, h)
  {
    CeilDivOfProductMonotone(g, h, t.feeBps, BPS_DENOMINATOR);
  }

  /** Fewer lots are affordable whenever more are. */
  lemma AllowedMonotone(t: Terms, m: nat, n: nat)
    requires TermsOk(t) && m <= n && Allowed(t, n) == Some(true) && Allowed(t, m).Some?
    ensures Allowed(t, m) == Some(true)
  {
    hide FillFee, Product;
    ScaledOrder(m, n, t.lot);
    ProductMonotone(m * t.lot, n * t.lot, t.price);
    FeeMonotone(t, Product(m * t.lot, t.price).value, Product(n * t.lot, t.price).value);
  }

  /** What the search answers is affordable and nothing larger up to `high` is. */
  lemma {:induction false} SearchIsMaximal(t: Terms, low: nat, high: nat, n: nat)
    requires TermsOk(t) && low <= high
    requires low == 0 || Allowed(t, low) == Some(true)
    ensures var r := SearchLots(t, low, high);
            r.Ok? ==>
              && low <= r.value <= high
              && (r.value == 0 || Allowed(t, r.value) == Some(true))
              && (r.value < n <= high ==> Allowed(t, n) != Some(true))
    decreases high - low
  {
    hide Allowed;
    if low < high {
      var middle := (low + high + 1) / 2;
      if Allowed(t, middle) == Some(true) {
        SearchIsMaximal(t, middle, high, n);
      } else if Allowed(t, middle) == Some(false) {
        SearchIsMaximal(t, low, middle - 1, n);
        if middle <= n <= high && Allowed(t, n) == Some(true) {
          AllowedMonotone(t, middle, n);
        }
      }
    }
  }

  /** With an aligned price a value can only be refused for its size, so the search then succeeds. */
  lemma {:induction false} SearchSucceeds(t: Terms, low: nat, high: nat)
    requires low <= high && forall n :: low < n <= high ==> Allowed(t, n).Some?
    ensures SearchLots(t, low, high).Ok?
    decreases high - low
  {
    hide Allowed;
    if low < high {
      var middle := (low + high + 1) / 2;
      if Allowed(t, middle) == Some(true) {
        SearchSucceeds(t, middle, high);
      } else {
        SearchSucceeds(t, low, middle - 1);
      }
    }
  }

  lemma AlignedValues(settings: PaperInstrument, price: int, m: nat, n: nat)
    requires InstrumentOk(settings) && price > 0 && price % settings.tick == 0 && m <= n
    requires Product(n * settings.lot, price).Some?
    ensures Product(m * settings.lot, price).Some?
  {
    hide Product;
    var ticks := price / settings.tick;
    assert price == ticks * settings.tick;
    var unit := settings.lot * settings.tick / SCALE;
    LotTickExact(settings);
    ProductOfAligned(settings.lot, settings.tick, m, ticks);
    ProductOfAligned(settings.lot, settings.tick, n, ticks);
    assert ticks > 0 by {
      ScaledOrder(ticks, 0, settings.tick);
    }
    assert 0 <= m * ticks <= n * ticks by {
      ScaledOrder(m, n, ticks);
      ScaledOrder(0, m, ticks);
    }
    ScaledOrder(m * ticks, n * ticks, unit);
    ScaledOrder(0, m * ticks, unit);
  }

  lemma LotTickExact(settings: PaperInstrument)
    requires InstrumentOk(settings)
    ensures settings.lot * settings.tick % SCALE == 0 && settings.lot * settings.tick / SCALE >= 0
  {
    assert settings.lot * settings.tick > 0;
  }

  lemma PriceIsAligned(buying: bool, raw: int, slippageBps: int, tick: int)
    requires tick > 0
    ensures ExecutionPrice(buying, raw, slippageBps, tick) % tick == 0
  {
    var ticks := if buying then CeilDiv(raw * (BPS_DENOMINATOR + slippageBps), BPS_DENOMINATOR * tick)
                 else raw * (BPS_DENOMINATOR - slippageBps) / (BPS_DENOMINATOR * tick);
    MultipleOfTick(ticks, tick);
  }

  lemma MultipleOfTick(n: int, tick: int)
    requires tick > 0
    ensures n * tick % tick == 0
  {
    ExactQuotient(n * tick, tick, n);
  }

  lemma Regroup(q: int, d: int, tick: int)
    ensures q * (d * tick) == (q * tick) * d
  {
  }

  /** The execution price is adverse: a buyer never pays less than the level, a seller never gets more. */
  lemma PriceIsAdverse(buying: bool, raw: int, slippageBps: int, tick: int)
    requires tick > 0 && raw > 0 && 0 <= slippageBps <= BPS_DENOMINATOR
    ensures var p := ExecutionPrice(buying, raw, slippageBps, tick); if buying then p >= raw else 0 <= p <= raw
  {
    if buying {
      BuyPriceIsAdverse(raw, slippageBps, tick);
    } else {
      SellPriceIsAdverse(raw, slippageBps, tick);
    }
  }

  lemma BuyPriceIsAdverse(raw: int, slippageBps: int, tick: int)
    requires tick > 0 && raw > 0 && 0 <= slippageBps
    ensures CeilDiv(raw * (BPS_DENOMINATOR + slippageBps), BPS_DENOMINATOR * tick) * tick >= raw
  {
    var n, d := raw * (BPS_DENOMINATOR + slippageBps), BPS_DENOMINATOR * tick;
    var q := CeilDiv(n, d);
    ScaledOrder(BPS_DENOMINATOR, BPS_DENOMINATOR + slippageBps, raw);
    Regroup(q, BPS_DENOMINATOR, tick);
    ScaledOrder(q * tick, raw - 1, BPS_DENOMINATOR);
  }

  lemma SellPriceIsAdverse(raw: int, slippageBps: int, tick: int)
    requires tick > 0 && raw > 0 && 0 <= slippageBps <= BPS_DENOMINATOR
    ensures 0 <= raw * (BPS_DENOMINATOR - slippageBps) / (BPS_DENOMINATOR * tick) * tick <= raw
  {
    var n, d := raw * (BPS_DENOMINATOR - slippageBps), BPS_DENOMINATOR * tick;
    ScaledOrder(0, BPS_DENOMINATOR - slippageBps, raw);
    ScaledOrder(BPS_DENOMINATOR - slippageBps, BPS_DENOMINATOR, raw);
    FloorIsCovered(n, d);
    var q := n / d;
    Regroup(q, BPS_DENOMINATOR, tick);
    ScaledOrder(raw + 1, q * tick, BPS_DENOMINATOR);
    ScaledOrder(0, q, tick);
  }

  // ---- The quantity one order takes from one level ------------------------------------------------

  lemma LotsFit(x: int, lot: int, n: int)
    requires lot > 0
    ensures n <= x / lot <==> n * lot <= x
  {
    assert x == lot * (x / lot) + x % lot;
    ScaledOrder(n, x / lot, lot);
    ScaledOrder(x / lot + 1, n, lot);
  }

  lemma MaximumFits(lots: int, remaining: int, available: int, lot: int)
    requires lot > 0 && lots <= Min(remaining, available) / lot
    ensures lots * lot <= remaining && lots * lot <= available && lots * lot % lot == 0
  {
    LotsFit(Min(remaining, available), lot, lots);
    ExactQuotient(lots * lot, lot, lots);
  }

  /** A quantity the order may take at a level: whole lots within target, depth, notional and cash ceiling. */
  ghost predicate Takes(w: WorkingOrder, settings: PaperInstrument, raw: int, available: int, quantity: int)
    requires InstrumentOk(settings)
  {
    var t := TermsOf(w, settings, raw);
    && quantity > 0 && quantity % settings.lot == 0 && t.price > 0
    && quantity <= w.target - w.order.filled && quantity <= available
    && match Product(quantity, t.price)
       case None => false
       case Some(gross) => gross <= t.budget && FillDebit(t, gross) <= t.cashLimit
  }

  lemma SearchedLotsTake(w: WorkingOrder, settings: PaperInstrument, raw: int, available: int, lots: nat)
    requires InstrumentOk(settings) && lots > 0 && TermsOf(w, settings, raw).price > 0
    requires lots <= Min(w.target - w.order.filled, available) / settings.lot
    requires Allowed(TermsOf(w, settings, raw), lots) == Some(true)
    ensures Takes(w, settings, raw, available, lots * settings.lot)
  {
    hide Product, FillDebit, ExecutionPrice;
    MaximumFits(lots, w.target - w.order.filled, available, settings.lot);
    ScaledOrder(1, lots, settings.lot);
  }

  /** What the level answers when the search runs: found lots, or the search's refusal. */
  lemma LevelIsSearch(w: WorkingOrder, settings: PaperInstrument, raw: int, available: int)
    requires InstrumentOk(settings)
    ensures var t := TermsOf(w, settings, raw);
            var maximum := Min(w.target - w.order.filled, available) / settings.lot;
            LevelQuantity(w, settings, raw, available) ==
              if t.price <= 0 || maximum <= 0 then Ok(0)
              else match SearchLots(t, 0, maximum) case Err(e) => Err(e) case Ok(lots) => Ok(lots * settings.lot)
  {
    hide SearchLots, ExecutionPrice;
  }

  lemma SmallerLots(n: int, lots: int, lot: int)
    requires lot > 0 && n <= lots
    ensures n * lot <= lots * lot
  {
    ScaledOrder(n, lots, lot);
  }

  lemma LevelTakes(w: WorkingOrder, settings: PaperInstrument, raw: int, available: int)
    requires InstrumentOk(settings) && TermsOk(TermsOf(w, settings, raw)) && LevelQuantity(w, settings, raw, available).Ok?
    ensures var quantity := LevelQuantity(w, settings, raw, available).value;
            quantity == 0 || Takes(w, settings, raw, available, quantity)
  {
    hide SearchLots, Allowed, TermsOf, Takes, LevelQuantity;
    LevelIsSearch(w, settings, raw, available);
    var t := TermsOf(w, settings, raw);
    var maximum := Min(w.target - w.order.filled, available) / settings.lot;
    if t.price > 0 && maximum > 0 {
      SearchIsMaximal(t, 0, maximum, 0);
      var lots := SearchLots(t, 0, maximum).value;
      if lots > 0 {
        SearchedLotsTake(w, settings, raw, available, lots);
      }
    }
  }

  lemma LevelIsLargest(w: WorkingOrder, settings: PaperInstrument, raw: int, available: int, other: int)
    requires InstrumentOk(settings) && TermsOk(TermsOf(w, settings, raw)) && LevelQuantity(w, settings, raw, available).Ok?
    requires Takes(w, settings, raw, available, other)
    ensures other <= LevelQuantity(w, settings, raw, available).value
  {
    hide SearchLots, Allowed, TermsOf, Takes, LevelQuantity;
    LevelIsSearch(w, settings, raw, available);
    TakenIsAllowed(w, settings, raw, available, other);
    TakesPrice(w, settings, raw, available, other);
    var t := TermsOf(w, settings, raw);
    var n := other / settings.lot;
    var maximum := Min(w.target - w.order.filled, available) / settings.lot;
    SearchIsMaximal(t, 0, maximum, n);
    SmallerLots(n, SearchLots(t, 0, maximum).value, settings.lot);
  }

  lemma TakesPrice(w: WorkingOrder, settings: PaperInstrument, raw: int, available: int, quantity: int)
    requires InstrumentOk(settings) && Takes(w, settings, raw, available, quantity)
    ensures TermsOf(w, settings, raw).price > 0 && settings.lot > 0
  {
  }

  /** A level fill is the largest quantity the order may take; it is refused only for the size of its value. */
  lemma LevelFillIsMaximal(w: WorkingOrder, settings: PaperInstrument, raw: int, available: int, other: int)
    requires InstrumentOk(settings) && TermsOk(TermsOf(w, settings, raw))
    ensures match LevelQuantity(w, settings, raw, available)
            case Ok(quantity) =>
              && (quantity == 0 || Takes(w, settings, raw, available, quantity))
              && (Takes(w, settings, raw, available, other) ==> other <= quantity)
            case Err(e) =>
              && e == NotRepresentable
              && Product(Min(w.target - w.order.filled, available) / settings.lot * settings.lot,
                         TermsOf(w, settings, raw).price).None?
  {
    hide SearchLots, TermsOf, Takes, LevelQuantity, Product;
    var r := LevelQuantity(w, settings, raw, available);
    if r.Ok? {
      LevelTakes(w, settings, raw, available);
      if Takes(w, settings, raw, available, other) {
        LevelIsLargest(w, settings, raw, available, other);
      }
    } else {
      LevelIsSearch(w, settings, raw, available);
      var maximum := Min(w.target - w.order.filled, available) / settings.lot;
      SearchError(TermsOf(w, settings, raw), 0, maximum);
      RefusedForSize(w, settings, raw, maximum);
    }
  }

  lemma {:induction false} SearchError(t: Terms, low: nat, high: nat)
    requires low <= high
    ensures SearchLots(t, low, high).Err? ==> SearchLots(t, low, high).error == NotRepresentable
    decreases high - low
  {
    hide Allowed;
    if low < high {
      var middle := (low + high + 1) / 2;
      SearchError(t, middle, high);
      SearchError(t, low, middle - 1);
    }
  }

  lemma RefusedForSize(w: WorkingOrder, settings: PaperInstrument, raw: int, maximum: nat)
    requires InstrumentOk(settings) && TermsOf(w, settings, raw).price > 0
    requires SearchLots(TermsOf(w, settings, raw), 0, maximum).Err?
    ensures Product(maximum * settings.lot, TermsOf(w, settings, raw).price).None?
  {
    hide SearchLots, ExecutionPrice, Product;
    var t := TermsOf(w, settings, raw);
    PriceIsAligned(t.buying, raw, w.permit.execution.slippageBps, settings.tick);
    if Product(maximum * settings.lot, t.price).Some? {
      forall n | 0 < n <= maximum
        ensures Allowed(t, n).Some?
      {
        AlignedValues(settings, t.price, n, maximum);
      }
      SearchSucceeds(t, 0, maximum);
    }
  }

  lemma TakenIsAllowed(w: WorkingOrder, settings: PaperInstrument, raw: int, available: int, quantity: int)
    requires InstrumentOk(settings) && Takes(w, settings, raw, available, quantity)
    ensures var lots := quantity / settings.lot;
            && lots > 0 && lots * settings.lot == quantity
            && lots <= Min(w.target - w.order.filled, available) / settings.lot
            && Allowed(TermsOf(w, settings, raw), lots) == Some(true)
  {
    hide Product, FillDebit, ExecutionPrice;
    var lots := quantity / settings.lot;
    ExactQuotient(quantity, settings.lot, lots);
    LotsFit(Min(w.target - w.order.filled, available), settings.lot, lots);
    ScaledOrder(lots, 0, settings.lot);
  }

  /** Settlement looks at no order and changes none. */
  lemma SettledOrders(s: Ledger, book: Book, buying: bool, quantity: int, gross: int, fee: int, at: int)
    requires |book.bids| > 0 && quantity > 0
    ensures var r := Settle(s, book, buying, quantity, gross, fee, at); r.Ok? ==> r.value.orders == s.orders && r.value.config == s.config
  {
    hide Bump;
  }
}
