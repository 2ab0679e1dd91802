/** What holds of a risk session over any run of evaluations, handoffs and control refreshes. */
module RiskSafety {
  import opened Outcomes
  import opened Sums
  import opened Domain
  import opened RiskAccount
  import opened RiskSizing
  import opened RiskTheorems
  import opened RiskEvaluator
  import opened RiskSession
  import opened Fixed

  // ---- The union of policies ------------------------------------------------------------------

  lemma {:induction false} MergedMembers(all: seq<Policy>, added: seq<Policy>)
    requires MergePolicies(all, added).Ok?
    ensures forall q :: q in MergePolicies(all, added).value <==> q in all || q in added
    decreases |added|
  {
    if added != [] {
      var next := if KnownPolicy(all, added[0]) then all else InsertPolicy(all, added[0]);
      InsertedPolicies(all, added[0]);
      MergedMembers(next, added[1..]);
      assert forall q :: q in added <==> q == added[0] || q in added[1..];
    }
  }

  lemma {:induction false} RegisteredMembers(d: Draft, rs: seq<Registration>, workspace: Id)
    requires forall r :: r in rs ==> RegistrationOk(r)
    requires RegisterAll(d, rs, workspace).Ok?
    ensures var all := RegisterAll(d, rs, workspace).value;
            && (forall q :: q in all.policies <==> q in d.policies || exists r :: r in rs && q in r.policies)
            && (forall k :: k in all.registrations ==>
                  (k in d.registrations && all.registrations[k] == d.registrations[k]) || all.registrations[k] in rs)
            && (forall r :: r in rs ==> r.version in all.registrations && all.registrations[r.version] == r)
            && (forall k :: k in d.registrations ==> k in all.registrations && all.registrations[k] == d.registrations[k])
    decreases |rs|
  {
    if rs != [] {
      var next := Register(d, rs[0], workspace).value;
      MergedMembers(d.policies, rs[0].policies);
      RegisteredMembers(next, rs[1..], workspace);
      assert forall r :: r in rs <==> r == rs[0] || r in rs[1..];
    }
  }

  ghost predicate SharedPolicies(s: Session, ps: seq<Policy>) {
    PoliciesOk(ps) && forall k :: k in s.registrations ==> s.registrations[k].policies == ps
  }

  /** Every agent of a session is held to the same list: exactly the union of all registered policies. */
  lemma SessionAppliesUnion(p: Portfolio, controls: Controls, rs: seq<Registration>, capacity: nat)
    requires forall r :: r in rs ==> RegistrationOk(r)
    requires Open(p, controls, rs, capacity).Ok?
    ensures var s := Open(p, controls, rs, capacity).value;
            && SessionOk(s)
            && (exists ps :: SharedPolicies(s, ps) && forall q :: q in ps <==> exists r :: r in rs && q in r.policies)
            && (forall r :: r in rs ==>
                  && r.version in s.registrations
                  && s.registrations[r.version] == r.(policies := s.registrations[r.version].policies)
                  && forall q :: q in r.policies ==> q in s.registrations[r.version].policies)
  {
    var d := RegisterAll(Draft(map[], map[], {}, None, []), rs, p.workspace).value;
    RegisteredMembers(Draft(map[], map[], {}, None, []), rs, p.workspace);
    var s := Open(p, controls, rs, capacity).value;
    assert rs[0] in rs && rs[0].policies[0] in rs[0].policies;
    assert rs[0].policies[0] in d.policies;
    forall i | 0 <= i < |d.policies|
      ensures PolicyOk(d.policies[i])
    {
      assert d.policies[i] in d.policies;
      var r :| r in rs && d.policies[i] in r.policies;
    }
    assert SharedPolicies(s, d.policies);
    forall k | k in s.registrations
      ensures RegistrationOk(s.registrations[k])
    {
      assert d.registrations[k] in rs;
    }
  }

  // ---- Entries and reservation lists --------------------------------------------------------------

  ghost predicate Sorted(es: seq<Entry>) {
    forall i, j :: 0 <= i < j < |es| ==> es[i].request.intent.id < es[j].request.intent.id
  }

  lemma {:induction false} InsertKeepsSorted(es: seq<Entry>, e: Entry)
    requires Sorted(es) && forall x :: x in es ==> x.request.intent.id != e.request.intent.id
    ensures Sorted(InsertEntry(es, e))
    ensures |InsertEntry(es, e)| == |es| + 1
    ensures forall x :: x in InsertEntry(es, e) <==> x == e || x in es
  {
    if es != [] {
      assert forall x :: x in es <==> x == es[0] || x in es[1..];
      InsertKeepsSorted(es[1..], e);
      if !(e.request.intent.id < es[0].request.intent.id) {
        var tail := InsertEntry(es[1..], e);
        forall j | 0 <= j < |tail|
          ensures es[0].request.intent.id < tail[j].request.intent.id
        {
          assert tail[j] in tail;
        }
      }
    }
  }

  /** Where the reservation of a new entry lands in the list. */
  lemma {:induction false} InsertedReservation(es: seq<Entry>, e: Entry, excluding: Option<Id>)
    returns (before: seq<Reservation>, after: seq<Reservation>)
    requires Some(e.request.intent.id) != excluding
    ensures Reservations(es, excluding) == before + after
    ensures Reservations(InsertEntry(es, e), excluding) ==
            if e.reservation.Some? then before + [e.reservation.value] + after else before + after
  {
    HeldByIs(e, excluding);
    hide HeldBy, Reservations;
    if es == [] || e.request.intent.id < es[0].request.intent.id {
      before, after := [], Reservations(es, excluding);
      ListedFirst(e, es, excluding);
      Regroup([], [], HeldBy(e, excluding), after);
    } else {
      var front: seq<Reservation>;
      front, after := InsertedReservation(es[1..], e, excluding);
      before := HeldBy(es[0], excluding) + front;
      ListedFirst(es[0], es[1..], excluding);
      ListedFirst(es[0], InsertEntry(es[1..], e), excluding);
      assert es == [es[0]] + es[1..];
      Regroup(HeldBy(es[0], excluding), front, HeldBy(e, excluding), after);
    }
  }

  lemma Regroup(a: seq<Reservation>, b: seq<Reservation>, x: seq<Reservation>, c: seq<Reservation>)
    ensures a + (b + c) == a + b + c && a + (b + x + c) == a + b + x + c && b + [] + c == b + c && [] + c == c
  {
  }

  lemma ListedFirst(e: Entry, es: seq<Entry>, excluding: Option<Id>)
    ensures Reservations([e] + es, excluding) == HeldBy(e, excluding) + Reservations(es, excluding)
  {
    assert ([e] + es)[1..] == es;
  }

  lemma HeldByIs(e: Entry, excluding: Option<Id>)
    requires Some(e.request.intent.id) != excluding
    ensures HeldBy(e, excluding) == if e.reservation.Some? then [e.reservation.value] else []
  {
  }

  lemma {:induction false} AbsentExclusion(es: seq<Entry>, intent: Id)
    requires forall x :: x in es ==> x.request.intent.id != intent
    ensures Reservations(es, Some(intent)) == Reservations(es, None)
  {
    if es != [] {
      AbsentExclusion(es[1..], intent);
    }
  }

  lemma {:induction false} InsertedAndExcluded(es: seq<Entry>, e: Entry)
    requires forall x :: x in es ==> x.request.intent.id != e.request.intent.id
    ensures Reservations(InsertEntry(es, e), Some(e.request.intent.id)) == Reservations(es, None)
  {
    if es == [] || e.request.intent.id < es[0].request.intent.id {
      assert ([e] + es)[1..] == es;
      AbsentExclusion(es, e.request.intent.id);
    } else {
      InsertedAndExcluded(es[1..], e);
      assert ([es[0]] + InsertEntry(es[1..], e))[1..] == InsertEntry(es[1..], e);
      AbsentExclusion(es[..1], e.request.intent.id);
    }
  }

  lemma SortedDiffer(es: seq<Entry>, i: nat, j: nat)
    requires Sorted(es) && i < |es| && j < |es| && es[i].request.intent.id == es[j].request.intent.id
    ensures i == j
  {
  }

  lemma FindSorted(es: seq<Entry>, e: Entry)
    requires Sorted(es) && e in es
    ensures Find(es, e.request.intent.id).Some?
    ensures Find(es, e.request.intent.id).value < |es|
    ensures es[Find(es, e.request.intent.id).value] == e
  {
    FindIs(es, e.request.intent.id);
    var j :| 0 <= j < |es| && es[j] == e;
    SortedDiffer(es, Find(es, e.request.intent.id).value, j);
  }

  /** Leaving out one holder removes exactly its reservation. */
  lemma {:induction false} HeldSplit(es: seq<Entry>, i: nat) returns (before: seq<Reservation>, after: seq<Reservation>)
    requires i < |es| && Sorted(es) && es[i].reservation.Some?
    ensures Reservations(es, None) == before + [es[i].reservation.value] + after
    ensures Reservations(es, Some(es[i].request.intent.id)) == before + after
  {
    if i == 0 {
      AbsentExclusion(es[1..], es[0].request.intent.id);
      before, after := [], Reservations(es[1..], None);
    } else {
      before, after := HeldSplit(es[1..], i - 1);
      before := HeldBy(es[0], None) + before;
    }
  }

  /** Replacing an entry by one with the same intent and reservation changes no list. */
  lemma {:induction false} SameReservations(es: seq<Entry>, i: nat, e: Entry, excluding: Option<Id>)
    requires i < |es| && e.reservation == es[i].reservation && e.request == es[i].request
    ensures Reservations(es[i := e], excluding) == Reservations(es, excluding)
  {
    if i > 0 {
      SameReservations(es[1..], i - 1, e, excluding);
      assert es[i := e][1..] == es[1..][i - 1 := e];
    } else {
      assert es[i := e][1..] == es[1..];
    }
  }

  // ---- The invariant --------------------------------------------------------------------------------

  ghost function EntryQuote(s: Session, e: Entry): Quote
    requires e.request.intent.agentVersion in s.registrations
  {
    QuoteFor(e.request, s.registrations[e.request.intent.agentVersion].execution,
             Get(s.networks, e.request.intent.instrument), s.portfolio.equity)
  }

  ghost predicate EntryOk(s: Session, ps: seq<Policy>, e: Entry) {
    var c := e.record.evaluation.approved;
    && RequestOk(e.request)
    && e.request.intent.agentVersion in s.registrations
    && (IsApproved(e.record) <==> e.reservation.Some?)
    && (e.reservation.Some? ==>
          var q := EntryQuote(s, e);
          && Usable(q)
          && 0 < c <= q.requested
          && QuantityFor(q, c) > 0
          && (forall p :: p in ps ==> p.minOrder <= c)
          && (exists k: nat :: c == k * q.increment)
          && e.reservation == Some(Taking(q, e.request.intent.id, c))
          && ReservationOk(e.reservation.value))
  }

  ghost predicate NoSells(rs: seq<Reservation>) {
    forall r :: r in rs ==> r.sellQuantity == 0
  }

  ghost predicate SomeBuy(rs: seq<Reservation>) {
    exists r :: r in rs && r.buyNotional > 0
  }

  /** Gross, per-asset and per-network exposure stay within the policy's share of `equity`. */
  ghost predicate CapsMet(a: Account, p: Policy, equity: int) {
    && Within(a.exposure, p.maxGrossPct, equity)
    && (forall k :: k in a.assets ==> Within(Get(a.assets, k), p.maxAssetPct, equity))
    && (forall k :: k in a.networks ==> Within(Get(a.networks, k), p.maxNetworkPct, equity))
  }

  /**
   * The account `a` that reservations `rs` leave of `base`: cash and stock are never overdrawn;
   * after any buy the caps hold against the starting equity, and as long as nothing was sold also
   * against the equity left after every reserved cost.
   */
  ghost predicate Bounds(base: Account, a: Account, rs: seq<Reservation>, ps: seq<Policy>) {
    && a.cash >= 0
    && a.equity <= base.equity
    && (forall k :: Get(a.quantities, k) >= 0)
    && (SomeBuy(rs) ==> forall p :: p in ps ==> CapsMet(a, p, base.equity))
    && (SomeBuy(rs) && NoSells(rs) ==> forall p :: p in ps ==> CapsMet(a, p, a.equity))
  }

  lemma SharesAfter(values: map<Id, int>, own: Id, c: int, cap: int, e: int)
    requires SharesWithin(values, own, c, cap, e)
    ensures forall k :: k in Bump(values, own, c) ==> Within(Get(Bump(values, own, c), k), cap, e)
  {
    hide Within, Get, Bump;
    forall k | k in Bump(values, own, c)
      ensures Within(Get(Bump(values, own, c), k), cap, e)
    {
      BumpGet(values, own, c, k);
    }
  }

  lemma CapsAfterBuy(a: Account, q: Quote, intent: Id, p: Policy, c: int)
    requires q.buying && Usable(q) && PolicyFits(q, a, p, c)
    ensures var b := Reserve(a, Taking(q, intent, c)); CapsMet(b, p, b.equity)
  {
    hide Within, Get, Bump, WorstPrice, FeeCost, SharesWithin;
    SharesAfter(a.assets, q.instrument.base, c, p.maxAssetPct, a.equity - FeeCost(q, c));
    SharesAfter(a.networks, q.network, c, p.maxNetworkPct, a.equity - FeeCost(q, c));
  }

  lemma CapsOnMoreEquity(a: Account, p: Policy, e: int, f: int)
    requires PolicyOk(p) && f <= e && CapsMet(a, p, f)
    ensures CapsMet(a, p, e)
  {
    hide Within, Get;
    WithinMonotone(a.exposure, a.exposure, p.maxGrossPct, e, f);
    forall k | k in a.assets
      ensures Within(Get(a.assets, k), p.maxAssetPct, e)
    {
      WithinMonotone(Get(a.assets, k), Get(a.assets, k), p.maxAssetPct, e, f);
    }
    forall k | k in a.networks
      ensures Within(Get(a.networks, k), p.maxNetworkPct, e)
    {
      WithinMonotone(Get(a.networks, k), Get(a.networks, k), p.maxNetworkPct, e, f);
    }
  }

  lemma CapsAfterSell(a: Account, r: Reservation, p: Policy, equity: int)
    requires r.buyNotional == 0 && PolicyOk(p) && CapsMet(a, p, equity)
    requires Within(0, p.maxAssetPct, equity) && Within(0, p.maxNetworkPct, equity)
    ensures CapsMet(Reserve(a, r), p, equity)
  {
    hide Within, Get, Bump;
    var b := Reserve(a, r);
    forall k | k in b.assets
      ensures Within(Get(b.assets, k), p.maxAssetPct, equity)
    {
      BumpGet(a.assets, r.asset, 0, k);
      if k !in a.assets {
        GetMissing(a.assets, k);
      }
    }
    forall k | k in b.networks
      ensures Within(Get(b.networks, k), p.maxNetworkPct, equity)
    {
      BumpGet(a.networks, r.network, 0, k);
      if k !in a.networks {
        GetMissing(a.networks, k);
      }
    }
  }

  lemma GetMissing(m: map<Id, int>, k: Id)
    requires k !in m
    ensures Get(m, k) == 0
  {
  }

  lemma StockAfter(a: Account, q: Quote, intent: Id, c: int)
    requires Usable(q) && OrderFits(q, a, c) && (forall k :: Get(a.quantities, k) >= 0)
    ensures forall k :: Get(Reserve(a, Taking(q, intent, c)).quantities, k) >= 0
  {
    hide Get, Bump, WorstPrice, FeeCost;
    var r := Taking(q, intent, c);
    forall k
      ensures Get(Reserve(a, r).quantities, k) >= 0
    {
      BumpGet(a.quantities, r.instrument, -r.sellQuantity, k);
    }
  }

  /** One more approval keeps the bounds. */
  lemma BoundsStep(
      base: Account, a: Account, before: seq<Reservation>, after: seq<Reservation>, ps: seq<Policy>,
      q: Quote, intent: Id, c: int)
    requires PoliciesOk(ps) && base.equity >= 0 && Bounds(base, a, before + after, ps)
    requires Usable(q) && Approvable(q, a, ps, c)
    ensures Bounds(base, Reserve(a, Taking(q, intent, c)), before + [Taking(q, intent, c)] + after, ps)
  {
    hide Within, Get, Bump, WorstPrice, FeeCost, QuantityFor, PolicyFits, CapsMet;
    var r := Taking(q, intent, c);
    var b, rs, more := Reserve(a, r), before + after, before + [r] + after;
    assert forall x :: x in more <==> x in rs || x == r;
    FeeCostNonNegative(q, c);
    StockAfter(a, q, intent, c);
    forall p | p in ps && SomeBuy(more)
      ensures CapsMet(b, p, base.equity)
      ensures NoSells(more) ==> CapsMet(b, p, b.equity)
    {
      if q.buying {
        CapsAfterBuy(a, q, intent, p, c);
        CapsOnMoreEquity(b, p, base.equity, b.equity);
      } else {
        assert SomeBuy(rs);
        ZeroWithin(p, base.equity);
        CapsAfterSell(a, r, p, base.equity);
      }
    }
  }

  lemma ZeroWithin(p: Policy, equity: int)
    requires PolicyOk(p) && equity >= 0
    ensures Within(0, p.maxAssetPct, equity) && Within(0, p.maxNetworkPct, equity)
  {
    ScaledOrder(0, p.maxAssetPct, equity);
    ScaledOrder(0, p.maxNetworkPct, equity);
  }

  /** The account one approval is measured against: every other reservation taken. */
  ghost function Others(s: Session, base: Account, e: Entry): Account {
    ReserveAll(base, Reservations(s.entries, Some(e.request.intent.id)))
  }

  /**
   * An approval on account `a` always meets the plain limits. When it is `safe` from later approvals its
   * amount fits and the gates stay open, those of a buy with a positive fee.
   */
  ghost predicate StandsOn(q: Quote, a: Account, ps: seq<Policy>, c: int, safe: bool)
    requires QuoteOk(q) && WorstPrice(q) > 0
  {
    && PlainFits(q, a, ps, c)
    && (safe ==> Fits(q, a, ps, c) && ((q.buying ==> FeeCost(q, c) > 0) ==> GatesOpen(q, a, ps)))
  }

  /** A sell is always safe beside the other reservations, a buy as long as nothing was sold. */
  ghost predicate Stands(s: Session, ps: seq<Policy>, base: Account, e: Entry)
    requires EntryOk(s, ps, e) && e.reservation.Some?
  {
    var q := EntryQuote(s, e);
    StandsOn(q, Others(s, base, e), ps, e.record.evaluation.approved, q.buying ==> NoSells(Reservations(s.entries, None)))
  }

  ghost predicate SessionInv(s: Session, ps: seq<Policy>) {
    && SessionOk(s)
    && SharedPolicies(s, ps)
    && Sorted(s.entries)
    && (forall e :: e in s.entries ==> EntryOk(s, ps, e))
    && (forall k :: k in s.keys ==> Find(s.entries, s.keys[k]).Some?)
    && var held := Reservations(s.entries, None);
       match Base(s.portfolio, s.networks)
       case None => held == []
       case Some(base) =>
         && Bounds(base, ReserveAll(base, held), held, ps)
         && forall e :: e in s.entries && e.reservation.Some? ==> Stands(s, ps, base, e)
  }

  /** The invariant, for whichever list of policies the session was opened with. */
  ghost predicate RiskOk(s: Session) {
    exists ps :: SessionInv(s, ps)
  }

  lemma SessionInvEntries(s: Session, ps: seq<Policy>)
    requires SessionInv(s, ps)
    ensures EntriesOk(s) && SessionOk(s)
    ensures forall k :: k in s.keys ==> Find(s.entries, s.keys[k]).Some?
  {
  }

  /** A sell's gates depend on the market alone. */
  lemma SellGates(q: Quote, a: Account, b: Account, ps: seq<Policy>)
    requires QuoteOk(q) && !q.buying && GatesOpen(q, a, ps)
    ensures GatesOpen(q, b, ps)
  {
    hide MarketGateOpen;
    forall p | p in ps
      ensures MarketGateOpen(q, p) && LossGateOpen(q, b, p) && DrawdownGateOpen(q, b, p)
    {
      assert MarketGateOpen(q, p) && LossGateOpen(q, a, p) && DrawdownGateOpen(q, a, p);
    }
  }

  /** An approval that stands keeps standing when another one is taken after it; a sell takes a buy's safety. */
  lemma StandsBesideNewcomer(
      qa: Quote, qb: Quote, others: Account, ps: seq<Policy>, a: int, b: int, ia: Id, ib: Id, safe: bool)
    requires Usable(qa) && Usable(qb) && a > 0 && b > 0 && qa.startEquity == qb.startEquity
    requires StandsOn(qa, others, ps, a, safe) && Fits(qb, Reserve(others, Taking(qa, ia, a)), ps, b)
    ensures StandsOn(qa, Reserve(others, Taking(qb, ib, b)), ps, a, safe && (qa.buying ==> qb.buying))
  {
    hide Fits, GatesOpen, PlainFits, FeeCost, WorstPrice, QuantityFor, Reserve;
    PlainFitsBesideNewcomer(qa, qb, others, ps, a, b, ia, ib);
    if safe && (qa.buying ==> qb.buying) {
      ExchangeOfApprovals(qa, qb, others, ps, a, b, ia, ib);
      if qa.buying && FeeCost(qa, a) > 0 {
        GatesAfterExchange(qa, qb, others, ps, a, b, ia, ib);
      } else if !qa.buying {
        SellGates(qa, others, Reserve(others, Taking(qb, ib, b)), ps);
      }
    }
  }

  /** An earlier entry of the session keeps standing when `n` is inserted. */
  lemma EarlierStands(s: Session, t: Session, ps: seq<Policy>, base: Account, e: Entry, n: Entry)
    requires SessionInv(s, ps) && Base(s.portfolio, s.networks) == Some(base)
    requires e in s.entries && e.reservation.Some?
    requires t.portfolio == s.portfolio && t.networks == s.networks && t.registrations == s.registrations
    requires t.entries == InsertEntry(s.entries, n)
    requires forall x :: x in s.entries ==> x.request.intent.id != n.request.intent.id
    requires EntryOk(t, ps, n) && EntryOk(t, ps, e)
    requires n.reservation.Some? ==>
               Fits(EntryQuote(t, n), ReserveAll(base, Reservations(s.entries, None)), ps, n.record.evaluation.approved)
    ensures Stands(t, ps, base, e)
  {
    hide StandsOn, Fits, FeeCost, WorstPrice, QuantityFor, Reserve, ReserveAll, Bounds, Usable;
    var q, c, id := EntryQuote(s, e), e.record.evaluation.approved, e.request.intent.id;
    var i :| 0 <= i < |s.entries| && s.entries[i] == e;
    assert Stands(s, ps, base, e);
    var before, after := InsertedReservation(s.entries, n, Some(id));
    var all, more := InsertedReservation(s.entries, n, None);
    var left, right := HeldSplit(s.entries, i);
    ReserveAnywhere(base, left, e.reservation.value, right);
    if n.reservation.Some? {
      var r := n.reservation.value;
      ReserveAnywhere(base, before, r, after);
      SoldWhen(all, r, more);
      StandsBesideNewcomer(q, EntryQuote(t, n), Others(s, base, e), ps, c, n.record.evaluation.approved,
                           id, n.request.intent.id, q.buying ==> NoSells(Reservations(s.entries, None)));
      assert EntryQuote(t, n).buying <==> r.sellQuantity == 0;
    }
  }

  /** With one more reservation nothing was sold exactly when nothing was before and it sells nothing. */
  lemma SoldWhen(before: seq<Reservation>, r: Reservation, after: seq<Reservation>)
    ensures NoSells(before + [r] + after) <==> NoSells(before + after) && r.sellQuantity == 0
  {
    assert forall x :: x in before + [r] + after <==> x == r || x in before + after;
  }

  /** A fresh evaluation of the session, seen as inserting one entry. */
  ghost predicate Inserted(env: Environment, s: Session, t: Session, ps: seq<Policy>, req: Request, n: Entry, now: int)
    requires SessionOk(s) && RequestOk(req) && req.intent.agentVersion in s.registrations
  {
    var o := Evaluate(env, req, s.registrations[req.intent.agentVersion], s.portfolio, s.controls, s.networks,
                      Reservations(s.entries, None), now);
    && n == Entry(req, o.record, o.reservation, s.controls.fencingToken, false, None)
    && (forall x :: x in s.entries ==> x.request.intent.id != n.request.intent.id)
    && t.portfolio == s.portfolio && t.networks == s.networks && t.registrations == s.registrations
    && t.entries == InsertEntry(s.entries, n)
    && t.keys == s.keys[req.intent.key := req.intent.id]
  }

  lemma NewEntryOk(env: Environment, s: Session, t: Session, ps: seq<Policy>, req: Request, n: Entry, now: int)
    requires SessionInv(s, ps) && RequestOk(req) && req.intent.agentVersion in s.registrations
    requires Inserted(env, s, t, ps, req, n, now)
    ensures EntryOk(t, ps, n)
    ensures n.reservation.Some? ==>
              && Base(s.portfolio, s.networks).Some?
              && Usable(EntryQuote(t, n))
              && var a := ReserveAll(Base(s.portfolio, s.networks).value, Reservations(s.entries, None));
                 Approvable(EntryQuote(t, n), a, ps, n.record.evaluation.approved)
                 && GatesOpen(EntryQuote(t, n), a, ps)
  {
    hide Evaluate, Fits, GatesOpen, FeeCost, WorstPrice, QuantityFor, Base, ReserveAll, Bounds, ContextReasons, Stands;
    ApprovalGrounds(env, req, s.registrations[req.intent.agentVersion], s.portfolio, s.controls, s.networks,
                    Reservations(s.entries, None), now);
  }

  /** A newcomer was measured on exactly the others' account. */
  lemma NewcomerStands(s: Session, t: Session, ps: seq<Policy>, base: Account, n: Entry)
    requires t.entries == InsertEntry(s.entries, n) && EntryOk(t, ps, n)
    requires Reservations(t.entries, Some(n.request.intent.id)) == Reservations(s.entries, None)
    requires n.reservation.Some? ==>
               var a := ReserveAll(base, Reservations(s.entries, None));
               Fits(EntryQuote(t, n), a, ps, n.record.evaluation.approved) && GatesOpen(EntryQuote(t, n), a, ps)
    ensures n.reservation.Some? ==> Stands(t, ps, base, n)
  {
    hide Fits, GatesOpen, PlainFits, FeeCost, WorstPrice, QuantityFor, ReserveAll;
    if n.reservation.Some? {
      FitsSplit(EntryQuote(t, n), Others(t, base, n), ps, n.record.evaluation.approved);
    }
  }

  lemma EntriesStand(env: Environment, s: Session, t: Session, ps: seq<Policy>, req: Request, n: Entry, now: int, base: Account)
    requires SessionInv(s, ps) && RequestOk(req) && req.intent.agentVersion in s.registrations
    requires Inserted(env, s, t, ps, req, n, now) && Base(s.portfolio, s.networks) == Some(base)
    ensures forall e :: e in t.entries ==> EntryOk(t, ps, e) && (e.reservation.Some? ==> Stands(t, ps, base, e))
  {
    hide Evaluate, Fits, GatesOpen, PlainFits, FeeCost, WorstPrice, QuantityFor, ReserveAll, Bounds;
    NewEntryOk(env, s, t, ps, req, n, now);
    InsertKeepsSorted(s.entries, n);
    InsertedAndExcluded(s.entries, n);
    NewcomerStands(s, t, ps, base, n);
    forall e | e in t.entries
      ensures EntryOk(t, ps, e) && (e.reservation.Some? ==> Stands(t, ps, base, e))
    {
      if e != n {
        assert EntryOk(s, ps, e);
        assert EntryOk(t, ps, e);
        if e.reservation.Some? {
          EarlierStands(s, t, ps, base, e, n);
        }
      }
    }
  }

  lemma EvaluationKeepsBounds(
      env: Environment, s: Session, t: Session, ps: seq<Policy>, req: Request, n: Entry, now: int, base: Account)
    requires SessionInv(s, ps) && RequestOk(req) && req.intent.agentVersion in s.registrations
    requires Inserted(env, s, t, ps, req, n, now) && Base(s.portfolio, s.networks) == Some(base)
    ensures var held := Reservations(t.entries, None); Bounds(base, ReserveAll(base, held), held, ps)
  {
    hide Evaluate, Fits, GatesOpen, FeeCost, WorstPrice, QuantityFor, Reserve, ReserveAll, Bounds, Stands, Base, Usable, Approvable;
    NewEntryOk(env, s, t, ps, req, n, now);
    var before, after := InsertedReservation(s.entries, n, None);
    BaseIsSound(s.portfolio, s.networks);
    if n.reservation.Some? {
      ReserveAnywhere(base, before, n.reservation.value, after);
      BoundsStep(base, ReserveAll(base, before + after), before, after, ps,
                 EntryQuote(t, n), n.request.intent.id, n.record.evaluation.approved);
    }
  }

  lemma EvaluationKeepsEntries(env: Environment, s: Session, t: Session, ps: seq<Policy>, req: Request, n: Entry, now: int)
    requires SessionInv(s, ps) && RequestOk(req) && req.intent.agentVersion in s.registrations
    requires Inserted(env, s, t, ps, req, n, now)
    ensures forall e :: e in t.entries ==> EntryOk(t, ps, e)
    ensures n.reservation.Some? ==> Base(s.portfolio, s.networks).Some?
  {
    hide Evaluate, Fits, GatesOpen, FeeCost, WorstPrice, QuantityFor, ReserveAll, Bounds, Stands, Base, Usable;
    NewEntryOk(env, s, t, ps, req, n, now);
    InsertKeepsSorted(s.entries, n);
    forall e | e in t.entries
      ensures EntryOk(t, ps, e)
    {
      if e != n {
        assert EntryOk(s, ps, e);
      }
    }
  }

  lemma EvaluationKeeps(env: Environment, s: Session, t: Session, ps: seq<Policy>, req: Request, n: Entry, now: int)
    requires SessionInv(s, ps) && RequestOk(req) && req.intent.agentVersion in s.registrations
    requires Inserted(env, s, t, ps, req, n, now)
    ensures SessionInv(t, ps)
  {
    hide Evaluate, ReserveAll, Bounds, Stands, Base, EntryOk;
    EvaluationKeepsEntries(env, s, t, ps, req, n, now);
    InsertKeepsSorted(s.entries, n);
    FoundAfterInsert(s.entries, n);
    var before, after := InsertedReservation(s.entries, n, None);
    var b := Base(s.portfolio, s.networks);
    if b.Some? {
      EntriesStand(env, s, t, ps, req, n, now, b.value);
      EvaluationKeepsBounds(env, s, t, ps, req, n, now, b.value);
    }
  }

  lemma {:induction false} FoundAfterInsert(es: seq<Entry>, n: Entry)
    ensures Find(InsertEntry(es, n), n.request.intent.id).Some?
    ensures forall k :: Find(es, k).Some? ==> Find(InsertEntry(es, n), k).Some?
  {
    if es == [] || n.request.intent.id < es[0].request.intent.id {
      assert ([n] + es)[1..] == es;
    } else {
      FoundAfterInsert(es[1..], n);
      assert ([es[0]] + InsertEntry(es[1..], n))[1..] == InsertEntry(es[1..], n);
    }
  }

  lemma {:induction false} ValuedIsSound(positions: seq<Position>, networks: map<InstrumentId, Id>)
    ensures Valued(positions, networks).Some? ==>
              forall k :: k in Valued(positions, networks).value.quantities ==> Valued(positions, networks).value.quantities[k] >= 0
  {
    if positions != [] {
      ValuedIsSound(positions[..|positions| - 1], networks);
    }
  }

  lemma BaseIsSound(p: Portfolio, networks: map<InstrumentId, Id>)
    ensures Base(p, networks).Some? ==>
              var a := Base(p, networks).value;
              a.cash >= 0 && a.equity > 0 && a.equity == p.equity && (forall k :: Get(a.quantities, k) >= 0)
  {
    ValuedIsSound(p.positions, networks);
  }

  // ---- Runs ---------------------------------------------------------------------------------------------

  datatype Op =
    | DoEvaluate(request: Request, now: int)
    | DoHandoff(workspace: Id, intent: Id, token: int, now: int)
    | DoControls(controls: Controls, now: int)
    | DoGuard(workspace: Id, commands: seq<(Id, int)>, now: int)

  ghost predicate OpOk(op: Op) {
    op.DoEvaluate? ==> RequestOk(op.request)
  }

  /** The state an operation leaves, whether it returns or raises. */
  ghost function After(env: Environment, s: Session, op: Op): Session
    requires SessionOk(s) && EntriesOk(s) && OpOk(op)
  {
    match op
    case DoEvaluate(req, now) => EvaluateIn(env, s, req, now).state
    case DoHandoff(w, i, token, now) => Handoff(env, s, w, i, token, now).state
    case DoControls(c, now) => UpdateControls(s, c, now).state
    case DoGuard(w, commands, now) => Guard(env, s, w, commands, now).state
  }

  /** An evaluation either leaves the entries alone or inserts the new one. */
  lemma EvaluateShape(env: Environment, s: Session, req: Request, now: int, ps: seq<Policy>) returns (n: Option<Entry>)
    requires SessionOk(s) && RequestOk(req) && (forall k :: k in s.keys ==> Find(s.entries, s.keys[k]).Some?)
    ensures var t := EvaluateIn(env, s, req, now).state;
            match n
            case None => t == s.(lastNow := t.lastNow)
            case Some(e) => req.intent.agentVersion in s.registrations && Inserted(env, s, t, ps, req, e, now)
  {
    hide Evaluate;
    var i := req.intent;
    FindIs(s.entries, i.id);
    n := None;
    if i.agentVersion in s.registrations && EvaluateIn(env, s, req, now).state.audit != s.audit {
      var o := Evaluate(env, req, s.registrations[i.agentVersion], s.portfolio, s.controls, s.networks,
                        Reservations(s.entries, None), now);
      n := Some(Entry(req, o.record, o.reservation, s.controls.fencingToken, false, None));
    }
  }

  lemma EvaluateInKeeps(env: Environment, s: Session, req: Request, now: int, ps: seq<Policy>)
    requires SessionInv(s, ps) && RequestOk(req)
    ensures SessionInv(EvaluateIn(env, s, req, now).state, ps)
  {
    SessionInvEntries(s, ps);
    hide Evaluate, EvaluateIn, Inserted, SessionInv;
    var t := EvaluateIn(env, s, req, now).state;
    var n := EvaluateShape(env, s, req, now, ps);
    match n
    case None => ScratchKeeps(s, t, ps);
    case Some(e) => EvaluationKeeps(env, s, t, ps, req, e, now);
  }

  /** An entry means the same in a session that differs in marks, clock, audit and controls. */
  lemma EntryCarries(s: Session, t: Session, ps: seq<Policy>, x: Entry, y: Entry, base: Option<Account>)
    requires t.portfolio == s.portfolio && t.networks == s.networks && t.registrations == s.registrations
    requires y == x.(terminal := y.terminal, issued := y.issued)
    requires Reservations(t.entries, None) == Reservations(s.entries, None)
    requires Reservations(t.entries, Some(x.request.intent.id)) == Reservations(s.entries, Some(x.request.intent.id))
    requires EntryOk(s, ps, x) && (base.Some? && x.reservation.Some? ==> Stands(s, ps, base.value, x))
    ensures EntryOk(t, ps, y) && (base.Some? && y.reservation.Some? ==> Stands(t, ps, base.value, y))
  {
    hide ReserveAll, Usable, QuantityFor, WorstPrice, FeeCost, Fits, GatesOpen, PlainFits, NoSells;
  }

  /** What is at one index after marking an entry still means what it did. */
  lemma MarkedEntry(s: Session, t: Session, ps: seq<Policy>, i: nat, e: Entry, j: nat)
    requires SessionInv(s, ps) && i < |s.entries| && j < |s.entries|
    requires e == s.entries[i].(terminal := e.terminal, issued := e.issued)
    requires t == s.(entries := s.entries[i := e], audit := t.audit, lastNow := t.lastNow)
    ensures EntryOk(t, ps, t.entries[j])
    ensures var base := Base(s.portfolio, s.networks);
            base.Some? && t.entries[j].reservation.Some? ==> Stands(t, ps, base.value, t.entries[j])
  {
    hide Bounds, Base, EntryOk, Stands, SharedPolicies, Sorted, Reservations, Find;
    var x := s.entries[j];
    assert x in s.entries;
    SameReservations(s.entries, i, e, None);
    SameReservations(s.entries, i, e, Some(x.request.intent.id));
    EntryCarries(s, t, ps, x, t.entries[j], Base(s.portfolio, s.networks));
  }

  /** Marking an entry changes no reservation and no approval. */
  lemma MarkKeeps(s: Session, t: Session, ps: seq<Policy>, i: nat, e: Entry)
    requires SessionInv(s, ps) && i < |s.entries|
    requires e == s.entries[i].(terminal := e.terminal, issued := e.issued)
    requires t == s.(entries := s.entries[i := e], audit := t.audit, lastNow := t.lastNow)
    ensures SessionInv(t, ps)
  {
    hide Bounds, Base, ReserveAll, EntryOk, Stands, SharedPolicies, Reservations, Find;
    SameReservations(s.entries, i, e, None);
    forall j | 0 <= j < |t.entries|
      ensures EntryOk(t, ps, t.entries[j])
      ensures var base := Base(s.portfolio, s.networks);
              base.Some? && t.entries[j].reservation.Some? ==> Stands(t, ps, base.value, t.entries[j])
    {
      MarkedEntry(s, t, ps, i, e, j);
    }
    forall k | k in t.keys
      ensures Find(t.entries, t.keys[k]).Some?
    {
      SameFind(s.entries, i, e, t.keys[k]);
    }
    SamePolicies(s, t, ps);
  }

  lemma SamePolicies(s: Session, t: Session, ps: seq<Policy>)
    requires SharedPolicies(s, ps) && t.registrations == s.registrations
    ensures SharedPolicies(t, ps)
  {
  }

  lemma {:induction false} SameFind(es: seq<Entry>, i: nat, e: Entry, intent: Id)
    requires i < |es| && e.request == es[i].request
    ensures Find(es[i := e], intent) == Find(es, intent)
  {
    if i > 0 {
      SameFind(es[1..], i - 1, e, intent);
      assert es[i := e][1..] == es[1..][i - 1 := e];
    } else {
      assert es[i := e][1..] == es[1..];
    }
  }

  lemma ScratchKeeps(s: Session, t: Session, ps: seq<Policy>)
    requires SessionInv(s, ps)
    requires t == s.(audit := t.audit, lastNow := t.lastNow, controls := t.controls)
    ensures SessionInv(t, ps)
  {
    hide Bounds, Base, ReserveAll, EntryOk, Stands;
    var base := Base(s.portfolio, s.networks);
    forall x | x in t.entries
      ensures EntryOk(t, ps, x)
      ensures base.Some? && x.reservation.Some? ==> Stands(t, ps, base.value, x)
    {
      EntryCarries(s, t, ps, x, x, base);
    }
  }

  lemma HandoffKeeps(env: Environment, s: Session, workspace: Id, intent: Id, token: int, now: int, ps: seq<Policy>)
    requires SessionInv(s, ps) && SessionOk(s) && EntriesOk(s)
    ensures SessionInv(Handoff(env, s, workspace, intent, token, now).state, ps)
  {
    hide SessionInv, Handoff;
    var t := Handoff(env, s, workspace, intent, token, now).state;
    HandoffShape(env, s, workspace, intent, token, now);
    FindIs(s.entries, intent);
    if t.entries == s.entries {
      ScratchKeeps(s, t, ps);
    } else {
      var i := Find(s.entries, intent).value;
      MarkKeeps(s, t, ps, i, t.entries[i]);
    }
  }

  /** A handoff touches the clock, the audit trail and the marks of one entry. */
  lemma HandoffShape(env: Environment, s: Session, workspace: Id, intent: Id, token: int, now: int)
    requires SessionOk(s) && EntriesOk(s)
    ensures var t := Handoff(env, s, workspace, intent, token, now).state;
            || t == s.(audit := t.audit, lastNow := t.lastNow)
            || (Find(s.entries, intent).Some? &&
                var i := Find(s.entries, intent).value;
                i < |s.entries| && |t.entries| == |s.entries| &&
                t == s.(audit := t.audit, lastNow := t.lastNow, entries := s.entries[i := t.entries[i]]) &&
                t.entries[i] == s.entries[i].(terminal := true, issued := t.entries[i].issued))
  {
    hide Recheck, PermitFor, StillApproved, IsApproved, ClockOk, AuditFull, Find, SessionOk, EntriesOk;
    FindIs(s.entries, intent);
  }

  lemma ControlsScratch(s: Session, c: Controls, now: int)
    ensures var t := UpdateControls(s, c, now).state;
            t == s.(audit := t.audit, lastNow := t.lastNow, controls := t.controls)
  {
  }

  /** Every operation keeps the invariant, also when it raises. */
  lemma OpKeeps(env: Environment, s: Session, op: Op, ps: seq<Policy>)
    requires SessionInv(s, ps) && OpOk(op)
    ensures SessionOk(s) && EntriesOk(s)
    ensures SessionInv(After(env, s, op), ps)
  {
    SessionInvEntries(s, ps);
    hide SessionInv, EvaluateIn, Handoff, Guard, UpdateControls;
    match op
    case DoEvaluate(req, now) =>
      EvaluateInKeeps(env, s, req, now, ps);
    case DoHandoff(w, i, token, now) =>
      HandoffKeeps(env, s, w, i, token, now, ps);
    case DoControls(c, now) =>
      ControlsScratch(s, c, now);
      ScratchKeeps(s, UpdateControls(s, c, now).state, ps);
    case DoGuard(w, commands, now) =>
      GuardScope(env, s, w, commands, now);
      ScratchKeeps(s, Guard(env, s, w, commands, now).state, ps);
  }

  /** `t` is what some run of operations makes of `s`. */
  ghost predicate Run(env: Environment, s: Session, ops: seq<Op>, t: Session)
    decreases |ops|
  {
    if ops == [] then t == s
    else SessionOk(s) && EntriesOk(s) && OpOk(ops[0]) && Run(env, After(env, s, ops[0]), ops[1..], t)
  }

  lemma {:induction false} RunKeeps(env: Environment, s: Session, ops: seq<Op>, t: Session, ps: seq<Policy>)
    requires SessionInv(s, ps) && Run(env, s, ops, t)
    ensures SessionInv(t, ps) && t.portfolio == s.portfolio && t.networks == s.networks
    decreases |ops|
  {
    hide SessionInv;
    if ops != [] {
      OpKeeps(env, s, ops[0], ps);
      OpFrame(env, s, ops[0], ps);
      RunKeeps(env, After(env, s, ops[0]), ops[1..], t, ps);
    }
  }

  lemma OpFrame(env: Environment, s: Session, op: Op, ps: seq<Policy>)
    requires SessionInv(s, ps) && OpOk(op) && SessionOk(s) && EntriesOk(s)
    ensures After(env, s, op).portfolio == s.portfolio && After(env, s, op).networks == s.networks
    ensures After(env, s, op).registrations == s.registrations
  {
    SessionInvEntries(s, ps);
    hide EvaluateIn, Handoff, Guard, UpdateControls, SessionInv;
    match op
    case DoEvaluate(req, now) =>
      var n := EvaluateShape(env, s, req, now, ps);
    case DoHandoff(w, i, token, now) =>
      HandoffShape(env, s, w, i, token, now);
    case DoControls(c, now) =>
      ControlsScratch(s, c, now);
    case DoGuard(w, commands, now) =>
      GuardScope(env, s, w, commands, now);
  }

  lemma OpenedInv(p: Portfolio, controls: Controls, rs: seq<Registration>, capacity: nat)
    requires forall r :: r in rs ==> RegistrationOk(r)
    requires Open(p, controls, rs, capacity).Ok?
    ensures exists ps :: SessionInv(Open(p, controls, rs, capacity).value, ps)
  {
    SessionAppliesUnion(p, controls, rs, capacity);
    var s := Open(p, controls, rs, capacity).value;
    var ps :| SharedPolicies(s, ps);
    BaseIsSound(s.portfolio, s.networks);
    hide Base, Get;
    assert s.entries == [] && Reservations([], None) == [];
    assert SessionInv(s, ps);
  }

  /** The totals of what a session holds, measured on the portfolio it was opened with. */
  ghost predicate SafeTotals(p: Portfolio, t: Session, registered: Policy, asset: Id, network: Id, key: InstrumentId) {
    var held := Reservations(t.entries, None);
    match Base(p, t.networks)
    case None => held == []
    case Some(base) =>
      && Sum(Debits(held)) <= p.cash
      && Sum(Sells(held, key)) <= Get(base.quantities, key)
      && (SomeBuy(held) ==> Caps(base, held, registered, asset, network, p.equity))
      && (SomeBuy(held) && NoSells(held) ==>
            Caps(base, held, registered, asset, network, p.equity - Sum(Costs(held))))
  }

  lemma ReachableInv(
      env: Environment, p: Portfolio, controls: Controls, rs: seq<Registration>, capacity: nat,
      ops: seq<Op>, t: Session, registered: Policy) returns (ps: seq<Policy>)
    requires forall r :: r in rs ==> RegistrationOk(r)
    requires Open(p, controls, rs, capacity).Ok?
    requires Run(env, Open(p, controls, rs, capacity).value, ops, t)
    requires exists r :: r in rs && registered in r.policies
    ensures SessionInv(t, ps) && registered in ps && t.portfolio == p
  {
    var s := Open(p, controls, rs, capacity).value;
    OpenedInv(p, controls, rs, capacity);
    SessionAppliesUnion(p, controls, rs, capacity);
    OpenedPortfolio(p, controls, rs, capacity);
    hide Open, SessionInv, Run, SharedPolicies;
    ps :| SessionInv(s, ps);
    InvPolicies(s, ps);
    UnionHas(s, rs, ps, registered);
    RunKeeps(env, s, ops, t, ps);
  }

  /**
   * Over any run of a session: the debits of all reservations together never exceed the cash, the
   * reserved sells of an instrument never exceed what is held, and once a buy is reserved the
   * starting exposure plus all reserved buys stays within every policy's gross, asset and network
   * share of the starting equity. If nothing was sold the same shares hold of the equity left after
   * every reserved cost.
   */
  lemma WholeSessionSafety(
      env: Environment, p: Portfolio, controls: Controls, rs: seq<Registration>, capacity: nat,
      ops: seq<Op>, t: Session, registered: Policy, asset: Id, network: Id, key: InstrumentId)
    requires forall r :: r in rs ==> RegistrationOk(r)
    requires Open(p, controls, rs, capacity).Ok?
    requires Run(env, Open(p, controls, rs, capacity).value, ops, t)
    requires exists r :: r in rs && registered in r.policies
    ensures SafeTotals(p, t, registered, asset, network, key)
  {
    hide SafeTotals, Open, SessionInv, Run;
    var ps := ReachableInv(env, p, controls, rs, capacity, ops, t, registered);
    SafeWhenInv(p, t, ps, registered, asset, network, key);
  }

  lemma SafeWhenInv(
      p: Portfolio, t: Session, ps: seq<Policy>, registered: Policy, asset: Id, network: Id, key: InstrumentId)
    requires SessionInv(t, ps) && registered in ps && t.portfolio == p
    ensures SafeTotals(p, t, registered, asset, network, key)
  {
    hide Base, Bounds, Caps, SessionInv, ReserveAll, Sum, Debits, Costs, Sells, Get, NoSells, SomeBuy;
    InvBounds(t, ps);
    if Base(p, t.networks).Some? {
      BoundsAsTotals(Base(p, t.networks).value, Reservations(t.entries, None), ps, registered, asset, network, key);
      BaseFields(p, t.networks);
    }
  }

  /**
   * Later buys never withdraw an earlier approval: while nothing was sold and the request's own
   * context still holds, the recheck of a reserved buy that pays a fee approves it again. The
   * recheck of a sell does so whatever was approved since.
   */
  lemma LaterApprovalsDoNotWithdraw(env: Environment, s: Session, ps: seq<Policy>, e: Entry, now: int)
    requires SessionInv(s, ps) && SessionOk(s) && e in s.entries && e.reservation.Some?
    requires EntryOk(s, ps, e)
    requires Base(s.portfolio, s.networks).Some?
    requires var reg := s.registrations[e.request.intent.agentVersion];
             ContextReasons(env, e.request, reg, s.portfolio, s.controls, now) == []
    requires EntryQuote(s, e).buying ==>
               NoSells(Reservations(s.entries, None)) && FeeCost(EntryQuote(s, e), e.record.evaluation.approved) > 0
    ensures StillApproved(Recheck(env, s, e, now), e.record)
  {
    hide Fits, GatesOpen, PlainFits, FeeCost, WorstPrice, QuantityFor, Bounds, Base, ReserveAll, ContextReasons, Size, Distinct;
    var i := e.request.intent;
    var base := Base(s.portfolio, s.networks).value;
    var q, c := EntryQuote(s, e), e.record.evaluation.approved;
    assert Stands(s, ps, base, e);
    var k: nat :| c == k * q.increment;
    SizingIsExact(q, Others(s, base, e), ps, k);
    ApprovalGrounds(env, e.request, s.registrations[i.agentVersion], s.portfolio, s.controls, s.networks,
                    Reservations(s.entries, Some(i.id)), now);
  }

  lemma OpenedPortfolio(p: Portfolio, controls: Controls, rs: seq<Registration>, capacity: nat)
    requires forall r :: r in rs ==> RegistrationOk(r)
    requires Open(p, controls, rs, capacity).Ok?
    ensures Open(p, controls, rs, capacity).value.portfolio == p
  {
  }

  lemma InvPolicies(s: Session, ps: seq<Policy>)
    requires SessionInv(s, ps)
    ensures SharedPolicies(s, ps)
  {
  }

  lemma InvBounds(s: Session, ps: seq<Policy>)
    requires SessionInv(s, ps)
    ensures var held := Reservations(s.entries, None);
            match Base(s.portfolio, s.networks)
            case None => held == []
            case Some(base) => Bounds(base, ReserveAll(base, held), held, ps)
  {
  }

  ghost predicate Caps(base: Account, held: seq<Reservation>, p: Policy, asset: Id, network: Id, equity: int) {
    && Within(base.exposure + Sum(Buys(held)), p.maxGrossPct, equity)
    && (asset in ReserveAll(base, held).assets ==>
          Within(Get(base.assets, asset) + Sum(AssetBuys(held, asset)), p.maxAssetPct, equity))
    && (network in ReserveAll(base, held).networks ==>
          Within(Get(base.networks, network) + Sum(NetworkBuys(held, network)), p.maxNetworkPct, equity))
  }

  lemma UnionHas(s: Session, rs: seq<Registration>, ps: seq<Policy>, p: Policy)
    requires SharedPolicies(s, ps)
    requires forall r :: r in rs ==> r.version in s.registrations &&
                                     forall q :: q in r.policies ==> q in s.registrations[r.version].policies
    requires exists r :: r in rs && p in r.policies
    ensures p in ps
  {
  }

  lemma BaseFields(p: Portfolio, networks: map<InstrumentId, Id>)
    requires Base(p, networks).Some?
    ensures Base(p, networks).value.cash == p.cash && Base(p, networks).value.equity == p.equity
  {
  }

  lemma BoundsAsTotals(
      base: Account, held: seq<Reservation>, ps: seq<Policy>, p: Policy, asset: Id, network: Id, key: InstrumentId)
    requires Bounds(base, ReserveAll(base, held), held, ps) && p in ps
    ensures Sum(Debits(held)) <= base.cash
    ensures Sum(Sells(held, key)) <= Get(base.quantities, key)
    ensures SomeBuy(held) ==> Caps(base, held, p, asset, network, base.equity)
    ensures SomeBuy(held) && NoSells(held) ==> Caps(base, held, p, asset, network, base.equity - Sum(Costs(held)))
  {
    hide Sum, Within, ReserveAll, Get, Buys, Costs, Debits, Sells, AssetBuys, NetworkBuys;
    ReserveAllTotals(base, held, asset, network, key);
  }
}
