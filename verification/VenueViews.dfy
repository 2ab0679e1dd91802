/** Any number of brokers over one venue: what they may report, and what reconciliation discovers. */
module VenueViews {
  import opened Outcomes
  import opened Domain
  import opened LedgerModel
  import LC = LedgerConservation
  import LR = LedgerRuns
  import LG = LedgerGenerations
  import LH = LedgerHistory
  import RE = RiskEvaluator
  import R = RiskSession
  import RF = RiskSafety
  import RiskSizing
  import opened VenueModel
  import opened VenueSafety

  // ---- Venue operations ---------------------------------------------------------------------------

  /** The journal is only ever extended, and the venue stays sound. */
  ghost predicate Extends(w: World, v: Venue, u: Venue) {
    VenueInv(w, u) && u.initial == v.initial && u.config == v.config && v.entries <= u.entries
  }

  /** Moving the session or the clock touches no journal. */
  lemma ScratchKeeps(w: World, v: Venue, u: Venue)
    requires VenueInv(w, v) && u == v.(risk := u.risk, lastNow := u.lastNow)
    requires RF.RiskOk(u.risk)
    ensures Extends(w, v, u)
  {
    hide ReplayLedger, ConfigOk, LG.InitialOk, RF.SessionInv, EntriesOk, CommandsOk;
    var ps :| RF.SessionInv(u.risk, ps);
    RF.SessionInvEntries(u.risk, ps);
  }

  lemma CommitExtends(w: World, v: Venue, command: Command)
    requires VenueInv(w, v) && CommandOk(command)
    ensures Commit(w, v, command).Ok? ==> Extends(w, v, Commit(w, v, command).value)
  {
    hide VenueInv, Commit, CommandOk;
    InvVenue(w, v);
    CommitKeeps(w, v, command);
  }

  lemma InvVenue(w: World, v: Venue)
    requires VenueInv(w, v)
    ensures VenueOk(v) && RF.RiskOk(v.risk)
  {
  }

  lemma ExtendsTransitive(w: World, s: Venue, t: Venue, u: Venue)
    requires Extends(w, s, t) && Extends(w, t, u)
    ensures Extends(w, s, u)
  {
    hide VenueInv;
  }

  /** A permit a session hands off is one the ledger's command contract admits. */
  lemma HandedPermitOk(env: RE.Environment, s: R.Session, ps: seq<RiskSizing.Policy>, workspace: Id, intent: Id, token: int, now: int)
    requires RF.SessionInv(s, ps) && R.SessionOk(s) && R.EntriesOk(s)
    ensures RF.RiskOk(R.Handoff(env, s, workspace, intent, token, now).state)
    ensures var r := R.Handoff(env, s, workspace, intent, token, now).result;
            r.Ok? && r.value.Some? ==> forall at :: CommandOk(SubmitPermit(at, r.value.value))
  {
    hide R.Handoff, RF.Bounds, RF.Stands, RF.Sorted;
    RF.HandoffKeeps(env, s, workspace, intent, token, now, ps);
    IssuedFromEntry(env, s, workspace, intent, token, now);
    R.FindIs(s.entries, intent);
    var r := R.Handoff(env, s, workspace, intent, token, now).result;
    if r.Ok? && r.value.Some? {
      var e := s.entries[R.Find(s.entries, intent).value];
      assert RF.EntryOk(s, ps, e);
      assert RE.RegistrationOk(s.registrations[e.request.intent.agentVersion]);
    }
  }

  lemma IssuedFromEntry(env: RE.Environment, s: R.Session, workspace: Id, intent: Id, token: int, now: int)
    requires R.SessionOk(s) && R.EntriesOk(s)
    ensures var r := R.Handoff(env, s, workspace, intent, token, now).result;
            r.Ok? && r.value.Some? ==>
              && R.Find(s.entries, intent).Some? && R.Find(s.entries, intent).value < |s.entries|
              && var e := s.entries[R.Find(s.entries, intent).value];
                 RE.IsApproved(e.record) && e.request.intent.agentVersion in s.registrations &&
                 r.value.value == R.PermitFor(s, e, token, now)
  {
    hide R.Recheck, R.StillApproved, RE.IsApproved, R.ClockOk, R.AuditFull, R.Find, R.PermitFor;
    R.FindIs(s.entries, intent);
    PermitIgnoresClock(s, s.(lastNow := Some(now)));
  }

  lemma PermitIgnoresClock(s: R.Session, t: R.Session)
    requires t == s.(lastNow := t.lastNow)
    ensures forall e: R.Entry, token, now :: e.request.intent.agentVersion in s.registrations ==>
              R.PermitFor(t, e, token, now) == R.PermitFor(s, e, token, now)
  {
  }

  lemma SubmitExtends(w: World, v: Venue, workspace: Id, intent: Id, token: int, c: Readings)
    requires VenueInv(w, v)
    ensures VenueOk(v)
    ensures Extends(w, v, Submit(w, v, workspace, intent, token, c).venue)
  {
    hide VenueInv, Commit, R.Handoff, Snapshot, OrderOf, CommandOk, RF.RiskOk;
    InvVenue(w, v);
    SameVenue(w, v);
    var r := Submit(w, v, workspace, intent, token, c);
    if r.venue != v {
      var ps := SessionPolicies(v.risk);
      HandedPermitOk(w.risk, v.risk, ps, workspace, intent, token, c.risk);
      R.HandoffScope(w.risk, v.risk, workspace, intent, token, c.risk);
      var handed := R.Handoff(w.risk, v.risk, workspace, intent, token, c.risk);
      var u := v.(risk := handed.state, lastNow := c.before);
      var ready := u.(lastNow := c.after);
      ScratchKeeps(w, v, u);
      ScratchKeeps(w, v, ready);
      if handed.result.Ok? && handed.result.value.Some? {
        CommitExtends(w, ready, SubmitPermit(c.after, handed.result.value.value));
        InvVenue(w, ready);
        if Commit(w, ready, SubmitPermit(c.after, handed.result.value.value)).Ok? {
          ExtendsTransitive(w, v, ready, Commit(w, ready, SubmitPermit(c.after, handed.result.value.value)).value);
        }
      }
    }
  }

  lemma SessionPolicies(s: R.Session) returns (ps: seq<RiskSizing.Policy>)
    requires RF.RiskOk(s)
    ensures RF.SessionInv(s, ps)
  {
    hide RF.SessionInv;
    ps :| RF.SessionInv(s, ps);
  }

  lemma SameVenue(w: World, v: Venue)
    requires VenueInv(w, v)
    ensures Extends(w, v, v)
  {
    hide VenueInv;
  }

  lemma ObserveExtends(w: World, v: Venue, workspace: Id, book: Book, now: int, riskNow: int)
    requires VenueInv(w, v) && BookOk(book)
    ensures VenueOk(v)
    ensures Extends(w, v, ObserveBookAt(w, v, workspace, book, now, riskNow).venue)
  {
    hide VenueInv, Commit, R.Guard, Exposed, BookOk, RF.RiskOk;
    InvVenue(w, v);
    SameVenue(w, v);
    var r := ObserveBookAt(w, v, workspace, book, now, riskNow);
    if r.venue != v {
      var commands := Exposed(v.ledger.orders, book.instrument);
      var guard := R.Guard(w.risk, v.risk, workspace, commands, riskNow);
      GuardRisk(w.risk, v.risk, workspace, commands, riskNow);
      var u := v.(risk := guard.state, lastNow := now);
      ScratchKeeps(w, v, u);
      InvVenue(w, u);
      if guard.result.Ok? {
        var command := ObserveBook(now, book, guard.result.value);
        CommitExtends(w, u, command);
        if Commit(w, u, command).Ok? {
          ExtendsTransitive(w, v, u, Commit(w, u, command).value);
        }
      }
    }
  }

  lemma GuardRisk(env: RE.Environment, s: R.Session, workspace: Id, commands: seq<(Id, int)>, now: int)
    requires RF.RiskOk(s) && R.SessionOk(s) && R.EntriesOk(s)
    ensures RF.RiskOk(R.Guard(env, s, workspace, commands, now).state)
  {
    hide RF.SessionInv, R.Guard;
    var ps :| RF.SessionInv(s, ps);
    R.GuardScope(env, s, workspace, commands, now);
    RF.ScratchKeeps(s, R.Guard(env, s, workspace, commands, now).state, ps);
  }

  lemma CancelExtends(w: World, v: Venue, workspace: Id, id: ClientOrderId, now: int)
    requires VenueInv(w, v)
    ensures VenueOk(v)
    ensures Extends(w, v, CancelAt(w, v, workspace, id, now).venue)
  {
    hide VenueInv, Commit, OrderOf;
    InvVenue(w, v);
    SameVenue(w, v);
    var r := CancelAt(w, v, workspace, id, now);
    if r.venue != v {
      var u := v.(lastNow := now);
      ScratchKeeps(w, v, u);
      InvVenue(w, u);
      CommitExtends(w, u, CancelOrder(now, id));
      if Commit(w, u, CancelOrder(now, id)).Ok? {
        ExtendsTransitive(w, v, u, Commit(w, u, CancelOrder(now, id)).value);
      }
    }
  }

  /** Reconciliation never reports a mismatch, and moves only the clock. */
  lemma ReconcileIsLive(w: World, v: Venue, now: int)
    requires VenueInv(w, v)
    ensures VenueOk(v) && Snapshot(v.ledger).Ok?
    ensures Extends(w, v, Reconcile(w, v, now).venue)
    ensures Reconcile(w, v, now).result == (if now < v.lastNow then Err(ClockMovedBackwards) else ShownBy(v))
    ensures Reconcile(w, v, now).venue == v.(lastNow := Reconcile(w, v, now).venue.lastNow)
  {
    hide VenueInv, Snapshot, Replay, RF.RiskOk;
    InvVenue(w, v);
    ReplayRefinesLive(w, v);
    SameVenue(w, v);
    ScratchKeeps(w, v, v.(lastNow := now));
  }

  // ---- Brokers ---------------------------------------------------------------------------------------

  /** The ledger the first `n` entries lead to. */
  ghost function LedgerAt(w: World, v: Venue, n: nat): Result<Ledger, VenueError>
    requires VenueOk(v) && n <= |v.entries|
  {
    ReplayLedger(w, v.initial, v.config, v.entries[..n])
  }

  /** A broker's copy is what the venue showed at some point of its journal. */
  ghost predicate BrokerInv(w: World, v: Venue, b: Broker) {
    && VenueOk(v) && b.sequence <= |v.entries|
    && LedgerAt(w, v, b.sequence).Ok? && Snapshot(LedgerAt(w, v, b.sequence).value) == Ok(b.state)
  }

  lemma CopyStays(w: World, v: Venue, u: Venue, b: Broker)
    requires BrokerInv(w, v, b) && Extends(w, v, u)
    ensures BrokerInv(w, u, b)
  {
    hide VenueInv, ReplayLedger, Snapshot;
    InvVenue(w, u);
    assert u.entries[..b.sequence] == v.entries[..b.sequence];
  }

  lemma TrustIgnored(w: World, v: Venue, b: Broker, connected: bool)
    requires BrokerInv(w, v, b)
    ensures BrokerInv(w, v, b.(connected := connected))
  {
    hide Snapshot, ReplayLedger;
  }

  lemma CurrentCopy(w: World, v: Venue)
    requires VenueInv(w, v)
    ensures Connect(v).Ok? && BrokerInv(w, v, Connect(v).value) && Connect(v).value.connected
  {
    hide ReplayLedger, Snapshot, LG.InitialOk, RF.RiskOk, ConfigOk, EntriesOk, CommandsOk, R.SessionOk, R.EntriesOk;
    ReplayRefinesLive(w, v);
    assert v.entries[..|v.entries|] == v.entries;
  }

  lemma SettledVenue<T>(s: Step<T>, b: Broker, acknowledge: bool)
    ensures Settled(s, b, acknowledge).venue == s.venue
  {
    hide Connect;
  }

  lemma SettledKeeps<T>(w: World, v: Venue, s: Step<T>, b: Broker, acknowledge: bool)
    requires VenueInv(w, v) && BrokerInv(w, v, b) && Extends(w, v, s.venue)
    ensures var r := Settled(s, b, acknowledge); r.venue == s.venue && BrokerInv(w, r.venue, r.broker)
  {
    hide VenueInv, BrokerInv, Connect;
    CopyStays(w, v, s.venue, b);
    TrustIgnored(w, s.venue, b, false);
    CurrentCopy(w, s.venue);
  }

  // ---- Runs -------------------------------------------------------------------------------------------

  datatype Deed =
    | RiskEvaluates(request: RE.Request, now: int)
    | RiskRenews(controls: RE.Controls, now: int)
    | Joins
    | Submits(broker: nat, intent: Id, token: int, acknowledge: bool, readings: Readings)
    | Observes(broker: nat, book: Book, acknowledge: bool, now: int, riskNow: int)
    | Cancels(broker: nat, id: ClientOrderId, acknowledge: bool, now: int)
    | Reconciles(broker: nat, now: int)

  /** One venue, the session it hands off from, and every broker object made over it. */
  datatype Market = Market(venue: Venue, brokers: seq<Broker>)

  ghost predicate Possible(m: Market, d: Deed) {
    && VenueOk(m.venue)
    && (d.RiskEvaluates? ==> RE.RequestOk(d.request))
    && (d.Observes? ==> BookOk(d.book))
    && (d.Submits? || d.Observes? || d.Cancels? || d.Reconciles? ==> d.broker < |m.brokers|)
  }

  ghost function Next(w: World, m: Market, d: Deed): Market
    requires Possible(m, d)
  {
    match d
    case RiskEvaluates(req, now) => m.(venue := m.venue.(risk := R.EvaluateIn(w.risk, m.venue.risk, req, now).state))
    case RiskRenews(controls, now) => m.(venue := m.venue.(risk := R.UpdateControls(m.venue.risk, controls, now).state))
    case Joins => (match Connect(m.venue) case Err(_) => m case Ok(b) => m.(brokers := m.brokers + [b]))
    case Submits(k, intent, token, ack, c) =>
      var r := BrokerSubmit(w, m.venue, m.brokers[k], intent, token, ack, c); Market(r.venue, m.brokers[k := r.broker])
    case Observes(k, book, ack, now, riskNow) =>
      var r := BrokerObserve(w, m.venue, m.brokers[k], book, ack, now, riskNow); Market(r.venue, m.brokers[k := r.broker])
    case Cancels(k, id, ack, now) =>
      var r := BrokerCancel(w, m.venue, m.brokers[k], id, ack, now); Market(r.venue, m.brokers[k := r.broker])
    case Reconciles(k, now) =>
      var r := BrokerReconcile(w, m.venue, m.brokers[k], now); Market(r.venue, m.brokers[k := r.broker])
  }

  ghost predicate Run(w: World, m: Market, ds: seq<Deed>, n: Market)
    decreases |ds|
  {
    if ds == [] then n == m else Possible(m, ds[0]) && Run(w, Next(w, m, ds[0]), ds[1..], n)
  }

  ghost predicate MarketInv(w: World, m: Market) {
    VenueInv(w, m.venue) && forall k :: 0 <= k < |m.brokers| ==> BrokerInv(w, m.venue, m.brokers[k])
  }

  lemma RiskMoves(w: World, v: Venue, risk: R.Session, op: RF.Op)
    requires VenueInv(w, v) && RF.OpOk(op) && R.SessionOk(v.risk) && R.EntriesOk(v.risk)
    requires risk == RF.After(w.risk, v.risk, op)
    ensures Extends(w, v, v.(risk := risk))
  {
    hide VenueInv, RF.SessionInv, RF.After;
    InvVenue(w, v);
    var ps := SessionPolicies(v.risk);
    RF.OpKeeps(w.risk, v.risk, op, ps);
    ScratchKeeps(w, v, v.(risk := risk));
  }

  /** The venue is extended, and each broker's copy is sound again or was not touched. */
  ghost predicate Moves(w: World, m: Market, n: Market) {
    && Extends(w, m.venue, n.venue) && |m.brokers| <= |n.brokers|
    && forall k :: 0 <= k < |n.brokers| ==>
         (BrokerInv(w, n.venue, n.brokers[k]) || (k < |m.brokers| && n.brokers[k] == m.brokers[k]))
  }

  /** A venue operation through broker `k`, acknowledged or not. */
  lemma BrokerMoves<T>(w: World, m: Market, k: nat, s: Step<T>, ack: bool)
    requires MarketInv(w, m) && k < |m.brokers| && Extends(w, m.venue, s.venue)
    ensures var r := Settled(s, m.brokers[k], ack); Moves(w, m, Market(r.venue, m.brokers[k := r.broker]))
  {
    hide VenueInv, BrokerInv, Extends, Settled;
    SettledKeeps(w, m.venue, s, m.brokers[k], ack);
  }

  lemma SameMoves(w: World, m: Market, v: Venue)
    requires Extends(w, m.venue, v)
    ensures Moves(w, m, m.(venue := v))
  {
    hide Extends, BrokerInv;
  }

  lemma SubmitMoves(w: World, m: Market, k: nat, intent: Id, token: int, ack: bool, c: Readings)
    requires MarketInv(w, m) && k < |m.brokers| && VenueOk(m.venue)
    ensures Moves(w, m, Next(w, m, Submits(k, intent, token, ack, c)))
  {
    hide VenueInv, BrokerInv, Settled, Submit, Extends, View, Moves, VenueOk;
    var v := m.venue;
    SubmitExtends(w, v, v.initial.workspace, intent, token, c);
    BrokerMoves(w, m, k, Submit(w, v, v.initial.workspace, intent, token, c), ack);
    SameVenue(w, v);
    SameMoves(w, m, v);
    assert m.brokers[k := m.brokers[k]] == m.brokers;
  }

  lemma ReconcileMoves(w: World, m: Market, k: nat, now: int)
    requires MarketInv(w, m) && k < |m.brokers| && VenueOk(m.venue)
    ensures Moves(w, m, Next(w, m, Reconciles(k, now)))
  {
    hide VenueInv, BrokerInv, Reconcile, Extends, FillIds, Without, VenueOk;
    ReconcileIsLive(w, m.venue, now);
    ReconciledCopy(w, m.venue, now);
  }

  lemma DeedMoves(w: World, m: Market, d: Deed)
    requires MarketInv(w, m) && Possible(m, d)
    ensures Moves(w, m, Next(w, m, d))
  {
    hide VenueInv, BrokerInv, Settled, ObserveBookAt, CancelAt, Connect, R.EvaluateIn, R.UpdateControls, BookOk, Extends, BrokerSubmit,
         BrokerReconcile, RE.RequestOk, R.SessionOk, R.EntriesOk, ConfigOk;
    var v := m.venue;
    match d {
      case RiskEvaluates(req, now) =>
        RiskMoves(w, v, R.EvaluateIn(w.risk, v.risk, req, now).state, RF.DoEvaluate(req, now));
        SameMoves(w, m, Next(w, m, d).venue);
      case RiskRenews(controls, now) =>
        RiskMoves(w, v, R.UpdateControls(v.risk, controls, now).state, RF.DoControls(controls, now));
        SameMoves(w, m, Next(w, m, d).venue);
      case Joins =>
        CurrentCopy(w, v);
        SameVenue(w, v);
      case Submits(k, intent, token, ack, c) =>
        SubmitMoves(w, m, k, intent, token, ack, c);
      case Observes(k, book, ack, now, riskNow) =>
        ObserveExtends(w, v, v.initial.workspace, book, now, riskNow);
        BrokerMoves(w, m, k, ObserveBookAt(w, v, v.initial.workspace, book, now, riskNow), ack);
      case Cancels(k, id, ack, now) =>
        CancelExtends(w, v, v.initial.workspace, id, now);
        BrokerMoves(w, m, k, CancelAt(w, v, v.initial.workspace, id, now), ack);
      case Reconciles(k, now) =>
        ReconcileMoves(w, m, k, now);
    }
  }

  lemma ReconciledCopy(w: World, v: Venue, now: int)
    requires VenueInv(w, v)
    ensures VenueOk(v)
    ensures var r := Reconcile(w, v, now);
            r.result.Ok? ==> BrokerInv(w, r.venue, Broker(|v.entries|, r.result.value, true)) && r.venue.entries == v.entries
  {
    hide VenueInv, ReplayLedger, Snapshot, Reconcile;
    InvVenue(w, v);
    ReconcileIsLive(w, v, now);
    CurrentCopy(w, v);
    CopyStays(w, v, Reconcile(w, v, now).venue, Connect(v).value);
  }

  lemma NextKeeps(w: World, m: Market, d: Deed)
    requires MarketInv(w, m) && Possible(m, d)
    ensures MarketInv(w, Next(w, m, d)) && Extends(w, m.venue, Next(w, m, d).venue)
  {
    hide VenueInv, BrokerInv, Next;
    DeedMoves(w, m, d);
    var n := Next(w, m, d);
    forall k | 0 <= k < |n.brokers|
      ensures BrokerInv(w, n.venue, n.brokers[k])
    {
      if k < |m.brokers| && n.brokers[k] == m.brokers[k] {
        CopyStays(w, m.venue, n.venue, m.brokers[k]);
      }
    }
  }

  lemma {:induction false} RunKeeps(w: World, m: Market, ds: seq<Deed>, n: Market)
    requires MarketInv(w, m) && Run(w, m, ds, n)
    ensures MarketInv(w, n) && Extends(w, m.venue, n.venue)
    decreases |ds|
  {
    hide MarketInv, Next, Extends, Possible;
    if ds == [] {
      MarketVenue(w, m);
      SameVenue(w, m.venue);
    } else {
      NextKeeps(w, m, ds[0]);
      RunKeeps(w, Next(w, m, ds[0]), ds[1..], n);
      ExtendsTransitive(w, m.venue, Next(w, m, ds[0]).venue, n.venue);
    }
  }

  lemma MarketVenue(w: World, m: Market)
    requires MarketInv(w, m)
    ensures VenueInv(w, m.venue) && VenueOk(m.venue)
  {
  }

  // ---- Theorems ---------------------------------------------------------------------------------------

  /** A venue opened over a fresh ledger and any session that keeps the risk invariant. */
  ghost predicate Starts(w: World, initial: Portfolio, config: Config, risk: R.Session, capacity: nat, m: Market) {
    && ConfigOk(config) && LG.InitialOk(initial) && RF.RiskOk(risk)
    && Open(w, initial, config, risk, capacity) == Ok(m.venue) && m.brokers == []
  }

  lemma StartInv(w: World, initial: Portfolio, config: Config, risk: R.Session, capacity: nat, m: Market)
    requires Starts(w, initial, config, risk, capacity, m)
    ensures MarketInv(w, m)
  {
    hide ConfigOk, Create, Snapshot, RF.SessionInv, LG.InitialOk, RF.RiskOk;
    var ps := SessionPolicies(risk);
    RF.SessionInvEntries(risk, ps);
    LG.CreateKeeps(initial, config);
    CreatedConfig(initial, config);
    var v := m.venue;
    assert v.entries == [] && v.risk == risk;
    assert ReplayLedger(w, v.initial, v.config, v.entries) == Ok(v.ledger);
  }

  lemma CreatedConfig(p: Portfolio, c: Config)
    requires Create(p, c).Ok?
    ensures Create(p, c).value.config == c
  {
  }

  /**
   * At any point of any run, replaying the exported journal is accepted and returns exactly the live
   * snapshot, and a broker that reports itself reconciled shows exactly that snapshot.
   */
  lemma ViewsAreHonest(
      w: World, initial: Portfolio, config: Config, risk: R.Session, capacity: nat, m: Market, ds: seq<Deed>, n: Market, k: nat)
    requires Starts(w, initial, config, risk, capacity, m) && Run(w, m, ds, n)
    ensures VenueOk(n.venue) && Snapshot(n.venue.ledger).Ok?
    ensures Replay(w, Export(n.venue)) == ShownBy(n.venue)
    ensures k < |n.brokers| && View(n.brokers[k], n.venue).portfolio.isReconciled ==>
              View(n.brokers[k], n.venue) == Snapshot(n.venue.ledger).value
  {
    hide Starts, Run, VenueInv, ReplayLedger, Snapshot, ConfigOk, EntriesOk, R.SessionOk, R.EntriesOk;
    StartInv(w, initial, config, risk, capacity, m);
    RunKeeps(w, m, ds, n);
    MarketVenue(w, n);
    ReplayRefinesLive(w, n.venue);
    if k < |n.brokers| && View(n.brokers[k], n.venue).portfolio.isReconciled {
      HonestView(w, n.venue, n.brokers[k]);
    }
  }

  lemma HonestView(w: World, v: Venue, b: Broker)
    requires VenueInv(w, v) && BrokerInv(w, v, b) && View(b, v).portfolio.isReconciled
    ensures Snapshot(v.ledger) == Ok(View(b, v))
  {
    hide Snapshot, ConfigOk, R.SessionOk, R.EntriesOk, LG.InitialOk, RF.RiskOk, CommandsOk;
    assert v.entries[..|v.entries|] == v.entries;
  }

  lemma {:induction false} FillIdsAre(orders: seq<Order>, id: FillId)
    ensures id in FillIds(orders) <==> exists i :: 0 <= i < |orders| && id in IdsOf(orders[i])
  {
    hide IdsOf;
    if orders != [] {
      var n := |orders| - 1;
      FillIdsAre(orders[..n], id);
      forall i | 0 <= i < n
        ensures orders[..n][i] == orders[i]
      {
      }
    }
  }

  lemma GrownIds(o: Order, p: Order, id: FillId)
    requires o.fills <= p.fills && id in IdsOf(o)
    ensures id in IdsOf(p)
  {
    var j :| 0 <= j < |IdsOf(o)| && IdsOf(o)[j] == id;
    assert IdsOf(p)[j] == id;
  }

  /** Evolution keeps every fill. */
  lemma EvolutionKeepsFills(s: Ledger, t: Ledger, id: FillId)
    requires LR.Evolves(s, t) && id in FillIds(Orders(s))
    ensures id in FillIds(Orders(t))
  {
    hide IdsOf, FillIds;
    FillIdsAre(Orders(s), id);
    FillIdsAre(Orders(t), id);
    var i :| 0 <= i < |Orders(s)| && id in IdsOf(Orders(s)[i]);
    assert LC.Grows(s.orders[i], t.orders[i]);
    GrownIds(Orders(s)[i], Orders(t)[i], id);
  }

  /** No fill a venue ever showed disappears from it. */
  lemma FillsNeverDisappear(w: World, m: Market, ds: seq<Deed>, n: Market, id: FillId)
    requires MarketInv(w, m) && Run(w, m, ds, n) && id in FillIds(Orders(m.venue.ledger))
    ensures id in FillIds(Orders(n.venue.ledger))
  {
    hide MarketInv, Run, FillIds, LR.Evolves;
    RunKeeps(w, m, ds, n);
    MarketVenue(w, m);
    MarketVenue(w, n);
    EarlierEvolves(w, m.venue, n.venue);
    EvolutionKeepsFills(m.venue.ledger, n.venue.ledger, id);
  }

  lemma EarlierEvolves(w: World, v: Venue, u: Venue)
    requires VenueInv(w, v) && Extends(w, v, u)
    ensures LR.Evolves(v.ledger, u.ledger)
  {
    hide ConfigOk, R.SessionOk, R.EntriesOk, LG.InitialOk, RF.RiskOk, LR.Evolves, LH.Sound, ReplayLedger, EntriesOk, CommandsOk;
    ReplayIsSound(w, Export(u), |v.entries|);
    assert u.entries[..|v.entries|] == v.entries;
  }

  lemma {:induction false} WithoutIs(ids: seq<FillId>, known: seq<FillId>, id: FillId)
    ensures id in Without(ids, known) <==> id in ids && id !in known
  {
    if ids != [] {
      var n := |ids| - 1;
      WithoutIs(ids[..n], known, id);
      assert ids == ids[..n] + [ids[n]];
    }
  }

  lemma ShownOrders(s: Ledger)
    requires Snapshot(s).Ok?
    ensures Snapshot(s).value.orders == Orders(s)
  {
    hide Value;
  }

  /**
   * Reconciliation discovers exactly the fills missing from the broker's previous copy; together with
   * those it already had they are all fills of the venue, and afterwards the broker is current.
   */
  lemma ReconciliationDiscoversWhatWasMissed(w: World, m: Market, k: nat, now: int, id: FillId)
    requires MarketInv(w, m) && k < |m.brokers| && m.venue.lastNow <= now
    ensures VenueOk(m.venue)
    ensures var b, r := m.brokers[k], BrokerReconcile(w, m.venue, m.brokers[k], now);
            && r.result.Ok?
            && (id in r.result.value.discovered <==> id in FillIds(Orders(m.venue.ledger)) && id !in FillIds(b.state.orders))
            && (id in FillIds(b.state.orders) ==> id in FillIds(Orders(m.venue.ledger)))
            && Snapshot(r.venue.ledger) == Ok(View(r.broker, r.venue))
  {
    hide MarketInv, Reconcile, FillIds, Without, Snapshot, LR.Evolves, VenueInv;
    MarketVenue(w, m);
    var v, b := m.venue, m.brokers[k];
    ReconcileIsLive(w, v, now);
    ShownOrders(v.ledger);
    WithoutIs(FillIds(Orders(v.ledger)), FillIds(b.state.orders), id);
    MarketBroker(w, m, k);
    if id in FillIds(b.state.orders) {
      CopyEvolves(w, v, b);
      EvolutionKeepsFills(LedgerAt(w, v, b.sequence).value, v.ledger, id);
    }
  }

  lemma MarketBroker(w: World, m: Market, k: nat)
    requires MarketInv(w, m) && k < |m.brokers|
    ensures BrokerInv(w, m.venue, m.brokers[k])
  {
  }

  lemma CopyEvolves(w: World, v: Venue, b: Broker)
    requires VenueInv(w, v) && BrokerInv(w, v, b)
    ensures b.state.orders == Orders(LedgerAt(w, v, b.sequence).value)
    ensures LR.Evolves(LedgerAt(w, v, b.sequence).value, v.ledger)
  {
    hide ConfigOk, R.SessionOk, R.EntriesOk, LG.InitialOk, RF.RiskOk, LR.Evolves, LH.Sound, Snapshot;
    ShownOrders(LedgerAt(w, v, b.sequence).value);
    ReplayIsSound(w, Export(v), b.sequence);
  }
}
