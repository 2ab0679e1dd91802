/** What a venue's journal holds over any run: every intent once, every book once, and what repeats are answered. */
module VenueRecords {
  import opened Outcomes
  import opened Domain
  import opened LedgerModel
  import LC = LedgerConservation
  import LR = LedgerRuns
  import LG = LedgerGenerations
  import LH = LedgerHistory
  import RE = RiskEvaluator
  import R = RiskSession
  import RF = RiskSafety
  import opened VenueModel
  import opened VenueSafety
  import opened VenueViews

  // ---- The indexes ----------------------------------------------------------------------------------

  function BookKey(b: Book): (InstrumentId, nat) {
    (b.instrument, b.sequence)
  }

  /** The entry submits a permit for intent `k`. */
  predicate SubmitsFor(e: JournalEntry, k: Id) {
    e.command.SubmitPermit? && e.command.permit.approval.intent == k
  }

  /** The entry is of a book under key `k`. */
  predicate ObservesAt(e: JournalEntry, k: (InstrumentId, nat)) {
    e.command.ObserveBook? && BookKey(e.command.book) == k
  }

  /** Every submission is indexed under its intent, once, and nothing else is. */
  ghost predicate SubmissionsIndexed(v: Venue) {
    && (forall i, k :: 0 <= i < |v.entries| && SubmitsFor(v.entries[i], k) ==>
          k in v.intents && v.intents[k] == v.entries[i].command.permit.approval.clientOrderId)
    && (forall i, j, k :: 0 <= i < j < |v.entries| && SubmitsFor(v.entries[i], k) ==> !SubmitsFor(v.entries[j], k))
    && (forall k :: k in v.intents ==> exists i :: 0 <= i < |v.entries| && SubmitsFor(v.entries[i], k))
  }

  ghost predicate OrdersIndexed(v: Venue) {
    forall k :: k in v.intents ==>
      exists i :: 0 <= i < |v.ledger.orders| && v.ledger.orders[i].order.clientOrderId == v.intents[k]
                  && v.ledger.orders[i].order.intent == k
  }

  /** Every book is indexed under its instrument and number by its hash, once, and nothing else is. */
  ghost predicate BooksIndexed(w: World, v: Venue) {
    && (forall i, k :: 0 <= i < |v.entries| && ObservesAt(v.entries[i], k) ==>
          k in v.marketKeys && v.marketKeys[k] == w.hash(OfBook(v.entries[i].command.book)))
    && (forall i, j, k :: 0 <= i < j < |v.entries| && ObservesAt(v.entries[i], k) ==> !ObservesAt(v.entries[j], k))
    && (forall k :: k in v.marketKeys ==> exists i :: 0 <= i < |v.entries| && ObservesAt(v.entries[i], k))
  }

  /** The journal is within its capacity and never goes back in time. */
  ghost predicate JournalOrdered(v: Venue) {
    && |v.entries| <= v.capacity
    && (forall i :: 0 <= i < |v.entries| ==> v.entries[i].command.at <= v.lastNow)
    && (forall i, j :: 0 <= i <= j < |v.entries| ==> v.entries[i].command.at <= v.entries[j].command.at)
  }

  ghost predicate Indexed(w: World, v: Venue) {
    SubmissionsIndexed(v) && OrdersIndexed(v) && BooksIndexed(w, v) && JournalOrdered(v)
  }

  // ---- One commit ---------------------------------------------------------------------------------------

  /** The command is about nothing the venue has seen, at its latest time. */
  ghost predicate IsNew(v: Venue, command: Command) {
    && (command.SubmitPermit? ==> command.permit.approval.intent !in v.intents)
    && (command.ObserveBook? ==> BookKey(command.book) !in v.marketKeys)
    && command.at == v.lastNow
  }

  /** What a commit does beside the ledger. */
  lemma CommitIs(w: World, v: Venue, command: Command)
    requires VenueOk(v) && MarketOk(command) && Commit(w, v, command).Ok?
    ensures var u := Commit(w, v, command).value;
            && |v.entries| < v.capacity
            && |u.entries| == |v.entries| + 1 && u.entries[..|v.entries|] == v.entries && u.entries[|v.entries|].command == command
            && Apply(v.ledger, w.risk.portfolioHash, command) == Ok(u.ledger)
            && u == v.(entries := u.entries, ledger := u.ledger, intents := u.intents, marketKeys := u.marketKeys)
            && u.intents == (if command.SubmitPermit? then v.intents[command.permit.approval.intent := command.permit.approval.clientOrderId]
                             else v.intents)
            && u.marketKeys == (if command.ObserveBook? then v.marketKeys[BookKey(command.book) := w.hash(OfBook(command.book))]
                                else v.marketKeys)
  {
    hide VenueOk, Apply, Snapshot, ConfigOk, MarketOk, ChainHash, EntryHash;
  }

  lemma Appended(xs: seq<JournalEntry>, ys: seq<JournalEntry>)
    requires |ys| == |xs| + 1 && ys[..|xs|] == xs
    ensures forall i :: 0 <= i < |xs| ==> ys[i] == xs[i]
  {
    forall i | 0 <= i < |xs|
      ensures ys[i] == xs[i]
    {
      assert ys[..|xs|][i] == ys[i];
    }
  }

  lemma CommitSubmissions(v: Venue, u: Venue, command: Command)
    requires SubmissionsIndexed(v) && IsNew(v, command)
    requires |u.entries| == |v.entries| + 1 && u.entries[..|v.entries|] == v.entries && u.entries[|v.entries|].command == command
    requires u.intents == (if command.SubmitPermit? then v.intents[command.permit.approval.intent := command.permit.approval.clientOrderId]
                           else v.intents)
    ensures SubmissionsIndexed(u)
  {
    var n := |v.entries|;
    Appended(v.entries, u.entries);
    forall k
      ensures SubmitsFor(u.entries[n], k) ==> k !in v.intents && k in u.intents
    {
    }
    hide SubmitsFor;
    forall k | k in u.intents
      ensures exists i :: 0 <= i < |u.entries| && SubmitsFor(u.entries[i], k)
    {
      if k in v.intents {
        var i :| 0 <= i < n && SubmitsFor(v.entries[i], k);
        assert SubmitsFor(u.entries[i], k);
      } else {
        OwnIntent(u.entries[n], k);
      }
    }
    forall i, j, k | 0 <= i < j < |u.entries| && SubmitsFor(u.entries[i], k)
      ensures !SubmitsFor(u.entries[j], k)
    {
      assert u.entries[i] == v.entries[i];
    }
    forall i, k | 0 <= i < |u.entries| && SubmitsFor(u.entries[i], k)
      ensures k in u.intents && u.intents[k] == u.entries[i].command.permit.approval.clientOrderId
    {
      if i < n {
        assert u.entries[i] == v.entries[i];
      } else {
        TheIntent(u.entries[n], k);
      }
    }
  }

  lemma OwnIntent(e: JournalEntry, k: Id)
    requires e.command.SubmitPermit? && e.command.permit.approval.intent == k
    ensures SubmitsFor(e, k)
  {
  }

  lemma TheIntent(e: JournalEntry, k: Id)
    requires SubmitsFor(e, k)
    ensures e.command.SubmitPermit? && e.command.permit.approval.intent == k
  {
  }

  lemma CommitBooks(w: World, v: Venue, u: Venue, command: Command)
    requires BooksIndexed(w, v) && IsNew(v, command)
    requires |u.entries| == |v.entries| + 1 && u.entries[..|v.entries|] == v.entries && u.entries[|v.entries|].command == command
    requires u.marketKeys == (if command.ObserveBook? then v.marketKeys[BookKey(command.book) := w.hash(OfBook(command.book))]
                              else v.marketKeys)
    ensures BooksIndexed(w, u)
  {
    var n := |v.entries|;
    Appended(v.entries, u.entries);
    forall k
      ensures ObservesAt(u.entries[n], k) ==> k !in v.marketKeys && k in u.marketKeys && u.marketKeys[k] == w.hash(OfBook(command.book))
    {
    }
    forall k | k in u.marketKeys && k !in v.marketKeys
      ensures ObservesAt(u.entries[n], k)
    {
    }
    assert forall k :: k in v.marketKeys ==> k in u.marketKeys && (u.marketKeys[k] == v.marketKeys[k] || ObservesAt(u.entries[n], k));
    hide ObservesAt, BookKey;
    forall k | k in u.marketKeys
      ensures exists i :: 0 <= i < |u.entries| && ObservesAt(u.entries[i], k)
    {
      if k in v.marketKeys {
        var i :| 0 <= i < n && ObservesAt(v.entries[i], k);
        assert ObservesAt(u.entries[i], k);
      }
    }
    forall i, j, k | 0 <= i < j < |u.entries| && ObservesAt(u.entries[i], k)
      ensures !ObservesAt(u.entries[j], k)
    {
      assert u.entries[i] == v.entries[i];
    }
    forall i, k | 0 <= i < |u.entries| && ObservesAt(u.entries[i], k)
      ensures k in u.marketKeys && u.marketKeys[k] == w.hash(OfBook(u.entries[i].command.book))
    {
      if i < n {
        assert u.entries[i] == v.entries[i] && ObservesAt(v.entries[i], k) && k in v.marketKeys;
        assert u.marketKeys[k] == v.marketKeys[k];
      }
    }
  }

  /** Orders keep their names as the ledger evolves. */
  lemma NamesStay(s: Ledger, t: Ledger, i: nat)
    requires LR.Evolves(s, t) && i < |s.orders|
    ensures |s.orders| <= |t.orders| && t.orders[i].order.clientOrderId == s.orders[i].order.clientOrderId
    ensures t.orders[i].order.intent == s.orders[i].order.intent
  {
    assert LC.Grows(s.orders[i], t.orders[i]);
  }

  lemma EvolvedOrders(v: Venue, u: Venue)
    requires OrdersIndexed(v) && LR.Evolves(v.ledger, u.ledger) && u.intents == v.intents
    ensures OrdersIndexed(u)
  {
    hide LR.Evolves;
    forall k | k in u.intents
      ensures exists i :: 0 <= i < |u.ledger.orders| && u.ledger.orders[i].order.clientOrderId == u.intents[k]
                          && u.ledger.orders[i].order.intent == k
    {
      var i :| 0 <= i < |v.ledger.orders| && v.ledger.orders[i].order.clientOrderId == v.intents[k] && v.ledger.orders[i].order.intent == k;
      NamesStay(v.ledger, u.ledger, i);
    }
  }

  /** A submitted permit becomes an order under its intent and its client id. */
  lemma SubmittedOrder(s: Ledger, portfolioHash: Portfolio -> Digest, p: Permit, at: int)
    requires ConfigOk(s.config) && Apply(s, portfolioHash, SubmitPermit(at, p)).Ok?
    ensures var t := Apply(s, portfolioHash, SubmitPermit(at, p)).value;
            && |t.orders| == |s.orders| + 1
            && t.orders[|s.orders|].order.intent == p.approval.intent
            && t.orders[|s.orders|].order.clientOrderId == p.approval.clientOrderId
  {
    hide ReservedCash, SellTargets, LotTarget, Finish, ConfigOk;
    var w := LR.SubmitShape(s, portfolioHash, p, at);
    LG.FinishShape(SubmitOrder(s, portfolioHash, p, at).value, at);
  }

  lemma CommitOrders(w: World, v: Venue, command: Command)
    requires VenueInv(w, v) && CommandOk(command) && OrdersIndexed(v) && IsNew(v, command)
    requires VenueOk(v) && MarketOk(command) && Commit(w, v, command).Ok?
    ensures OrdersIndexed(Commit(w, v, command).value)
  {
    hide VenueInv, Commit, CommandOk, Apply, MarketOk, LR.Evolves, ConfigOk;
    CommitIs(w, v, command);
    var u := Commit(w, v, command).value;
    CommitExtends(w, v, command);
    EarlierEvolves(w, v, u);
    EvolvedOrders(v, u.(intents := v.intents));
    if command.SubmitPermit? {
      var n, a := |v.ledger.orders|, command.permit.approval;
      VenueConfig(v);
      SubmittedOrder(v.ledger, w.risk.portfolioHash, command.permit, command.at);
      forall k | k in u.intents
        ensures exists i :: 0 <= i < |u.ledger.orders| && u.ledger.orders[i].order.clientOrderId == u.intents[k]
                            && u.ledger.orders[i].order.intent == k
      {
        if k == a.intent {
          assert u.ledger.orders[n].order.clientOrderId == u.intents[k];
        } else {
          var i :| 0 <= i < |u.ledger.orders| && u.ledger.orders[i].order.clientOrderId == v.intents[k] && u.ledger.orders[i].order.intent == k;
        }
      }
    }
  }

  lemma VenueConfig(v: Venue)
    requires VenueOk(v)
    ensures ConfigOk(v.ledger.config)
  {
  }

  /** A commit of something new keeps the indexes. */
  lemma CommitIndexes(w: World, v: Venue, command: Command)
    requires VenueInv(w, v) && CommandOk(command) && Indexed(w, v) && IsNew(v, command)
    requires VenueOk(v) && MarketOk(command)
    ensures Commit(w, v, command).Ok? ==> Indexed(w, Commit(w, v, command).value)
  {
    hide VenueInv, Commit, CommandOk, Apply, MarketOk, VenueOk, SubmissionsIndexed, BooksIndexed, OrdersIndexed;
    if Commit(w, v, command).Ok? {
      CommitIs(w, v, command);
      var u := Commit(w, v, command).value;
      CommitSubmissions(v, u, command);
      CommitBooks(w, v, u, command);
      CommitOrders(w, v, command);
      Appended(v.entries, u.entries);
    }
  }

  /** A later clock or another session changes no index. */
  lemma ScratchIndexed(w: World, v: Venue, u: Venue)
    requires Indexed(w, v) && u == v.(risk := u.risk, lastNow := u.lastNow) && v.lastNow <= u.lastNow
    ensures Indexed(w, u)
  {
    hide BookKey;
  }

  // ---- The operations -----------------------------------------------------------------------------------

  /** Handing off moves no clock of the venue, and a permit is for the intent asked for. */
  lemma HandedFor(env: RE.Environment, s: R.Session, workspace: Id, intent: Id, token: int, now: int)
    requires R.SessionOk(s) && R.EntriesOk(s)
    ensures var r := R.Handoff(env, s, workspace, intent, token, now).result;
            r.Ok? && r.value.Some? ==> r.value.value.approval.intent == intent
  {
    hide R.Recheck, R.StillApproved, RE.IsApproved, R.ClockOk, R.AuditFull, R.Find;
    R.FindIs(s.entries, intent);
  }

  /** A submission the venue has not seen: nothing happens, or one entry carries the permit the session handed off. */
  ghost predicate FreshSubmission(w: World, v: Venue, intent: Id, token: int, c: Readings, r: Step<Option<Order>>)
    requires VenueOk(v)
  {
    var handed := R.Handoff(w.risk, v.risk, v.initial.workspace, intent, token, c.risk);
    if r.result.Ok? && r.result.value.Some? then
      && |v.entries| < v.capacity && !v.ledger.isSealed
      && Snapshot(v.ledger).Ok? && Snapshot(v.ledger).value.portfolio.isReconciled
      && v.lastNow <= c.before <= c.after
      && handed.result.Ok? && handed.result.value.Some?
      && r.venue.risk == handed.state && r.venue.lastNow == c.after
      && |r.venue.entries| == |v.entries| + 1 && v.entries <= r.venue.entries
      && r.venue.entries[|v.entries|].command == SubmitPermit(c.after, handed.result.value.value)
      && r.result.value.value.clientOrderId == handed.result.value.value.approval.clientOrderId
    else r.venue.entries == v.entries && r.venue.ledger == v.ledger
  }

  lemma OrderOfIs(v: Venue, id: ClientOrderId)
    ensures OrderOf(v, id).Ok? ==> exists i :: 0 <= i < |v.ledger.orders| && v.ledger.orders[i].order == OrderOf(v, id).value
                                               && OrderOf(v, id).value.clientOrderId == id
    ensures OrderOf(v, id).Err? <==> forall i :: 0 <= i < |v.ledger.orders| ==> v.ledger.orders[i].order.clientOrderId != id
  {
    FindOrderIs(v.ledger.orders, id);
  }

  lemma FreshSubmissionIs(w: World, v: Venue, intent: Id, token: int, c: Readings)
    requires VenueInv(w, v) && Indexed(w, v) && intent !in v.intents
    ensures VenueOk(v) && FreshSubmission(w, v, intent, token, c, Submit(w, v, v.initial.workspace, intent, token, c))
    ensures Indexed(w, Submit(w, v, v.initial.workspace, intent, token, c).venue)
  {
    hide VenueInv, Commit, R.Handoff, Snapshot, OrderOf, CommandOk, RF.RiskOk, RF.SessionInv, R.SessionOk, R.EntriesOk, VenueOk, Indexed;
    InvVenue(w, v);
    VenueParts(v);
    var r := Submit(w, v, v.initial.workspace, intent, token, c);
    var handed := R.Handoff(w.risk, v.risk, v.initial.workspace, intent, token, c.risk);
    if v.lastNow <= c.before {
      HandedFor(w.risk, v.risk, v.initial.workspace, intent, token, c.risk);
      var ps := SessionPolicies(v.risk);
      HandedPermitOk(w.risk, v.risk, ps, v.initial.workspace, intent, token, c.risk);
      R.HandoffScope(w.risk, v.risk, v.initial.workspace, intent, token, c.risk);
      var u := v.(risk := handed.state, lastNow := c.before);
      ScratchIndexed(w, v, u);
      if handed.result.Ok? && handed.result.value.Some? && c.before <= c.after {
        var ready := u.(lastNow := c.after);
        ScratchKeeps(w, v, ready);
        ScratchIndexed(w, v, ready);
        CommittedSubmission(w, ready, c.after, handed.result.value.value);
      }
    }
  }

  lemma VenueParts(v: Venue)
    requires VenueOk(v)
    ensures R.SessionOk(v.risk) && R.EntriesOk(v.risk)
  {
  }

  /** Committing a permit for a new intent gives one more entry, and its order can be read. */
  lemma CommittedSubmission(w: World, v: Venue, at: int, p: Permit)
    requires VenueInv(w, v) && Indexed(w, v) && CommandOk(SubmitPermit(at, p)) && at == v.lastNow && p.approval.intent !in v.intents
    ensures VenueOk(v)
    ensures match Commit(w, v, SubmitPermit(at, p))
            case Err(_) => true
            case Ok(u) =>
              && Indexed(w, u) && |v.entries| < v.capacity && u.risk == v.risk && u.lastNow == v.lastNow
              && |u.entries| == |v.entries| + 1 && v.entries <= u.entries && u.entries[|v.entries|].command == SubmitPermit(at, p)
              && OrderOf(u, p.approval.clientOrderId).Ok? && OrderOf(u, p.approval.clientOrderId).value.clientOrderId == p.approval.clientOrderId
  {
    hide VenueInv, Commit, CommandOk, Apply, VenueOk, OrderOf, Indexed;
    InvVenue(w, v);
    var r := Commit(w, v, SubmitPermit(at, p));
    if r.Ok? {
      CommitIs(w, v, SubmitPermit(at, p));
      CommitIndexes(w, v, SubmitPermit(at, p));
      VenueConfig(v);
      SubmittedOrder(v.ledger, w.risk.portfolioHash, p, at);
      OrderOfIs(r.value, p.approval.clientOrderId);
    }
  }

  /** An intent the venue has journaled is answered with its order, whatever the time and the state; nothing moves. */
  lemma KnownSubmission(w: World, v: Venue, intent: Id, token: int, c: Readings)
    requires VenueOk(v) && OrdersIndexed(v) && intent in v.intents
    ensures var r := Submit(w, v, v.initial.workspace, intent, token, c);
            && r.venue == v && r.result.Ok? && r.result.value.Some?
            && r.result.value.value.clientOrderId == v.intents[intent]
            && exists i :: 0 <= i < |v.ledger.orders| && v.ledger.orders[i].order == r.result.value.value
  {
    hide VenueOk, OrderOf, Snapshot, R.Handoff, Commit;
    OrderOfIs(v, v.intents[intent]);
  }

  /** A book the venue has not seen: refused without a trace in the journal, or one entry with the intents the guard listed. */
  ghost predicate FreshObservation(w: World, v: Venue, book: Book, now: int, riskNow: int, r: Step<()>)
    requires VenueOk(v)
  {
    var guard := R.Guard(w.risk, v.risk, v.initial.workspace, Exposed(v.ledger.orders, book.instrument), riskNow);
    if r.result.Ok? then
      && |v.entries| < v.capacity && v.lastNow <= now == r.venue.lastNow
      && guard.result.Ok? && r.venue.risk == guard.state
      && |r.venue.entries| == |v.entries| + 1 && v.entries <= r.venue.entries
      && r.venue.entries[|v.entries|].command == ObserveBook(now, book, guard.result.value)
    else r.venue.entries == v.entries && r.venue.ledger == v.ledger
  }

  lemma FreshObservationIs(w: World, v: Venue, book: Book, now: int, riskNow: int)
    requires VenueInv(w, v) && Indexed(w, v) && BookOk(book) && BookKey(book) !in v.marketKeys
    ensures VenueOk(v) && FreshObservation(w, v, book, now, riskNow, ObserveBookAt(w, v, v.initial.workspace, book, now, riskNow))
    ensures Indexed(w, ObserveBookAt(w, v, v.initial.workspace, book, now, riskNow).venue)
  {
    hide VenueInv, Commit, R.Guard, Exposed, BookOk, RF.RiskOk, R.SessionOk, R.EntriesOk, VenueOk, Indexed, CommandOk;
    InvVenue(w, v);
    VenueParts(v);
    if v.lastNow <= now {
      var commands := Exposed(v.ledger.orders, book.instrument);
      var guard := R.Guard(w.risk, v.risk, v.initial.workspace, commands, riskNow);
      GuardRisk(w.risk, v.risk, v.initial.workspace, commands, riskNow);
      var u := v.(risk := guard.state, lastNow := now);
      ScratchKeeps(w, v, u);
      InvVenue(w, u);
      ScratchIndexed(w, v, u);
      if guard.result.Ok? {
        var command := ObserveBook(now, book, guard.result.value);
        ObservationOk(command);
        CommitIndexes(w, u, command);
        if Commit(w, u, command).Ok? {
          CommitIs(w, u, command);
        }
      }
    }
  }

  lemma ObservationOk(command: Command)
    requires command.ObserveBook? && BookOk(command.book)
    ensures CommandOk(command) && MarketOk(command)
  {
  }

  /** A book the venue has journaled under its key is accepted without effect when it is the same book by hash, and refused otherwise. */
  lemma KnownObservation(w: World, v: Venue, i: nat, book: Book, now: int, riskNow: int)
    requires VenueOk(v) && BookOk(book) && BooksIndexed(w, v)
    requires i < |v.entries| && v.entries[i].command.ObserveBook? && BookKey(v.entries[i].command.book) == BookKey(book)
    ensures ObserveBookAt(w, v, v.initial.workspace, book, now, riskNow) ==
            Step(v, if w.hash(OfBook(book)) == w.hash(OfBook(v.entries[i].command.book)) then Ok(()) else Err(MarketConflict))
  {
    hide VenueOk, BookOk, R.Guard, Commit;
    assert ObservesAt(v.entries[i], BookKey(book));
  }

  /** An order of the ledger goes by this name. */
  ghost predicate IsKnown(v: Venue, id: ClientOrderId) {
    exists i :: 0 <= i < |v.ledger.orders| && v.ledger.orders[i].order.clientOrderId == id
  }

  /** A cancellation: unknown orders are refused, terminal ones returned as they are, open ones cancelled by one entry. */
  ghost predicate Cancellation(w: World, v: Venue, id: ClientOrderId, now: int, r: Step<Order>)
    requires VenueOk(v)
  {
    && (!IsKnown(v, id) <==> r.result == Err(UnknownClientOrder))
    && (!IsKnown(v, id) ==> r.venue == v)
    && (r.result.Err? ==> r.venue.entries == v.entries && r.venue.ledger == v.ledger)
    && (r.result.Ok? && r.venue.entries == v.entries ==> r.venue == v && OrderOf(v, id) == r.result && !IsOpen(r.result.value.status))
    && (r.result.Ok? && r.venue.entries != v.entries ==> CancelledBy(v, id, now, r))
  }

  ghost predicate CancelledBy(v: Venue, id: ClientOrderId, now: int, r: Step<Order>) {
    && OrderOf(v, id).Ok? && IsOpen(OrderOf(v, id).value.status)
    && |v.entries| < v.capacity && v.lastNow <= now == r.venue.lastNow
    && |r.venue.entries| == |v.entries| + 1 && v.entries <= r.venue.entries
    && r.venue.entries[|v.entries|].command == CancelOrder(now, id)
    && r.result == OrderOf(r.venue, id)
  }

  lemma CancellationIs(w: World, v: Venue, id: ClientOrderId, now: int)
    requires VenueInv(w, v) && Indexed(w, v)
    ensures VenueOk(v) && Cancellation(w, v, id, now, CancelAt(w, v, v.initial.workspace, id, now))
    ensures Indexed(w, CancelAt(w, v, v.initial.workspace, id, now).venue)
  {
    hide VenueInv, Commit, OrderOf, VenueOk, Indexed, CommandOk, IsKnown, RF.RiskOk;
    InvVenue(w, v);
    OrderOfFails(v, id);
    if OrderOf(v, id).Ok? && IsOpen(OrderOf(v, id).value.status) && v.lastNow <= now {
      var u := v.(lastNow := now);
      ScratchKeeps(w, v, u);
      ScratchIndexed(w, v, u);
      SameOrder(v, u, id);
      CommittedCancel(w, u, id);
    }
  }

  lemma SameOrder(v: Venue, u: Venue, id: ClientOrderId)
    requires u.ledger == v.ledger
    ensures OrderOf(u, id) == OrderOf(v, id)
  {
  }

  lemma CommittedCancel(w: World, v: Venue, id: ClientOrderId)
    requires VenueInv(w, v) && Indexed(w, v) && OrderOf(v, id).Ok?
    ensures VenueOk(v)
    ensures match Commit(w, v, CancelOrder(v.lastNow, id))
            case Err(e) => e != UnknownClientOrder
            case Ok(u) =>
              && Indexed(w, u) && |v.entries| < v.capacity && u.lastNow == v.lastNow
              && |u.entries| == |v.entries| + 1 && v.entries <= u.entries && u.entries[|v.entries|].command == CancelOrder(v.lastNow, id)
              && OrderOf(u, id).Ok?
  {
    hide VenueInv, OrderOf, VenueOk, Indexed, CommandOk, Apply, Snapshot;
    InvVenue(w, v);
    CancelOk(v.lastNow, id);
    CommitIndexes(w, v, CancelOrder(v.lastNow, id));
    if Commit(w, v, CancelOrder(v.lastNow, id)).Ok? {
      CommitIs(w, v, CancelOrder(v.lastNow, id));
      CommitExtends(w, v, CancelOrder(v.lastNow, id));
      StillThere(w, v, Commit(w, v, CancelOrder(v.lastNow, id)).value, id);
    }
  }

  lemma OrderOfFails(v: Venue, id: ClientOrderId)
    ensures OrderOf(v, id).Err? <==> !IsKnown(v, id)
    ensures OrderOf(v, id).Err? ==> OrderOf(v, id) == Err(UnknownClientOrder)
  {
    OrderOfIs(v, id);
    hide FindOrder;
    FindOrderIs(v.ledger.orders, id);
  }

  lemma CancelOk(now: int, id: ClientOrderId)
    ensures CommandOk(CancelOrder(now, id)) && MarketOk(CancelOrder(now, id))
  {
  }

  lemma StillThere(w: World, v: Venue, u: Venue, id: ClientOrderId)
    requires VenueInv(w, v) && Extends(w, v, u) && OrderOf(v, id).Ok?
    ensures OrderOf(u, id).Ok?
  {
    hide VenueInv, OrderOf, LR.Evolves;
    EarlierEvolves(w, v, u);
    OrderOfIs(v, id);
    OrderOfIs(u, id);
    var i :| 0 <= i < |v.ledger.orders| && v.ledger.orders[i].order.clientOrderId == id;
    NamesStay(v.ledger, u.ledger, i);
  }

  // ---- Runs -----------------------------------------------------------------------------------------------

  lemma IndexParts(w: World, v: Venue)
    requires Indexed(w, v)
    ensures SubmissionsIndexed(v) && OrdersIndexed(v) && BooksIndexed(w, v) && JournalOrdered(v)
  {
  }

  lemma SubmitIndexed(w: World, v: Venue, intent: Id, token: int, c: Readings)
    requires VenueInv(w, v) && Indexed(w, v)
    ensures VenueOk(v) && Indexed(w, Submit(w, v, v.initial.workspace, intent, token, c).venue)
  {
    hide VenueInv, VenueOk, Indexed, Submit, OrdersIndexed, SubmissionsIndexed, BooksIndexed, JournalOrdered;
    InvVenue(w, v);
    if intent in v.intents {
      IndexParts(w, v);
      KnownSubmission(w, v, intent, token, c);
    } else {
      FreshSubmissionIs(w, v, intent, token, c);
    }
  }

  lemma ObserveIndexed(w: World, v: Venue, book: Book, now: int, riskNow: int)
    requires VenueInv(w, v) && Indexed(w, v) && BookOk(book)
    ensures VenueOk(v) && Indexed(w, ObserveBookAt(w, v, v.initial.workspace, book, now, riskNow).venue)
  {
    hide VenueInv, VenueOk, Indexed, BookOk, OrdersIndexed, SubmissionsIndexed, BooksIndexed, JournalOrdered, Commit, R.Guard;
    InvVenue(w, v);
    if BookKey(book) !in v.marketKeys {
      FreshObservationIs(w, v, book, now, riskNow);
    }
  }

  lemma DeedIndexed(w: World, m: Market, d: Deed)
    requires VenueInv(w, m.venue) && Indexed(w, m.venue) && Possible(m, d)
    ensures Indexed(w, Next(w, m, d).venue)
  {
    hide VenueInv, Indexed, Settled, Submit, ObserveBookAt, CancelAt, Reconcile, Connect, R.EvaluateIn, R.UpdateControls, BookOk, View,
         RE.RequestOk, VenueOk, Snapshot, FillIds, Without;
    var v := m.venue;
    match d {
      case RiskEvaluates(req, now) => ScratchIndexed(w, v, Next(w, m, d).venue);
      case RiskRenews(controls, now) => ScratchIndexed(w, v, Next(w, m, d).venue);
      case Joins =>
      case Submits(k, intent, token, ack, c) =>
        SubmitIndexed(w, v, intent, token, c);
        SettledVenue(Submit(w, v, v.initial.workspace, intent, token, c), m.brokers[k], ack);
      case Observes(k, book, ack, now, riskNow) =>
        ObserveIndexed(w, v, book, now, riskNow);
        SettledVenue(ObserveBookAt(w, v, v.initial.workspace, book, now, riskNow), m.brokers[k], ack);
      case Cancels(k, id, ack, now) =>
        CancellationIs(w, v, id, now);
        SettledVenue(CancelAt(w, v, v.initial.workspace, id, now), m.brokers[k], ack);
      case Reconciles(k, now) =>
        ReconcileIsLive(w, v, now);
        ReconcileForward(w, v, now);
        ScratchIndexed(w, v, Reconcile(w, v, now).venue);
    }
  }

  lemma ReconcileForward(w: World, v: Venue, now: int)
    requires VenueOk(v)
    ensures v.lastNow <= Reconcile(w, v, now).venue.lastNow
  {
    hide VenueOk, Replay, Snapshot;
  }

  lemma {:induction false} RunIndexed(w: World, m: Market, ds: seq<Deed>, n: Market)
    requires MarketInv(w, m) && Indexed(w, m.venue) && Run(w, m, ds, n)
    ensures Indexed(w, n.venue)
    decreases |ds|
  {
    hide MarketInv, Indexed, Next, Possible;
    if ds != [] {
      MarketVenue(w, m);
      DeedIndexed(w, m, ds[0]);
      NextKeeps(w, m, ds[0]);
      RunIndexed(w, Next(w, m, ds[0]), ds[1..], n);
    }
  }

  lemma StartIndexed(w: World, initial: Portfolio, config: Config, risk: R.Session, capacity: nat, m: Market)
    requires Starts(w, initial, config, risk, capacity, m)
    ensures Indexed(w, m.venue)
  {
    hide ConfigOk, Create, Snapshot, LG.InitialOk, RF.RiskOk;
  }

  // ---- Theorems ---------------------------------------------------------------------------------------------

  /**
   * Whatever brokers do, the journal stays within its capacity and never goes back in time; each intent
   * is submitted and each book observed once in it.
   */
  lemma JournalHoldsEachOnce(
      w: World, initial: Portfolio, config: Config, risk: R.Session, capacity: nat, m: Market, ds: seq<Deed>, n: Market, i: nat, j: nat)
    requires Starts(w, initial, config, risk, capacity, m) && Run(w, m, ds, n) && i < j < |n.venue.entries|
    ensures |n.venue.entries| <= n.venue.capacity
    ensures var c, d := n.venue.entries[i].command, n.venue.entries[j].command;
            && c.at <= d.at <= n.venue.lastNow
            && (c.SubmitPermit? && d.SubmitPermit? ==> c.permit.approval.intent != d.permit.approval.intent)
            && (c.ObserveBook? && d.ObserveBook? ==> (c.book.instrument, c.book.sequence) != (d.book.instrument, d.book.sequence))
  {
    hide Starts, Run, MarketInv;
    StartInv(w, initial, config, risk, capacity, m);
    StartIndexed(w, initial, config, risk, capacity, m);
    RunIndexed(w, m, ds, n);
    var c, d := n.venue.entries[i].command, n.venue.entries[j].command;
    if c.SubmitPermit? && d.SubmitPermit? {
      OwnIntent(n.venue.entries[i], c.permit.approval.intent);
      OwnIntent(n.venue.entries[j], d.permit.approval.intent);
    }
    if c.ObserveBook? {
      assert ObservesAt(n.venue.entries[i], BookKey(c.book));
    }
  }

  lemma ReachedIndexed(w: World, initial: Portfolio, config: Config, risk: R.Session, capacity: nat, m: Market, ds: seq<Deed>, n: Market)
    requires Starts(w, initial, config, risk, capacity, m) && Run(w, m, ds, n)
    ensures VenueOk(n.venue) && SubmissionsIndexed(n.venue) && OrdersIndexed(n.venue) && BooksIndexed(w, n.venue)
  {
    hide Starts, Run, MarketInv, VenueOk, SubmissionsIndexed, OrdersIndexed, BooksIndexed, JournalOrdered;
    StartInv(w, initial, config, risk, capacity, m);
    StartIndexed(w, initial, config, risk, capacity, m);
    RunIndexed(w, m, ds, n);
    RunKeeps(w, m, ds, n);
    MarketVenue(w, n);
  }

  /** Whatever happened since, submitting a journaled intent again is answered with its one order and changes nothing. */
  lemma RepeatedSubmission(
      w: World, initial: Portfolio, config: Config, risk: R.Session, capacity: nat, m: Market, ds: seq<Deed>, n: Market,
      i: nat, token: int, c: Readings)
    requires Starts(w, initial, config, risk, capacity, m) && Run(w, m, ds, n)
    requires i < |n.venue.entries| && n.venue.entries[i].command.SubmitPermit?
    ensures VenueOk(n.venue)
    ensures var v, a := n.venue, n.venue.entries[i].command.permit.approval;
            var r := Submit(w, v, v.initial.workspace, a.intent, token, c);
            && r.venue == v && r.result.Ok? && r.result.value.Some?
            && r.result.value.value.clientOrderId == a.clientOrderId
            && exists o :: 0 <= o < |v.ledger.orders| && v.ledger.orders[o].order == r.result.value.value
  {
    hide Starts, Run, VenueOk, Submit, OrdersIndexed, BooksIndexed, SubmissionsIndexed;
    ReachedIndexed(w, initial, config, risk, capacity, m, ds, n);
    var v, a := n.venue, n.venue.entries[i].command.permit.approval;
    JournaledIntent(v, i);
    KnownSubmission(w, v, a.intent, token, c);
  }

  lemma JournaledIntent(v: Venue, i: nat)
    requires SubmissionsIndexed(v) && i < |v.entries| && v.entries[i].command.SubmitPermit?
    ensures var a := v.entries[i].command.permit.approval; a.intent in v.intents && v.intents[a.intent] == a.clientOrderId
  {
    OwnIntent(v.entries[i], v.entries[i].command.permit.approval.intent);
  }

  /** Whatever happened since, observing a journaled book again is accepted or refused by its hash and changes nothing. */
  lemma RepeatedObservation(
      w: World, initial: Portfolio, config: Config, risk: R.Session, capacity: nat, m: Market, ds: seq<Deed>, n: Market,
      i: nat, book: Book, now: int, riskNow: int)
    requires Starts(w, initial, config, risk, capacity, m) && Run(w, m, ds, n) && BookOk(book)
    requires i < |n.venue.entries| && n.venue.entries[i].command.ObserveBook?
    requires var seen := n.venue.entries[i].command.book; book.instrument == seen.instrument && book.sequence == seen.sequence
    ensures VenueOk(n.venue)
    ensures ObserveBookAt(w, n.venue, n.venue.initial.workspace, book, now, riskNow) ==
            Step(n.venue, if w.hash(OfBook(book)) == w.hash(OfBook(n.venue.entries[i].command.book)) then Ok(()) else Err(MarketConflict))
  {
    hide Starts, Run, VenueOk, BookOk, ObserveBookAt, OrdersIndexed, BooksIndexed, SubmissionsIndexed;
    ReachedIndexed(w, initial, config, risk, capacity, m, ds, n);
    KnownObservation(w, n.venue, i, book, now, riskNow);
  }

  // ---- Doubt ------------------------------------------------------------------------------------------------

  /** A broker that is cut off, or behind the journal, reports no order as open and itself as unreconciled; the rest is its copy. */
  lemma DoubtIsShown(b: Broker, v: Venue)
    ensures var shown := View(b, v);
            if b.connected && b.sequence == |v.entries| then shown == b.state
            else
              && shown.portfolio == b.state.portfolio.(isReconciled := false) && |shown.orders| == |b.state.orders|
              && forall i :: 0 <= i < |shown.orders| ==>
                   && !IsOpen(shown.orders[i].status)
                   && shown.orders[i] == b.state.orders[i].(status := shown.orders[i].status)
                   && (!IsOpen(b.state.orders[i].status) ==> shown.orders[i] == b.state.orders[i])
                   && (IsOpen(b.state.orders[i].status) ==> shown.orders[i].status == Unknown)
  {
  }

  /** An operation that fails or is not acknowledged cuts the broker off; only an acknowledged one reads the venue again. */
  lemma AcknowledgedIs<T>(w: World, s: Step<T>, b: Broker, acknowledge: bool)
    requires VenueInv(w, s.venue)
    ensures var r := Settled(s, b, acknowledge);
            && r.venue == s.venue
            && (r.broker.connected <==> s.result.Ok? && acknowledge && b.connected)
            && (r.broker.connected ==> r.result == s.result && r.broker.sequence == |s.venue.entries| && Snapshot(s.venue.ledger) == Ok(r.broker.state))
            && (!r.broker.connected ==> r.broker == b.(connected := false))
            && (s.result.Err? ==> r.result == s.result)
            && (s.result.Ok? && !r.broker.connected ==> r.result == Err(DeliveryUnknown))
  {
    hide VenueInv, Snapshot;
    CurrentCopy(w, s.venue);
  }

  /** A broker that is cut off stays so until it reconciles, whatever else happens, and cannot submit. */
  lemma {:induction false} CutOffUntilReconciled(w: World, m: Market, ds: seq<Deed>, n: Market, k: nat, intent: Id, token: int, ack: bool, c: Readings)
    requires MarketInv(w, m) && Run(w, m, ds, n) && k < |m.brokers| && !m.brokers[k].connected
    requires forall i :: 0 <= i < |ds| ==> !(ds[i].Reconciles? && ds[i].broker == k)
    ensures k < |n.brokers| && !n.brokers[k].connected && n.brokers[k].state == m.brokers[k].state
    ensures VenueOk(n.venue)
    ensures BrokerSubmit(w, n.venue, n.brokers[k], intent, token, ack, c) == BrokerStep(n.venue, n.brokers[k], Err(ReconciliationRequired))
    decreases |ds|
  {
    hide MarketInv, Next, Possible, VenueOk, Submit;
    if ds == [] {
      MarketVenue(w, m);
    } else {
      CutOffStays(w, m, ds[0], k);
      NextKeeps(w, m, ds[0]);
      CutOffUntilReconciled(w, Next(w, m, ds[0]), ds[1..], n, k, intent, token, ack, c);
    }
  }

  lemma CutOffStays(w: World, m: Market, d: Deed, k: nat)
    requires MarketInv(w, m) && Possible(m, d) && k < |m.brokers| && !m.brokers[k].connected
    requires !(d.Reconciles? && d.broker == k)
    ensures k < |Next(w, m, d).brokers| && !Next(w, m, d).brokers[k].connected && Next(w, m, d).brokers[k].state == m.brokers[k].state
  {
    hide MarketInv, Submit, ObserveBookAt, CancelAt, Reconcile, Connect, R.EvaluateIn, R.UpdateControls, VenueOk, FillIds, Without, BookOk,
         RE.RequestOk;
  }
}
