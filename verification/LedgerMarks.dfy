/** What one observed book leaves of marks, health and the batch. */
module LedgerMarks {
  import opened Outcomes
  import opened Sums
  import opened Domain
  import opened Fixed
  import opened LedgerModel
  import opened LedgerFills
  import opened LedgerOutcomes

  // ---- Marks --------------------------------------------------------------------------------------

  /** Trading against a book moves no mark; a holding it opens is marked at the book's best bid. */
  ghost predicate MarksKept(s: Ledger, t: Ledger, book: Book)
    requires |book.bids| > 0
  {
    var key := book.instrument;
    && (forall k :: k != key ==> (k in t.holdings <==> k in s.holdings) && (k in s.holdings ==> t.holdings[k] == s.holdings[k]))
    && (key in s.holdings ==>
          key in t.holdings && t.holdings[key].mark == s.holdings[key].mark && t.holdings[key].openedAt == s.holdings[key].openedAt)
    && (key !in s.holdings && key in t.holdings ==> t.holdings[key].mark == book.bids[0].price)
    && (t.markTimes == s.markTimes || t.markTimes == s.markTimes[key := book.eventTime])
    && (t.holdings != s.holdings ==> t.markTimes == s.markTimes[key := book.eventTime])
    && t == s.(cash := t.cash, realized := t.realized, fees := t.fees, holdings := t.holdings, markTimes := t.markTimes,
               orders := t.orders, isSealed := t.isSealed)
  }

  lemma MarksTransitive(s: Ledger, t: Ledger, u: Ledger, book: Book)
    requires |book.bids| > 0 && MarksKept(s, t, book) && MarksKept(t, u, book)
    ensures MarksKept(s, u, book)
  {
  }

  lemma SameMarks(s: Ledger, t: Ledger, book: Book)
    requires |book.bids| > 0 && t == s.(orders := t.orders, isSealed := t.isSealed)
    ensures MarksKept(s, t, book)
  {
  }

  lemma SettledMarks(s: Ledger, book: Book, buying: bool, quantity: int, gross: int, fee: int, at: int)
    requires |book.bids| > 0 && quantity > 0
    ensures var r := Settle(s, book, buying, quantity, gross, fee, at);
            r.Ok? ==> MarksKept(s, r.value, book) && r.value.isSealed == s.isSealed && r.value.orders == s.orders
  {
    hide Bump;
  }

  lemma LevelMarks(s: Ledger, i: nat, book: Book, level: nat, raw: int, available: int, at: int)
    requires i < |s.orders| && ConfigOk(s.config) && book.instrument in s.config.instruments && |book.bids| > 0
    ensures var r := FillLevel(s, i, book, level, raw, available, at);
            r.Ok? ==> MarksKept(s, r.value.0, book) && r.value.0.isSealed == s.isSealed && |r.value.0.orders| == |s.orders|
  {
    hide LevelQuantity, TermsOf, Settle, FilledOrder, FillFee, FillDebit, Product, MarksKept;
    SameMarks(s, s, book);
    var w, settings := s.orders[i], s.config.instruments[book.instrument];
    var t := TermsOf(w, settings, raw);
    var r := FillLevel(s, i, book, level, raw, available, at);
    if r.Ok? && r.value.1 > 0 {
      var quantity := LevelQuantity(w, settings, raw, available).value;
      var gross := Product(quantity, t.price).value;
      var fee := FillFee(t, gross);
      SettledMarks(s, book, t.buying, quantity, gross, fee, at);
      var settled := Settle(s, book, t.buying, quantity, gross, fee, at).value;
      SameMarks(settled, r.value.0, book);
      MarksTransitive(s, settled, r.value.0, book);
    }
  }

  lemma {:induction false} LevelsMarks(s: Ledger, i: nat, book: Book, j: nat, depth: seq<int>, at: int)
    requires i < |s.orders| && ConfigOk(s.config) && book.instrument in s.config.instruments && |book.bids| > 0
    requires j <= |LevelsFor(book, s.orders[i].order.side)| == |depth|
    ensures var r := FillLevels(s, i, book, j, depth, at);
            r.Ok? ==> MarksKept(s, r.value.0, book) && r.value.0.isSealed == s.isSealed && |r.value.0.orders| == |s.orders|
    decreases |depth| - j
  {
    hide FillLevel, MarksKept, ConfigOk;
    SameMarks(s, s, book);
    var levels := LevelsFor(book, s.orders[i].order.side);
    if j < |levels| {
      FillLevelShape(s, i, book, j, levels[j].price, depth[j], at);
      LevelMarks(s, i, book, j, levels[j].price, depth[j], at);
      var first := FillLevel(s, i, book, j, levels[j].price, depth[j], at);
      if first.Ok? && first.value.0.orders[i].order.filled != first.value.0.orders[i].target {
        var t, left := first.value.0, depth[j := depth[j] - first.value.1];
        LevelsMarks(t, i, book, j + 1, left, at);
        var rest := FillLevels(t, i, book, j + 1, left, at);
        if rest.Ok? {
          MarksTransitive(s, t, rest.value.0, book);
        }
      }
    }
  }

  // ---- A pass ---------------------------------------------------------------------------------------

  /** An open order of the instrument that the pass does not merely expire or leave waiting. */
  predicate Matched(w: WorkingOrder, book: Book, latencyMs: nat, at: int) {
    IsOpen(w.order.status) && w.order.instrument == book.instrument && at < w.permit.approval.expiresAt && Ripe(w, book, latencyMs)
  }

  lemma ExecuteMarks(m: Matching, i: nat, book: Book, at: int)
    requires MatchingOk(m, book) && i < |m.ledger.orders|
    ensures var r := Execute(m, i, book, at);
            r.Ok? ==> MarksKept(m.ledger, r.value.ledger, book) && r.value.ledger.isSealed == m.ledger.isSealed
  {
    hide FillLevels, MarksKept, ConfigOk;
    var s := SetStatus(m.ledger, i, Accepted, at, None);
    SameMarks(m.ledger, s, book);
    var own := if s.orders[i].order.side.Buy? then m.asks else m.bids;
    FillLevelsShape(s, i, book, 0, own, at);
    LevelsMarks(s, i, book, 0, own, at);
    var filled := FillLevels(s, i, book, 0, own, at);
    if filled.Ok? {
      var t := Execute(m, i, book, at).value.ledger;
      SameMarks(filled.value.0, t, book);
      MarksTransitive(m.ledger, s, filled.value.0, book);
      MarksTransitive(m.ledger, filled.value.0, t, book);
    }
  }

  /** An unhealthy book trades nothing; any book seals the batch exactly when it matches an order. */
  lemma MatchOrderMarks(m: Matching, i: nat, book: Book, at: int, blocked: seq<Id>, isHealthy: bool)
    requires MatchingOk(m, book) && i < |m.ledger.orders|
    ensures var r := MatchOrder(m, i, book, at, blocked, isHealthy);
            r.Ok? ==>
              && MarksKept(m.ledger, r.value.ledger, book)
              && (!isHealthy ==> r.value.ledger.holdings == m.ledger.holdings && r.value.ledger.markTimes == m.ledger.markTimes)
              && (r.value.ledger.isSealed <==> m.ledger.isSealed || Matched(m.ledger.orders[i], book, m.ledger.config.latencyMs, at))
  {
    hide Execute, MarksKept, ConfigOk;
    var s, sealing := m.ledger, m.ledger.(isSealed := true);
    SameMarks(s, s, book);
    SameMarks(s, sealing, book);
    ExecuteMarks(m.(ledger := sealing), i, book, at);
    var r := MatchOrder(m, i, book, at, blocked, isHealthy);
    var w := m.ledger.orders[i];
    if !Matched(w, book, s.config.latencyMs, at) {
      if r.Ok? {
        SameMarks(s, r.value.ledger, book);
      }
    } else if w.permit.approval.intent in blocked || !isHealthy || AgeMs(at, book.eventTime) > w.permit.execution.maxMarketAgeMs {
      SameMarks(s, r.value.ledger, book);
    } else if r.Ok? {
      MarksTransitive(s, sealing, r.value.ledger, book);
    }
  }

  lemma {:induction false} PassMarks(m: Matching, i: nat, book: Book, at: int, blocked: seq<Id>, isHealthy: bool)
    requires MatchingOk(m, book) && i <= |m.ledger.orders|
    ensures var r := MatchFrom(m, i, book, at, blocked, isHealthy);
            r.Ok? ==>
              && MarksKept(m.ledger, r.value.ledger, book)
              && (!isHealthy ==> r.value.ledger.holdings == m.ledger.holdings && r.value.ledger.markTimes == m.ledger.markTimes)
              && (r.value.ledger.isSealed <==>
                  m.ledger.isSealed || exists k :: i <= k < |m.ledger.orders| && Matched(m.ledger.orders[k], book, m.ledger.config.latencyMs, at))
    decreases |m.ledger.orders| - i
  {
    hide MatchOrder, MarksKept, ConfigOk, Matched, OutcomeIs;
    SameMarks(m.ledger, m.ledger, book);
    if i < |m.ledger.orders| {
      MatchOrderMarks(m, i, book, at, blocked, isHealthy);
      MatchOrderOutcome(m, i, book, at, blocked, isHealthy);
      var first := MatchOrder(m, i, book, at, blocked, isHealthy);
      if first.Ok? {
        PassMarks(first.value, i + 1, book, at, blocked, isHealthy);
        var rest := MatchFrom(first.value, i + 1, book, at, blocked, isHealthy);
        if rest.Ok? {
          MarksTransitive(m.ledger, first.value.ledger, rest.value.ledger, book);
          assert forall k :: i < k < |m.ledger.orders| ==> first.value.ledger.orders[k] == m.ledger.orders[k];
        }
      }
    }
  }

  /**
   * After an accepted observation a held instrument is marked at the best bid when the book was healthy
   * and keeps its mark when not, nothing else is marked again, the book and its health are recorded, and
   * the batch is sealed exactly when it was or when an order was matched.
   */
  lemma ObservedMarks(s: Ledger, book: Book, at: int, blocked: seq<Id>, k: InstrumentId)
    requires ConfigOk(s.config) && BookOk(book) && Observe(s, book, at, blocked).Ok?
    ensures var t, isHealthy := Observe(s, book, at, blocked).value, IsHealthyBook(s, book, at);
            && t.books == s.books[book.instrument := book] && t.healthy == s.healthy[book.instrument := isHealthy]
            && (k != book.instrument ==>
                  && (k in t.holdings <==> k in s.holdings) && (k in s.holdings ==> t.holdings[k] == s.holdings[k])
                  && (k in t.markTimes <==> k in s.markTimes) && (k in s.markTimes ==> t.markTimes[k] == s.markTimes[k]))
            && (!isHealthy ==> t.holdings == s.holdings && t.markTimes == s.markTimes)
            && (isHealthy && book.instrument in t.holdings ==>
                  && t.holdings[book.instrument].mark == book.bids[0].price
                  && book.instrument in t.markTimes && t.markTimes[book.instrument] == book.eventTime)
            && (t.isSealed <==> s.isSealed || exists i :: 0 <= i < |s.orders| && Matched(s.orders[i], book, s.config.latencyMs, at))
  {
    hide MatchFrom, RecordBook, InstrumentOk, ConfigOk, Aligned, Matched, BookHealthy, IsHealthyBook, MarksKept, BookOk;
    HealthIs(s, book, at);
    var isHealthy := BookHealthy(s, book, at);
    BookHasBids(book);
    var recorded := RecordBook(s, book, isHealthy);
    RecordedMarks(s, book, isHealthy);
    var m := Matching(recorded, Quantities(book.asks), Quantities(book.bids));
    PassMarks(m, 0, book, at, blocked, isHealthy);
    MarksAfter(s, recorded, Observe(s, book, at, blocked).value, book, isHealthy, k);
  }

  lemma BookHasBids(book: Book)
    requires BookOk(book)
    ensures |book.bids| > 0
  {
  }

  /** Recording a healthy book marks what is held, and an unhealthy one marks nothing. */
  lemma RecordedMarks(s: Ledger, book: Book, isHealthy: bool)
    requires |book.bids| > 0
    ensures var t, key := RecordBook(s, book, isHealthy), book.instrument;
            && t.books == s.books[key := book] && t.healthy == s.healthy[key := isHealthy]
            && t == s.(books := t.books, healthy := t.healthy, holdings := t.holdings, markTimes := t.markTimes)
            && t.holdings == (if isHealthy && key in s.holdings
                              then s.holdings[key := s.holdings[key].(mark := book.bids[0].price)] else s.holdings)
            && t.markTimes == if isHealthy && key in s.holdings then s.markTimes[key := book.eventTime] else s.markTimes
  {
  }

  lemma MarksAfter(s: Ledger, r: Ledger, t: Ledger, book: Book, isHealthy: bool, k: InstrumentId)
    requires |book.bids| > 0 && MarksKept(r, t, book)
    requires r.holdings == (if isHealthy && book.instrument in s.holdings
                            then s.holdings[book.instrument := s.holdings[book.instrument].(mark := book.bids[0].price)] else s.holdings)
    requires r.markTimes == if isHealthy && book.instrument in s.holdings then s.markTimes[book.instrument := book.eventTime] else s.markTimes
    ensures t.books == r.books && t.healthy == r.healthy
    ensures k != book.instrument ==>
              && (k in t.holdings <==> k in s.holdings) && (k in s.holdings ==> t.holdings[k] == s.holdings[k])
              && (k in t.markTimes <==> k in s.markTimes) && (k in s.markTimes ==> t.markTimes[k] == s.markTimes[k])
    ensures isHealthy && book.instrument in t.holdings ==>
              && t.holdings[book.instrument].mark == book.bids[0].price
              && book.instrument in t.markTimes && t.markTimes[book.instrument] == book.eventTime
  {
  }
}
