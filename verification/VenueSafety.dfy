/** Replay refines live execution, the hash chain fixes the journal, and broker views are honest. */
module VenueSafety {
  import opened Outcomes
  import opened Domain
  import opened LedgerModel
  import LC = LedgerConservation
  import LR = LedgerRuns
  import LG = LedgerGenerations
  import LH = LedgerHistory
  import R = RiskSession
  import RF = RiskSafety
  import opened VenueModel

  // ---- The chain fixes the journal ---------------------------------------------------------------

  ghost predicate Injective(h: Preimage -> Digest) {
    forall x, y :: h(x) == h(y) ==> x == y
  }

  /** The integrity part of an accepted replay: every entry is linked to the ones before it. */
  ghost predicate Chained(w: World, b: Bundle) {
    forall i :: 0 <= i < |b.entries| ==> Linked(w, b.initial, b.config, b.entries[..i], b.entries[i])
  }

  lemma {:induction false} AcceptedIsChained(w: World, b: Bundle)
    requires ConfigOk(b.config) && EntriesOk(b.entries)
    ensures ReplayLedger(w, b.initial, b.config, b.entries).Ok? ==> Chained(w, b)
    decreases |b.entries|
  {
    hide ConfigOk, Apply, Snapshot, Create;
    if b.entries != [] && ReplayLedger(w, b.initial, b.config, b.entries).Ok? {
      var n := |b.entries| - 1;
      AcceptedIsChained(w, b.(entries := b.entries[..n]));
      forall i | 0 <= i < |b.entries|
        ensures Linked(w, b.initial, b.config, b.entries[..i], b.entries[i])
      {
        if i < n {
          assert b.entries[..n][..i] == b.entries[..i] && b.entries[..n][i] == b.entries[i];
        }
      }
    }
  }

  lemma ChainedPrefix(w: World, b: Bundle)
    requires Chained(w, b) && b.entries != []
    ensures Chained(w, b.(entries := b.entries[..|b.entries| - 1]))
  {
    var n := |b.entries| - 1;
    forall i | 0 <= i < n
      ensures Linked(w, b.initial, b.config, b.entries[..n][..i], b.entries[..n][i])
    {
      assert b.entries[..n][..i] == b.entries[..i];
    }
  }

  /** Two last entries with one hash are the same entry, over the same earlier hash; neither is a header. */
  lemma LastEntries(w: World, a: Bundle, b: Bundle)
    requires Injective(w.hash) && Chained(w, a) && Chained(w, b)
    requires ChainHash(w, a.initial, a.config, a.entries) == ChainHash(w, b.initial, b.config, b.entries)
    ensures a.entries == [] <==> b.entries == []
    ensures a.entries == [] ==> a.initial == b.initial && a.config == b.config
    ensures a.entries != [] ==>
              var m, n := |a.entries| - 1, |b.entries| - 1;
              && a.entries[m] == b.entries[n]
              && ChainHash(w, a.initial, a.config, a.entries[..m]) == ChainHash(w, b.initial, b.config, b.entries[..n])
  {
    var m, n := |a.entries| - 1, |b.entries| - 1;
    if a.entries != [] {
      assert Linked(w, a.initial, a.config, a.entries[..m], a.entries[m]);
    }
    if b.entries != [] {
      assert Linked(w, b.initial, b.config, b.entries[..n], b.entries[n]);
    }
  }

  lemma {:induction false} ChainFixesEntries(w: World, a: Bundle, b: Bundle)
    requires Injective(w.hash) && Chained(w, a) && Chained(w, b)
    requires ChainHash(w, a.initial, a.config, a.entries) == ChainHash(w, b.initial, b.config, b.entries)
    ensures a == b
    decreases |a.entries|
  {
    hide Chained, ChainHash, Injective;
    LastEntries(w, a, b);
    if a.entries != [] {
      var m, n := |a.entries| - 1, |b.entries| - 1;
      ChainedPrefix(w, a);
      ChainedPrefix(w, b);
      ChainFixesEntries(w, a.(entries := a.entries[..m]), b.(entries := b.entries[..n]));
      assert a.entries == a.entries[..m] + [a.entries[m]] && b.entries == b.entries[..n] + [b.entries[n]];
    }
  }

  /** With an injective hash, two accepted bundles with the same final hash have the same header and entries. */
  lemma FinalHashFixesBundle(w: World, a: Bundle, b: Bundle)
    requires ConfigOk(a.config) && EntriesOk(a.entries) && ConfigOk(b.config) && EntriesOk(b.entries)
    requires Injective(w.hash) && Replay(w, a).Ok? && Replay(w, b).Ok?
    requires ChainHash(w, a.initial, a.config, a.entries) == ChainHash(w, b.initial, b.config, b.entries)
    ensures a == b
  {
    hide ReplayLedger, Chained, Snapshot, ConfigOk, EntriesOk;
    AcceptedIsChained(w, a);
    AcceptedIsChained(w, b);
    ChainFixesEntries(w, a, b);
  }

  // ---- The invariant of a venue ------------------------------------------------------------------------

  ghost predicate CommandsOk(entries: seq<JournalEntry>) {
    forall i :: 0 <= i < |entries| ==> CommandOk(entries[i].command)
  }

  ghost predicate VenueInv(w: World, v: Venue) {
    && VenueOk(v) && LG.InitialOk(v.initial) && CommandsOk(v.entries) && RF.RiskOk(v.risk)
    && ReplayLedger(w, v.initial, v.config, v.entries) == Ok(v.ledger)
  }

  /** One accepted entry takes a sound ledger to a sound one it has evolved into. */
  lemma EntryIsSound(w: World, b: Bundle, before: seq<JournalEntry>, s: Ledger, e: JournalEntry)
    requires LH.Sound(s) && CommandOk(e.command) && ConfigOk(s.config) && MarketOk(e.command)
    ensures var r := ReplayEntry(w, b.initial, b.config, before, s, e); r.Ok? ==> LH.Sound(r.value) && LR.Evolves(s, r.value)
  {
    hide ConfigOk, Apply, Snapshot, LR.LedgerInv, LG.Untraded, LR.Evolves, CommandOk, MarketOk, Linked, LC.Conserves, LG.LotAligned;
    LR.ApplyKeeps(s, w.risk.portfolioHash, e.command);
    LG.ApplySteady(s, w.risk.portfolioHash, e.command);
  }

  lemma FirstIsSound(initial: Portfolio, config: Config)
    requires ConfigOk(config) && LG.InitialOk(initial) && Create(initial, config).Ok?
    ensures LH.Sound(Create(initial, config).value)
  {
    hide Create, LR.LedgerInv, LG.Untraded, LG.InitialOk;
    LG.CreateKeeps(initial, config);
  }

  /** Any accepted journal leads to a sound ledger that has only evolved since each earlier point. */
  lemma {:induction false} ReplayIsSound(w: World, b: Bundle, n: nat)
    requires ConfigOk(b.config) && EntriesOk(b.entries) && CommandsOk(b.entries) && LG.InitialOk(b.initial)
    requires n <= |b.entries| && ReplayLedger(w, b.initial, b.config, b.entries).Ok?
    ensures EntriesOk(b.entries[..n])
    ensures ReplayLedger(w, b.initial, b.config, b.entries[..n]).Ok?
    ensures var s, t := ReplayLedger(w, b.initial, b.config, b.entries[..n]).value, ReplayLedger(w, b.initial, b.config, b.entries).value;
            LH.Sound(s) && LH.Sound(t) && LR.Evolves(s, t)
    decreases |b.entries|
  {
    hide ConfigOk, ReplayEntry, Create, LR.Evolves, LG.InitialOk, CommandOk, MarketOk, LH.Sound;
    var k := |b.entries|;
    if n == k {
      assert b.entries[..n] == b.entries;
      LH.EvolvesReflexive(ReplayLedger(w, b.initial, b.config, b.entries).value);
    }
    if k == 0 {
      FirstIsSound(b.initial, b.config);
    } else {
      var front := b.(entries := b.entries[..k - 1]);
      ReplayIsSound(w, front, if n < k then n else k - 1);
      var s := ReplayLedger(w, b.initial, b.config, front.entries).value;
      EntryIsSound(w, b, front.entries, s, b.entries[k - 1]);
      if n < k {
        assert front.entries[..n] == b.entries[..n];
        LH.EvolvesTransitive(ReplayLedger(w, b.initial, b.config, b.entries[..n]).value, s,
                             ReplayLedger(w, b.initial, b.config, b.entries).value);
      }
    }
  }

  /** Replaying what a venue exports is accepted and shows exactly the live ledger. */
  lemma ReplayRefinesLive(w: World, v: Venue)
    requires VenueInv(w, v)
    ensures Snapshot(v.ledger).Ok? && Replay(w, Export(v)) == ShownBy(v)
  {
    hide ReplayLedger, Snapshot, LG.InitialOk, ConfigOk, EntriesOk, CommandsOk, LG.Untraded, LR.Evolves;
    ReplayIsSound(w, Export(v), |v.entries|);
    LH.InvConfig(v.ledger);
  }

  function ShownBy(v: Venue): Result<AccountState, VenueError>
    requires Snapshot(v.ledger).Ok?
  {
    Ok(Snapshot(v.ledger).value)
  }

  lemma CommitKeeps(w: World, v: Venue, command: Command)
    requires VenueInv(w, v) && CommandOk(command)
    ensures match Commit(w, v, command)
            case Err(_) => true
            case Ok(u) =>
              && VenueInv(w, u) && |u.entries| == |v.entries| + 1 && u.entries[..|v.entries|] == v.entries
              && u.initial == v.initial && u.config == v.config && u.risk == v.risk
  {
    hide ReplayLedger, Apply, Snapshot, ConfigOk, LG.InitialOk, RF.RiskOk, R.SessionOk, R.EntriesOk, MarketOk;
    var r := Commit(w, v, command);
    if r.Ok? {
      var e := r.value.entries[|v.entries|];
      assert r.value.entries == v.entries + [e];
      ExtendReplay(w, v, command, e, r.value.ledger);
    }
  }

  lemma ExtendReplay(w: World, v: Venue, command: Command, e: JournalEntry, next: Ledger)
    requires VenueOk(v) && ReplayLedger(w, v.initial, v.config, v.entries) == Ok(v.ledger) && MarketOk(command)
    requires Apply(v.ledger, w.risk.portfolioHash, command) == Ok(next) && Snapshot(next).Ok?
    requires e == SealedEntry(w, v, command, Snapshot(next).value)
    ensures EntriesOk(v.entries + [e])
    ensures ReplayLedger(w, v.initial, v.config, v.entries + [e]) == Ok(next)
  {
    hide Apply, Snapshot, ConfigOk, R.SessionOk, R.EntriesOk, ChainHash;
    assert (v.entries + [e])[..|v.entries|] == v.entries;
  }
}
