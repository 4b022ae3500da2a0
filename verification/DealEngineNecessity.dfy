/**
  * What the guarantees need: without either application lock a run opens two deals for one listing,
  * and without either condition on attempts a run commits one event twice.
  */
module DealEngineNecessity {
  import opened Prelude
  import opened PriceHistory
  import opened DealEngine
  import opened DealEngineRuns
  import opened DealEngineSafety
  import opened Reachability
  import S = Scorer

  // ---- The listing everything happens to -----------------------------------------------

  const BARGAIN: S.Product := S.Product(Amazon, "B0", 1000, Some(10000), None, None, true)

  /** The same offer without a list price: nothing to compare with, so no deal. */
  const PLAIN: S.Product := S.Product(Amazon, "B0", 1000, None, None, None, true)

  function Verdict0(listing: Uuid, stats: Option<PriceStats>, now: int): S.Outcome {
    S.Score(BARGAIN, listing, None, stats, S.DEFAULT_CONFIG, now)
  }

  /** Ninety per cent off the list price is a deal under the built-in config, whatever the history. */
  lemma BargainScores(listing: Uuid, stats: Option<PriceStats>, now: int)
    ensures var v := Verdict0(listing, stats, now);
            && v.Deal? && Publishable(v.deal) && v.deal.listing == listing && v.deal.expiresAt > now
  {
    var w := S.DEFAULT_CONFIG.weights;
    var pct := S.DiscountPct(10000, 1000);
    assert pct == 90.0;
    S.ComponentsInRange(BARGAIN, None, stats, pct, S.DEFAULT_CONFIG);
    assert S.DiscountFactor(pct) == 1.0;
    var b := S.BreakdownOf(BARGAIN, None, stats, pct, S.DEFAULT_CONFIG);
    assert b.discountScore == S.Hundredths(37.5);
    assert b.Total() as real / 100.0 >= 40.0;
    S.DealBounds(BARGAIN, listing, None, stats, S.DEFAULT_CONFIG, now);
  }

  /** Nothing acknowledged, no time passed, and no entry id used twice. */
  ghost predicate Tidy(s: State) {
    s.acked == {} && s.now == 0 && forall e :: e in s.pending ==> e < |s.entries|
  }

  function Begun(e: nat, event: Uuid, payload: Payload): Txn {
    var phase := if payload.Tapped? then LockDeal else FindListing;
    Txn(e, event, payload, 0, phase, None, false, None, None, None, None, 0, None, false)
  }

  /** An event arrives, is delivered to `w`, and its handler starts. */
  lemma Opening(p: Policy, s0: State, s: State, w: Worker, event: Uuid, payload: Payload) returns (s': State)
    requires Reaches(p, s0, s) && Tidy(s) && w !in s.txns && w !in s.done
    requires SchemaValid(payload) && !payload.Unhandled? && event !in s.marks
    requires MayBegin(p, s.txns, s.log, s.now, event)
    ensures Reaches(p, s0, s') && Tidy(s')
    ensures s' == s.(entries := s.entries + [Event(event, payload)], pending := s.pending[|s.entries| := w],
                     txns := s.txns[w := Begun(|s.entries|, event, payload)])
  {
    var e := |s.entries|;
    var arrival := Arriving(Event(event, payload));
    var s1 := Apply(s, arrival);
    Takes(p, s, arrival);
    Chains(p, s0, s, s1);
    var s2 := Envelopes(p, s0, s1, w, Delivering(e));
    s' := Envelopes(p, s0, s2, w, Beginning(e));
  }

  function Seen(listing: Uuid, p: S.Product): Observation { Observation(listing, p.price, p.inStock, 0) }

  /** A listing transaction that knows its listing, up to the check. */
  function Recorded(t: Txn, listing: Uuid, p: S.Product): Txn {
    t.(phase := Assess, listing := Some(listing), observation := Some(Seen(listing, p)))
  }

  function Priced(t: Txn, facts: S.ScoredDeal): Txn { t.(phase := LockListing, scored := Some(facts)) }

  function Ready(t: Txn): Txn { t.(phase := InsertDeal) }

  ghost predicate AboutBargain(t: Txn, listing: Uuid) {
    t.payload == Discovered(BARGAIN) && t.listing == Some(listing) && t.startedAt == 0
  }

  /** Append the observation and score: a deal. */
  lemma ScoresBargain(p: Policy, s0: State, s: State, w: Worker, listing: Uuid) returns (s': State, facts: S.ScoredDeal)
    requires Reaches(p, s0, s) && Tidy(s) && At(s, w, Observe) && AboutBargain(s.txns[w], listing)
    ensures Reaches(p, s0, s') && Tidy(s') && facts.listing == listing && facts.expiresAt > 0 && Publishable(facts)
    ensures s' == s.(txns := s.txns[w := Priced(Recorded(s.txns[w], listing, BARGAIN), facts)])
  {
    var s1 := Ingests(p, s0, s, w, Recording);
    var t := s1.txns[w];
    var verdict := Verdict(s1, t, None, S.DEFAULT_CONFIG);
    var stats := Stats(s1.history + [t.observation.value], listing, S.DEFAULT_CONFIG.historyWindowDays, 0);
    BargainScores(listing, stats, 0);
    assert verdict == Verdict0(listing, stats, 0);
    facts := verdict.deal;
    s' := Ingests(p, s0, s1, w, Scoring(None, S.DEFAULT_CONFIG, verdict));
  }

  /** Lock the listing, if the engine does, and find no open deal. */
  lemma FindsNoDeal(p: Policy, s0: State, s: State, w: Worker, listing: Uuid) returns (s': State)
    requires Reaches(p, s0, s) && Tidy(s) && At(s, w, LockListing)
    requires s.txns[w].scored.Some? && s.txns[w].scored.value.listing == listing
    requires !HasOpen(s.deals, listing) && Free(s, Advisory(AdvisoryKey(listing)), w)
    ensures Reaches(p, s0, s') && Tidy(s')
    ensures s' == s.(txns := s.txns[w := Ready(s.txns[w])], locks := s'.locks)
    ensures s'.locks == if s.guards.advisory then s.locks[Advisory(AdvisoryKey(listing)) := w] else s.locks
  {
    var s1 := Ingests(p, s0, s, w, Acquiring);
    s' := Ingests(p, s0, s1, w, IngestStep.Checking);
  }

  /** Insert the deal and announce it. */
  lemma AnnouncesDeal(p: Policy, s0: State, s: State, w: Worker, id: Uuid) returns (s': State)
    requires Reaches(p, s0, s) && Tidy(s) && At(s, w, InsertDeal)
    requires s.txns[w].scored.Some? && Publishable(s.txns[w].scored.value)
    requires id !in s.issued && DealRow(id) !in s.locks
    ensures Reaches(p, s0, s') && Tidy(s')
    ensures s' == s.(txns := s.txns[w := s.txns[w].(phase := Mark, newDeal := Some(id))],
                     locks := s.locks[DealRow(id) := w], issued := s.issued + {id}, bus := s'.bus)
  {
    var s1 := Ingests(p, s0, s, w, IngestStep.Creating(id));
    s' := Ingests(p, s0, s1, w, Announcing);
  }

  /** Mark and commit. */
  lemma Commits(p: Policy, s0: State, s: State, w: Worker) returns (s': State)
    requires Reaches(p, s0, s) && Tidy(s) && At(s, w, Mark)
    requires s.txns[w].event !in s.marks && MarkKey(s.txns[w].event) !in s.locks
    ensures Reaches(p, s0, s') && Tidy(s')
    ensures var t := s.txns[w];
            && s'.deals == DealsAfter(s.deals, t) && s'.listings == ListingsAfter(s.listings, t)
            && s'.marks == s.marks[t.event := t.startedAt] && s'.issued == s.issued
            && s'.txns == s.txns - {w} && s'.done == s.done[w := t.entry]
            && s'.locks == Released(s.locks[MarkKey(t.event) := w], w)
            && s'.guards == s.guards && s'.entries == s.entries && s'.pending == s.pending
            && s'.history == (if t.observation.Some? then s.history + [t.observation.value] else s.history)
            && s'.log == s.log + [t.(phase := Commit, marks := true)]
  {
    var s1 := Envelopes(p, s0, s, w, Marking);
    s' := Envelopes(p, s0, s1, w, Committing);
    assert s1.txns[w] == s.txns[w].(phase := Commit, marks := true);
    assert s1.txns - {w} == s.txns - {w};
  }

  /** All of it, for a transaction that inserted no listing. */
  lemma CreatesDeal(p: Policy, s0: State, s: State, w: Worker, id: Uuid) returns (s': State)
    requires Reaches(p, s0, s) && Tidy(s) && At(s, w, InsertDeal) && !s.txns[w].insertsListing
    requires s.txns[w].scored.Some? && Publishable(s.txns[w].scored.value)
    requires id !in s.issued && DealRow(id) !in s.locks
    requires s.txns[w].event !in s.marks && MarkKey(s.txns[w].event) !in s.locks
    ensures Reaches(p, s0, s') && Tidy(s')
    ensures var t := s.txns[w];
            && s'.deals == s.deals[id := Deal(t.scored.value, Scored)]
            && s'.marks == s.marks[t.event := t.startedAt] && s'.issued == s.issued + {id}
            && s'.txns == s.txns - {w} && s'.locks == Released(s.locks, w)
  {
    var t := s.txns[w];
    var s1 := AnnouncesDeal(p, s0, s, w, id);
    s' := Commits(p, s0, s1, w);
    assert s1.txns - {w} == s.txns - {w};
    ReleasesMore(s.locks, DealRow(id), MarkKey(t.event), w);
  }

  lemma ReleasesMore(locks: map<Lock, Worker>, a: Lock, b: Lock, w: Worker)
    requires a !in locks && b !in locks
    ensures Released(locks[a := w][b := w], w) == Released(locks, w)
  {
  }

  lemma ReleasesAll(locks: map<Lock, Worker>, w: Worker)
    requires forall l :: l in locks ==> locks[l] == w
    ensures Released(locks, w) == map[]
  {
  }

  const OFFER: Offer := Offer(Amazon, "B0")

  /** The first transaction on the offer inserts its listing. */
  lemma InsertsListing(p: Policy, s0: State, s: State, w: Worker, id: Uuid) returns (s': State)
    requires Reaches(p, s0, s) && Tidy(s) && At(s, w, InsertListing)
    requires s.txns[w].payload.Discovered? && s.txns[w].Offer() == OFFER && OFFER !in s.listings
    requires id !in s.issued && OfferKey(OFFER) !in s.locks && ListingRow(id) !in s.locks
    ensures Reaches(p, s0, s') && Tidy(s')
    ensures s' == s.(txns := s.txns[w := s.txns[w].(phase := Observe, listing := Some(id), insertsListing := true)],
                     locks := s.locks[OfferKey(OFFER) := w][ListingRow(id) := w], issued := s.issued + {id})
  {
    s' := Ingests(p, s0, s, w, Inserting(id));
  }

  lemma FindsNothing(p: Policy, s0: State, s: State, w: Worker) returns (s': State)
    requires Reaches(p, s0, s) && Tidy(s) && At(s, w, FindListing)
    requires s.txns[w].payload.Discovered? && s.txns[w].Offer() == OFFER && OFFER !in s.listings
    ensures Reaches(p, s0, s') && Tidy(s')
    ensures s' == s.(txns := s.txns[w := s.txns[w].(phase := InsertListing, listing := None)])
  {
    s' := Ingests(p, s0, s, w, Finding);
  }

  /** A later transaction finds the listing and locks its row. */
  lemma FindsListing(p: Policy, s0: State, s: State, w: Worker, listing: Uuid) returns (s': State)
    requires Reaches(p, s0, s) && Tidy(s) && At(s, w, FindListing)
    requires s.txns[w].payload.Discovered? && s.txns[w].Offer() == OFFER
    requires OFFER in s.listings && s.listings[OFFER] == listing && ListingRow(listing) !in s.locks
    ensures Reaches(p, s0, s') && Tidy(s')
    ensures s' == s.(txns := s.txns[w := s.txns[w].(phase := Observe, listing := Some(listing))],
                     locks := s.locks[ListingRow(listing) := w])
  {
    var s1 := Ingests(p, s0, s, w, Finding);
    s' := Ingests(p, s0, s1, w, Updating);
  }

  /** The loser of an insert race re-reads the winner's row, and locks nothing. */
  lemma LosesInsert(p: Policy, s0: State, s: State, w: Worker, listing: Uuid, drawn: Uuid) returns (s': State)
    requires Reaches(p, s0, s) && Tidy(s) && At(s, w, InsertListing)
    requires s.txns[w].payload.Discovered? && s.txns[w].Offer() == OFFER
    requires OFFER in s.listings && s.listings[OFFER] == listing
    requires drawn !in s.issued && OfferKey(OFFER) !in s.locks && ListingRow(drawn) !in s.locks
    ensures Reaches(p, s0, s') && Tidy(s')
    ensures s' == s.(txns := s.txns[w := s.txns[w].(
                       phase := Observe, listing := Some(listing), insertsListing := false)])
  {
    var s1 := Ingests(p, s0, s, w, Inserting(drawn));
    s' := Ingests(p, s0, s1, w, Rereading);
  }

  /** Without a list price and without history there is nothing to score. */
  lemma SkipsPlain(p: Policy, s0: State, s: State, w: Worker, listing: Uuid) returns (s': State)
    requires Reaches(p, s0, s) && Tidy(s) && At(s, w, Observe) && s.history == []
    requires s.txns[w].payload == Discovered(PLAIN) && s.txns[w].listing == Some(listing) && s.txns[w].startedAt == 0
    ensures Reaches(p, s0, s') && Tidy(s')
    ensures s' == s.(txns := s.txns[w := Recorded(s.txns[w], listing, PLAIN).(phase := Mark, scored := None)])
  {
    var s1 := Ingests(p, s0, s, w, Recording);
    var t := s1.txns[w];
    var verdict := Verdict(s1, t, None, S.DEFAULT_CONFIG);
    OneObservation(listing);
    s' := Ingests(p, s0, s1, w, Scoring(None, S.DEFAULT_CONFIG, verdict));
  }

  lemma OneObservation(listing: Uuid)
    ensures Stats([] + [Seen(listing, PLAIN)], listing, S.DEFAULT_CONFIG.historyWindowDays, 0)
         == Some(PriceStats(1000, 1000))
  {
    var rows := [] + [Seen(listing, PLAIN)];
    assert rows[..|rows| - 1] == [];
  }

  // ---- Without the tap's row lock ------------------------------------------------------

  /** A tap reads a row it does not lock, and decides. */
  lemma DecidesUnlocked(p: Policy, s0: State, s: State, w: Worker, d: Uuid) returns (s': State)
    requires Reaches(p, s0, s) && Tidy(s) && At(s, w, LockDeal) && !s.guards.rowLock
    requires s.txns[w].payload == Tapped(d) && d in s.deals
    requires s.deals[d].status == DealSent && s.deals[d].facts.expiresAt > 0
    ensures Reaches(p, s0, s') && Tidy(s')
    ensures s' == s.(txns := s.txns[w := s.txns[w].(phase := WriteStatus, row := Some(s.deals[d]),
                                                     write := Some(Interested), decidedAt := 0)])
  {
    var s1 := Taps(p, s0, s, w, Reading);
    s' := Taps(p, s0, s1, w, Deciding);
  }

  lemma WritesStatus(p: Policy, s0: State, s: State, w: Worker, d: Uuid) returns (s': State)
    requires Reaches(p, s0, s) && Tidy(s) && At(s, w, WriteStatus)
    requires s.txns[w].payload == Tapped(d) && d in s.deals && DealRow(d) !in s.locks
    ensures Reaches(p, s0, s') && Tidy(s')
    ensures s' == s.(txns := s.txns[w := s.txns[w].(phase := Mark)], locks := s.locks[DealRow(d) := w])
  {
    s' := Taps(p, s0, s, w, Writing);
  }

  lemma Travels(p: Policy, s0: State, s: State, d: Uuid, to: Status) returns (s': State)
    requires Reaches(p, s0, s) && Tidy(s) && CanMove(s, d, to)
    ensures Reaches(p, s0, s') && Tidy(s') && s' == s.(deals := s.deals[d := s.deals[d].(status := to)])
  {
    s' := Moves(p, s0, s, d, to);
  }

  /** The offer's first deal: committed by worker 0 on listing 1, under id 2. */
  ghost predicate Dealt(s: State, guards: Guards, facts: S.ScoredDeal, status: Status) {
    && Tidy(s) && s.guards == guards && facts.listing == 1 && facts.expiresAt > 0
    && s.deals == map[2 := Deal(facts, status)] && s.listings == map[OFFER := 1]
    && s.issued == {1, 2} && s.marks == map[100 := 0] && s.txns == map[] && s.locks == map[] && s.done == map[0 := 0]
  }

  /** The first transaction, once it has inserted the listing. */
  lemma FirstListing(p: Policy, guards: Guards, payload: Payload) returns (s: State)
    requires payload == Discovered(BARGAIN) || payload == Discovered(PLAIN)
    ensures Reaches(p, Init(guards), s) && Tidy(s)
    ensures s == Init(guards).(entries := [Event(100, payload)], pending := map[0 := 0],
                               txns := map[0 := Inserted(payload)],
                               locks := map[OfferKey(OFFER) := 0, ListingRow(1) := 0], issued := {1})
  {
    var s0 := Init(guards);
    Starts(p, s0);
    s := Opening(p, s0, s0, 0, 100, payload);
    s := FindsNothing(p, s0, s, 0);
    s := InsertsListing(p, s0, s, 0, 1);
    assert s.entries == [Event(100, payload)];
  }

  function Inserted(payload: Payload): Txn {
    Begun(0, 100, payload).(phase := Observe, listing := Some(1), insertsListing := true)
  }

  /** The first transaction up to its announcement: everything it holds. */
  lemma FirstAnnounced(guards: Guards) returns (s: State, facts: S.ScoredDeal)
    ensures Reaches(ANYTHING, Init(guards), s) && Tidy(s) && s.guards == guards
    ensures facts.listing == 1 && facts.expiresAt > 0
    ensures s.txns == map[0 := Recorded(Inserted(Discovered(BARGAIN)), 1, BARGAIN).(
                            phase := Mark, scored := Some(facts), newDeal := Some(2))]
    ensures s.deals == map[] && s.listings == map[] && s.marks == map[] && s.done == map[] && s.issued == {1, 2}
    ensures MarkKey(100) !in s.locks && forall l :: l in s.locks ==> s.locks[l] == 0
  {
    var s0 := Init(guards);
    s := FirstListing(ANYTHING, guards, Discovered(BARGAIN));
    s, facts := ScoresBargain(ANYTHING, s0, s, 0, 1);
    s := FindsNoDeal(ANYTHING, s0, s, 0, 1);
    s := AnnouncesDeal(ANYTHING, s0, s, 0, 2);
  }

  lemma FirstDeal(guards: Guards) returns (s: State, facts: S.ScoredDeal)
    ensures Reaches(ANYTHING, Init(guards), s) && Dealt(s, guards, facts, Scored)
  {
    s, facts := FirstAnnounced(guards);
    ReleasesAll(s.locks[MarkKey(100) := 0], 0);
    s := Commits(ANYTHING, Init(guards), s, 0);
  }

  lemma FirstSent(guards: Guards) returns (s: State, facts: S.ScoredDeal)
    ensures Reaches(ANYTHING, Init(guards), s) && Dealt(s, guards, facts, DealSent)
  {
    s, facts := FirstDeal(guards);
    s := Travels(ANYTHING, Init(guards), s, 2, Notified);
    s := Travels(ANYTHING, Init(guards), s, 2, DealSent);
  }

  /** Worker 1 has read the deal as sent, decided INTERESTED, and not written yet. */
  ghost predicate TapWaits(s: State, t: Txn) {
    && s.txns == map[1 := t] && t.phase == WriteStatus && t.payload == Tapped(2)
    && t.event == 101 && t.write == Some(Interested) && t.newDeal.None? && !t.insertsListing
    && t.row.Some? && t.row.value.status == DealSent
  }

  /** The deal expires while the tap waits: a terminal status, and no row lock in the way. */
  lemma ExpiresUnderTap(guards: Guards) returns (s: State, t: Txn, facts: S.ScoredDeal)
    requires !guards.rowLock
    ensures Reaches(ANYTHING, Init(guards), s) && Tidy(s) && s.guards == guards && TapWaits(s, t)
    ensures facts.listing == 1 && s.deals == map[2 := Deal(facts, Expired)] && s.listings == map[OFFER := 1]
    ensures s.issued == {1, 2} && s.marks == map[100 := 0] && s.locks == map[] && s.done == map[0 := 0]
  {
    var s0 := Init(guards);
    s, facts := FirstSent(guards);
    s := Opening(ANYTHING, s0, s, 1, 101, Tapped(2));
    s := DecidesUnlocked(ANYTHING, s0, s, 1, 2);
    t := s.txns[1];
    s := Travels(ANYTHING, s0, s, 2, Expired);
  }

  /** The listing is discovered again by worker 2, who finds no open deal. */
  lemma SecondReady(guards: Guards) returns (s: State, t: Txn, u: Txn, facts: S.ScoredDeal)
    requires !guards.rowLock
    ensures Reaches(ANYTHING, Init(guards), s) && Tidy(s) && At(s, 1, WriteStatus) && At(s, 2, InsertDeal)
    ensures s.txns == map[1 := t, 2 := u] && TapWaits(s.(txns := map[1 := t]), t)
    ensures u.event == 102 && u.scored.Some? && u.scored.value.listing == 1 && Publishable(u.scored.value)
            && u.newDeal.None? && !u.insertsListing && u.payload.Discovered?
    ensures facts.listing == 1 && s.deals == map[2 := Deal(facts, Expired)]
    ensures s.issued == {1, 2} && s.marks == map[100 := 0] && forall l :: l in s.locks ==> l.ListingRow? || l.Advisory?
    ensures forall l :: l in s.locks ==> s.locks[l] == 2
  {
    var s0 := Init(guards);
    s, t, facts := ExpiresUnderTap(guards);
    s := Opening(ANYTHING, s0, s, 2, 102, Discovered(BARGAIN));
    s := FindsListing(ANYTHING, s0, s, 2, 1);
    var facts';
    s, facts' := ScoresBargain(ANYTHING, s0, s, 2, 1);
    s := FindsNoDeal(ANYTHING, s0, s, 2, 1);
    u := s.txns[2];
  }

  lemma SecondDeal(guards: Guards) returns (s: State, t: Txn, old2: Deal, new3: Deal)
    requires !guards.rowLock
    ensures Reaches(ANYTHING, Init(guards), s) && Tidy(s) && TapWaits(s, t)
    ensures s.deals == map[2 := old2, 3 := new3] && s.locks == map[] && 101 !in s.marks
    ensures old2.status == Expired && old2.facts.listing == 1 && new3.facts.listing == 1 && Open(new3.status)
  {
    var s0 := Init(guards);
    var u, facts;
    s, t, u, facts := SecondReady(guards);
    old2, new3 := Deal(facts, Expired), Deal(u.scored.value, Scored);
    ReleasesAll(s.locks, 2);
    s := CreatesDeal(ANYTHING, s0, s, 2, 3);
    assert s.txns == map[1 := t];
  }

  /**
    * A tap that decided on a DEAL_SENT row it did not lock finds it EXPIRED when it writes, after
    * the listing's next deal was committed; it turns EXPIRED back into INTERESTED.
    */
  lemma StaleTapReopens(guards: Guards) returns (before: State, s: State)
    requires !guards.rowLock
    ensures Reaches(ANYTHING, Init(guards), before) && Reaches(ANYTHING, before, s)
    ensures 1 in before.txns && TapWaits(before, before.txns[1])
    ensures 2 in before.deals && before.deals[2].status == Expired && 3 in before.deals && OneOpen(before.deals)
    ensures s.deals == before.deals[2 := before.deals[2].(status := Interested)] && !OneOpen(s.deals)
  {
    var t, old2, new3;
    before, t, old2, new3 := SecondDeal(guards);
    Starts(ANYTHING, before);
    s := WritesStatus(ANYTHING, before, before, 1, 2);
    s := Commits(ANYTHING, before, s, 1);
    TwoOpen(s.deals, 2, 3);
  }

  lemma TwoOpen(deals: map<Uuid, Deal>, d: Uuid, e: Uuid)
    requires d in deals && e in deals && d != e && deals[d].facts.listing == deals[e].facts.listing
    requires Open(deals[d].status) && Open(deals[e].status)
    ensures !OneOpen(deals)
  {
  }

  // ---- Without the advisory lock -------------------------------------------------------

  /** A listing transaction past its check, holding nothing another one waits for. */
  ghost predicate Checked(t: Txn, event: Uuid, listing: Uuid) {
    && t.phase == InsertDeal && t.event == event && t.payload == Discovered(BARGAIN) && !t.insertsListing
    && t.scored.Some? && t.scored.value.listing == listing && Publishable(t.scored.value) && t.newDeal.None?
  }

  const EARLY: Txn := Begun(1, 101, Discovered(BARGAIN)).(phase := InsertListing)

  /** Worker 1 looks the offer up before worker 0's listing is visible. */
  lemma LooksTooEarly(guards: Guards) returns (s: State)
    ensures Reaches(ANYTHING, Init(guards), s) && Tidy(s) && s.guards == guards
    ensures s.txns == map[0 := Inserted(Discovered(PLAIN)), 1 := EARLY]
    ensures s.deals == map[] && s.listings == map[] && s.issued == {1} && s.marks == map[]
    ensures s.locks == map[OfferKey(OFFER) := 0, ListingRow(1) := 0] && s.done == map[] && s.history == []
  {
    var s0 := Init(guards);
    s := FirstListing(ANYTHING, guards, Discovered(PLAIN));
    s := Opening(ANYTHING, s0, s, 1, 101, Discovered(BARGAIN));
    s := FindsNothing(ANYTHING, s0, s, 1);
  }

  /** Worker 0 commits its listing, and no deal. */
  lemma ListingAppears(guards: Guards) returns (s: State)
    ensures Reaches(ANYTHING, Init(guards), s) && Tidy(s) && s.guards == guards && s.txns == map[1 := EARLY]
    ensures s.deals == map[] && s.listings == map[OFFER := 1] && s.issued == {1} && s.marks == map[100 := 0]
    ensures s.locks == map[] && s.done == map[0 := 0]
  {
    var s0 := Init(guards);
    s := LooksTooEarly(guards);
    s := SkipsPlain(ANYTHING, s0, s, 0, 1);
    ReleasesAll(s.locks[MarkKey(100) := 0], 0);
    s := Commits(ANYTHING, s0, s, 0);
  }

  /** It loses the insert, re-reads, and checks without locking anything. */
  lemma FirstRacer(guards: Guards) returns (s: State, t: Txn)
    requires !guards.advisory
    ensures Reaches(ANYTHING, Init(guards), s) && Tidy(s) && s.guards == guards
    ensures s.txns == map[1 := t] && Checked(t, 101, 1)
    ensures s.deals == map[] && s.listings == map[OFFER := 1] && s.issued == {1} && s.marks == map[100 := 0]
    ensures s.locks == map[] && s.done == map[0 := 0]
  {
    var s0 := Init(guards);
    var facts;
    s := ListingAppears(guards);
    s := LosesInsert(ANYTHING, s0, s, 1, 1, 9);
    s, facts := ScoresBargain(ANYTHING, s0, s, 1, 1);
    s := FindsNoDeal(ANYTHING, s0, s, 1, 1);
    t := s.txns[1];
  }

  /** Worker 2 checks before worker 1 inserts. */
  lemma BothChecked(guards: Guards) returns (s: State, t: Txn, u: Txn)
    requires !guards.advisory
    ensures Reaches(ANYTHING, Init(guards), s) && Tidy(s) && s.txns == map[1 := t, 2 := u]
    ensures Checked(t, 101, 1) && Checked(u, 102, 1)
    ensures s.deals == map[] && s.issued == {1} && s.marks == map[100 := 0] && s.locks == map[ListingRow(1) := 2]
  {
    var s0 := Init(guards);
    var facts;
    s, t := FirstRacer(guards);
    s := Opening(ANYTHING, s0, s, 2, 102, Discovered(BARGAIN));
    s := FindsListing(ANYTHING, s0, s, 2, 1);
    s, facts := ScoresBargain(ANYTHING, s0, s, 2, 1);
    s := FindsNoDeal(ANYTHING, s0, s, 2, 1);
    u := s.txns[2];
  }

  lemma OneCommitted(s0: State, t: Txn, u: Txn) returns (s: State, first: Deal)
    requires Tidy(s0) && s0.txns == map[1 := t, 2 := u] && Checked(t, 101, 1) && Checked(u, 102, 1)
    requires s0.deals == map[] && s0.issued == {1} && s0.marks == map[100 := 0] && s0.locks == map[ListingRow(1) := 2]
    ensures Reaches(ANYTHING, s0, s) && Tidy(s) && s.txns == map[2 := u]
    ensures s.deals == map[2 := first] && first.facts.listing == 1 && Open(first.status)
    ensures s.issued == {1, 2} && 102 !in s.marks && s.locks == map[ListingRow(1) := 2]
  {
    first := Deal(t.scored.value, Scored);
    Starts(ANYTHING, s0);
    s := CreatesDeal(ANYTHING, s0, s0, 1, 2);
    assert s.txns == map[2 := u];
    assert s.locks == map[ListingRow(1) := 2];
  }

  /** Two workers find no open deal for listing 1 before either inserts, so both insert one. */
  lemma RaceOpensTwo(guards: Guards) returns (both: State, s: State)
    requires !guards.advisory
    ensures Reaches(ANYTHING, Init(guards), both) && Reaches(ANYTHING, both, s)
    ensures 1 in both.txns && Checked(both.txns[1], 101, 1) && 2 in both.txns && Checked(both.txns[2], 102, 1)
    ensures both.deals == map[] && s.deals.Keys == {2, 3} && !OneOpen(s.deals)
  {
    var t, u, first;
    both, t, u := BothChecked(guards);
    s, first := OneCommitted(both, t, u);
    s := CreatesDeal(ANYTHING, both, s, 2, 3);
    TwoOpen(s.deals, 2, 3);
  }

  // ---- Overlapping attempts ------------------------------------------------------------

  /** An entry still pending on one worker is claimed by another, who starts over. */
  lemma Reclaims(p: Policy, s0: State, s: State, w: Worker, e: nat, event: Uuid, payload: Payload) returns (s': State)
    requires Reaches(p, s0, s) && Tidy(s) && w !in s.txns && w !in s.done
    requires e in s.pending && e < |s.entries| && s.entries[e] == Event(event, payload)
    requires !payload.Unhandled? && event !in s.marks && MayBegin(p, s.txns, s.log, s.now, event)
    ensures Reaches(p, s0, s') && Tidy(s')
    ensures s' == s.(pending := s.pending[e := w], txns := s.txns[w := Begun(e, event, payload)])
  {
    var claim := Claiming(w, e);
    var s1 := Apply(s, claim);
    Takes(p, s, claim);
    Chains(p, s0, s, s1);
    s' := Envelopes(p, s0, s1, w, Beginning(e));
  }

  /** Its own earlier observation is history now; the price is still nothing to compare with. */
  lemma SkipsAgain(p: Policy, s0: State, s: State, w: Worker, listing: Uuid) returns (s': State)
    requires Reaches(p, s0, s) && Tidy(s) && At(s, w, Observe) && s.history == [Seen(listing, PLAIN)]
    requires s.txns[w].payload == Discovered(PLAIN) && s.txns[w].listing == Some(listing) && s.txns[w].startedAt == 0
    ensures Reaches(p, s0, s') && Tidy(s')
    ensures s' == s.(txns := s.txns[w := Recorded(s.txns[w], listing, PLAIN).(phase := Mark, scored := None)])
  {
    var s1 := Ingests(p, s0, s, w, Recording);
    var verdict := Verdict(s1, s1.txns[w], None, S.DEFAULT_CONFIG);
    TwoObservations(listing);
    s' := Ingests(p, s0, s1, w, Scoring(None, S.DEFAULT_CONFIG, verdict));
  }

  lemma TwoObservations(listing: Uuid)
    ensures Stats([Seen(listing, PLAIN)] + [Seen(listing, PLAIN)], listing, S.DEFAULT_CONFIG.historyWindowDays, 0)
         == Some(PriceStats(1000, 1000))
  {
    var rows := [Seen(listing, PLAIN)] + [Seen(listing, PLAIN)];
    assert rows[..|rows| - 1] == [] + [Seen(listing, PLAIN)];
    OneObservation(listing);
  }

  /** The mark is already there: the insert does nothing, and the transaction commits all the same. */
  lemma CommitsUnmarked(p: Policy, s0: State, s: State, w: Worker) returns (s': State)
    requires Reaches(p, s0, s) && Tidy(s) && At(s, w, Mark)
    requires s.txns[w].event in s.marks && MarkKey(s.txns[w].event) !in s.locks
    ensures Reaches(p, s0, s') && Tidy(s')
    ensures var t := s.txns[w];
            && s'.history == (if t.observation.Some? then s.history + [t.observation.value] else s.history)
            && s'.log == s.log + [t.(phase := Commit, marks := false)]
  {
    var s1 := Envelopes(p, s0, s, w, Marking);
    s' := Envelopes(p, s0, s1, w, Committing);
  }

  /** Workers 0 and 1 both have event 100 in hand; nothing is committed yet. */
  ghost predicate InHandTwice(s: State) {
    && Tidy(s) && s.entries == [Event(100, Discovered(PLAIN))] && s.pending == map[0 := 1]
    && s.txns == map[0 := Inserted(Discovered(PLAIN)), 1 := Begun(0, 100, Discovered(PLAIN))]
    && s.locks == map[OfferKey(OFFER) := 0, ListingRow(1) := 0] && s.listings == map[] && s.history == []
    && s.marks == map[] && s.done == map[] && s.log == []
  }

  lemma ClaimedWhileOpen(p: Policy, guards: Guards) returns (s: State)
    requires !p.noOverlap
    ensures Reaches(p, Init(guards), s) && InHandTwice(s)
  {
    s := FirstListing(p, guards, Discovered(PLAIN));
    s := Reclaims(p, Init(guards), s, 1, 0, 100, Discovered(PLAIN));
  }

  lemma FirstAttempt(p: Policy, s0: State) returns (s: State)
    requires InHandTwice(s0)
    ensures Reaches(p, s0, s) && Tidy(s) && s.txns == map[1 := Begun(0, 100, Discovered(PLAIN))]
    ensures s.history == [Seen(1, PLAIN)] && 100 in s.marks && s.locks == map[] && s.listings == map[OFFER := 1]
    ensures |s.log| == 1 && s.log[0].event == 100
  {
    Starts(p, s0);
    s := SkipsPlain(p, s0, s0, 0, 1);
    ReleasesAll(s.locks[MarkKey(100) := 0], 0);
    s := Commits(p, s0, s, 0);
  }

  /**
    * Both locks do not make effects exactly-once: `process_once` ignores what `mark_processed`
    * returns, so two overlapping attempts at one event both commit, and its observation is
    * recorded twice.  No attempt need be late for it.
    */
  lemma OverlapCommitsTwice(p: Policy, guards: Guards) returns (both: State, s: State)
    requires !p.noOverlap
    ensures Reaches(p, Init(guards), both) && InHandTwice(both) && Reaches(p, both, s)
    ensures |s.log| == 2 && s.log[0].event == s.log[1].event == 100
    ensures s.history == [Seen(1, PLAIN), Seen(1, PLAIN)]
  {
    both := ClaimedWhileOpen(p, guards);
    s := FirstAttempt(p, both);
    s := FindsListing(p, both, s, 1, 1);
    s := SkipsAgain(p, both, s, 1, 1);
    s := CommitsUnmarked(p, both, s, 1);
  }

  /** A tap on an unknown deal: read nothing, mark, commit. */
  lemma TapsNothing(p: Policy, s0: State, s: State, w: Worker, d: Uuid) returns (s': State)
    requires Reaches(p, s0, s) && At(s, w, LockDeal) && s.txns[w].payload == Tapped(d) && d !in s.deals
    requires s.txns[w].event !in s.marks && s.locks == map[] && s.txns[w].newDeal.None? && s.txns[w].write.None?
    ensures Reaches(p, s0, s') && s'.log == s.log + [s.txns[w].(phase := Commit, row := None, marks := true)]
    ensures s'.marks == s.marks[s.txns[w].event := s.txns[w].startedAt]
    ensures s'.entries == s.entries && s'.pending == s.pending && s'.done == s.done[w := s.txns[w].entry]
    ensures s'.txns == s.txns - {w} && s'.deals == s.deals && s'.locks == map[] && s'.now == s.now
  {
    var s1 := Taps(p, s0, s, w, Reading);
    s' := CommitsNothing(p, s0, s1, w);
    assert s1.txns - {w} == s.txns - {w};
  }

  lemma CommitsNothing(p: Policy, s0: State, s: State, w: Worker) returns (s': State)
    requires Reaches(p, s0, s) && At(s, w, Mark) && s.txns[w].event !in s.marks && s.locks == map[]
    requires s.txns[w].payload.Tapped? && s.txns[w].write.None? && s.txns[w].newDeal.None?
    ensures Reaches(p, s0, s') && s'.log == s.log + [s.txns[w].(phase := Commit, marks := true)]
    ensures s'.marks == s.marks[s.txns[w].event := s.txns[w].startedAt]
    ensures s'.entries == s.entries && s'.pending == s.pending && s'.done == s.done[w := s.txns[w].entry]
    ensures s'.txns == s.txns - {w} && s'.deals == s.deals && s'.locks == map[] && s'.now == s.now
  {
    var s1 := Envelopes(p, s0, s, w, Marking);
    s' := Envelopes(p, s0, s1, w, Committing);
    assert s1.txns - {w} == s.txns - {w};
  }

  /** Event 7 was handled, its mark is purged, and worker 1 has claimed its entry; nobody is at it. */
  ghost predicate Forgotten(s: State) {
    && s.entries == [Event(7, Tapped(9))] && s.pending == map[0 := 1] && s.now > RETENTION
    && s.marks == map[] && s.txns == map[] && s.locks == map[] && s.deals == map[] && 1 !in s.done
    && |s.log| == 1 && s.log[0].event == 7 && s.log[0].startedAt == 0
  }

  lemma HandledOnce(p: Policy, guards: Guards) returns (s: State)
    ensures Reaches(p, Init(guards), s) && s.entries == [Event(7, Tapped(9))] && s.pending == map[0 := 0]
    ensures s.now == 0 && s.marks == map[7 := 0] && s.txns == map[] && s.locks == map[] && s.deals == map[]
    ensures s.done == map[0 := 0] && |s.log| == 1 && s.log[0].event == 7 && s.log[0].startedAt == 0
  {
    var s0 := Init(guards);
    Starts(p, s0);
    s := Opening(p, s0, s0, 0, 7, Tapped(9));
    s := TapsNothing(p, s0, s, 0, 9);
    assert s.entries == [Event(7, Tapped(9))];
    assert s.marks == map[7 := 0] && s.txns == map[];
  }

  lemma Forgets(p: Policy, guards: Guards) returns (s: State)
    ensures Reaches(p, Init(guards), s) && Forgotten(s)
  {
    var s0 := Init(guards);
    s := HandledOnce(p, guards);
    s := Goes(p, s0, s, Ticking(RETENTION + 1));
    s := Goes(p, s0, s, Purging);
    assert s.marks == map[];
    s := Goes(p, s0, s, Claiming(1, 0));
  }

  /**
    * Nor does non-overlap alone: an event redelivered past the retention window, when its mark
    * is purged and nobody else is at it, is handled afresh.
    */
  lemma LateRedeliveryCommitsTwice(p: Policy, guards: Guards) returns (late: State, s: State)
    requires !p.inWindow
    ensures Reaches(p, Init(guards), late) && Forgotten(late) && Reaches(p, late, s)
    ensures |s.log| == 2 && s.log[0].event == s.log[1].event == 7
  {
    late := Forgets(p, guards);
    Starts(p, late);
    s := Envelopes(p, late, late, 1, Beginning(0));
    s := TapsNothing(p, late, s, 1, 9);
  }

  // ---- The two conditions on attempts, exactly -----------------------------------------

  ghost predicate AlwaysOnce(p: Policy) {
    forall run :: Legal(Init(AS_WRITTEN), run) && OrderlyRun(p, Init(AS_WRITTEN), run) ==>
      AtMostOnce(After(Init(AS_WRITTEN), run).log)
  }

  lemma RefutesOnce(p: Policy, s: State)
    requires Reaches(p, Init(AS_WRITTEN), s) && !AtMostOnce(s.log)
    ensures !AlwaysOnce(p)
  {
  }

  /**
    * Each event is handled by at most one committed transaction in every run that obeys the
    * policy, exactly when the policy demands both: no overlap, and no attempt past the window.
    */
  lemma BothConditionsAreNeeded(p: Policy)
    ensures AlwaysOnce(p) <==> p.noOverlap && p.inWindow
  {
    if !p.noOverlap {
      var both, s := OverlapCommitsTwice(p, AS_WRITTEN);
      Chains(p, Init(AS_WRITTEN), both, s);
      RefutesOnce(p, s);
    } else if !p.inWindow {
      var late, s := LateRedeliveryCommitsTwice(p, AS_WRITTEN);
      Chains(p, Init(AS_WRITTEN), late, s);
      RefutesOnce(p, s);
    } else {
      assert p == ORDERLY;
      forall run | Legal(Init(AS_WRITTEN), run) && OrderlyRun(p, Init(AS_WRITTEN), run)
        ensures AtMostOnce(After(Init(AS_WRITTEN), run).log)
      {
        OrderlyMeansOnce(run);
      }
    }
  }

  // ---- The two locks, exactly ----------------------------------------------------------

  ghost predicate AlwaysOneOpen(guards: Guards) {
    forall run :: Legal(Init(guards), run) ==> OneOpen(After(Init(guards), run).deals)
  }

  lemma Refutes(guards: Guards, mid: State, s: State)
    requires Reaches(ANYTHING, Init(guards), mid) && Reaches(ANYTHING, mid, s) && !OneOpen(s.deals)
    ensures !AlwaysOneOpen(guards)
  {
    Chains(ANYTHING, Init(guards), mid, s);
    var run :| Legal(Init(guards), run) && OrderlyRun(ANYTHING, Init(guards), run) && After(Init(guards), run) == s;
    assert !OneOpen(After(Init(guards), run).deals);
  }

  /**
    * At most one open deal per listing in every run, exactly when the engine takes both locks:
    * the advisory lock around check and insert, and the row lock around the tap.
    */
  lemma BothLocksAreNeeded(guards: Guards)
    ensures AlwaysOneOpen(guards) <==> guards.advisory && guards.rowLock
  {
    if guards.advisory && guards.rowLock {
      assert guards == AS_WRITTEN;
      forall run | Legal(Init(guards), run)
        ensures OneOpen(After(Init(guards), run).deals)
      {
        InitOk();
        RunKeeps(Init(guards), run);
      }
    } else if guards.rowLock {
      var both, s := RaceOpensTwo(guards);
      Refutes(guards, both, s);
    } else {
      var before, s := StaleTapReopens(guards);
      Refutes(guards, before, s);
    }
  }
}
