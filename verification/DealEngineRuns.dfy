/** What holds over every run of the Deal Engine as written. */
module DealEngineRuns {
  import opened Prelude
  import opened PriceHistory
  import opened DealEngine
  import opened DealEngineSafety
  import S = Scorer

  lemma Reached(run: seq<Action>)
    requires Legal(Init(AS_WRITTEN), run)
    ensures Inv(After(Init(AS_WRITTEN), run))
  {
    InitOk();
    RunKeeps(Init(AS_WRITTEN), run);
  }

  // ---- One open deal -------------------------------------------------------------------

  /** At most one open deal per listing, and so per marketplace offer: an offer has one listing id. */
  lemma AtMostOneOpenDeal(run: seq<Action>)
    requires Legal(Init(AS_WRITTEN), run)
    ensures var s := After(Init(AS_WRITTEN), run);
            && OneOpen(s.deals)
            && (forall d :: d in s.deals ==> exists o :: o in s.listings && s.listings[o] == s.deals[d].facts.listing)
            && (forall o, p :: o in s.listings && p in s.listings && s.listings[o] == s.listings[p] ==> o == p)
  {
    Reached(run);
    var s := After(Init(AS_WRITTEN), run);
    forall d | d in s.deals
      ensures exists o :: o in s.listings && s.listings[o] == s.deals[d].facts.listing
    {
      assert s.deals[d].facts.listing in s.listings.Values;
    }
  }

  /** How one step may change `deals`: not at all, by one insert, or in one status, and by whom. */
  ghost predicate LegalChange(s: State, a: Action, deals': map<Uuid, Deal>) {
    || deals' == s.deals
    || (a.Moving? && MovesDeal(s.deals, deals', a.deal, a.to) && Edge(s.deals[a.deal].status, a.to))
    || (a.Enveloping? && a.envelope.Committing? && a.w in s.txns && CommitsOneChange(s.deals, s.txns[a.w], deals'))
  }

  ghost predicate CommitsOneChange(deals: map<Uuid, Deal>, t: Txn, deals': map<Uuid, Deal>) {
    if t.newDeal.Some?
    then t.scored.Some? && InsertsDeal(deals, deals', t.newDeal.value, t.scored.value)
    else
      && t.payload.Tapped? && t.write.Some?
      && MovesDeal(deals, deals', t.payload.deal, t.write.value)
      && t.row == Some(deals[t.payload.deal]) && LegalTap(t)
  }

  /**
    * No step removes a deal, changes its scored facts, or takes it from the terminal set to an
    * open status.  An applied tap finds DEAL_SENT, decided strictly before expiry; the only
    * other status the engine writes is EXPIRED, from expiry on.
    */
  lemma StepOnDeals(s: State, a: Action)
    requires Inv(s) && Enabled(s, a)
    ensures LegalChange(s, a, Apply(s, a).deals)
    ensures RowsKept(s.deals, Apply(s, a).deals)
  {
    match a
    case Moving(d, to) => EdgeMoves(s, d, to);
    case Enveloping(w, step) => EnvelopeOnDeals(s, w, step);
    case Ingesting(w, step) => IngestFrame(s, w, step);
    case Tapping(w, step) => TapFrame(s, w, step);
    case _ =>
  }

  ghost predicate RowsKept(deals: map<Uuid, Deal>, deals': map<Uuid, Deal>) {
    forall d :: d in deals ==>
      && d in deals' && deals'[d].facts == deals[d].facts
      && (Open(deals'[d].status) ==> Open(deals[d].status))
  }

  lemma TxnOnDeals(w: Worker, t: Txn, locks: map<Lock, Worker>, deals: map<Uuid, Deal>, issued: set<Uuid>)
    requires GuardsListing(w, t, locks, deals, issued) && GuardsRow(w, t, locks, deals)
    requires t.payload.Tapped? ==> t.newDeal.None?
    ensures var deals' := DealsAfter(deals, t);
            RowsKept(deals, deals') && (deals' == deals || CommitsOneChange(deals, t, deals'))
  {
    DealsChange(w, t, locks, deals, issued);
  }

  lemma CommitOnDeals(s: State, w: Worker)
    requires At(s, w, Commit) && TxnOk(s, w, s.txns[w])
    ensures var deals' := CommitTxn(s, w).deals;
            RowsKept(s.deals, deals') && (deals' == s.deals || CommitsOneChange(s.deals, s.txns[w], deals'))
  {
    NoTapInserts(s, s.txns[w]);
    TxnOnDeals(w, s.txns[w], s.locks, s.deals, s.issued);
  }

  lemma UncommittedDeals(s: State, w: Worker, step: EnvelopeStep)
    requires EnvelopeEnabled(s, w, step) && !step.Committing?
    ensures EnvelopeApply(s, w, step).deals == s.deals
  {
  }

  lemma EnvelopeOnDeals(s: State, w: Worker, step: EnvelopeStep)
    requires EnvelopeEnabled(s, w, step) && (w in s.txns ==> TxnOk(s, w, s.txns[w]))
    ensures var deals' := EnvelopeApply(s, w, step).deals;
            && RowsKept(s.deals, deals')
            && (deals' == s.deals || (step.Committing? && CommitsOneChange(s.deals, s.txns[w], deals')))
  {
    if step.Committing? {
      CommitOnDeals(s, w);
    } else {
      UncommittedDeals(s, w, step);
    }
  }

  /** What the steps that advance one transaction leave alone. */
  ghost predicate Frame(s: State, s': State, w: Worker) {
    && s'.log == s.log && s'.deals == s.deals && w in s.txns && w in s'.txns
    && s'.txns == s.txns[w := s'.txns[w]] && s'.txns[w].event == s.txns[w].event
  }

  lemma MarkFrame(s: State, w: Worker)
    requires CanMark(s, w)
    ensures Frame(s, MarkEvent(s, w), w)
  {
  }

  lemma AnnounceFrame(s: State, w: Worker)
    requires CanAnnounce(s, w)
    ensures Frame(s, Announce(s, w), w)
  {
  }

  lemma IngestFrame(s: State, w: Worker, step: IngestStep)
    requires Inv(s) && IngestEnabled(s, w, step)
    ensures Frame(s, IngestApply(s, w, step), w)
  {
    if step.Announcing? {
      AnnounceFrame(s, w);
    } else {
      IngestAdvances(s, w, step);
    }
  }

  lemma TapFrame(s: State, w: Worker, step: TapStep)
    requires Inv(s) && TapEnabled(s, w, step)
    ensures Frame(s, TapApply(s, w, step), w)
  {
    TapAdvances(s, w, step);
  }

  /** Each deal has at most one applied tap, and each applied tap was in time on a DEAL_SENT row. */
  lemma AtMostOneAppliedTap(run: seq<Action>)
    requires Legal(Init(AS_WRITTEN), run)
    ensures var log := After(Init(AS_WRITTEN), run).log;
            && (forall i :: 0 <= i < |log| && log[i].AppliedTap() ==>
                  log[i].row.Some? && log[i].row.value.status == DealSent
                  && log[i].decidedAt < log[i].row.value.facts.expiresAt)
            && (forall i, j ::
                  0 <= i < j < |log| && log[i].AppliedTap() && log[j].AppliedTap() ==>
                    log[i].payload.deal != log[j].payload.deal)
  {
    Reached(run);
  }

  // ---- What a deal went through --------------------------------------------------------

  /** On the way of the run, its start and end included, the deal was in that status. */
  predicate Passes(s: State, run: seq<Action>, d: Uuid, status: Status)
    requires Legal(s, run)
    decreases |run|
  {
    || (d in s.deals && s.deals[d].status == status)
    || (run != [] && Passes(Apply(s, run[0]), run[1..], d, status))
  }

  /** No way into these statuses but through the gate. */
  ghost predicate Gates(gate: Status, behind: set<Status>) {
    && Scored !in behind && Expired !in behind
    && (gate == DealSent || Interested !in behind)
    && forall from, to :: Edge(from, to) && to in behind ==> from in behind || from == gate
  }

  lemma ThroughTheGate(s: State, a: Action, deals': map<Uuid, Deal>, d: Uuid, gate: Status, behind: set<Status>)
    requires LegalChange(s, a, deals') && Gates(gate, behind)
    requires d in s.deals ==> s.deals[d].status !in behind && s.deals[d].status != gate
    ensures d in deals' ==> deals'[d].status !in behind
  {
  }

  lemma {:induction false} PassesTheGate(s: State, run: seq<Action>, d: Uuid, gate: Status, behind: set<Status>)
    requires Inv(s) && Legal(s, run) && Gates(gate, behind)
    requires d in s.deals ==> s.deals[d].status !in behind
    requires d in After(s, run).deals && After(s, run).deals[d].status in behind
    ensures Passes(s, run, d, gate)
    decreases |run|
  {
    if run != [] && !(d in s.deals && s.deals[d].status == gate) {
      StepOnDeals(s, run[0]);
      ThroughTheGate(s, run[0], Apply(s, run[0]).deals, d, gate, behind);
      StepKeeps(s, run[0]);
      PassesTheGate(Apply(s, run[0]), run[1..], d, gate, behind);
    }
  }

  const ANSWERED: set<Status> := {Confirmed, PriceChanged, SoldOut, PriceChangedRejected, SoldOutRejected, Ordered}

  const TAPPED: set<Status> := ANSWERED + {Revalidating}

  const SENT: set<Status> := TAPPED + {Interested, Ignored, Watching}

  lemma TheGates()
    ensures Gates(Revalidating, ANSWERED) && Gates(Interested, TAPPED) && Gates(DealSent, SENT)
  {
  }

  /**
    * In every run nothing is confirmed or ordered, nor found changed or sold out, that was not
    * under revalidation before, nothing is revalidated that was not tapped for, and nothing
    * tapped, ignored or put off that was not sent.
    */
  lemma NothingOrderedUnchecked(run: seq<Action>, d: Uuid)
    requires Legal(Init(AS_WRITTEN), run) && d in After(Init(AS_WRITTEN), run).deals
    ensures var start, status := Init(AS_WRITTEN), After(Init(AS_WRITTEN), run).deals[d].status;
            && (status in ANSWERED ==> Passes(start, run, d, Revalidating))
            && (status in TAPPED ==> Passes(start, run, d, Interested))
            && (status in SENT ==> Passes(start, run, d, DealSent))
  {
    InitOk();
    TheGates();
    var status := After(Init(AS_WRITTEN), run).deals[d].status;
    if status in ANSWERED {
      PassesTheGate(Init(AS_WRITTEN), run, d, Revalidating, ANSWERED);
    }
    if status in TAPPED {
      PassesTheGate(Init(AS_WRITTEN), run, d, Interested, TAPPED);
    }
    if status in SENT {
      PassesTheGate(Init(AS_WRITTEN), run, d, DealSent, SENT);
    }
  }

  // ---- Offers --------------------------------------------------------------------------

  /**
    * Committed transactions on one offer used one listing id, and the two RuntimeErrors are
    * out of reach: a losing inserter's re-read finds the winner, and a locked row is still there.
    */
  lemma OneListingPerOffer(run: seq<Action>)
    requires Legal(Init(AS_WRITTEN), run)
    ensures var s := After(Init(AS_WRITTEN), run);
            && (forall i, j ::
                  (0 <= i < |s.log| && 0 <= j < |s.log| && s.log[i].payload.Discovered?
                   && s.log[j].payload.Discovered? && s.log[i].Offer() == s.log[j].Offer())
                  ==> s.log[i].listing == s.log[j].listing)
            && (forall w :: At(s, w, RereadListing) ==> CanReread(s, w))
            && (forall w :: At(s, w, WriteStatus) ==> CanWrite(s, w))
  {
    Reached(run);
    var s := After(Init(AS_WRITTEN), run);
    forall w | At(s, w, RereadListing)
      ensures CanReread(s, w)
    {
      assert TxnOk(s, w, s.txns[w]);
    }
    forall w | At(s, w, WriteStatus)
      ensures CanWrite(s, w)
    {
      assert TxnOk(s, w, s.txns[w]);
    }
  }

  // ---- The scorer's input --------------------------------------------------------------

  /** Wherever a worker is about to score, the statistics exist and bracket the product's price. */
  lemma ScorerSeesCurrentPrice(run: seq<Action>, w: Worker, windowDays: nat)
    requires Legal(Init(AS_WRITTEN), run) && At(After(Init(AS_WRITTEN), run), w, Assess)
    ensures var s := After(Init(AS_WRITTEN), run);
            var t := s.txns[w];
            && t.payload.Discovered? && t.listing.Some? && t.observation.Some?
            && var stats := Stats(s.history + [t.observation.value], t.listing.value, windowDays, t.startedAt);
            && stats.Some?
            && stats.value.lowestPrice <= t.payload.product.price <= stats.value.highestPrice
  {
    Reached(run);
    var s := After(Init(AS_WRITTEN), run);
    assert TxnOk(s, w, s.txns[w]);
    CurrentPriceIsInStats(s.history, s.txns[w].observation.value, windowDays);
  }

  /** The series the statistics are read from: committed rows, then the one this transaction appended. */
  function Series(s: State, t: Txn): seq<Observation>
    requires t.payload.Discovered? && t.listing.Some?
  {
    s.history + [Observation(t.listing.value, t.payload.product.price, t.payload.product.inStock, t.startedAt)]
  }

  /** What the verdict is, given the range of prices it was reached on. */
  ghost predicate RightVerdict(
    verdict: S.Outcome, product: S.Product, listing: Uuid, tier: Option<S.BrandTier>, stats: Option<PriceStats>,
    config: S.Config, now: int)
  {
    match verdict
    case Deal(d) =>
      && S.Stored(d, product, listing, stats, config, now)
      && S.Credits(d.breakdown, config.weights, d.referencePrice, product, tier, stats)
      && S.Clears(d.referencePrice, product.price, d.score, config)
    case Skip =>
      forall reference :: S.Compares(product, stats, reference) ==>
        exists b :: S.Credits(b, config.weights, reference, product, tier, stats)
                    && !S.Clears(reference, product.price, b.Total(), config)
    case ZeroDivision => false
  }

  lemma ScoreIsRight(
    product: S.Product, listing: Uuid, tier: Option<S.BrandTier>, stats: Option<PriceStats>, config: S.Config, now: int)
    requires product.price > 0
    ensures RightVerdict(
              S.Score(product, listing, tier, stats, config, now), product, listing, tier, stats, config, now)
  {
    if S.Score(product, listing, tier, stats, config, now).Deal? {
      S.DealMeaning(product, listing, tier, stats, config, now);
    } else {
      forall reference | S.Compares(product, stats, reference)
        ensures exists b :: S.Credits(b, config.weights, reference, product, tier, stats)
                            && !S.Clears(reference, product.price, b.Total(), config)
      {
        var b := S.SkipMeaning(product, listing, tier, stats, config, now, reference);
      }
    }
  }

  lemma VerdictOnSeries(s: State, t: Txn, tier: Option<S.BrandTier>, config: S.Config)
    returns (stats: Option<PriceStats>)
    requires t.payload.Discovered? && t.listing.Some? && t.payload.product.price > 0
    requires t.observation == Some(Observation(t.listing.value, t.payload.product.price,
                                               t.payload.product.inStock, t.startedAt))
    ensures Range(Series(s, t), t.listing.value, t.startedAt - 86400 * config.historyWindowDays, stats)
    ensures RightVerdict(Verdict(s, t, tier, config), t.payload.product, t.listing.value, tier, stats, config, s.now)
  {
    var l := t.listing.value;
    StatsAreTheRange(Series(s, t), l, config.historyWindowDays, t.startedAt);
    stats := Stats(Series(s, t), l, config.historyWindowDays, t.startedAt);
    ScoreIsRight(t.payload.product, l, tier, stats, config, s.now);
  }

  lemma AtAssess(run: seq<Action>, w: Worker)
    requires Legal(Init(AS_WRITTEN), run) && At(After(Init(AS_WRITTEN), run), w, Assess)
    ensures var t := After(Init(AS_WRITTEN), run).txns[w];
            && t.payload.Discovered? && t.listing.Some? && t.payload.product.price > 0
            && t.observation == Some(Observation(t.listing.value, t.payload.product.price,
                                                 t.payload.product.inStock, t.startedAt))
  {
    Reached(run);
    assert TxnOk(After(Init(AS_WRITTEN), run), w, After(Init(AS_WRITTEN), run).txns[w]);
  }

  /**
    * The verdict inside the handler, in every run and under every config: it is the scorer's on
    * the extremes of the series since the window's start, this transaction's own row included.
    */
  lemma VerdictFromRows(run: seq<Action>, w: Worker, tier: Option<S.BrandTier>, config: S.Config)
    returns (stats: Option<PriceStats>)
    requires Legal(Init(AS_WRITTEN), run) && At(After(Init(AS_WRITTEN), run), w, Assess)
    ensures var s := After(Init(AS_WRITTEN), run);
            var t := s.txns[w];
            && t.payload.Discovered? && t.listing.Some? && t.observation.Some?
            && Range(Series(s, t), t.listing.value, t.startedAt - 86400 * config.historyWindowDays, stats)
            && RightVerdict(Verdict(s, t, tier, config), t.payload.product, t.listing.value, tier, stats, config, s.now)
  {
    AtAssess(run, w);
    var s := After(Init(AS_WRITTEN), run);
    stats := VerdictOnSeries(s, s.txns[w], tier, config);
  }

  /** An earlier committed price of the listing inside the window. */
  ghost predicate SeenBefore(history: seq<Observation>, listing: Uuid, since: int, price: int) {
    exists i :: 0 <= i < |history| && Since(history[i], listing, since) && history[i].price == price
  }

  lemma RangeWithCurrent(history: seq<Observation>, current: Observation, since: int, stats: Option<PriceStats>)
    requires Range(history + [current], current.listing, since, stats) && since <= current.observedAt
    ensures stats.Some? && stats.value.lowestPrice <= current.price <= stats.value.highestPrice
    ensures stats.value.highestPrice > current.price ==>
              SeenBefore(history, current.listing, since, stats.value.highestPrice)
    ensures stats.value.lowestPrice < current.price ==>
              SeenBefore(history, current.listing, since, stats.value.lowestPrice)
  {
    var rows := history + [current];
    assert rows[|history|] == current && Since(rows[|history|], current.listing, since);
  }

  lemma FullAtTheLow(n: int, weight: real, price: int, stats: PriceStats)
    requires S.VelocityPoints(n, weight, price, Some(stats)) && 0 < price == stats.lowestPrice
    ensures S.Rounds(n, 10000.0 * weight, 1.0)
  {
    S.RoundsScaled(n, 10000.0 * weight, price as real);
  }

  /**
    * A verdict against earlier prices of the listing since a moment: full velocity credit if none
    * was lower, a reference other than the MRP only from a higher one, and without an MRP above
    * the price and a higher earlier price no deal at all.
    */
  ghost predicate Follows(
    verdict: S.Outcome, product: S.Product, history: seq<Observation>, listing: Uuid, since: int, config: S.Config)
  {
    && (verdict.Deal? && (forall price :: SeenBefore(history, listing, since, price) ==> product.price <= price) ==>
          S.Rounds(verdict.deal.breakdown.velocityScore, 10000.0 * config.weights.velocity, 1.0))
    && (verdict.Deal? && Some(verdict.deal.referencePrice) != product.mrp ==>
          verdict.deal.referencePrice > product.price
          && SeenBefore(history, listing, since, verdict.deal.referencePrice))
    && ((product.mrp.Some? ==> product.mrp.value <= product.price)
        && (forall price :: SeenBefore(history, listing, since, price) ==> price <= product.price) ==>
          verdict.Skip?)
  }

  lemma RightFollows(
    verdict: S.Outcome, product: S.Product, listing: Uuid, tier: Option<S.BrandTier>, stats: Option<PriceStats>,
    config: S.Config, now: int, history: seq<Observation>, current: Observation, since: int)
    requires RightVerdict(verdict, product, listing, tier, stats, config, now) && product.price > 0
    requires current.listing == listing && current.price == product.price && since <= current.observedAt
    requires Range(history + [current], listing, since, stats)
    ensures Follows(verdict, product, history, listing, since, config)
  {
    RangeWithCurrent(history, current, since, stats);
    if verdict.Deal? && stats.value.lowestPrice == product.price {
      FullAtTheLow(verdict.deal.breakdown.velocityScore, config.weights.velocity, product.price, stats.value);
    }
  }

  /** In every run, under every config whose window does not end before the transaction starts. */
  lemma VerdictFromEarlierPrices(run: seq<Action>, w: Worker, tier: Option<S.BrandTier>, config: S.Config)
    requires Legal(Init(AS_WRITTEN), run) && At(After(Init(AS_WRITTEN), run), w, Assess)
    requires config.historyWindowDays >= 0
    ensures var s := After(Init(AS_WRITTEN), run);
            var t := s.txns[w];
            && t.payload.Discovered? && t.listing.Some? && t.observation.Some?
            && Follows(Verdict(s, t, tier, config), t.payload.product, s.history, t.listing.value,
                       t.startedAt - 86400 * config.historyWindowDays, config)
  {
    var stats := VerdictFromRows(run, w, tier, config);
    AtAssess(run, w);
    var s := After(Init(AS_WRITTEN), run);
    var t := s.txns[w];
    RightFollows(Verdict(s, t, tier, config), t.payload.product, t.listing.value, tier, stats, config, s.now,
                 s.history, t.observation.value, t.startedAt - 86400 * config.historyWindowDays);
  }

  // ---- Announcements -------------------------------------------------------------------

  predicate PositivePrices(bus: seq<Announcement>) {
    forall i :: 0 <= i < |bus| ==> bus[i].facts.detectedPrice > 0
  }

  lemma AnnouncesPositive(s: State, w: Worker)
    requires CanAnnounce(s, w) && TxnOk(s, w, s.txns[w]) && PositivePrices(s.bus)
    ensures PositivePrices(Announce(s, w).bus)
  {
  }

  lemma IngestKeepsPrices(s: State, w: Worker, step: IngestStep)
    requires IngestEnabled(s, w, step) && PositivePrices(s.bus)
    requires step.Announcing? ==> TxnOk(s, w, s.txns[w])
    ensures PositivePrices(IngestApply(s, w, step).bus)
  {
    if step.Announcing? {
      AnnouncesPositive(s, w);
    }
  }

  lemma OtherKeepsBus(s: State, a: Action)
    requires Enabled(s, a) && !a.Ingesting?
    ensures Apply(s, a).bus == s.bus
  {
    match a
    case Enveloping(w, step) => EnvelopeKeepsBus(s, w, step);
    case _ =>
  }

  lemma EnvelopeKeepsBus(s: State, w: Worker, step: EnvelopeStep)
    requires EnvelopeEnabled(s, w, step)
    ensures EnvelopeApply(s, w, step).bus == s.bus
  {
  }

  lemma StepKeepsPrices(s: State, a: Action)
    requires TxnsOk(s) && Enabled(s, a) && PositivePrices(s.bus)
    ensures PositivePrices(Apply(s, a).bus)
  {
    match a
    case Ingesting(w, step) => IngestKeepsPrices(s, w, step);
    case _ => OtherKeepsBus(s, a);
  }

  lemma {:induction false} RunKeepsPrices(s: State, run: seq<Action>)
    requires Inv(s) && PositivePrices(s.bus) && Legal(s, run)
    ensures PositivePrices(After(s, run).bus)
    decreases |run|
  {
    if run != [] {
      StepKeepsPrices(s, run[0]);
      StepKeeps(s, run[0]);
      RunKeepsPrices(Apply(s, run[0]), run[1..]);
    }
  }

  ghost predicate AnnouncedOnce(bus: seq<Announcement>, deal: Uuid, facts: S.ScoredDeal) {
    && OnBus(bus, deal, facts)
    && (forall i, j :: 0 <= i < |bus| && 0 <= j < |bus| && bus[i].deal == deal && bus[j].deal == deal ==> i == j)
  }

  /**
    * Every committed deal has exactly one DEAL_SCORED, with its id and its facts; an
    * announcement without a committed deal belongs to a transaction still open past its
    * publish, or to one rolled back.  No two share a deal id, and every one of them, committed
    * or not, has a positive price.
    */
  lemma AnnouncementsMatchDeals(run: seq<Action>)
    requires Legal(Init(AS_WRITTEN), run)
    ensures var s := After(Init(AS_WRITTEN), run);
            && (forall d :: d in s.deals ==> AnnouncedOnce(s.bus, d, s.deals[d].facts))
            && (forall i :: 0 <= i < |s.bus| && s.bus[i].deal !in s.deals ==>
                  s.bus[i].deal in s.aborted || InFlight(s.bus[i], s.txns, s.locks))
            && s.aborted !! s.deals.Keys
            && (forall i, j :: 0 <= i < j < |s.bus| ==> s.bus[i].deal != s.bus[j].deal)
            && PositivePrices(s.bus)
  {
    Reached(run);
    InitOk();
    RunKeepsPrices(Init(AS_WRITTEN), run);
  }

  // ---- The tables are the log ----------------------------------------------------------

  function Observations(log: seq<Txn>): seq<Observation> {
    if log == [] then []
    else
      var before, t := Observations(log[..|log| - 1]), log[|log| - 1];
      if t.observation.Some? then before + [t.observation.value] else before
  }

  function Listings(log: seq<Txn>): map<Offer, Uuid> {
    if log == [] then map[] else ListingsAfter(Listings(log[..|log| - 1]), log[|log| - 1])
  }

  /** The deals committed transactions created, and what they were scored at. */
  function Created(log: seq<Txn>): map<Uuid, S.ScoredDeal> {
    if log == [] then map[]
    else
      var before, t := Created(log[..|log| - 1]), log[|log| - 1];
      if t.newDeal.Some? && t.scored.Some? then before[t.newDeal.value := t.scored.value] else before
  }

  function Facts(deals: map<Uuid, Deal>): map<Uuid, S.ScoredDeal> { map d | d in deals :: deals[d].facts }

  ghost predicate FromLog(s: State) {
    s.history == Observations(s.log) && s.listings == Listings(s.log) && Facts(s.deals) == Created(s.log)
  }

  lemma LogGrowsBy(log: seq<Txn>, t: Txn)
    ensures Observations(log + [t])
         == if t.observation.Some? then Observations(log) + [t.observation.value] else Observations(log)
    ensures Listings(log + [t]) == ListingsAfter(Listings(log), t)
    ensures Created(log + [t])
         == if t.newDeal.Some? && t.scored.Some? then Created(log)[t.newDeal.value := t.scored.value] else Created(log)
  {
    assert (log + [t])[..|log|] == log;
  }

  lemma FactsAfter(deals: map<Uuid, Deal>, t: Txn)
    ensures Facts(DealsAfter(deals, t))
         == if t.newDeal.Some? && t.scored.Some? then Facts(deals)[t.newDeal.value := t.scored.value] else Facts(deals)
  {
  }

  ghost predicate SameTables(s: State, s': State) {
    s'.log == s.log && s'.history == s.history && s'.listings == s.listings && Facts(s'.deals) == Facts(s.deals)
  }

  lemma EnvelopeSameTables(s: State, w: Worker, step: EnvelopeStep)
    requires EnvelopeEnabled(s, w, step) && !step.Committing?
    ensures SameTables(s, EnvelopeApply(s, w, step))
  {
  }

  lemma IngestSameTables(s: State, w: Worker, step: IngestStep)
    requires IngestEnabled(s, w, step)
    ensures SameTables(s, IngestApply(s, w, step))
  {
  }

  lemma TapSameTables(s: State, w: Worker, step: TapStep)
    requires TapEnabled(s, w, step)
    ensures SameTables(s, TapApply(s, w, step))
  {
  }

  lemma MoveSameTables(s: State, d: Uuid, to: Status)
    requires CanMove(s, d, to)
    ensures SameTables(s, Move(s, d, to))
  {
    assert Facts(Move(s, d, to).deals) == Facts(s.deals);
  }

  lemma CommitWritesLog(s: State, w: Worker)
    requires At(s, w, Commit) && FromLog(s)
    ensures FromLog(CommitTxn(s, w))
  {
    LogGrowsBy(s.log, s.txns[w]);
    FactsAfter(s.deals, s.txns[w]);
  }

  lemma StepKeepsTables(s: State, a: Action)
    requires Enabled(s, a) && FromLog(s)
    ensures FromLog(Apply(s, a))
  {
    match a
    case Moving(d, to) => MoveSameTables(s, d, to);
    case Enveloping(w, step) =>
      if step.Committing? {
        CommitWritesLog(s, w);
      } else {
        EnvelopeSameTables(s, w, step);
      }
    case Ingesting(w, step) => IngestSameTables(s, w, step);
    case Tapping(w, step) => TapSameTables(s, w, step);
    case _ =>
  }

  lemma {:induction false} RunKeepsTables(s: State, run: seq<Action>)
    requires FromLog(s) && Legal(s, run)
    ensures FromLog(After(s, run))
    decreases |run|
  {
    if run != [] {
      StepKeepsTables(s, run[0]);
      RunKeepsTables(Apply(s, run[0]), run[1..]);
    }
  }

  /**
    * In every run, under any locking: the price series is the observations of the committed
    * transactions in commit order, the listings are their inserts, and the deals are the ones
    * they created, at the facts they were scored at.  Nothing uncommitted shows, nothing
    * committed is lost.
    */
  lemma TablesAreTheLog(guards: Guards, run: seq<Action>)
    requires Legal(Init(guards), run)
    ensures var s := After(Init(guards), run);
            s.history == Observations(s.log) && s.listings == Listings(s.log) && Facts(s.deals) == Created(s.log)
  {
    assert FromLog(Init(guards));
    RunKeepsTables(Init(guards), run);
  }

  // ---- Every deal is a discount --------------------------------------------------------

  predicate Discount(facts: S.ScoredDeal) { facts.detectedPrice < facts.referencePrice }

  ghost predicate Discounts(txns: map<Worker, Txn>, deals: map<Uuid, Deal>) {
    && (forall w :: w in txns && txns[w].scored.Some? ==> Discount(txns[w].scored.value))
    && (forall d :: d in deals ==> Discount(deals[d].facts))
  }

  lemma EnvelopeKeepsDiscounts(s: State, w: Worker, step: EnvelopeStep)
    requires EnvelopeEnabled(s, w, step) && Discounts(s.txns, s.deals)
    ensures Discounts(EnvelopeApply(s, w, step).txns, EnvelopeApply(s, w, step).deals)
  {
  }

  lemma IngestKeepsDiscounts(s: State, w: Worker, step: IngestStep)
    requires IngestEnabled(s, w, step) && Discounts(s.txns, s.deals)
    ensures Discounts(IngestApply(s, w, step).txns, IngestApply(s, w, step).deals)
  {
  }

  lemma TapKeepsDiscounts(s: State, w: Worker, step: TapStep)
    requires TapEnabled(s, w, step) && Discounts(s.txns, s.deals)
    ensures Discounts(TapApply(s, w, step).txns, TapApply(s, w, step).deals)
  {
  }

  lemma MoveKeepsDiscounts(s: State, d: Uuid, to: Status)
    requires CanMove(s, d, to) && Discounts(s.txns, s.deals)
    ensures Discounts(s.txns, Move(s, d, to).deals) && Move(s, d, to).txns == s.txns
  {
  }

  lemma StepKeepsDiscounts(s: State, a: Action)
    requires Enabled(s, a) && Discounts(s.txns, s.deals)
    ensures Discounts(Apply(s, a).txns, Apply(s, a).deals)
  {
    match a
    case Moving(d, to) => MoveKeepsDiscounts(s, d, to);
    case Enveloping(w, step) => EnvelopeKeepsDiscounts(s, w, step);
    case Ingesting(w, step) => IngestKeepsDiscounts(s, w, step);
    case Tapping(w, step) => TapKeepsDiscounts(s, w, step);
    case _ =>
  }

  lemma {:induction false} RunKeepsDiscounts(s: State, run: seq<Action>)
    requires Discounts(s.txns, s.deals) && Legal(s, run)
    ensures Discounts(After(s, run).txns, After(s, run).deals)
    decreases |run|
  {
    if run != [] {
      StepKeepsDiscounts(s, run[0]);
      RunKeepsDiscounts(Apply(s, run[0]), run[1..]);
    }
  }

  /** Every committed deal's detected price is positive and below its reference price. */
  lemma EveryDealIsADiscount(run: seq<Action>, d: Uuid)
    requires Legal(Init(AS_WRITTEN), run) && d in After(Init(AS_WRITTEN), run).deals
    ensures var facts := After(Init(AS_WRITTEN), run).deals[d].facts;
            0 < facts.detectedPrice < facts.referencePrice
  {
    Reached(run);
    RunKeepsDiscounts(Init(AS_WRITTEN), run);
  }

  // ---- Marks, effects and acknowledgements ---------------------------------------------

  /**
    * A mark was committed exactly for the events some committed transaction handled, a mark in
    * the table is one of those, and no well-formed entry is acknowledged before its event's
    * mark and effects were committed.
    */
  lemma AckedMeansCommitted(run: seq<Action>)
    requires Legal(Init(AS_WRITTEN), run)
    ensures var s := After(Init(AS_WRITTEN), run);
            && (forall e :: MarkedBy(s.log, e) <==> exists i :: 0 <= i < |s.log| && s.log[i].event == e)
            && (forall e :: e in s.marks ==> MarkedBy(s.log, e))
            && (forall e :: e in s.acked && e < |s.entries| && s.entries[e].Event? ==> MarkedBy(s.log, s.entries[e].id))
  {
    Reached(run);
  }

  /** The step acknowledges the entry: it drops a malformed one, or its worker is done with it. */
  predicate Acknowledges(s: State, a: Action, e: nat) {
    && a.Enveloping?
    && ((a.envelope == Delivering(e) && e < |s.entries| && s.entries[e].Malformed?)
        || (a.envelope.Acking? && a.w in s.done && s.done[a.w] == e))
  }

  predicate Given(s: State, e: nat) { e in s.pending || e in s.acked }

  lemma IngestLeavesGroup(s: State, w: Worker, step: IngestStep)
    requires IngestEnabled(s, w, step)
    ensures IngestApply(s, w, step).pending == s.pending && IngestApply(s, w, step).acked == s.acked
  {
  }

  lemma EnvelopeOnGroup(s: State, w: Worker, step: EnvelopeStep, e: nat)
    requires EnvelopeEnabled(s, w, step)
    ensures var s' := EnvelopeApply(s, w, step);
            && (e in s'.acked <==> e in s.acked || Acknowledges(s, Enveloping(w, step), e))
            && (Given(s', e) <==> Given(s, e) || step == Delivering(e) || Acknowledges(s, Enveloping(w, step), e))
  {
  }

  /** An entry is acknowledged by exactly these steps, and one that was delivered never drops out. */
  lemma AcknowledgedExactly(s: State, a: Action, e: nat)
    requires Enabled(s, a)
    ensures e in Apply(s, a).acked <==> e in s.acked || Acknowledges(s, a, e)
    ensures Given(Apply(s, a), e) <==>
            Given(s, e) || (a.Enveloping? && a.envelope == Delivering(e)) || Acknowledges(s, a, e)
  {
    match a
    case Enveloping(w, step) => EnvelopeOnGroup(s, w, step, e);
    case Ingesting(w, step) => IngestLeavesGroup(s, w, step);
    case _ =>
  }

  lemma {:induction false} DeliveredStays(s: State, run: seq<Action>, e: nat)
    requires Legal(s, run) && Given(s, e)
    ensures Given(After(s, run), e) && (e in s.acked ==> e in After(s, run).acked)
    decreases |run|
  {
    if run != [] {
      AcknowledgedExactly(s, run[0], e);
      DeliveredStays(Apply(s, run[0]), run[1..], e);
    }
  }

  /** In every run a mark lasts seven days from the start of its transaction, and a purge keeps none longer. */
  lemma MarksLastSevenDays(run: seq<Action>)
    requires Legal(Init(AS_WRITTEN), run)
    ensures var s := After(Init(AS_WRITTEN), run);
            && (forall i :: 0 <= i < |s.log| && s.log[i].marks && s.now - s.log[i].startedAt <= 604_800 ==>
                  s.log[i].event in s.marks)
            && (forall e :: e in Purge(s).marks ==> s.now - s.marks[e] <= 604_800)
  {
    Reached(run);
  }

  /** What is assumed of the attempts at one event: that they do not overlap, and that none is late. */
  datatype Policy = Policy(noOverlap: bool, inWindow: bool)

  const ORDERLY: Policy := Policy(true, true)

  const ANYTHING: Policy := Policy(false, false)

  /**
    * A fresh attempt obeys the policy: it does not overlap another attempt at the same event,
    * and it does not come later than the retention window after an earlier success.
    */
  ghost predicate Orderly(p: Policy, s: State, a: Action) {
    a.Enveloping? && a.envelope.Beginning? && a.envelope.e < |s.entries| && s.entries[a.envelope.e].Event? ==>
      MayBegin(p, s.txns, s.log, s.now, s.entries[a.envelope.e].id)
  }

  ghost predicate MayBegin(p: Policy, txns: map<Worker, Txn>, log: seq<Txn>, now: int, event: Uuid) {
    && (p.noOverlap ==> forall w :: w in txns ==> txns[w].event != event)
    && (p.inWindow ==> forall i :: 0 <= i < |log| && log[i].event == event ==> now - RETENTION <= log[i].startedAt)
  }

  ghost predicate OrderlyRun(p: Policy, s: State, run: seq<Action>)
    requires Legal(s, run)
    decreases |run|
  {
    run == [] || (Orderly(p, s, run[0]) && OrderlyRun(p, Apply(s, run[0]), run[1..]))
  }

  /** No event is in the log twice, nor in the log and in hand, nor in hand twice. */
  ghost predicate Once(log: seq<Txn>, txns: map<Worker, Txn>) {
    && (forall i, j :: 0 <= i < j < |log| ==> log[i].event != log[j].event)
    && (forall i, w :: 0 <= i < |log| && w in txns ==> log[i].event != txns[w].event)
    && (forall v, w :: v in txns && w in txns && txns[v].event == txns[w].event ==> v == w)
  }

  lemma OnceOpens(log: seq<Txn>, txns: map<Worker, Txn>, w: Worker, t: Txn)
    requires Once(log, txns) && w !in txns
    requires forall v :: v in txns ==> txns[v].event != t.event
    requires forall i :: 0 <= i < |log| ==> log[i].event != t.event
    ensures Once(log, txns[w := t])
  {
  }

  lemma OnceCommits(log: seq<Txn>, txns: map<Worker, Txn>, w: Worker)
    requires Once(log, txns) && w in txns
    ensures Once(log + [txns[w]], txns - {w})
  {
  }

  lemma OnceAdvances(log: seq<Txn>, txns: map<Worker, Txn>, w: Worker, t: Txn)
    requires Once(log, txns) && w in txns && t.event == txns[w].event
    ensures Once(log, txns[w := t])
  {
  }

  /** Within the window an event that was handled still has its mark, so it is not begun again. */
  lemma UnmarkedMeansNew(s: State, w: Worker, e: nat)
    requires Inv(s) && CanBegin(s, w, e) && Orderly(ORDERLY, s, Enveloping(w, Beginning(e)))
    requires s.entries[e].id !in s.marks
    ensures forall i :: 0 <= i < |s.log| ==> s.log[i].event != s.entries[e].id
  {
    var event := s.entries[e].id;
    assert MarkedBy(s.log, event) ==> event in s.marks;
  }

  lemma EnvelopeKeepsOnce(s: State, w: Worker, step: EnvelopeStep)
    requires Inv(s) && EnvelopeEnabled(s, w, step) && Orderly(ORDERLY, s, Enveloping(w, step)) && Once(s.log, s.txns)
    requires !step.Marking?
    ensures Once(EnvelopeApply(s, w, step).log, EnvelopeApply(s, w, step).txns)
  {
    match step
    case Beginning(e) =>
      if s.entries[e].id !in s.marks {
        UnmarkedMeansNew(s, w, e);
        OnceOpens(s.log, s.txns, w, Opened(s, e));
      }
    case Committing => OnceCommits(s.log, s.txns, w);
    case _ =>
  }

  lemma StepKeepsOnce(s: State, a: Action)
    requires Inv(s) && Enabled(s, a) && Orderly(ORDERLY, s, a) && Once(s.log, s.txns)
    ensures Once(Apply(s, a).log, Apply(s, a).txns)
  {
    match a
    case Enveloping(w, step) =>
      if step.Marking? {
        MarkFrame(s, w);
        OnceAdvances(s.log, s.txns, w, MarkEvent(s, w).txns[w]);
      } else {
        EnvelopeKeepsOnce(s, w, step);
      }
    case Ingesting(w, step) =>
      IngestFrame(s, w, step);
      OnceAdvances(s.log, s.txns, w, IngestApply(s, w, step).txns[w]);
    case Tapping(w, step) =>
      TapFrame(s, w, step);
      OnceAdvances(s.log, s.txns, w, TapApply(s, w, step).txns[w]);
    case _ =>
  }

  lemma {:induction false} RunKeepsOnce(s: State, run: seq<Action>)
    requires Inv(s) && Once(s.log, s.txns) && Legal(s, run) && OrderlyRun(ORDERLY, s, run)
    ensures Once(After(s, run).log, After(s, run).txns)
    decreases |run|
  {
    if run != [] {
      StepKeepsOnce(s, run[0]);
      StepKeeps(s, run[0]);
      RunKeepsOnce(Apply(s, run[0]), run[1..]);
    }
  }

  /**
    * Exactly once: over an orderly run, whatever crashes and duplicate publishes it contains,
    * an acknowledged event's effects are in exactly one committed transaction.
    */
  lemma ExactlyOnce(run: seq<Action>, e: nat)
    requires Legal(Init(AS_WRITTEN), run) && OrderlyRun(ORDERLY, Init(AS_WRITTEN), run)
    requires var s := After(Init(AS_WRITTEN), run); e in s.acked && e < |s.entries| && s.entries[e].Event?
    ensures var s := After(Init(AS_WRITTEN), run);
            exists i ::
              && 0 <= i < |s.log| && s.log[i].event == s.entries[e].id
              && forall j :: 0 <= j < |s.log| && s.log[j].event == s.entries[e].id ==> i == j
  {
    InitOk();
    RunKeepsOnce(Init(AS_WRITTEN), run);
    AckedMeansCommitted(run);
    InTheLogOnce(After(Init(AS_WRITTEN), run), e);
  }

  /** No event is handled by two committed transactions. */
  ghost predicate AtMostOnce(log: seq<Txn>) { forall i, j :: 0 <= i < j < |log| ==> log[i].event != log[j].event }

  lemma OrderlyMeansOnce(run: seq<Action>)
    requires Legal(Init(AS_WRITTEN), run) && OrderlyRun(ORDERLY, Init(AS_WRITTEN), run)
    ensures AtMostOnce(After(Init(AS_WRITTEN), run).log)
  {
    InitOk();
    RunKeepsOnce(Init(AS_WRITTEN), run);
  }

  lemma InTheLogOnce(s: State, e: nat)
    requires e < |s.entries| && s.entries[e].Event? && MarkedBy(s.log, s.entries[e].id) && Once(s.log, s.txns)
    ensures exists i ::
              && 0 <= i < |s.log| && s.log[i].event == s.entries[e].id
              && forall j :: 0 <= j < |s.log| && s.log[j].event == s.entries[e].id ==> i == j
  {
  }
}
