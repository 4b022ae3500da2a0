/**
  * The Deal Engine as a transactional protocol: any number of workers, one consumer group,
  * one Postgres transaction per event.
  *
  * A step is one SQL statement, one bus operation, or one local decision of a handler.  Isolation
  * is read committed: a statement reads the tables committed so far plus its own transaction's
  * writes, and a transaction's locks go away in the step that makes its writes visible.
  */
module DealEngine {
  import opened Prelude
  import opened PriceHistory
  import S = Scorer

  // ---- Rows and events -----------------------------------------------------------------

  datatype Status =
    | Scored | Notified | DealSent | Interested | Revalidating | Confirmed | PriceChanged
    | SoldOut | Watching | Ordered | Ignored | Expired | PriceChangedRejected | SoldOutRejected

  const TERMINAL: set<Status> := {Expired, Ignored, Ordered, PriceChangedRejected, SoldOutRejected}

  predicate Open(status: Status) { status !in TERMINAL }

  datatype Deal = Deal(facts: S.ScoredDeal, status: Status)

  /** `UNIQUE (marketplace_id, external_listing_id)`. */
  datatype Offer = Offer(marketplace: Marketplace, externalId: string)

  function OfferOf(product: S.Product): Offer { Offer(product.marketplace, product.externalId) }

  datatype Payload =
    | Discovered(product: S.Product)
    | Tapped(deal: Uuid)
    | Unhandled

  /** A stream entry: one that fails schema validation, one whose bytes do not decode, or an event. */
  datatype Entry = Malformed | Undecodable | Event(id: Uuid, payload: Payload)

  /** The part of the payload schema the protocol relies on. */
  predicate SchemaValid(payload: Payload) {
    payload.Discovered? ==> payload.product.price > 0
  }

  datatype Announcement = DealScored(deal: Uuid, facts: S.ScoredDeal)

  /** The DEAL_SCORED schema bounds the score; a publish outside it raises. */
  predicate Publishable(facts: S.ScoredDeal) { 0 <= facts.score <= 10000 }

  const ADVISORY_KEYS: nat := 0x8000_0000_0000_0000

  /** The advisory key: the UUID's low 63 bits, so two listings may share one. */
  function AdvisoryKey(listing: Uuid): nat { listing % ADVISORY_KEYS }

  /** Two listings share a key exactly when their ids agree in the low 63 bits. */
  lemma KeysCollide(a: Uuid, b: Uuid)
    ensures AdvisoryKey(a) < 0x8000_0000_0000_0000
    ensures AdvisoryKey(a) == AdvisoryKey(b) <==> (a - b) % 0x8000_0000_0000_0000 == 0
  {
    var m := ADVISORY_KEYS;
    assert a == a / m * m + a % m && b == b / m * m + b % m;
    assert a - b == (a / m - b / m) * m + (a % m - b % m);
  }

  /** Everything a transaction can make another one wait for. */
  datatype Lock =
    | Advisory(key: nat)
    | DealRow(deal: Uuid)
    | ListingRow(listing: Uuid)
    | OfferKey(offer: Offer)
    | MarkKey(event: Uuid)

  // ---- Transactions --------------------------------------------------------------------

  /** The statement a transaction executes next. */
  datatype Phase =
    | FindListing | UpdateListing | InsertListing | RereadListing
    | Observe | Assess | LockListing | FindOpen | InsertDeal | Publish
    | LockDeal | Decide | WriteStatus
    | Mark | Commit

  /** An open transaction: the event it handles, the handler's locals, its uncommitted writes. */
  datatype Txn = Txn(
    entry: nat,
    event: Uuid,
    payload: Payload,
    startedAt: int,
    phase: Phase,
    listing: Option<Uuid>,
    insertsListing: bool,
    observation: Option<Observation>,
    scored: Option<S.ScoredDeal>,
    newDeal: Option<Uuid>,
    row: Option<Deal>,
    decidedAt: int,
    write: Option<Status>,
    marks: bool)
  {
    function Offer(): Offer
      requires payload.Discovered?
    {
      OfferOf(payload.product)
    }

    /** A tap that moves its deal to INTERESTED. */
    predicate AppliedTap() { payload.Tapped? && write == Some(Interested) }
  }

  type Worker = nat

  /** The two locks the application itself asks for. */
  datatype Guards = Guards(advisory: bool, rowLock: bool)

  const AS_WRITTEN: Guards := Guards(true, true)

  datatype State = State(
    guards: Guards,
    now: int,
    // the bus
    entries: seq<Entry>,
    pending: map<nat, Worker>,
    acked: set<nat>,
    bus: seq<Announcement>,
    // committed tables
    listings: map<Offer, Uuid>,
    history: seq<Observation>,
    deals: map<Uuid, Deal>,
    marks: map<Uuid, int>,
    // running workers
    txns: map<Worker, Txn>,
    done: map<Worker, nat>,
    locks: map<Lock, Worker>,
    // history variables: committed transactions in commit order, events whose mark was ever
    // committed, ids drawn, deal ids rolled back
    log: seq<Txn>,
    marked: set<Uuid>,
    issued: set<Uuid>,
    aborted: set<Uuid>)

  function Init(guards: Guards): State {
    State(guards, 0, [], map[], {}, [], map[], [], map[], map[], map[], map[], map[], [], {}, {}, {})
  }

  const RETENTION: int := 7 * 86400

  predicate Free(s: State, lock: Lock, w: Worker) { lock in s.locks ==> s.locks[lock] == w }

  function Put(s: State, w: Worker, t: Txn): State { s.(txns := s.txns[w := t]) }

  predicate HasOpen(deals: map<Uuid, Deal>, listing: Uuid) {
    exists id :: id in deals && deals[id].facts.listing == listing && Open(deals[id].status)
  }

  /** The lifecycle edges other services may take. */
  predicate Edge(from: Status, to: Status) {
    match from
    case Scored => to == Notified
    case Notified => to == DealSent
    case DealSent => to == Interested || to == Ignored || to == Watching || to == Expired
    case Watching => to == DealSent || to == Expired
    case Interested => to == Revalidating
    case Revalidating => to == Confirmed || to == PriceChanged || to == SoldOut
    case PriceChanged => to == Revalidating || to == PriceChangedRejected
    case SoldOut => to == SoldOutRejected
    case Confirmed => to == Ordered
    case _ => false
  }

  predicate At(s: State, w: Worker, phase: Phase) { w in s.txns && s.txns[w].phase == phase }

  // ---- The consumer loop and the transaction envelope ----------------------------------

  predicate CanDeliver(s: State, e: nat) { e < |s.entries| && e !in s.pending && e !in s.acked }

  /**
    * XREADGROUP hands out an entry; one that fails validation is acknowledged and dropped, one
    * that does not decode raises and stays pending.
    */
  function Deliver(s: State, w: Worker, e: nat): State
    requires CanDeliver(s, e)
  {
    var dropped := s.entries[e].Malformed?;
    s.(acked := if dropped then s.acked + {e} else s.acked,
       pending := if dropped then s.pending else s.pending[e := w])
  }

  /**
    * A worker goes on to an entry of a batch it was given.  Which batches it still works through is
    * not kept: any entry once delivered may be next, also one that another worker has claimed or
    * acknowledged in the meantime.
    */
  predicate CanBegin(s: State, w: Worker, e: nat) {
    && (e in s.pending || e in s.acked) && w !in s.txns && w !in s.done
    && e < |s.entries| && s.entries[e].Event? && !s.entries[e].payload.Unhandled?
  }

  function Opened(s: State, e: nat): Txn
    requires e < |s.entries| && s.entries[e].Event?
  {
    var event := s.entries[e];
    var phase := if event.payload.Tapped? then LockDeal else FindListing;
    Txn(e, event.id, event.payload, s.now, phase, None, false, None, None, None, None, 0, None, false)
  }

  /** `process_once`: skip an event already marked, otherwise run its handler. */
  function Begin(s: State, w: Worker, e: nat): State
    requires CanBegin(s, w, e)
  {
    var skipped := s.entries[e].id in s.marks;
    s.(done := if skipped then s.done[w := e] else s.done,
       txns := if skipped then s.txns else s.txns[w := Opened(s, e)])
  }

  predicate CanMark(s: State, w: Worker) { At(s, w, Mark) && Free(s, MarkKey(s.txns[w].event), w) }

  /** `mark_processed`: its result is ignored, so a lost race still goes on to commit. */
  function MarkEvent(s: State, w: Worker): State
    requires CanMark(s, w)
  {
    var t := s.txns[w];
    var inserted := t.event !in s.marks;
    s.(txns := s.txns[w := t.(phase := Commit, marks := inserted)],
       locks := if inserted then s.locks[MarkKey(t.event) := w] else s.locks)
  }

  function Released(locks: map<Lock, Worker>, w: Worker): map<Lock, Worker> {
    map l | l in locks && locks[l] != w :: locks[l]
  }

  /** The `deals` table once the writes of `t` are visible. */
  function DealsAfter(deals: map<Uuid, Deal>, t: Txn): map<Uuid, Deal> {
    if t.newDeal.Some? && t.scored.Some? then deals[t.newDeal.value := Deal(t.scored.value, Scored)]
    else if t.payload.Tapped? && t.write.Some? && t.payload.deal in deals
    then deals[t.payload.deal := deals[t.payload.deal].(status := t.write.value)]
    else deals
  }

  function ListingsAfter(listings: map<Offer, Uuid>, t: Txn): map<Offer, Uuid> {
    if t.insertsListing && t.payload.Discovered? && t.listing.Some? then listings[t.Offer() := t.listing.value]
    else listings
  }

  function MarksAfter(marks: map<Uuid, int>, t: Txn): map<Uuid, int> {
    if t.marks then marks[t.event := t.startedAt] else marks
  }

  function CommitTxn(s: State, w: Worker): State
    requires At(s, w, Commit)
  {
    var t := s.txns[w];
    s.(listings := ListingsAfter(s.listings, t),
       history := if t.observation.Some? then s.history + [t.observation.value] else s.history,
       deals := DealsAfter(s.deals, t),
       marks := MarksAfter(s.marks, t),
       marked := if t.marks then s.marked + {t.event} else s.marked,
       txns := s.txns - {w},
       done := s.done[w := t.entry],
       locks := Released(s.locks, w),
       log := s.log + [t])
  }

  function Ack(s: State, w: Worker): State
    requires w in s.done
  {
    s.(done := s.done - {w}, pending := s.pending - {s.done[w]}, acked := s.acked + {s.done[w]})
  }

  /** A raised exception and its rollback, or a crash, at any point before the acknowledgement. */
  function Abort(s: State, w: Worker): State
    requires w in s.txns || w in s.done
  {
    s.(txns := s.txns - {w},
       done := s.done - {w},
       locks := Released(s.locks, w),
       aborted := if w in s.txns && s.txns[w].newDeal.Some?
                  then s.aborted + {s.txns[w].newDeal.value} else s.aborted)
  }

  // ---- LISTING_DISCOVERED --------------------------------------------------------------

  predicate CanFind(s: State, w: Worker) { At(s, w, FindListing) && s.txns[w].payload.Discovered? }

  function Find(s: State, w: Worker): State
    requires CanFind(s, w)
  {
    var t := s.txns[w];
    var known := t.Offer() in s.listings;
    Put(s, w, t.(phase := if known then UpdateListing else InsertListing,
                 listing := if known then Some(s.listings[t.Offer()]) else None))
  }

  predicate CanUpdate(s: State, w: Worker) {
    At(s, w, UpdateListing) && s.txns[w].listing.Some? && Free(s, ListingRow(s.txns[w].listing.value), w)
  }

  /** `update_observation` locks the listing's row until the transaction ends. */
  function Update(s: State, w: Worker): State
    requires CanUpdate(s, w)
  {
    var t := s.txns[w];
    s.(txns := s.txns[w := t.(phase := Observe)], locks := s.locks[ListingRow(t.listing.value) := w])
  }

  predicate CanInsert(s: State, w: Worker, id: Uuid) {
    && At(s, w, InsertListing) && s.txns[w].payload.Discovered? && id !in s.issued
    && Free(s, OfferKey(s.txns[w].Offer()), w) && ListingRow(id) !in s.locks
  }

  /** `ON CONFLICT DO NOTHING`: waits for an uncommitted rival, then inserts or does nothing. */
  function Insert(s: State, w: Worker, id: Uuid): State
    requires CanInsert(s, w, id)
  {
    var t := s.txns[w];
    var unseen := t.Offer() !in s.listings;
    s.(txns := s.txns[w := t.(phase := if unseen then Observe else RereadListing,
                              listing := if unseen then Some(id) else None,
                              insertsListing := unseen)],
       locks := if unseen then s.locks[OfferKey(t.Offer()) := w][ListingRow(id) := w] else s.locks,
       issued := if unseen then s.issued + {id} else s.issued)
  }

  /** A miss here is the source's RuntimeError: no step but `Abort` is left. */
  predicate CanReread(s: State, w: Worker) {
    At(s, w, RereadListing) && s.txns[w].payload.Discovered? && s.txns[w].Offer() in s.listings
  }

  function Reread(s: State, w: Worker): State
    requires CanReread(s, w)
  {
    var t := s.txns[w];
    Put(s, w, t.(phase := Observe, listing := Some(s.listings[t.Offer()])))
  }

  predicate CanRecord(s: State, w: Worker) {
    At(s, w, Observe) && s.txns[w].payload.Discovered? && s.txns[w].listing.Some?
  }

  function Record(s: State, w: Worker): State
    requires CanRecord(s, w)
  {
    var t := s.txns[w];
    var p := t.payload.product;
    Put(s, w, t.(phase := Assess,
                 observation := Some(Observation(t.listing.value, p.price, p.inStock, t.startedAt))))
  }

  /** The scorer's verdict inside transaction `t`: history includes the row `t` just inserted. */
  function Verdict(s: State, t: Txn, tier: Option<S.BrandTier>, config: S.Config): S.Outcome
    requires t.payload.Discovered? && t.listing.Some? && t.observation.Some?
  {
    var stats :=
      Stats(s.history + [t.observation.value], t.listing.value, config.historyWindowDays, t.startedAt);
    S.Score(t.payload.product, t.listing.value, tier, stats, config, s.now)
  }

  predicate CanScore(s: State, w: Worker, tier: Option<S.BrandTier>, config: S.Config, verdict: S.Outcome) {
    && At(s, w, Assess) && s.txns[w].payload.Discovered? && s.txns[w].listing.Some?
    && s.txns[w].observation.Some? && !verdict.ZeroDivision?
    && verdict == Verdict(s, s.txns[w], tier, config)
  }

  function Score(s: State, w: Worker, verdict: S.Outcome): State
    requires w in s.txns
  {
    Put(s, w, s.txns[w].(phase := if verdict.Deal? then LockListing else Mark,
                         scored := if verdict.Deal? then Some(verdict.deal) else None))
  }

  predicate CanAcquire(s: State, w: Worker) {
    && At(s, w, LockListing) && s.txns[w].scored.Some?
    && (s.guards.advisory ==> Free(s, Advisory(AdvisoryKey(s.txns[w].scored.value.listing)), w))
  }

  /** `lock_listing`. */
  function Acquire(s: State, w: Worker): State
    requires CanAcquire(s, w)
  {
    var t := s.txns[w];
    var key := Advisory(AdvisoryKey(t.scored.value.listing));
    s.(txns := s.txns[w := t.(phase := FindOpen)],
       locks := if s.guards.advisory then s.locks[key := w] else s.locks)
  }

  predicate CanCheck(s: State, w: Worker) { At(s, w, FindOpen) && s.txns[w].scored.Some? }

  /** `find_open_for_listing`, and the branch `write_deal` takes on it. */
  function Check(s: State, w: Worker): State
    requires CanCheck(s, w)
  {
    var t := s.txns[w];
    Put(s, w, t.(phase := if HasOpen(s.deals, t.scored.value.listing) then Mark else InsertDeal))
  }

  predicate CanCreate(s: State, w: Worker, id: Uuid) {
    At(s, w, InsertDeal) && id !in s.issued && DealRow(id) !in s.locks
  }

  function Create(s: State, w: Worker, id: Uuid): State
    requires CanCreate(s, w, id)
  {
    s.(txns := s.txns[w := s.txns[w].(phase := Publish, newDeal := Some(id))],
       locks := s.locks[DealRow(id) := w],
       issued := s.issued + {id})
  }

  predicate CanAnnounce(s: State, w: Worker) {
    && At(s, w, Publish) && s.txns[w].scored.Some? && s.txns[w].newDeal.Some?
    && Publishable(s.txns[w].scored.value)
  }

  /** The XADD: visible at once, whatever becomes of the transaction. */
  function Announce(s: State, w: Worker): State
    requires CanAnnounce(s, w)
  {
    var t := s.txns[w];
    s.(txns := s.txns[w := t.(phase := Mark)], bus := s.bus + [DealScored(t.newDeal.value, t.scored.value)])
  }

  // ---- USER_INTERESTED -----------------------------------------------------------------

  predicate CanRead(s: State, w: Worker) {
    && At(s, w, LockDeal) && s.txns[w].payload.Tapped?
    && (s.guards.rowLock && s.txns[w].payload.deal in s.deals ==> Free(s, DealRow(s.txns[w].payload.deal), w))
  }

  /** `get_by_id(for_update=True)`. */
  function Read(s: State, w: Worker): State
    requires CanRead(s, w)
  {
    var t := s.txns[w];
    var d := t.payload.deal;
    var found := d in s.deals;
    s.(txns := s.txns[w := t.(phase := if found then Decide else Mark,
                              row := if found then Some(s.deals[d]) else None)],
       locks := if found && s.guards.rowLock then s.locks[DealRow(d) := w] else s.locks)
  }

  /** What the handler writes for the row it read, if anything. */
  function TapDecision(row: Deal, now: int): Option<Status> {
    if row.status == Expired then None
    else if row.facts.expiresAt <= now then Some(Expired)
    else if row.status == Interested then None
    else if row.status != DealSent then None
    else Some(Interested)
  }

  predicate CanDecide(s: State, w: Worker) { At(s, w, Decide) && s.txns[w].row.Some? }

  function DecideTap(s: State, w: Worker): State
    requires CanDecide(s, w)
  {
    var t := s.txns[w];
    var write := TapDecision(t.row.value, s.now);
    Put(s, w, t.(phase := if write.Some? then WriteStatus else Mark, write := write, decidedAt := s.now))
  }

  predicate CanWrite(s: State, w: Worker) {
    && At(s, w, WriteStatus) && s.txns[w].payload.Tapped? && s.txns[w].payload.deal in s.deals
    && Free(s, DealRow(s.txns[w].payload.deal), w)
  }

  /** `update_status`: an UPDATE locks the row it changes, with or without an earlier FOR UPDATE. */
  function Write(s: State, w: Worker): State
    requires CanWrite(s, w)
  {
    var t := s.txns[w];
    s.(txns := s.txns[w := t.(phase := Mark)], locks := s.locks[DealRow(t.payload.deal) := w])
  }

  // ---- The environment -----------------------------------------------------------------

  predicate CanMove(s: State, d: Uuid, to: Status) {
    d in s.deals && DealRow(d) !in s.locks && Edge(s.deals[d].status, to)
  }

  /** Another service takes a lifecycle edge, in a transaction that locks the row. */
  function Move(s: State, d: Uuid, to: Status): State
    requires CanMove(s, d, to)
  {
    s.(deals := s.deals[d := s.deals[d].(status := to)])
  }

  function Purge(s: State): State {
    s.(marks := map e | e in s.marks && s.marks[e] >= s.now - RETENTION :: s.marks[e])
  }

  // ---- Steps ---------------------------------------------------------------------------

  datatype Action =
    | Arriving(entry: Entry)
    | Claiming(w: Worker, e: nat)
    | Moving(deal: Uuid, to: Status)
    | Ticking(seconds: nat)
    | Purging
    | Enveloping(w: Worker, envelope: EnvelopeStep)
    | Ingesting(w: Worker, ingest: IngestStep)
    | Tapping(w: Worker, tap: TapStep)

  datatype EnvelopeStep = Delivering(e: nat) | Beginning(e: nat) | Marking | Committing | Acking | Aborting

  datatype IngestStep =
    | Finding | Updating | Inserting(id: Uuid) | Rereading | Recording
    | Scoring(tier: Option<S.BrandTier>, config: S.Config, verdict: S.Outcome)
    | Acquiring | Checking | Creating(id: Uuid) | Announcing

  datatype TapStep = Reading | Deciding | Writing

  predicate Enabled(s: State, a: Action) {
    match a
    case Arriving(entry) => entry.Event? ==> SchemaValid(entry.payload)
    case Claiming(w, e) => e in s.pending
    case Moving(d, to) => CanMove(s, d, to)
    case Ticking(_) => true
    case Purging => true
    case Enveloping(w, step) => EnvelopeEnabled(s, w, step)
    case Ingesting(w, step) => IngestEnabled(s, w, step)
    case Tapping(w, step) => TapEnabled(s, w, step)
  }

  function Apply(s: State, a: Action): State
    requires Enabled(s, a)
  {
    match a
    case Arriving(entry) => s.(entries := s.entries + [entry])
    case Claiming(w, e) => s.(pending := s.pending[e := w])
    case Moving(d, to) => Move(s, d, to)
    case Ticking(n) => s.(now := s.now + n)
    case Purging => Purge(s)
    case Enveloping(w, step) => EnvelopeApply(s, w, step)
    case Ingesting(w, step) => IngestApply(s, w, step)
    case Tapping(w, step) => TapApply(s, w, step)
  }

  predicate EnvelopeEnabled(s: State, w: Worker, step: EnvelopeStep) {
    match step
    case Delivering(e) => CanDeliver(s, e)
    case Beginning(e) => CanBegin(s, w, e)
    case Marking => CanMark(s, w)
    case Committing => At(s, w, Commit)
    case Acking => w in s.done
    case Aborting => w in s.txns || w in s.done
  }

  function EnvelopeApply(s: State, w: Worker, step: EnvelopeStep): State
    requires EnvelopeEnabled(s, w, step)
  {
    match step
    case Delivering(e) => Deliver(s, w, e)
    case Beginning(e) => Begin(s, w, e)
    case Marking => MarkEvent(s, w)
    case Committing => CommitTxn(s, w)
    case Acking => Ack(s, w)
    case Aborting => Abort(s, w)
  }

  predicate IngestEnabled(s: State, w: Worker, step: IngestStep) {
    match step
    case Finding => CanFind(s, w)
    case Updating => CanUpdate(s, w)
    case Inserting(id) => CanInsert(s, w, id)
    case Rereading => CanReread(s, w)
    case Recording => CanRecord(s, w)
    case Scoring(tier, config, verdict) => CanScore(s, w, tier, config, verdict)
    case Acquiring => CanAcquire(s, w)
    case Checking => CanCheck(s, w)
    case Creating(id) => CanCreate(s, w, id)
    case Announcing => CanAnnounce(s, w)
  }

  function IngestApply(s: State, w: Worker, step: IngestStep): State
    requires IngestEnabled(s, w, step)
  {
    match step
    case Finding => Find(s, w)
    case Updating => Update(s, w)
    case Inserting(id) => Insert(s, w, id)
    case Rereading => Reread(s, w)
    case Recording => Record(s, w)
    case Scoring(_, _, verdict) => Score(s, w, verdict)
    case Acquiring => Acquire(s, w)
    case Checking => Check(s, w)
    case Creating(id) => Create(s, w, id)
    case Announcing => Announce(s, w)
  }

  predicate TapEnabled(s: State, w: Worker, step: TapStep) {
    match step
    case Reading => CanRead(s, w)
    case Deciding => CanDecide(s, w)
    case Writing => CanWrite(s, w)
  }

  function TapApply(s: State, w: Worker, step: TapStep): State
    requires TapEnabled(s, w, step)
  {
    match step
    case Reading => Read(s, w)
    case Deciding => DecideTap(s, w)
    case Writing => Write(s, w)
  }

  // ---- Runs ----------------------------------------------------------------------------

  /** Every action of the run was enabled when it was taken. */
  predicate Legal(s: State, run: seq<Action>)
    decreases |run|
  {
    run == [] || (Enabled(s, run[0]) && Legal(Apply(s, run[0]), run[1..]))
  }

  function After(s: State, run: seq<Action>): State
    requires Legal(s, run)
    decreases |run|
  {
    if run == [] then s else After(Apply(s, run[0]), run[1..])
  }
}
