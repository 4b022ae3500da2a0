/**
  * What every step of the Deal Engine keeps, with both application locks in place.
  *
  * Each part of the invariant names only the components it speaks about, so that a step which
  * leaves them alone keeps it trivially.
  */
module DealEngineSafety {
  import opened Prelude
  import opened PriceHistory
  import opened DealEngine
  import S = Scorer

  ghost predicate Holds(locks: map<Lock, Worker>, lock: Lock, w: Worker) { lock in locks && locks[lock] == w }

  // ---- One open transaction ------------------------------------------------------------

  /** Which locals a listing transaction has set, statement by statement. */
  ghost predicate ListingLocals(t: Txn)
    requires t.payload.Discovered?
  {
    && t.row.None? && t.write.None?
    && (t.insertsListing ==> t.listing.Some?)
    && (t.observation.Some? ==>
          t.listing.Some? && t.observation.value ==
          Observation(t.listing.value, t.payload.product.price, t.payload.product.inStock, t.startedAt))
    && (t.scored.Some? ==>
          t.observation.Some? && t.scored.value.listing == t.listing.value && t.scored.value.detectedPrice > 0)
    && (t.newDeal.Some? ==> t.scored.Some?)
    && match t.phase
       case FindListing | InsertListing | RereadListing => t.listing.None?
       case UpdateListing | Observe => t.listing.Some? && t.observation.None?
       case Assess => t.observation.Some? && t.scored.None?
       case LockListing | FindOpen | InsertDeal => t.scored.Some? && t.newDeal.None?
       case Publish => t.newDeal.Some?
       case Mark | Commit => t.observation.Some?
       case _ => false
  }

  ghost predicate TapLocals(t: Txn) {
    && t.listing.None? && !t.insertsListing && t.observation.None? && t.scored.None? && t.newDeal.None?
    && match t.phase
       case LockDeal => t.row.None? && t.write.None?
       case Decide => t.row.Some? && t.write.None?
       case WriteStatus => t.row.Some? && t.write.Some?
       case Mark | Commit => t.write.Some? ==> t.row.Some?
       case _ => false
  }

  ghost predicate Shape(t: Txn, entries: seq<Entry>, now: int) {
    && t.entry < |entries| && entries[t.entry] == Event(t.event, t.payload) && SchemaValid(t.payload)
    && t.startedAt <= now
    && (t.marks ==> t.phase == Commit)
    && match t.payload
       case Discovered(_) => ListingLocals(t)
       case Tapped(_) => TapLocals(t)
       case Unhandled => false
  }

  /** From the check on, the listing's advisory lock is held; past it, no deal is open. */
  ghost predicate GuardsListing(
    w: Worker, t: Txn, locks: map<Lock, Worker>, deals: map<Uuid, Deal>, issued: set<Uuid>)
  {
    && (t.phase in {FindOpen, InsertDeal} || t.newDeal.Some? ==>
          t.scored.Some? && Holds(locks, Advisory(AdvisoryKey(t.scored.value.listing)), w))
    && (t.phase == InsertDeal || t.newDeal.Some? ==>
          t.scored.Some? && !HasOpen(deals, t.scored.value.listing))
    && (t.newDeal.Some? ==>
          t.newDeal.value in issued && t.newDeal.value !in deals && Holds(locks, DealRow(t.newDeal.value), w))
  }

  /** The row a tap read is still the committed row, because the tap locked it. */
  ghost predicate GuardsRow(w: Worker, t: Txn, locks: map<Lock, Worker>, deals: map<Uuid, Deal>) {
    && (t.payload.Tapped? && t.row.Some? ==>
          && Holds(locks, DealRow(t.payload.deal), w)
          && t.payload.deal in deals && deals[t.payload.deal] == t.row.value)
    && (t.payload.Tapped? && t.write.Some? ==> t.row.Some? && LegalTap(t))
  }

  /** The two writes the handler makes, and when. */
  ghost predicate LegalTap(t: Txn)
    requires t.write.Some? && t.row.Some?
  {
    if t.write.value == Interested
    then t.row.value.status == DealSent && t.decidedAt < t.row.value.facts.expiresAt
    else t.write.value == Expired && t.row.value.status != Expired && t.row.value.facts.expiresAt <= t.decidedAt
  }

  /** The listing id a transaction works with is the committed one, or its own uncommitted insert. */
  ghost predicate OwnsListing(
    w: Worker, t: Txn, locks: map<Lock, Worker>, listings: map<Offer, Uuid>, issued: set<Uuid>)
  {
    && (t.payload.Discovered? && t.listing.Some? ==>
          if t.insertsListing then
            && t.Offer() !in listings && Holds(locks, OfferKey(t.Offer()), w)
            && t.listing.value in issued && t.listing.value !in listings.Values
            && Holds(locks, ListingRow(t.listing.value), w)
          else t.Offer() in listings && listings[t.Offer()] == t.listing.value)
    && (t.payload.Discovered? && t.phase == RereadListing ==> t.Offer() in listings)
  }

  ghost predicate OwnsMark(w: Worker, t: Txn, locks: map<Lock, Worker>, marks: map<Uuid, int>, marked: set<Uuid>) {
    && (t.marks ==> t.event !in marks && Holds(locks, MarkKey(t.event), w))
    && (t.phase == Commit ==> t.marks || t.event in marked)
  }

  ghost predicate OnBus(bus: seq<Announcement>, deal: Uuid, facts: S.ScoredDeal) {
    exists i :: 0 <= i < |bus| && bus[i] == DealScored(deal, facts)
  }

  ghost predicate Unannounced(bus: seq<Announcement>, deal: Uuid) {
    forall i :: 0 <= i < |bus| ==> bus[i].deal != deal
  }

  ghost predicate Announced(t: Txn, bus: seq<Announcement>, aborted: set<Uuid>) {
    t.newDeal.Some? && t.scored.Some? ==>
      && t.newDeal.value !in aborted
      && if t.phase == Publish then Unannounced(bus, t.newDeal.value)
         else OnBus(bus, t.newDeal.value, t.scored.value)
  }

  ghost predicate TxnOk(s: State, w: Worker, t: Txn) {
    && Shape(t, s.entries, s.now)
    && GuardsListing(w, t, s.locks, s.deals, s.issued)
    && GuardsRow(w, t, s.locks, s.deals)
    && OwnsListing(w, t, s.locks, s.listings, s.issued)
    && OwnsMark(w, t, s.locks, s.marks, s.marked)
    && Announced(t, s.bus, s.aborted)
  }

  // ---- The committed state -------------------------------------------------------------

  ghost predicate LocksOk(locks: map<Lock, Worker>, txns: map<Worker, Txn>) {
    forall l :: l in locks ==> locks[l] in txns
  }

  /** An entry is handled or acknowledged only once its event's mark has been committed. */
  ghost predicate Handled(entries: seq<Entry>, e: nat, marked: set<Uuid>) {
    e < |entries| && (entries[e].Event? ==> entries[e].id in marked)
  }

  ghost predicate EntriesOk(
    entries: seq<Entry>, pending: map<nat, Worker>, acked: set<nat>, marked: set<Uuid>)
  {
    && (forall e :: 0 <= e < |entries| && entries[e].Event? ==> SchemaValid(entries[e].payload))
    && (forall e :: e in pending ==> e < |entries| && !entries[e].Malformed?)
    && (forall e :: e in acked ==> Handled(entries, e, marked))
  }

  ghost predicate DoneOk(entries: seq<Entry>, done: map<Worker, nat>, txns: map<Worker, Txn>, marked: set<Uuid>) {
    forall w :: w in done ==> w !in txns && Handled(entries, done[w], marked)
  }

  ghost predicate ListingsOk(listings: map<Offer, Uuid>, issued: set<Uuid>) {
    && (forall o, p :: o in listings && p in listings && listings[o] == listings[p] ==> o == p)
    && listings.Values <= issued
  }

  ghost predicate DealsOk(deals: map<Uuid, Deal>, listings: map<Offer, Uuid>, issued: set<Uuid>) {
    forall d :: d in deals ==>
      d in issued && deals[d].facts.listing in listings.Values && deals[d].facts.detectedPrice > 0
  }

  /** At most one deal per listing is open. */
  ghost predicate OneOpen(deals: map<Uuid, Deal>) {
    forall d, e ::
      (d in deals && e in deals && deals[d].facts.listing == deals[e].facts.listing
       && Open(deals[d].status) && Open(deals[e].status)) ==> d == e
  }

  /** Some committed transaction wrote the mark of `event`, together with its effects. */
  ghost predicate MarkedBy(log: seq<Txn>, event: Uuid) {
    exists i :: 0 <= i < |log| && log[i].marks && log[i].event == event
  }

  /** Marks and committed effects agree, and a mark stays for the retention window. */
  ghost predicate MarksOk(marks: map<Uuid, int>, marked: set<Uuid>, log: seq<Txn>, now: int) {
    && marks.Keys <= marked
    && (forall i :: 0 <= i < |log| ==> log[i].event in marked)
    && (forall e :: e in marked ==> MarkedBy(log, e))
    && (forall i :: 0 <= i < |log| && log[i].marks && now - RETENTION <= log[i].startedAt ==>
          log[i].event in marks && marks[log[i].event] >= log[i].startedAt)
  }

  /** Statuses from which no edge leads back to DEAL_SENT. */
  predicate PastInterest(status: Status) { status !in {Scored, Notified, DealSent, Watching} }

  ghost predicate LogOk(log: seq<Txn>, listings: map<Offer, Uuid>, deals: map<Uuid, Deal>) {
    && (forall i :: 0 <= i < |log| && log[i].payload.Discovered? ==>
          log[i].Offer() in listings && log[i].listing == Some(listings[log[i].Offer()]))
    && (forall i :: 0 <= i < |log| && log[i].AppliedTap() ==>
          && log[i].row.Some? && LegalTap(log[i])
          && log[i].payload.deal in deals && PastInterest(deals[log[i].payload.deal].status))
    && (forall i, j :: 0 <= i < j < |log| && log[i].AppliedTap() && log[j].AppliedTap() ==>
          log[i].payload.deal != log[j].payload.deal)
  }

  /** The announcement of a deal whose transaction is still open. */
  ghost predicate InFlight(a: Announcement, txns: map<Worker, Txn>, locks: map<Lock, Worker>) {
    && DealRow(a.deal) in locks
    && var w := locks[DealRow(a.deal)];
    && w in txns && txns[w].newDeal == Some(a.deal) && txns[w].scored == Some(a.facts)
    && txns[w].phase in {Mark, Commit}
  }

  ghost predicate BusOk(
    bus: seq<Announcement>, deals: map<Uuid, Deal>, txns: map<Worker, Txn>, locks: map<Lock, Worker>,
    issued: set<Uuid>, aborted: set<Uuid>)
  {
    && aborted <= issued && aborted !! deals.Keys
    && (forall i, j :: 0 <= i < j < |bus| ==> bus[i].deal != bus[j].deal)
    && (forall d :: d in deals ==> OnBus(bus, d, deals[d].facts))
    && (forall i :: 0 <= i < |bus| ==>
          && bus[i].deal in issued
          && (bus[i].deal in deals || bus[i].deal in aborted || InFlight(bus[i], txns, locks)))
  }

  ghost predicate TxnsOk(s: State) { forall w :: w in s.txns ==> TxnOk(s, w, s.txns[w]) }

  ghost predicate Global(s: State) {
    && s.guards == AS_WRITTEN
    && LocksOk(s.locks, s.txns)
    && EntriesOk(s.entries, s.pending, s.acked, s.marked)
    && DoneOk(s.entries, s.done, s.txns, s.marked)
    && ListingsOk(s.listings, s.issued)
    && DealsOk(s.deals, s.listings, s.issued)
    && OneOpen(s.deals)
    && MarksOk(s.marks, s.marked, s.log, s.now)
    && LogOk(s.log, s.listings, s.deals)
  }

  ghost predicate Inv(s: State) {
    && TxnsOk(s)
    && Global(s)
    && BusOk(s.bus, s.deals, s.txns, s.locks, s.issued, s.aborted)
  }

  lemma InitOk()
    ensures Inv(Init(AS_WRITTEN))
  {
  }

  // ---- Steps that only advance one transaction -----------------------------------------

  /** Only `w`'s transaction moved; it may have taken locks and drawn ids, and released nothing. */
  ghost predicate LocalStep(s: State, s': State, w: Worker) {
    && w in s.txns && w in s'.txns
    && s' == s.(txns := s.txns[w := s'.txns[w]], locks := s'.locks, issued := s'.issued)
    && (forall l :: l in s.locks ==> l in s'.locks && s'.locks[l] == s.locks[l])
    && (forall l :: l in s'.locks && l !in s.locks ==> s'.locks[l] == w)
    && s.issued <= s'.issued
    && var t, t' := s.txns[w], s'.txns[w];
    && t'.event == t.event
    && (t.newDeal.Some? ==> t'.newDeal == t.newDeal && t'.scored == t.scored)
    && (t.phase in {Mark, Commit} ==> t'.phase in {Mark, Commit})
  }

  /** The locks another worker holds outlive the step. */
  lemma OtherKeeps(s: State, s': State, w: Worker, v: Worker)
    requires LocalStep(s, s', w) && v in s.txns && v != w && TxnOk(s, v, s.txns[v])
    ensures TxnOk(s', v, s'.txns[v])
  {
  }

  lemma BusKept(s: State, s': State, w: Worker)
    requires BusOk(s.bus, s.deals, s.txns, s.locks, s.issued, s.aborted) && LocalStep(s, s', w)
    ensures BusOk(s'.bus, s'.deals, s'.txns, s'.locks, s'.issued, s'.aborted)
  {
  }

  lemma GlobalKept(s: State, s': State, w: Worker)
    requires Global(s) && LocalStep(s, s', w)
    ensures Global(s')
  {
  }

  lemma LocalKeeps(s: State, s': State, w: Worker)
    requires Inv(s) && LocalStep(s, s', w) && TxnOk(s', w, s'.txns[w])
    ensures Inv(s')
  {
    BusKept(s, s', w);
    GlobalKept(s, s', w);
    forall v | v in s'.txns
      ensures TxnOk(s', v, s'.txns[v])
    {
      if v != w {
        OtherKeeps(s, s', w, v);
      }
    }
  }

  // ---- What each statement establishes for its own transaction -------------------------

  ghost predicate Advances(s: State, s': State, w: Worker) {
    LocalStep(s, s', w) && TxnOk(s', w, s'.txns[w])
  }

  lemma MarkWritten(s: State, w: Worker)
    requires CanMark(s, w) && TxnOk(s, w, s.txns[w]) && s.txns[w].event !in s.marks
    ensures Advances(s, MarkEvent(s, w), w)
  {
  }

  lemma MarkAlreadyThere(s: State, w: Worker)
    requires CanMark(s, w) && TxnOk(s, w, s.txns[w]) && s.txns[w].event in s.marks && s.marks.Keys <= s.marked
    ensures Advances(s, MarkEvent(s, w), w)
  {
  }

  lemma FindHits(s: State, w: Worker)
    requires CanFind(s, w) && TxnOk(s, w, s.txns[w]) && s.txns[w].Offer() in s.listings
    ensures Advances(s, Find(s, w), w)
  {
  }

  lemma FindMisses(s: State, w: Worker)
    requires CanFind(s, w) && TxnOk(s, w, s.txns[w]) && s.txns[w].Offer() !in s.listings
    ensures Advances(s, Find(s, w), w)
  {
  }

  lemma UpdateAdvances(s: State, w: Worker)
    requires CanUpdate(s, w) && TxnOk(s, w, s.txns[w])
    ensures Advances(s, Update(s, w), w)
  {
  }

  lemma InsertConflicts(s: State, w: Worker, id: Uuid)
    requires CanInsert(s, w, id) && TxnOk(s, w, s.txns[w]) && s.txns[w].Offer() in s.listings
    ensures Advances(s, Insert(s, w, id), w)
  {
  }

  lemma InsertSucceeds(s: State, w: Worker, id: Uuid)
    requires CanInsert(s, w, id) && TxnOk(s, w, s.txns[w]) && s.txns[w].Offer() !in s.listings
    requires ListingsOk(s.listings, s.issued)
    ensures Advances(s, Insert(s, w, id), w)
  {
    var s' := Insert(s, w, id);
    assert s'.txns[w] == s.txns[w].(phase := Observe, listing := Some(id), insertsListing := true);
  }

  lemma RereadAdvances(s: State, w: Worker)
    requires CanReread(s, w) && TxnOk(s, w, s.txns[w])
    ensures Advances(s, Reread(s, w), w)
  {
  }

  lemma RecordAdvances(s: State, w: Worker)
    requires CanRecord(s, w) && TxnOk(s, w, s.txns[w])
    ensures Advances(s, Record(s, w), w)
  {
  }

  /** All the protocol needs of the scorer: the verdict is about this listing, at this price. */
  ghost predicate AboutTxn(t: Txn, verdict: S.Outcome) {
    verdict.Deal? ==>
      && t.payload.Discovered? && t.listing == Some(verdict.deal.listing)
      && verdict.deal.detectedPrice == t.payload.product.price
  }

  lemma VerdictFacts(s: State, w: Worker, tier: Option<S.BrandTier>, config: S.Config, verdict: S.Outcome)
    requires CanScore(s, w, tier, config, verdict)
    ensures AboutTxn(s.txns[w], verdict)
  {
  }

  lemma ScoreAdvances(s: State, w: Worker, verdict: S.Outcome)
    requires At(s, w, Assess) && TxnOk(s, w, s.txns[w]) && AboutTxn(s.txns[w], verdict)
    ensures Advances(s, Score(s, w, verdict), w)
  {
  }

  lemma AcquireAdvances(s: State, w: Worker)
    requires s.guards == AS_WRITTEN && CanAcquire(s, w) && TxnOk(s, w, s.txns[w])
    ensures Advances(s, Acquire(s, w), w)
  {
  }

  lemma CheckAdvances(s: State, w: Worker)
    requires CanCheck(s, w) && TxnOk(s, w, s.txns[w])
    ensures Advances(s, Check(s, w), w)
  {
  }

  lemma CreateAdvances(s: State, w: Worker, id: Uuid)
    requires CanCreate(s, w, id) && TxnOk(s, w, s.txns[w])
    requires DealsOk(s.deals, s.listings, s.issued)
    requires BusOk(s.bus, s.deals, s.txns, s.locks, s.issued, s.aborted)
    ensures Advances(s, Create(s, w, id), w)
  {
  }

  lemma ReadFindsRow(s: State, w: Worker)
    requires s.guards == AS_WRITTEN && CanRead(s, w) && TxnOk(s, w, s.txns[w])
    requires s.txns[w].payload.deal in s.deals
    ensures Advances(s, Read(s, w), w)
  {
  }

  lemma ReadFindsNothing(s: State, w: Worker)
    requires CanRead(s, w) && TxnOk(s, w, s.txns[w]) && s.txns[w].payload.deal !in s.deals
    ensures Advances(s, Read(s, w), w)
  {
  }

  lemma DecideAdvances(s: State, w: Worker)
    requires CanDecide(s, w) && TxnOk(s, w, s.txns[w])
    ensures Advances(s, DecideTap(s, w), w)
  {
  }

  lemma WriteAdvances(s: State, w: Worker)
    requires CanWrite(s, w) && TxnOk(s, w, s.txns[w])
    ensures Advances(s, Write(s, w), w)
  {
  }

  // ---- How the deals table changes -----------------------------------------------------

  /** A new open deal on a listing that has none. */
  ghost predicate InsertsDeal(deals: map<Uuid, Deal>, deals': map<Uuid, Deal>, id: Uuid, facts: S.ScoredDeal) {
    id !in deals && !HasOpen(deals, facts.listing) && deals' == deals[id := Deal(facts, Scored)]
  }

  /** One row changes status, never from a terminal one to an open one, never back past a tap. */
  ghost predicate MovesDeal(deals: map<Uuid, Deal>, deals': map<Uuid, Deal>, d: Uuid, to: Status) {
    && d in deals && deals' == deals[d := deals[d].(status := to)]
    && (Open(to) ==> Open(deals[d].status))
    && (PastInterest(deals[d].status) ==> PastInterest(to))
  }

  lemma InsertKeepsOneOpen(deals: map<Uuid, Deal>, deals': map<Uuid, Deal>, id: Uuid, facts: S.ScoredDeal)
    requires OneOpen(deals) && InsertsDeal(deals, deals', id, facts)
    ensures OneOpen(deals')
  {
  }

  lemma MoveKeepsOneOpen(deals: map<Uuid, Deal>, deals': map<Uuid, Deal>, d: Uuid, to: Status)
    requires OneOpen(deals) && MovesDeal(deals, deals', d, to)
    ensures OneOpen(deals')
  {
  }

  lemma MoveOpensNothing(deals: map<Uuid, Deal>, deals': map<Uuid, Deal>, d: Uuid, to: Status, listing: Uuid)
    requires MovesDeal(deals, deals', d, to) && !HasOpen(deals, listing)
    ensures !HasOpen(deals', listing)
  {
  }

  lemma InsertOpensOne(deals: map<Uuid, Deal>, deals': map<Uuid, Deal>, id: Uuid, facts: S.ScoredDeal, listing: Uuid)
    requires InsertsDeal(deals, deals', id, facts) && !HasOpen(deals, listing) && listing != facts.listing
    ensures !HasOpen(deals', listing)
  {
  }

  /** A committing transaction inserts a deal, moves one, or leaves the table alone. */
  lemma DealsChange(w: Worker, t: Txn, locks: map<Lock, Worker>, deals: map<Uuid, Deal>, issued: set<Uuid>)
    requires GuardsListing(w, t, locks, deals, issued) && GuardsRow(w, t, locks, deals)
    requires t.payload.Tapped? ==> t.newDeal.None?
    ensures var deals' := DealsAfter(deals, t);
            if t.newDeal.Some? then
              t.scored.Some? && InsertsDeal(deals, deals', t.newDeal.value, t.scored.value)
            else if t.payload.Tapped? && t.write.Some? then
              MovesDeal(deals, deals', t.payload.deal, t.write.value)
            else deals' == deals
  {
  }

  // ---- Commit --------------------------------------------------------------------------

  /** The same advisory key means one holder, so two transactions never insert for one listing. */
  lemma CommitGuardsListing(
    w: Worker, t: Txn, v: Worker, u: Txn, locks: map<Lock, Worker>, deals: map<Uuid, Deal>, issued: set<Uuid>)
    requires v != w && GuardsListing(w, t, locks, deals, issued) && GuardsRow(w, t, locks, deals)
    requires GuardsListing(v, u, locks, deals, issued)
    requires t.payload.Tapped? ==> t.newDeal.None?
    ensures GuardsListing(v, u, Released(locks, w), DealsAfter(deals, t), issued)
  {
    DealsChange(w, t, locks, deals, issued);
    var deals' := DealsAfter(deals, t);
    if u.phase == InsertDeal || u.newDeal.Some? {
      var listing := u.scored.value.listing;
      if t.newDeal.Some? {
        assert listing != t.scored.value.listing;
        InsertOpensOne(deals, deals', t.newDeal.value, t.scored.value, listing);
      } else if t.payload.Tapped? && t.write.Some? {
        MoveOpensNothing(deals, deals', t.payload.deal, t.write.value, listing);
      }
    }
  }

  /** A row another tap has read and locked is not the one this transaction writes. */
  lemma CommitGuardsRow(
    w: Worker, t: Txn, v: Worker, u: Txn, locks: map<Lock, Worker>, deals: map<Uuid, Deal>, issued: set<Uuid>)
    requires v != w && GuardsListing(w, t, locks, deals, issued) && GuardsRow(w, t, locks, deals)
    requires GuardsRow(v, u, locks, deals)
    requires t.payload.Tapped? ==> t.newDeal.None?
    ensures GuardsRow(v, u, Released(locks, w), DealsAfter(deals, t))
  {
    DealsChange(w, t, locks, deals, issued);
  }

  lemma CommitOwnsListing(
    w: Worker, t: Txn, v: Worker, u: Txn,
    locks: map<Lock, Worker>, listings: map<Offer, Uuid>, issued: set<Uuid>)
    requires v != w && OwnsListing(w, t, locks, listings, issued) && OwnsListing(v, u, locks, listings, issued)
    ensures OwnsListing(v, u, Released(locks, w), ListingsAfter(listings, t), issued)
  {
  }

  lemma CommitOwnsMark(
    w: Worker, t: Txn, v: Worker, u: Txn,
    locks: map<Lock, Worker>, marks: map<Uuid, int>, marked: set<Uuid>, marked': set<Uuid>)
    requires v != w && OwnsMark(w, t, locks, marks, marked) && OwnsMark(v, u, locks, marks, marked)
    requires marked <= marked'
    ensures OwnsMark(v, u, Released(locks, w), MarksAfter(marks, t), marked')
  {
  }

  lemma NoTapInserts(s: State, t: Txn)
    requires Shape(t, s.entries, s.now)
    ensures t.payload.Tapped? ==> t.newDeal.None?
  {
  }

  lemma CommitOther(s: State, w: Worker, v: Worker)
    requires At(s, w, Commit) && TxnOk(s, w, s.txns[w])
    requires v in s.txns && v != w && TxnOk(s, v, s.txns[v])
    ensures TxnOk(CommitTxn(s, w), v, s.txns[v])
  {
    var t, u := s.txns[w], s.txns[v];
    NoTapInserts(s, t);
    CommitGuardsListing(w, t, v, u, s.locks, s.deals, s.issued);
    CommitGuardsRow(w, t, v, u, s.locks, s.deals, s.issued);
    CommitOwnsListing(w, t, v, u, s.locks, s.listings, s.issued);
    CommitOwnsMark(w, t, v, u, s.locks, s.marks, s.marked, CommitTxn(s, w).marked);
  }

  lemma CommitListings(w: Worker, t: Txn, locks: map<Lock, Worker>, listings: map<Offer, Uuid>, issued: set<Uuid>)
    requires ListingsOk(listings, issued) && OwnsListing(w, t, locks, listings, issued)
    ensures var listings' := ListingsAfter(listings, t);
            && ListingsOk(listings', issued)
            && listings.Values <= listings'.Values
            && (forall o :: o in listings ==> o in listings' && listings'[o] == listings[o])
            && (t.payload.Discovered? && t.listing.Some? ==>
                  t.Offer() in listings' && listings'[t.Offer()] == t.listing.value)
  {
    var listings' := ListingsAfter(listings, t);
    forall l | l in listings.Values
      ensures l in listings'.Values
    {
      var o :| o in listings && listings[o] == l;
      assert o in listings' && listings'[o] == l;
    }
  }

  lemma DealsStayOk(
    t: Txn, deals: map<Uuid, Deal>, listings: map<Offer, Uuid>, listings': map<Offer, Uuid>, issued: set<Uuid>)
    requires DealsOk(deals, listings, issued) && listings.Values <= listings'.Values
    requires t.newDeal.Some? && t.scored.Some? ==>
               && t.newDeal.value in issued && t.scored.value.listing in listings'.Values
               && t.scored.value.detectedPrice > 0
    ensures DealsOk(DealsAfter(deals, t), listings', issued)
  {
  }

  lemma CommitDeals(s: State, w: Worker)
    requires At(s, w, Commit) && TxnOk(s, w, s.txns[w])
    requires ListingsOk(s.listings, s.issued) && DealsOk(s.deals, s.listings, s.issued) && OneOpen(s.deals)
    ensures var s' := CommitTxn(s, w);
            && ListingsOk(s'.listings, s'.issued) && DealsOk(s'.deals, s'.listings, s'.issued) && OneOpen(s'.deals)
  {
    var t := s.txns[w];
    CommitListings(w, t, s.locks, s.listings, s.issued);
    NoTapInserts(s, t);
    DealsChange(w, t, s.locks, s.deals, s.issued);
    var deals', listings' := DealsAfter(s.deals, t), ListingsAfter(s.listings, t);
    assert t.newDeal.Some? ==> listings'[t.Offer()] == t.scored.value.listing;
    DealsStayOk(t, s.deals, s.listings, listings', s.issued);
    if t.newDeal.Some? {
      InsertKeepsOneOpen(s.deals, deals', t.newDeal.value, t.scored.value);
    } else if t.payload.Tapped? && t.write.Some? {
      MoveKeepsOneOpen(s.deals, deals', t.payload.deal, t.write.value);
    }
  }

  lemma CommitLog(s: State, w: Worker)
    requires At(s, w, Commit) && TxnOk(s, w, s.txns[w])
    requires ListingsOk(s.listings, s.issued) && LogOk(s.log, s.listings, s.deals)
    ensures var s' := CommitTxn(s, w); LogOk(s'.log, s'.listings, s'.deals)
  {
    var t := s.txns[w];
    CommitListings(w, t, s.locks, s.listings, s.issued);
    NoTapInserts(s, t);
    DealsChange(w, t, s.locks, s.deals, s.issued);
    assert t.payload.Discovered? ==> t.listing.Some?;
    LogGrows(t, s.log, s.listings, ListingsAfter(s.listings, t), s.deals, DealsAfter(s.deals, t));
  }

  /** An applied tap found DEAL_SENT, so no earlier one was applied to the same deal. */
  lemma LogGrows(
    t: Txn, log: seq<Txn>, listings: map<Offer, Uuid>, listings': map<Offer, Uuid>,
    deals: map<Uuid, Deal>, deals': map<Uuid, Deal>)
    requires LogOk(log, listings, deals)
    requires forall o :: o in listings ==> o in listings' && listings'[o] == listings[o]
    requires t.payload.Discovered? ==> t.Offer() in listings' && t.listing == Some(listings'[t.Offer()])
    requires forall d :: d in deals && PastInterest(deals[d].status) ==> d in deals' && PastInterest(deals'[d].status)
    requires t.AppliedTap() ==>
               && t.row.Some? && LegalTap(t) && t.payload.deal in deals && deals[t.payload.deal] == t.row.value
               && t.payload.deal in deals' && PastInterest(deals'[t.payload.deal].status)
    ensures LogOk(log + [t], listings', deals')
  {
  }

  lemma MarkedByGrows(log: seq<Txn>, t: Txn, event: Uuid)
    requires MarkedBy(log, event) || (t.marks && t.event == event)
    ensures MarkedBy(log + [t], event)
  {
    var grown := log + [t];
    if MarkedBy(log, event) {
      var i :| 0 <= i < |log| && log[i].marks && log[i].event == event;
      assert grown[i] == log[i];
    } else {
      assert grown[|log|] == t;
    }
  }

  lemma MarksGrow(t: Txn, marks: map<Uuid, int>, marked: set<Uuid>, log: seq<Txn>, now: int)
    requires MarksOk(marks, marked, log, now)
    requires t.marks ==> t.event !in marks
    requires t.marks || t.event in marked
    ensures MarksOk(MarksAfter(marks, t), if t.marks then marked + {t.event} else marked, log + [t], now)
  {
    forall e | e in marked || e == t.event
      ensures MarkedBy(log + [t], e)
    {
      MarkedByGrows(log, t, e);
    }
  }

  lemma CommitMarks(s: State, w: Worker)
    requires At(s, w, Commit) && TxnOk(s, w, s.txns[w])
    requires MarksOk(s.marks, s.marked, s.log, s.now) && EntriesOk(s.entries, s.pending, s.acked, s.marked)
    requires DoneOk(s.entries, s.done, s.txns, s.marked)
    ensures var s' := CommitTxn(s, w);
            && MarksOk(s'.marks, s'.marked, s'.log, s'.now)
            && EntriesOk(s'.entries, s'.pending, s'.acked, s'.marked)
            && DoneOk(s'.entries, s'.done, s'.txns, s'.marked)
  {
    MarksGrow(s.txns[w], s.marks, s.marked, s.log, s.now);
  }

  lemma CommitBus(s: State, w: Worker)
    requires At(s, w, Commit) && TxnOk(s, w, s.txns[w])
    requires BusOk(s.bus, s.deals, s.txns, s.locks, s.issued, s.aborted)
    ensures var s' := CommitTxn(s, w); BusOk(s'.bus, s'.deals, s'.txns, s'.locks, s'.issued, s'.aborted)
  {
    var t, s' := s.txns[w], CommitTxn(s, w);
    NoTapInserts(s, t);
    DealsChange(w, t, s.locks, s.deals, s.issued);
    forall i | 0 <= i < |s.bus|
      ensures s.bus[i].deal in s'.deals || s.bus[i].deal in s'.aborted || InFlight(s.bus[i], s'.txns, s'.locks)
    {
      if InFlight(s.bus[i], s.txns, s.locks) && s.locks[DealRow(s.bus[i].deal)] != w {
        assert InFlight(s.bus[i], s'.txns, s'.locks);
      }
    }
  }

  lemma CommitKeeps(s: State, w: Worker)
    requires Inv(s) && At(s, w, Commit)
    ensures Inv(CommitTxn(s, w))
  {
    var s' := CommitTxn(s, w);
    forall v | v in s'.txns
      ensures TxnOk(s', v, s'.txns[v])
    {
      CommitOther(s, w, v);
    }
    CommitDeals(s, w);
    CommitLog(s, w);
    CommitMarks(s, w);
    CommitBus(s, w);
  }

  // ---- The other steps -----------------------------------------------------------------

  lemma AbortOther(s: State, w: Worker, v: Worker)
    requires w in s.txns || w in s.done
    requires w in s.txns ==> TxnOk(s, w, s.txns[w])
    requires v in s.txns && v != w && TxnOk(s, v, s.txns[v])
    ensures TxnOk(Abort(s, w), v, s.txns[v])
  {
  }

  lemma AbortBus(s: State, w: Worker)
    requires w in s.txns || w in s.done
    requires w in s.txns ==> TxnOk(s, w, s.txns[w])
    requires LocksOk(s.locks, s.txns) && BusOk(s.bus, s.deals, s.txns, s.locks, s.issued, s.aborted)
    ensures var s' := Abort(s, w); BusOk(s'.bus, s'.deals, s'.txns, s'.locks, s'.issued, s'.aborted)
  {
    var s' := Abort(s, w);
    forall i | 0 <= i < |s.bus|
      ensures s.bus[i].deal in s'.deals || s.bus[i].deal in s'.aborted || InFlight(s.bus[i], s'.txns, s'.locks)
    {
      if InFlight(s.bus[i], s.txns, s.locks) && s.locks[DealRow(s.bus[i].deal)] != w {
        assert InFlight(s.bus[i], s'.txns, s'.locks);
      }
    }
  }

  lemma AbortKeeps(s: State, w: Worker)
    requires Inv(s) && (w in s.txns || w in s.done)
    ensures Inv(Abort(s, w))
  {
    var s' := Abort(s, w);
    forall v | v in s'.txns
      ensures TxnOk(s', v, s'.txns[v])
    {
      AbortOther(s, w, v);
    }
    AbortBus(s, w);
  }

  lemma AnnounceOther(s: State, w: Worker, v: Worker)
    requires CanAnnounce(s, w) && TxnOk(s, w, s.txns[w])
    requires v in s.txns && v != w && TxnOk(s, v, s.txns[v])
    ensures TxnOk(Announce(s, w), v, s.txns[v])
  {
    var u, bus' := s.txns[v], Announce(s, w).bus;
    if u.newDeal.Some? && u.phase != Publish {
      var i :| 0 <= i < |s.bus| && s.bus[i] == DealScored(u.newDeal.value, u.scored.value);
      assert bus'[i] == s.bus[i];
    }
  }

  lemma AnnounceOwn(s: State, w: Worker)
    requires CanAnnounce(s, w) && TxnOk(s, w, s.txns[w])
    ensures TxnOk(Announce(s, w), w, Announce(s, w).txns[w])
  {
    var t, bus' := s.txns[w], Announce(s, w).bus;
    assert bus'[|s.bus|] == DealScored(t.newDeal.value, t.scored.value);
  }

  lemma AnnounceBus(s: State, w: Worker)
    requires CanAnnounce(s, w) && TxnOk(s, w, s.txns[w])
    requires BusOk(s.bus, s.deals, s.txns, s.locks, s.issued, s.aborted)
    ensures var s' := Announce(s, w); BusOk(s'.bus, s'.deals, s'.txns, s'.locks, s'.issued, s'.aborted)
  {
    var s' := Announce(s, w);
    forall d | d in s.deals
      ensures OnBus(s'.bus, d, s.deals[d].facts)
    {
      var i :| 0 <= i < |s.bus| && s.bus[i] == DealScored(d, s.deals[d].facts);
      assert s'.bus[i] == s.bus[i];
    }
    forall i | 0 <= i < |s.bus|
      ensures s.bus[i].deal in s'.deals || s.bus[i].deal in s'.aborted || InFlight(s.bus[i], s'.txns, s'.locks)
    {
      if InFlight(s.bus[i], s.txns, s.locks) {
        assert s.locks[DealRow(s.bus[i].deal)] != w;
        assert InFlight(s.bus[i], s'.txns, s'.locks);
      }
    }
    assert InFlight(s'.bus[|s.bus|], s'.txns, s'.locks);
  }

  lemma AnnounceKeeps(s: State, w: Worker)
    requires Inv(s) && CanAnnounce(s, w)
    ensures Inv(Announce(s, w))
  {
    var s' := Announce(s, w);
    assert TxnOk(s, w, s.txns[w]);
    forall v | v in s'.txns
      ensures TxnOk(s', v, s'.txns[v])
    {
      if v == w {
        AnnounceOwn(s, w);
      } else {
        AnnounceOther(s, w, v);
      }
    }
    AnnounceBus(s, w);
  }

  lemma BeginOwn(s: State, w: Worker, e: nat)
    requires CanBegin(s, w, e) && SchemaValid(s.entries[e].payload) && s.entries[e].id !in s.marks
    ensures TxnOk(Begin(s, w, e), w, Begin(s, w, e).txns[w])
  {
  }

  lemma BeginBus(s: State, w: Worker, e: nat)
    requires CanBegin(s, w, e) && s.entries[e].id !in s.marks
    requires BusOk(s.bus, s.deals, s.txns, s.locks, s.issued, s.aborted)
    ensures var s' := Begin(s, w, e); BusOk(s'.bus, s'.deals, s'.txns, s'.locks, s'.issued, s'.aborted)
  {
    var s' := Begin(s, w, e);
    forall i | 0 <= i < |s.bus| && InFlight(s.bus[i], s.txns, s.locks)
      ensures InFlight(s.bus[i], s'.txns, s'.locks)
    {
    }
  }

  lemma BeginOther(s: State, w: Worker, e: nat, v: Worker)
    requires CanBegin(s, w, e) && s.entries[e].id !in s.marks
    requires v in s.txns && TxnOk(s, v, s.txns[v])
    ensures TxnOk(Begin(s, w, e), v, s.txns[v])
  {
  }

  /** An event already marked is skipped: nothing changes but that its entry may be acknowledged. */
  lemma SkipKeeps(s: State, w: Worker, e: nat)
    requires Inv(s) && CanBegin(s, w, e) && s.entries[e].id in s.marks
    ensures Inv(Begin(s, w, e))
  {
    var s' := Begin(s, w, e);
    forall v | v in s'.txns
      ensures TxnOk(s', v, s'.txns[v])
    {
      assert TxnOk(s, v, s.txns[v]);
    }
  }

  lemma BeginKeeps(s: State, w: Worker, e: nat)
    requires Inv(s) && CanBegin(s, w, e) && s.entries[e].id !in s.marks
    ensures Inv(Begin(s, w, e))
  {
    BeginOwn(s, w, e);
    BeginBus(s, w, e);
    forall v | v in Begin(s, w, e).txns && v != w
      ensures TxnOk(Begin(s, w, e), v, s.txns[v])
    {
      BeginOther(s, w, e, v);
    }
  }

  /** Every lifecycle edge keeps terminal deals terminal, and never leads back before a tap. */
  lemma EdgeMoves(s: State, d: Uuid, to: Status)
    requires CanMove(s, d, to)
    ensures MovesDeal(s.deals, Move(s, d, to).deals, d, to)
  {
  }

  lemma MoveOther(s: State, d: Uuid, to: Status, v: Worker)
    requires CanMove(s, d, to) && v in s.txns && TxnOk(s, v, s.txns[v])
    ensures TxnOk(Move(s, d, to), v, s.txns[v])
  {
    var u := s.txns[v];
    EdgeMoves(s, d, to);
    if u.phase == InsertDeal || u.newDeal.Some? {
      MoveOpensNothing(s.deals, Move(s, d, to).deals, d, to, u.scored.value.listing);
    }
  }

  lemma MoveKeeps(s: State, d: Uuid, to: Status)
    requires Inv(s) && CanMove(s, d, to)
    ensures Inv(Move(s, d, to))
  {
    EdgeMoves(s, d, to);
    MoveKeepsOneOpen(s.deals, Move(s, d, to).deals, d, to);
    forall v | v in s.txns
      ensures TxnOk(Move(s, d, to), v, s.txns[v])
    {
      MoveOther(s, d, to, v);
    }
  }

  /** Steps that touch no table, transaction or lock, but for purging marks. */
  ghost predicate Outside(a: Action) {
    || a.Arriving? || a.Claiming? || a.Ticking? || a.Purging?
    || (a.Enveloping? && (a.envelope.Delivering? || a.envelope.Acking?))
  }

  ghost predicate OutsideStep(s: State, s': State) {
    && s' == s.(now := s'.now, entries := s'.entries, pending := s'.pending, acked := s'.acked,
                done := s'.done, marks := s'.marks)
    && s.now <= s'.now && s.entries <= s'.entries
    && (forall e :: e in s'.marks ==> e in s.marks && s'.marks[e] == s.marks[e])
    && (forall e :: e in s.marks && s.marks[e] >= s'.now - RETENTION ==> e in s'.marks)
  }

  lemma PurgeSteps(s: State)
    ensures OutsideStep(s, Purge(s))
  {
  }

  lemma DeliverySteps(s: State, w: Worker, e: nat)
    requires CanDeliver(s, e)
    ensures OutsideStep(s, Deliver(s, w, e))
  {
  }

  lemma AckSteps(s: State, w: Worker)
    requires w in s.done
    ensures OutsideStep(s, Ack(s, w))
  {
  }

  lemma OutsideSteps(s: State, a: Action)
    requires Enabled(s, a) && Outside(a)
    ensures OutsideStep(s, Apply(s, a))
  {
    match a
    case Purging => PurgeSteps(s);
    case Enveloping(w, step) =>
      if step.Acking? {
        AckSteps(s, w);
      } else {
        DeliverySteps(s, w, step.e);
      }
    case _ =>
  }

  lemma ArrivalEntries(s: State, entry: Entry)
    requires EntriesOk(s.entries, s.pending, s.acked, s.marked) && DoneOk(s.entries, s.done, s.txns, s.marked)
    requires entry.Event? ==> SchemaValid(entry.payload)
    ensures EntriesOk(s.entries + [entry], s.pending, s.acked, s.marked)
    ensures DoneOk(s.entries + [entry], s.done, s.txns, s.marked)
  {
  }

  lemma DropEntry(
    entries: seq<Entry>, pending: map<nat, Worker>, acked: set<nat>, marked: set<Uuid>, e: nat)
    requires EntriesOk(entries, pending, acked, marked) && Handled(entries, e, marked)
    ensures EntriesOk(entries, pending, acked + {e}, marked)
  {
  }

  lemma AssignEntry(
    entries: seq<Entry>, pending: map<nat, Worker>, acked: set<nat>, marked: set<Uuid>, e: nat, w: Worker)
    requires EntriesOk(entries, pending, acked, marked) && e < |entries| && !entries[e].Malformed?
    ensures EntriesOk(entries, pending[e := w], acked, marked)
  {
  }

  lemma DeliveryEntries(s: State, w: Worker, e: nat)
    requires CanDeliver(s, e) && EntriesOk(s.entries, s.pending, s.acked, s.marked)
    ensures var s' := Deliver(s, w, e); EntriesOk(s'.entries, s'.pending, s'.acked, s'.marked)
  {
    if s.entries[e].Malformed? {
      DropEntry(s.entries, s.pending, s.acked, s.marked, e);
    } else {
      AssignEntry(s.entries, s.pending, s.acked, s.marked, e, w);
    }
  }

  /** Only an entry whose event's mark is committed is ever acknowledged. */
  lemma AckEntries(s: State, w: Worker)
    requires w in s.done && EntriesOk(s.entries, s.pending, s.acked, s.marked)
    requires DoneOk(s.entries, s.done, s.txns, s.marked)
    ensures var s' := Ack(s, w);
            && EntriesOk(s'.entries, s'.pending, s'.acked, s'.marked)
            && DoneOk(s'.entries, s'.done, s'.txns, s'.marked)
  {
  }

  lemma OutsideEntries(s: State, a: Action)
    requires Enabled(s, a) && Outside(a)
    requires EntriesOk(s.entries, s.pending, s.acked, s.marked) && DoneOk(s.entries, s.done, s.txns, s.marked)
    ensures var s' := Apply(s, a);
            && EntriesOk(s'.entries, s'.pending, s'.acked, s'.marked)
            && DoneOk(s'.entries, s'.done, s'.txns, s'.marked)
  {
    match a
    case Arriving(entry) => ArrivalEntries(s, entry);
    case Claiming(w, e) => AssignEntry(s.entries, s.pending, s.acked, s.marked, e, w);
    case Enveloping(w, step) =>
      if step.Acking? {
        AckEntries(s, w);
      } else {
        DeliveryEntries(s, w, step.e);
      }
    case _ =>
  }

  lemma OutsideMarks(s: State, s': State)
    requires OutsideStep(s, s') && MarksOk(s.marks, s.marked, s.log, s.now)
    ensures MarksOk(s'.marks, s'.marked, s'.log, s'.now)
  {
  }

  lemma OutsideTxn(s: State, s': State, v: Worker)
    requires OutsideStep(s, s') && v in s.txns && TxnOk(s, v, s.txns[v])
    ensures TxnOk(s', v, s'.txns[v])
  {
  }

  lemma OutsideKeeps(s: State, a: Action)
    requires Inv(s) && Enabled(s, a) && Outside(a)
    ensures Inv(Apply(s, a))
  {
    var s' := Apply(s, a);
    OutsideSteps(s, a);
    OutsideEntries(s, a);
    OutsideMarks(s, s');
    forall v | v in s'.txns
      ensures TxnOk(s', v, s'.txns[v])
    {
      OutsideTxn(s, s', v);
    }
  }

  // ---- Every step ----------------------------------------------------------------------

  lemma EnvelopeKeeps(s: State, w: Worker, step: EnvelopeStep)
    requires Inv(s) && EnvelopeEnabled(s, w, step) && !Outside(Enveloping(w, step))
    ensures Inv(EnvelopeApply(s, w, step))
  {
    match step
    case Beginning(e) =>
      if s.entries[e].id in s.marks {
        SkipKeeps(s, w, e);
      } else {
        BeginKeeps(s, w, e);
      }
    case Marking =>
      assert TxnOk(s, w, s.txns[w]);
      if s.txns[w].event in s.marks {
        MarkAlreadyThere(s, w);
      } else {
        MarkWritten(s, w);
      }
      LocalKeeps(s, MarkEvent(s, w), w);
    case Committing => CommitKeeps(s, w);
    case Aborting => AbortKeeps(s, w);
  }

  lemma IngestAdvances(s: State, w: Worker, step: IngestStep)
    requires Inv(s) && IngestEnabled(s, w, step) && !step.Announcing?
    ensures Advances(s, IngestApply(s, w, step), w)
  {
    assert TxnOk(s, w, s.txns[w]);
    match step
    case Finding =>
      if s.txns[w].Offer() in s.listings {
        FindHits(s, w);
      } else {
        FindMisses(s, w);
      }
    case Updating => UpdateAdvances(s, w);
    case Inserting(id) =>
      if s.txns[w].Offer() in s.listings {
        InsertConflicts(s, w, id);
      } else {
        InsertSucceeds(s, w, id);
      }
    case Rereading => RereadAdvances(s, w);
    case Recording => RecordAdvances(s, w);
    case Scoring(tier, config, verdict) =>
      VerdictFacts(s, w, tier, config, verdict);
      ScoreAdvances(s, w, verdict);
    case Acquiring => AcquireAdvances(s, w);
    case Checking => CheckAdvances(s, w);
    case Creating(id) => CreateAdvances(s, w, id);
  }

  lemma TapAdvances(s: State, w: Worker, step: TapStep)
    requires Inv(s) && TapEnabled(s, w, step)
    ensures Advances(s, TapApply(s, w, step), w)
  {
    assert TxnOk(s, w, s.txns[w]);
    match step
    case Reading =>
      if s.txns[w].payload.deal in s.deals {
        ReadFindsRow(s, w);
      } else {
        ReadFindsNothing(s, w);
      }
    case Deciding => DecideAdvances(s, w);
    case Writing => WriteAdvances(s, w);
  }

  /** The whole invariant, over every step of every worker and of the environment. */
  lemma StepKeeps(s: State, a: Action)
    requires Inv(s) && Enabled(s, a)
    ensures Inv(Apply(s, a))
  {
    if Outside(a) {
      OutsideKeeps(s, a);
      return;
    }
    match a
    case Moving(d, to) => MoveKeeps(s, d, to);
    case Enveloping(w, step) => EnvelopeKeeps(s, w, step);
    case Ingesting(w, step) =>
      if step.Announcing? {
        AnnounceKeeps(s, w);
      } else {
        IngestAdvances(s, w, step);
        LocalKeeps(s, Apply(s, a), w);
      }
    case Tapping(w, step) =>
      TapAdvances(s, w, step);
      LocalKeeps(s, Apply(s, a), w);
  }

  lemma {:induction false} RunKeeps(s: State, run: seq<Action>)
    requires Inv(s) && Legal(s, run)
    ensures Inv(After(s, run))
    decreases |run|
  {
    if run != [] {
      StepKeeps(s, run[0]);
      RunKeeps(Apply(s, run[0]), run[1..]);
    }
  }
}
