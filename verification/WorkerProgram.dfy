/**
  * One Deal Engine worker as a program: the handlers' statements in order, each executed by a
  * server that other workers keep using in between.  Everything such a program does is a run
  * of the machine, so what holds over every run holds of it.
  */
module WorkerProgram {
  import opened Prelude
  import opened DealEngine
  import opened DealEngineSafety
  import opened DealEngineRuns
  import opened Reachability
  import PH = PriceHistory
  import S = Scorer

  // ---- Other workers -------------------------------------------------------------------

  /** An action taken in this worker's own transaction or loop. */
  predicate Own(a: Action, w: Worker) {
    (a.Enveloping? || a.Ingesting? || a.Tapping?) && a.w == w
  }

  /** What others cannot touch: this worker's transaction and what it has to acknowledge; time goes on. */
  ghost predicate Mine(s: State, s': State, w: Worker) {
    && s'.guards == s.guards && s.now <= s'.now
    && (w in s'.txns <==> w in s.txns) && (w in s.txns ==> s'.txns[w] == s.txns[w])
    && (w in s'.done <==> w in s.done) && (w in s.done ==> s'.done[w] == s.done[w])
  }

  lemma EnvelopeOthers(s: State, v: Worker, step: EnvelopeStep, w: Worker)
    requires EnvelopeEnabled(s, v, step) && v != w
    ensures Mine(s, EnvelopeApply(s, v, step), w)
  {
  }

  lemma IngestOthers(s: State, v: Worker, step: IngestStep, w: Worker)
    requires IngestEnabled(s, v, step) && v != w
    ensures Mine(s, IngestApply(s, v, step), w)
  {
  }

  lemma TapOthers(s: State, v: Worker, step: TapStep, w: Worker)
    requires TapEnabled(s, v, step) && v != w
    ensures Mine(s, TapApply(s, v, step), w)
  {
  }

  lemma OthersKeepMine(s: State, a: Action, w: Worker)
    requires Enabled(s, a) && !Own(a, w)
    ensures Mine(s, Apply(s, a), w)
  {
    match a
    case Enveloping(v, step) => EnvelopeOthers(s, v, step, w);
    case Ingesting(v, step) => IngestOthers(s, v, step, w);
    case Tapping(v, step) => TapOthers(s, v, step, w);
    case _ =>
  }

  // ---- The server ----------------------------------------------------------------------

  /** How `conn.commit()` ends; when the connection is lost, the commit has taken effect all the same. */
  datatype CommitReply = Done | Refused | ConnectionLost

  /** Postgres and Redis, as worker `me` meets them. */
  class Server {
    const me: Worker
    const others: nat -> seq<Action>
    var turn: nat
    var state: State

    ghost predicate Valid()
      reads this
    {
      Reaches(ANYTHING, Init(AS_WRITTEN), state)
    }

    constructor (me: Worker, others: nat -> seq<Action>)
      ensures Valid() && this.me == me && state == Init(AS_WRITTEN)
    {
      this.me := me;
      this.others := others;
      turn := 0;
      state := Init(AS_WRITTEN);
      new;
      Starts(ANYTHING, Init(AS_WRITTEN));
    }

    /** Whatever others manage to do before this worker's next statement. */
    method Interfere()
      requires Valid()
      modifies this
      ensures Valid() && Mine(old(state), state, me) && Reaches(ANYTHING, old(state), state)
    {
      Starts(ANYTHING, state);
      var todo := others(turn);
      turn := turn + 1;
      while todo != []
        invariant Valid() && Mine(old(state), state, me) && Reaches(ANYTHING, old(state), state)
        decreases |todo|
      {
        if !Own(todo[0], me) && Enabled(state, todo[0]) {
          OthersKeepMine(state, todo[0], me);
          Takes(ANYTHING, state, todo[0]);
          Chains(ANYTHING, Init(AS_WRITTEN), state, Apply(state, todo[0]));
          Chains(ANYTHING, old(state), state, Apply(state, todo[0]));
          state := Apply(state, todo[0]);
        }
        todo := todo[1..];
      }
    }

    /** One statement of this worker, unless a lock it waits for is never released. */
    method Execute(a: Action) returns (ran: bool, ghost seen: State)
      requires Valid() && Own(a, me)
      modifies this
      ensures Valid() && Mine(old(state), seen, me) && Reaches(ANYTHING, Init(AS_WRITTEN), seen)
      ensures Reaches(ANYTHING, old(state), state)
      ensures ran == Enabled(seen, a)
      ensures state == if Enabled(seen, a) then Apply(seen, a) else seen
    {
      Interfere();
      seen := state;
      ran := Enabled(state, a);
      if ran {
        Takes(ANYTHING, state, a);
        Chains(ANYTHING, Init(AS_WRITTEN), state, Apply(state, a));
        Chains(ANYTHING, old(state), state, Apply(state, a));
        state := Apply(state, a);
      }
    }
  }

  // ---- Repositories --------------------------------------------------------------------

  /** Why a handler raises.  `Blocked` is a lock wait that ends in an exception. */
  datatype Failure = Blocked | ListingUnreadable | DealVanished | PublishFailed | CommitFailed | NotDelivered

  predicate HeldByAnother(s: State, lock: Lock, w: Worker) { lock in s.locks && s.locks[lock] != w }

  /**
    * The statement the open transaction stands at cannot run: another transaction holds the row
    * or the key it needs, or the id drawn for its insert is taken.
    */
  predicate Waits(s: State, w: Worker, drawnListing: Uuid, drawnDeal: Uuid) {
    && w in s.txns
    && var t := s.txns[w];
       match t.phase
       case UpdateListing => t.listing.Some? && HeldByAnother(s, ListingRow(t.listing.value), w)
       case InsertListing =>
         && t.payload.Discovered?
         && (|| HeldByAnother(s, OfferKey(t.Offer()), w)
             || drawnListing in s.issued
             || ListingRow(drawnListing) in s.locks)
       case LockListing => t.scored.Some? && HeldByAnother(s, ListingLock(t), w)
       case InsertDeal => drawnDeal in s.issued || DealRow(drawnDeal) in s.locks
       case LockDeal => t.payload.Tapped? && HeldByAnother(s, DealRow(t.payload.deal), w)
       case Mark => HeldByAnother(s, MarkKey(t.event), w)
       case _ => false
  }

  function ListingLock(t: Txn): Lock
    requires t.scored.Some?
  {
    Advisory(AdvisoryKey(t.scored.value.listing))
  }

  /** It stands at the publish, and the announcement breaks the DEAL_SCORED schema. */
  predicate Unpublishable(s: State, w: Worker) {
    At(s, w, Publish) && s.txns[w].scored.Some? && !(0 <= s.txns[w].scored.value.score <= 10000)
  }

  /** No entry of this number was ever delivered, or it is none a handler is registered for. */
  predicate NotOffered(s: State, e: nat) {
    || (e !in s.pending && e !in s.acked)
    || e >= |s.entries| || !s.entries[e].Event? || s.entries[e].payload.Unhandled?
  }

  lemma ReachedInv(s: State)
    requires Reaches(ANYTHING, Init(AS_WRITTEN), s)
    ensures Inv(s)
  {
    InitOk();
    var run :| Legal(Init(AS_WRITTEN), run) && OrderlyRun(ANYTHING, Init(AS_WRITTEN), run)
               && After(Init(AS_WRITTEN), run) == s;
    RunKeeps(Init(AS_WRITTEN), run);
  }

  lemma BothGuards(s: State)
    requires Reaches(ANYTHING, Init(AS_WRITTEN), s)
    ensures s.guards == AS_WRITTEN
  {
    ReachedInv(s);
  }

  lemma RereadFinds(s: State, w: Worker)
    requires Reaches(ANYTHING, Init(AS_WRITTEN), s) && At(s, w, RereadListing)
    ensures CanReread(s, w)
  {
    ReachedInv(s);
    assert TxnOk(s, w, s.txns[w]);
  }

  /** The listing id committed for the offer a transaction handles. */
  function Committed(listings: map<Offer, Uuid>, t: Txn): Option<Uuid>
    requires t.payload.Discovered?
  {
    if t.Offer() in listings then Some(listings[t.Offer()]) else None
  }

  class ListingRepository {
    const server: Server

    constructor (server: Server)
      ensures this.server == server
    {
      this.server := server;
    }

    method FindByExternal() returns (listing: Option<Uuid>)
      requires server.Valid() && At(server.state, server.me, FindListing)
      requires server.state.txns[server.me].payload.Discovered?
      modifies server
      ensures Reaches(ANYTHING, old(server.state), server.state)
      ensures server.Valid() && server.me in server.state.txns
      ensures var t := old(server.state.txns[server.me]);
              server.state.txns[server.me]
                == t.(phase := if listing.Some? then UpdateListing else InsertListing, listing := listing)
      ensures listing == Committed(server.state.listings, old(server.state.txns[server.me]))
    {
      var ran, seen := server.Execute(Ingesting(server.me, Finding));
      listing := server.state.txns[server.me].listing;
    }

    /** The re-read of a lost insert: the winner's row is always there. */
    method FindAgain() returns (listing: Option<Uuid>)
      requires server.Valid() && At(server.state, server.me, RereadListing)
      modifies server
      ensures Reaches(ANYTHING, old(server.state), server.state)
      ensures server.Valid() && server.me in server.state.txns && listing.Some?
      ensures server.state.txns[server.me]
           == old(server.state.txns[server.me]).(phase := Observe, listing := listing)
      ensures server.state.txns[server.me].payload.Discovered?
      ensures listing == Committed(server.state.listings, server.state.txns[server.me])
    {
      var ran, seen := server.Execute(Ingesting(server.me, Rereading));
      RereadFinds(seen, server.me);
      listing := server.state.txns[server.me].listing;
    }

    method UpdateObservation() returns (ran: bool)
      requires server.Valid() && At(server.state, server.me, UpdateListing)
      requires server.state.txns[server.me].listing.Some?
      modifies server
      ensures Reaches(ANYTHING, old(server.state), server.state)
      ensures server.Valid() && server.me in server.state.txns
      ensures server.state.txns[server.me]
           == if ran then old(server.state.txns[server.me]).(phase := Observe) else old(server.state.txns[server.me])
      ensures !ran ==> Waits(server.state, server.me, 0, 0)
    {
      ghost var seen;
      ran, seen := server.Execute(Ingesting(server.me, Updating));
    }

    /** `None` when a concurrent transaction won the race. */
    method Insert(id: Uuid) returns (inserted: Result<Option<Uuid>, Failure>)
      requires server.Valid() && At(server.state, server.me, InsertListing)
      requires server.state.txns[server.me].payload.Discovered?
      modifies server
      ensures Reaches(ANYTHING, old(server.state), server.state)
      ensures server.Valid() && server.me in server.state.txns
      ensures inserted.Raise? ==> inserted.error == Blocked && Waits(server.state, server.me, id, 0)
      ensures var t := old(server.state.txns[server.me]);
              server.state.txns[server.me]
                == match inserted
                   case Raise(_) => t
                   case Ok(None) => t.(phase := RereadListing, listing := None, insertsListing := false)
                   case Ok(Some(row)) => t.(phase := Observe, listing := Some(row), insertsListing := true)
      ensures inserted.Ok? ==>
                var offer := old(server.state.txns[server.me]).Offer();
                if inserted.value.None? then offer in server.state.listings
                else
                  && inserted.value.value == id && offer !in server.state.listings
                  && Holds(server.state.locks, OfferKey(offer), server.me)
                  && Holds(server.state.locks, ListingRow(id), server.me)
    {
      var ran, seen := server.Execute(Ingesting(server.me, Inserting(id)));
      if !ran {
        return Raise(Blocked);
      }
      return Ok(server.state.txns[server.me].listing);
    }
  }

  class PriceHistoryRepository {
    const server: Server

    constructor (server: Server)
      ensures this.server == server
    {
      this.server := server;
    }

    method Insert()
      requires server.Valid() && At(server.state, server.me, Observe)
      requires server.state.txns[server.me].payload.Discovered? && server.state.txns[server.me].listing.Some?
      modifies server
      ensures Reaches(ANYTHING, old(server.state), server.state)
      ensures server.Valid() && server.me in server.state.txns
      ensures var t := old(server.state.txns[server.me]);
              server.state.txns[server.me] == Extended(t)
    {
      var ran, seen := server.Execute(Ingesting(server.me, Recording));
    }

    /** `stats`, the brand's tier and `score`: what the handler makes of the series it just extended. */
    method StatsThenScore(tier: Option<S.BrandTier>, config: S.Config) 
      returns (verdict: S.Outcome, ghost stats: Option<PH.PriceStats>)
      requires server.Valid() && At(server.state, server.me, Assess)
      requires server.state.txns[server.me].payload.Discovered? && server.state.txns[server.me].listing.Some?
      requires server.state.txns[server.me].observation.Some? && server.state.txns[server.me].payload.product.price > 0
      modifies server
      ensures Reaches(ANYTHING, old(server.state), server.state)
      ensures server.Valid() && server.me in server.state.txns && !verdict.ZeroDivision?
      ensures OnSeries(server.state, old(server.state.txns[server.me]), tier, config, verdict, stats)
      ensures server.state.txns[server.me]
           == old(server.state.txns[server.me]).(
                phase := if verdict.Deal? then Phase.LockListing else Mark,
                scored := if verdict.Deal? then Some(verdict.deal) else None)
    {
      server.Interfere();
      ghost var s := server.state;
      verdict := Verdict(server.state, server.state.txns[server.me], tier, config);
      RecordedRow(s, server.me);
      stats := VerdictOnSeries(s, s.txns[server.me], tier, config);
      var a := Ingesting(server.me, Scoring(tier, config, verdict));
      Takes(ANYTHING, s, a);
      Chains(ANYTHING, Init(AS_WRITTEN), s, Apply(s, a));
      Chains(ANYTHING, old(server.state), s, Apply(s, a));
      server.state := Apply(server.state, a);
    }
  }

  /**
    * The verdict on a transaction that has appended its observation: the scorer's, on the extremes
    * of the series since the window's start, that row included.
    */
  ghost predicate OnSeries(
    s: State, t: Txn, tier: Option<S.BrandTier>, config: S.Config, verdict: S.Outcome, stats: Option<PH.PriceStats>)
  {
    && t.payload.Discovered? && t.listing.Some? && t.observation.Some?
    && verdict == Verdict(s, t, tier, config)
    && PH.Range(Series(s, t), t.listing.value, t.startedAt - 86400 * config.historyWindowDays, stats)
    && RightVerdict(verdict, t.payload.product, t.listing.value, tier, stats, config, s.now)
  }

  lemma RecordedRow(s: State, w: Worker)
    requires Reaches(ANYTHING, Init(AS_WRITTEN), s) && At(s, w, Assess)
    ensures var t := s.txns[w];
            t.payload.Discovered? && t.listing.Some? &&
            t.observation == Some(PH.Observation(t.listing.value, t.payload.product.price,
                                                 t.payload.product.inStock, t.startedAt))
  {
    ReachedInv(s);
    assert TxnOk(s, w, s.txns[w]);
  }

  function Extended(t: Txn): Txn
    requires t.payload.Discovered? && t.listing.Some?
  {
    var p := t.payload.product;
    t.(phase := Assess, observation := Some(PH.Observation(t.listing.value, p.price, p.inStock, t.startedAt)))
  }

  predicate IsOpen(deals: map<Uuid, Deal>, d: Uuid, listing: Uuid) {
    d in deals && deals[d].facts.listing == listing && Open(deals[d].status)
  }

  class DealRepository {
    const server: Server

    constructor (server: Server)
      ensures this.server == server
    {
      this.server := server;
    }

    method LockListing() returns (ran: bool)
      requires server.Valid() && At(server.state, server.me, Phase.LockListing)
      requires server.state.txns[server.me].scored.Some?
      modifies server
      ensures Reaches(ANYTHING, old(server.state), server.state)
      ensures server.Valid() && server.me in server.state.txns
      ensures server.state.txns[server.me]
           == if ran then old(server.state.txns[server.me]).(phase := FindOpen) else old(server.state.txns[server.me])
      ensures if ran then Holds(server.state.locks, ListingLock(server.state.txns[server.me]), server.me)
              else Waits(server.state, server.me, 0, 0)
    {
      ghost var seen;
      ran, seen := server.Execute(Ingesting(server.me, Acquiring));
      BothGuards(seen);
    }

    method FindOpenForListing() returns (open: Option<Uuid>)
      requires server.Valid() && At(server.state, server.me, FindOpen)
      requires server.state.txns[server.me].scored.Some?
      modifies server
      ensures Reaches(ANYTHING, old(server.state), server.state)
      ensures server.Valid() && server.me in server.state.txns
      ensures server.state.txns[server.me]
           == old(server.state.txns[server.me]).(phase := if open.Some? then Mark else InsertDeal)
      ensures var listing := server.state.txns[server.me].scored.value.listing;
              if open.Some? then IsOpen(server.state.deals, open.value, listing)
              else !HasOpen(server.state.deals, listing)
    {
      var ran, seen := server.Execute(Ingesting(server.me, Checking));
      if server.state.txns[server.me].phase != Mark {
        return None;
      }
      var listing := server.state.txns[server.me].scored.value.listing;
      var id :| id in server.state.deals && IsOpen(server.state.deals, id, listing);
      return Some(id);
    }

    method Insert(id: Uuid) returns (ran: bool)
      requires server.Valid() && At(server.state, server.me, InsertDeal)
      modifies server
      ensures Reaches(ANYTHING, old(server.state), server.state)
      ensures server.Valid() && server.me in server.state.txns
      ensures server.state.txns[server.me]
           == if ran then old(server.state.txns[server.me]).(phase := Publish, newDeal := Some(id))
              else old(server.state.txns[server.me])
      ensures !ran ==> Waits(server.state, server.me, 0, id)
    {
      ghost var seen;
      ran, seen := server.Execute(Ingesting(server.me, IngestStep.Creating(id)));
    }

    /** `for_update=True`: the row, locked. */
    method GetById() returns (row: Result<Option<Deal>, Failure>)
      requires server.Valid() && At(server.state, server.me, LockDeal)
      requires server.state.txns[server.me].payload.Tapped?
      modifies server
      ensures Reaches(ANYTHING, old(server.state), server.state) && old(server.state.now) <= server.state.now
      ensures server.Valid() && server.me in server.state.txns
      ensures row.Raise? ==> row.error == Blocked && Waits(server.state, server.me, 0, 0)
      ensures var t := old(server.state.txns[server.me]);
              server.state.txns[server.me]
                == if row.Raise? then t
                   else t.(phase := if row.value.Some? then Decide else Mark, row := row.value)
      ensures row.Ok? ==>
                var d, s := old(server.state.txns[server.me]).payload.deal, server.state;
                if row.value.None? then d !in s.deals
                else d in s.deals && s.deals[d] == row.value.value && Holds(s.locks, DealRow(d), server.me)
    {
      var ran, seen := server.Execute(Tapping(server.me, Reading));
      if !ran {
        return Raise(Blocked);
      }
      BothGuards(seen);
      return Ok(server.state.txns[server.me].row);
    }

    /** Under the row lock the update neither waits nor misses. */
    method UpdateStatus() returns (updated: bool)
      requires server.Valid() && At(server.state, server.me, WriteStatus)
      modifies server
      ensures Reaches(ANYTHING, old(server.state), server.state) && old(server.state.now) <= server.state.now
      ensures server.Valid() && updated && server.me in server.state.txns
      ensures server.state.txns[server.me] == old(server.state.txns[server.me]).(phase := Mark)
    {
      ghost var seen;
      updated, seen := server.Execute(Tapping(server.me, Writing));
      LockedRowIsThere(seen, server.me);
    }
  }

  lemma LockedRowIsThere(s: State, w: Worker)
    requires Reaches(ANYTHING, Init(AS_WRITTEN), s) && At(s, w, WriteStatus)
    ensures CanWrite(s, w)
  {
    ReachedInv(s);
    assert TxnOk(s, w, s.txns[w]);
  }

  // ---- Handlers ------------------------------------------------------------------------

  datatype HandledListing =
    HandledListing(listing: Uuid, scored: Option<S.ScoredDeal>, deal: Option<Uuid>, published: bool)

  /** The deal either way, and whether it is new. */
  datatype DealWriteResult = DealWriteResult(deal: Uuid, created: bool)

  datatype InterestRejection = NoSuchDeal | TapExpired | AlreadyInterested | WrongStatus

  /** The outcome of a tap: applied, or why not. */
  type HandledInterest = Option<InterestRejection>

  lemma CreatedUnderLock(s: State, w: Worker)
    requires Reaches(ANYTHING, Init(AS_WRITTEN), s) && At(s, w, Publish)
    ensures var t := s.txns[w];
            && t.scored.Some? && t.newDeal.Some? && !HasOpen(s.deals, t.scored.value.listing)
            && Holds(s.locks, ListingLock(t), w)
  {
    ReachedInv(s);
    assert TxnOk(s, w, s.txns[w]);
  }

  /**
    * The scorer's verdict on a listing transaction: taken in a state in which the transaction
    * stood as it does now, but for the deal it may have written since.
    */
  ghost predicate ScoredAt(
    s: State, w: Worker, t: Txn, tier: Option<S.BrandTier>, config: S.Config, scored: Option<S.ScoredDeal>)
  {
    && Reaches(ANYTHING, Init(AS_WRITTEN), s) && w in s.txns
    && s.txns[w] == t.(phase := s.txns[w].phase, newDeal := None)
    && exists verdict, stats ::
         && OnSeries(s, t, tier, config, verdict, stats)
         && if verdict.Deal? then scored == Some(verdict.deal) else verdict.Skip? && scored == None
  }

  lemma ScoredNow(
    s: State, w: Worker, t: Txn, tier: Option<S.BrandTier>, config: S.Config, verdict: S.Outcome,
    stats: Option<PH.PriceStats>)
    requires Reaches(ANYTHING, Init(AS_WRITTEN), s) && OnSeries(s, t, tier, config, verdict, stats)
    requires t.newDeal.None? && t.payload.product.price > 0
    requires w in s.txns && s.txns[w] == t.(phase := s.txns[w].phase, scored := s.txns[w].scored)
    ensures var scored := if verdict.Deal? then Some(verdict.deal) else None;
            && ScoredAt(s, w, s.txns[w], tier, config, scored)
            && (scored.Some? && Bounded(config) ==> 0 <= scored.value.score <= 10000)
  {
    assert OnSeries(s, s.txns[w], tier, config, verdict, stats);
    if verdict.Deal? && Bounded(config) {
      ScoreFits(s, t, tier, config);
    }
  }

  lemma ScoreFits(s: State, t: Txn, tier: Option<S.BrandTier>, config: S.Config)
    requires t.payload.Discovered? && t.listing.Some? && t.observation.Some? && t.payload.product.price > 0
    requires Verdict(s, t, tier, config).Deal? && Bounded(config)
    ensures 0 <= Verdict(s, t, tier, config).deal.score <= 10000
  {
    var rows := s.history + [t.observation.value];
    S.ScoreFitsSchema(t.payload.product, t.listing.value, tier,
                      PH.Stats(rows, t.listing.value, config.historyWindowDays, t.startedAt), config, s.now);
  }

  /** Writing the deal and publishing it change nothing the score depends on. */
  lemma StillScored(
    s: State, w: Worker, t: Txn, tier: Option<S.BrandTier>, config: S.Config, scored: Option<S.ScoredDeal>)
    requires w in s.txns && s.txns[w].newDeal.None? && ScoredAt(s, w, s.txns[w], tier, config, scored)
    requires t == s.txns[w].(phase := t.phase, newDeal := t.newDeal)
    ensures ScoredAt(s, w, t, tier, config, scored)
  {
    var verdict, stats :|
      && OnSeries(s, s.txns[w], tier, config, verdict, stats)
      && if verdict.Deal? then scored == Some(verdict.deal) else verdict.Skip? && scored == None;
    assert OnSeries(s, t, tier, config, verdict, stats);
  }

  /** A config whose scores all fit the DEAL_SCORED schema. */
  ghost predicate Bounded(config: S.Config) { S.NonNegative(config.weights) && S.WithinHundred(config) }

  /** Committed or just created, a deal is announced exactly once. */
  lemma OneAnnouncement(s: State, w: Worker)
    requires Reaches(ANYTHING, Init(AS_WRITTEN), s) && At(s, w, Mark)
    ensures forall d :: d in s.deals ==> AnnouncedOnce(s.bus, d, s.deals[d].facts)
    ensures var t := s.txns[w];
            t.newDeal.Some? && t.scored.Some? ==> AnnouncedOnce(s.bus, t.newDeal.value, t.scored.value)
  {
    ReachedInv(s);
    assert TxnOk(s, w, s.txns[w]);
  }

  /** Why a handler raised, and that the transaction stands at the statement that did. */
  predicate RaisedRightly(s: State, w: Worker, drawnListing: Uuid, drawnDeal: Uuid, failure: Failure) {
    match failure
    case Blocked => Waits(s, w, drawnListing, drawnDeal)
    case PublishFailed => Unpublishable(s, w)
    case _ => false
  }

  /** The event a transaction handles stays the same. */
  predicate SameEvent(t: Txn, t': Txn) { t'.entry == t.entry && t'.event == t.event && t'.payload == t.payload }

  class DealEngineWorker {
    const server: Server
    const listings: ListingRepository
    const history: PriceHistoryRepository
    const deals: DealRepository
    const config: S.Config

    ghost predicate Valid()
      reads this, server
    {
      server.Valid() && listings.server == server && history.server == server && deals.server == server
    }

    constructor (server: Server, config: S.Config)
      requires server.Valid()
      ensures Valid() && this.server == server && this.config == config
    {
      this.server := server;
      this.config := config;
      listings := new ListingRepository(server);
      history := new PriceHistoryRepository(server);
      deals := new DealRepository(server);
    }

    /** Find the listing this event describes, creating it if new; the re-read never misses. */
    method UpsertListing(drawn: Uuid) returns (listing: Result<Uuid, Failure>)
      requires Valid() && At(server.state, server.me, FindListing)
      requires server.state.txns[server.me].payload.Discovered?
      modifies server
      ensures Reaches(ANYTHING, old(server.state), server.state)
      ensures Valid() && server.me in server.state.txns
      ensures SameEvent(old(server.state.txns[server.me]), server.state.txns[server.me])
      ensures listing.Raise? ==>
                && listing.error == Blocked && server.state.txns[server.me].phase in {UpdateListing, InsertListing}
                && Waits(server.state, server.me, drawn, 0)
      ensures listing.Ok? ==>
                var t := server.state.txns[server.me];
                t == old(server.state.txns[server.me]).(
                       phase := Observe, listing := Some(listing.value), insertsListing := t.insertsListing)
    {
      var existing := listings.FindByExternal();
      ghost var found := server.state;
      if existing.Some? {
        var updated := listings.UpdateObservation();
        Chains(ANYTHING, old(server.state), found, server.state);
        return if updated then Ok(existing.value) else Raise(Blocked);
      }
      var inserted := listings.Insert(drawn);
      Chains(ANYTHING, old(server.state), found, server.state);
      if inserted.Raise? {
        return Raise(inserted.error);
      }
      if inserted.value.Some? {
        return Ok(inserted.value.value);
      }
      ghost var lost := server.state;
      var reread := listings.FindAgain();
      Chains(ANYTHING, old(server.state), lost, server.state);
      if reread.None? {
        return Raise(ListingUnreadable);
      }
      return Ok(reread.value);
    }

    /** Lock, check, insert.  A created deal has no open rival, and keeps the lock until the commit. */
    method WriteDeal(drawn: Uuid) returns (result: Result<DealWriteResult, Failure>)
      requires Valid() && At(server.state, server.me, Phase.LockListing)
      requires server.state.txns[server.me].scored.Some?
      modifies server
      ensures Reaches(ANYTHING, old(server.state), server.state)
      ensures Valid() && server.me in server.state.txns
      ensures SameEvent(old(server.state.txns[server.me]), server.state.txns[server.me])
      ensures result.Raise? ==>
                && result.error == Blocked && server.state.txns[server.me].phase in {Phase.LockListing, InsertDeal}
                && server.state.txns[server.me]
                     == old(server.state.txns[server.me]).(phase := server.state.txns[server.me].phase)
                && Waits(server.state, server.me, 0, drawn)
      ensures result.Ok? ==>
                var was, created := old(server.state.txns[server.me]), result.value.created;
                server.state.txns[server.me]
                  == was.(phase := if created then Publish else Mark,
                          newDeal := if created then Some(result.value.deal) else was.newDeal)
      ensures result.Ok? ==>
                var t := server.state.txns[server.me];
                t.scored.Some? &&
                if result.value.created
                then !HasOpen(server.state.deals, t.scored.value.listing)
                     && Holds(server.state.locks, ListingLock(t), server.me)
                else IsOpen(server.state.deals, result.value.deal, t.scored.value.listing)
    {
      var locked := deals.LockListing();
      if !locked {
        return Raise(Blocked);
      }
      ghost var held := server.state;
      var open := deals.FindOpenForListing();
      Chains(ANYTHING, old(server.state), held, server.state);
      if open.Some? {
        return Ok(DealWriteResult(open.value, false));
      }
      ghost var checked := server.state;
      var inserted := deals.Insert(drawn);
      Chains(ANYTHING, old(server.state), checked, server.state);
      if !inserted {
        return Raise(Blocked);
      }
      CreatedUnderLock(server.state, server.me);
      return Ok(DealWriteResult(drawn, true));
    }

    /** The XADD of DEAL_SCORED, which the schema bounds. */
    method Announce() returns (published: bool)
      requires Valid() && At(server.state, server.me, Publish)
      modifies server
      ensures Reaches(ANYTHING, old(server.state), server.state)
      ensures Valid() && server.me in server.state.txns
      ensures server.state.txns[server.me]
           == if published then old(server.state.txns[server.me]).(phase := Mark) else old(server.state.txns[server.me])
      ensures published ==>
                var t := server.state.txns[server.me];
                t.newDeal.Some? && t.scored.Some? && OnBus(server.state.bus, t.newDeal.value, t.scored.value)
      ensures !published <==> Unpublishable(server.state, server.me)
    {
      ghost var seen;
      published, seen := server.Execute(Ingesting(server.me, Announcing));
      CreatedUnderLock(seen, server.me);
      if published {
        ghost var t := seen.txns[server.me];
        assert server.state.bus[|seen.bus|] == DealScored(t.newDeal.value, t.scored.value);
      }
    }

    /** The first half: find or create the listing, append the observation, score. */
    method ScoreListing(tier: Option<S.BrandTier>, drawn: Uuid)
      returns (listing: Result<Uuid, Failure>, scored: Option<S.ScoredDeal>)
      requires Valid() && At(server.state, server.me, FindListing)
      requires server.state.txns[server.me].payload.Discovered?
      requires server.state.txns[server.me].payload.product.price > 0 && server.state.txns[server.me].newDeal.None?
      modifies server
      ensures Reaches(ANYTHING, old(server.state), server.state)
      ensures Valid() && server.me in server.state.txns
      ensures SameEvent(old(server.state.txns[server.me]), server.state.txns[server.me])
      ensures listing.Raise? ==>
                && listing.error == Blocked && server.state.txns[server.me].phase in {UpdateListing, InsertListing}
                && Waits(server.state, server.me, drawn, 0)
      ensures listing.Ok? ==>
                var t := server.state.txns[server.me];
                && t.phase == (if scored.Some? then Phase.LockListing else Mark)
                && t.listing == Some(listing.value) && t.scored == scored && t.newDeal.None?
                && ScoredAt(server.state, server.me, t, tier, config, scored)
      ensures listing.Ok? && scored.Some? && Bounded(config) ==> 0 <= scored.value.score <= 10000
    {
      scored := None;
      listing := UpsertListing(drawn);
      if listing.Raise? {
        return;
      }
      ghost var upserted := server.state;
      history.Insert();
      Chains(ANYTHING, old(server.state), upserted, server.state);
      ghost var recorded := server.state;
      var verdict;
      ghost var stats;
      verdict, stats := history.StatsThenScore(tier, config);
      Chains(ANYTHING, old(server.state), recorded, server.state);
      scored := if verdict.Deal? then Some(verdict.deal) else None;
      ScoredNow(server.state, server.me, recorded.txns[server.me], tier, config, verdict, stats);
    }

    /** The second half, for a listing that scored: the deal either way, announced once when new. */
    method WriteAndAnnounce(drawn: Uuid) returns (result: Result<DealWriteResult, Failure>)
      requires Valid() && At(server.state, server.me, Phase.LockListing)
      requires server.state.txns[server.me].scored.Some? && server.state.txns[server.me].newDeal.None?
      modifies server
      ensures Reaches(ANYTHING, old(server.state), server.state)
      ensures Valid() && server.me in server.state.txns
      ensures SameEvent(old(server.state.txns[server.me]), server.state.txns[server.me])
      ensures result.Raise? ==>
                && server.state.txns[server.me].phase in {Phase.LockListing, InsertDeal, Publish}
                && RaisedRightly(server.state, server.me, 0, drawn, result.error)
                && server.state.txns[server.me].scored == old(server.state.txns[server.me].scored)
      ensures result.Ok? ==>
                var d, created := result.value.deal, result.value.created;
                var t := server.state.txns[server.me];
                && t == old(server.state.txns[server.me]).(phase := Mark, newDeal := if created then Some(d) else None)
                && (created ==> AnnouncedOnce(server.state.bus, d, t.scored.value))
                && (!created ==>
                      && IsOpen(server.state.deals, d, t.scored.value.listing)
                      && AnnouncedOnce(server.state.bus, d, server.state.deals[d].facts))
    {
      result := WriteDeal(drawn);
      if result.Raise? {
        return;
      }
      if result.value.created {
        ghost var written := server.state;
        var published := Announce();
        Chains(ANYTHING, old(server.state), written, server.state);
        if !published {
          return Raise(PublishFailed);
        }
      }
      OneAnnouncement(server.state, server.me);
    }

    /** Ingest, score, persist, and announce when there is something to announce. */
    method HandleListingDiscovered(tier: Option<S.BrandTier>, drawnListing: Uuid, drawnDeal: Uuid)
      returns (handled: Result<HandledListing, Failure>, ghost assessed: State)
      requires Valid() && At(server.state, server.me, FindListing)
      requires server.state.txns[server.me].payload.Discovered?
      requires server.state.txns[server.me].payload.product.price > 0 && server.state.txns[server.me].newDeal.None?
      modifies server
      ensures Valid() && server.me in server.state.txns
      ensures SameEvent(old(server.state.txns[server.me]), server.state.txns[server.me])
      ensures handled.Raise? ==> RaisedRightly(server.state, server.me, drawnListing, drawnDeal, handled.error)
      ensures Bounded(config) ==> handled != Raise(PublishFailed)
      ensures Reaches(ANYTHING, old(server.state), assessed) && Reaches(ANYTHING, assessed, server.state)
      ensures handled.Ok? ==>
                var t := server.state.txns[server.me];
                && t.phase == Mark && t.listing == Some(handled.value.listing)
                && t.scored == handled.value.scored && (t.scored.Some? <==> handled.value.deal.Some?)
                && t.newDeal == (if handled.value.published then handled.value.deal else None)
                && ScoredAt(assessed, server.me, t, tier, config, handled.value.scored)
                && (t.newDeal.Some? ==> AnnouncedOnce(server.state.bus, t.newDeal.value, t.scored.value))
                && (t.scored.Some? && t.newDeal.None? ==>
                      var d := handled.value.deal.value;
                      && IsOpen(server.state.deals, d, t.scored.value.listing)
                      && AnnouncedOnce(server.state.bus, d, server.state.deals[d].facts))
    {
      var listing, scored := ScoreListing(tier, drawnListing);
      assessed := server.state;
      Starts(ANYTHING, assessed);
      if listing.Raise? {
        return Raise(listing.error), assessed;
      }
      if scored.None? {
        return Ok(HandledListing(listing.value, None, None, false)), assessed;
      }
      var result := WriteAndAnnounce(drawnDeal);
      if result.Raise? {
        return Raise(result.error), assessed;
      }
      StillScored(assessed, server.me, server.state.txns[server.me], tier, config, scored);
      return Ok(HandledListing(listing.value, scored, Some(result.value.deal), result.value.created)), assessed;
    }

    /** `datetime.now` against the row just read: what the tap will write, if anything. */
    method ReadClock() returns (now: int)
      requires Valid() && At(server.state, server.me, Decide) && server.state.txns[server.me].row.Some?
      modifies server
      ensures Reaches(ANYTHING, old(server.state), server.state)
      ensures old(server.state.now) <= now == server.state.now
      ensures Valid() && server.me in server.state.txns
      ensures var t := old(server.state.txns[server.me]);
              var write := TapDecision(t.row.value, now);
              server.state.txns[server.me]
                == t.(phase := if write.Some? then WriteStatus else Mark, write := write, decidedAt := now)
    {
      var ran, seen := server.Execute(Tapping(server.me, Deciding));
      now := server.state.txns[server.me].decidedAt;
    }

    /** Apply DEAL_SENT -> INTERESTED, or reject the tap; the locked row cannot vanish. */
    method HandleUserInterested() returns (handled: Result<HandledInterest, Failure>)
      requires Valid() && At(server.state, server.me, LockDeal)
      requires server.state.txns[server.me].payload.Tapped? && server.state.txns[server.me].write.None?
      modifies server
      ensures Valid() && server.me in server.state.txns
      ensures SameEvent(old(server.state.txns[server.me]), server.state.txns[server.me])
      ensures Reaches(ANYTHING, old(server.state), server.state)
      ensures handled.Raise? ==> handled.error == Blocked && Waits(server.state, server.me, 0, 0)
      ensures handled.Raise? ==> server.state.txns[server.me].phase == LockDeal
      ensures handled.Ok? ==>
                var t := server.state.txns[server.me];
                && t.phase == Mark
                && (handled.value == None <==> t.write == Some(Interested))
                && (handled.value == Some(NoSuchDeal) <==> t.row.None?)
                && (t.row.Some? ==>
                      var row := t.row.value;
                      var late := row.status == Expired || row.facts.expiresAt <= t.decidedAt;
                      && old(server.state.now) <= t.decidedAt <= server.state.now
                      && (handled.value == Some(TapExpired) <==> late)
                      && (handled.value == Some(AlreadyInterested) <==> !late && row.status == Interested)
                      && (handled.value == None <==> !late && row.status == DealSent)
                      && (t.write == Some(Expired) <==> late && row.status != Expired))
    {
      var deal := deals.GetById();
      if deal.Raise? {
        return Raise(deal.error);
      }
      if deal.value.None? {
        return Ok(Some(NoSuchDeal));
      }
      var row := deal.value.value;
      ghost var locked := server.state;
      var now := ReadClock();
      Chains(ANYTHING, old(server.state), locked, server.state);
      ghost var decided := server.state;
      if row.status == Expired {
        return Ok(Some(TapExpired));
      }
      if row.facts.expiresAt <= now {
        var updated := deals.UpdateStatus();
        Chains(ANYTHING, old(server.state), decided, server.state);
        return Ok(Some(TapExpired));
      }
      if row.status == Interested {
        return Ok(Some(AlreadyInterested));
      }
      if row.status != DealSent {
        return Ok(Some(WrongStatus));
      }
      var updated := deals.UpdateStatus();
      Chains(ANYTHING, old(server.state), decided, server.state);
      if !updated {
        return Raise(DealVanished);
      }
      return Ok(None);
    }

    // ---- The transaction envelope ------------------------------------------------------

    /** `conn.rollback()`, and the exception on its way out: what was committed is not acknowledged. */
    method Rollback()
      requires Valid() && (server.me in server.state.txns || server.me in server.state.done)
      modifies server
      ensures Reaches(ANYTHING, old(server.state), server.state)
      ensures Valid() && server.me !in server.state.txns && server.me !in server.state.done
    {
      var ran, seen := server.Execute(Enveloping(server.me, Aborting));
    }

    /**
      * `mark_processed`, its result ignored, and the commit, which may raise: with the
      * transaction still open, or with all of it committed.
      */
    method MarkAndCommit(reply: CommitReply) returns (failure: Option<Failure>)
      requires Valid() && At(server.state, server.me, Mark)
      modifies server
      ensures Reaches(ANYTHING, old(server.state), server.state)
      ensures Valid() && (failure.Some? ==> failure.value in {Blocked, CommitFailed})
      ensures failure == Some(Blocked) ==> At(server.state, server.me, Mark) && Waits(server.state, server.me, 0, 0)
      ensures failure != Some(Blocked) ==> (failure == Some(CommitFailed) <==> !reply.Done?)
      ensures var committed :=
                server.me in server.state.done
                && server.state.done[server.me] == old(server.state.txns[server.me]).entry;
              && (failure.None? ==> committed)
              && (failure == Some(CommitFailed) ==> if reply.ConnectionLost? then committed
                                                    else At(server.state, server.me, Commit))
    {
      var marked, seen := server.Execute(Enveloping(server.me, Marking));
      if !marked {
        return Some(Blocked);
      }
      if reply.Refused? {
        return Some(CommitFailed);
      }
      ghost var before := server.state;
      var committed, seen' := server.Execute(Enveloping(server.me, Committing));
      Chains(ANYTHING, old(server.state), before, server.state);
      return if reply.ConnectionLost? then Some(CommitFailed) else None;
    }

    /** `process_once` around the event's handler: `None` for a duplicate. */
    method Dispatch(tier: Option<S.BrandTier>, drawnListing: Uuid, drawnDeal: Uuid) returns (failure: Option<Failure>)
      requires Valid() && server.me in server.state.txns && JustOpened(server.state.txns[server.me])
      modifies server
      ensures Reaches(ANYTHING, old(server.state), server.state)
      ensures Valid() && server.me in server.state.txns
      ensures SameEvent(old(server.state.txns[server.me]), server.state.txns[server.me])
      ensures failure.None? ==> At(server.state, server.me, Mark)
      ensures failure.Some? ==> RaisedRightly(server.state, server.me, drawnListing, drawnDeal, failure.value)
      ensures Bounded(config) ==> failure != Some(PublishFailed)
    {
      StartsValid(server.state, server.me);
      if server.state.txns[server.me].payload.Discovered? {
        var handled, assessed := HandleListingDiscovered(tier, drawnListing, drawnDeal);
        Chains(ANYTHING, old(server.state), assessed, server.state);
        return if handled.Raise? then Some(handled.error) else None;
      } else {
        var handled := HandleUserInterested();
        return if handled.Raise? then Some(handled.error) else None;
      }
    }

    /** The body of the `try`: dedup, handler, mark, commit. */
    method Attempt(e: nat, tier: Option<S.BrandTier>, drawnListing: Uuid, drawnDeal: Uuid, reply: CommitReply)
      returns (failure: Option<Failure>)
      requires Valid() && server.me !in server.state.txns && server.me !in server.state.done
      modifies server
      ensures Reaches(ANYTHING, old(server.state), server.state)
      ensures Valid()
      ensures failure.None? ==> reply.Done? && server.me in server.state.done && server.state.done[server.me] == e
      ensures failure.Some? ==> FailedRightly(server.state, server.me, e, drawnListing, drawnDeal, reply, failure.value)
      ensures Bounded(config) ==> failure != Some(PublishFailed)
    {
      var begun, seen := server.Execute(Enveloping(server.me, Beginning(e)));
      if !begun {
        return Some(NotDelivered);
      }
      if server.me in server.state.txns {
        ghost var begunAt := server.state;
        failure := Dispatch(tier, drawnListing, drawnDeal);
        Chains(ANYTHING, old(server.state), begunAt, server.state);
        if failure.None? {
          ghost var handled := server.state;
          failure := MarkAndCommit(reply);
          Chains(ANYTHING, old(server.state), handled, server.state);
        }
        return;
      }
      return if reply.Done? then None else Some(CommitFailed);
    }

    /**
      * Run one event's handler in one transaction, marking it processed on success.  On
      * success the event's mark is committed, by this transaction or an earlier one; on any
      * exception no transaction is left open and nothing is left to acknowledge.  It raises
      * only for a cause that stood in the way where it stopped, and so succeeds if there is none.
      */
    method HandleEvent(e: nat, tier: Option<S.BrandTier>, drawnListing: Uuid, drawnDeal: Uuid, reply: CommitReply)
      returns (failure: Option<Failure>, ghost stopped: State)
      requires Valid() && server.me !in server.state.txns && server.me !in server.state.done
      modifies server
      ensures Reaches(ANYTHING, old(server.state), stopped) && Reaches(ANYTHING, stopped, server.state)
      ensures Valid() && OneOpen(server.state.deals)
      ensures failure.None? ==> reply.Done? && Finished(server.state, server.me, e)
      ensures failure.Some? ==>
                && server.me !in server.state.txns && server.me !in server.state.done
                && FailedRightly(stopped, server.me, e, drawnListing, drawnDeal, reply, failure.value)
      ensures Bounded(config) ==> failure != Some(PublishFailed)
    {
      failure := Attempt(e, tier, drawnListing, drawnDeal, reply);
      stopped := server.state;
      Starts(ANYTHING, stopped);
      if failure.Some? && (server.me in server.state.txns || server.me in server.state.done) {
        Rollback();
      }
      HandledSafely(server.state, server.me);
    }
  }

  /** Why an attempt at entry `e` ended with an exception, in the state where it did. */
  predicate FailedRightly(
    s: State, w: Worker, e: nat, drawnListing: Uuid, drawnDeal: Uuid, reply: CommitReply, failure: Failure)
  {
    match failure
    case NotDelivered => NotOffered(s, e)
    case CommitFailed => !reply.Done?
    case _ => RaisedRightly(s, w, drawnListing, drawnDeal, failure)
  }

  predicate JustOpened(t: Txn) {
    && t.newDeal.None? && t.write.None?
    && match t.payload
       case Discovered(_) => t.phase == FindListing
       case Tapped(_) => t.phase == LockDeal
       case Unhandled => false
  }

  ghost predicate Finished(s: State, w: Worker, e: nat) {
    w in s.done && s.done[w] == e && Handled(s.entries, e, s.marked)
  }

  lemma StartsValid(s: State, w: Worker)
    requires Reaches(ANYTHING, Init(AS_WRITTEN), s) && w in s.txns
    ensures SchemaValid(s.txns[w].payload)
  {
    ReachedInv(s);
    assert TxnOk(s, w, s.txns[w]);
  }

  lemma HandledSafely(s: State, w: Worker)
    requires Reaches(ANYTHING, Init(AS_WRITTEN), s)
    ensures OneOpen(s.deals) && (w in s.done ==> Handled(s.entries, s.done[w], s.marked))
  {
    ReachedInv(s);
  }
}
