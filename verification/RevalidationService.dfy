/**
  * The Revalidation Service: one process consuming DEAL_SCORED and DEAL_REVALIDATION_REQUEST,
  * answering with DEAL_REVALIDATED, or with silence.
  *
  * The first half specifies one delivery as a function of the state and of what the outside
  * world does; the second half is the service itself, object by object, proved to be it.
  */
module RevalidationService {
  import opened Prelude
  import opened DealReferenceStore
  import opened RevalidationRules

  // ---- Messages ------------------------------------------------------------------------

  datatype Request = Request(deal: Uuid, listing: Uuid, correlation: Uuid)

  datatype Payload = Scored(ref: DealReference) | Requested(request: Request) | Other

  datatype Event = Event(id: Uuid, payload: Payload)

  datatype RevalidationResult =
    RevalidationResult(deal: Uuid, listing: Uuid, currentPrice: int, inStock: bool, changed: bool, checkedAt: int)

  /** A DEAL_REVALIDATED on the bus. */
  datatype Answer = Answer(result: RevalidationResult, correlation: Uuid)

  datatype Snapshot = Snapshot(currentPrice: int, inStock: bool, observedAt: int)

  datatype RevalidateError = BudgetExceeded | ListingUnreadable | CorruptReference(price: int)

  datatype HandlerError =
    | NoHandler | WrongCorrelation | UnknownDeal | WrongListing | NonPositiveDetectedPrice(price: int)
    | PublishFailed | CommitFailed

  datatype Outcome = Skipped | Recorded | Answered(answer: Answer) | Silent | Raised(error: HandlerError)

  // ---- The outside world ---------------------------------------------------------------

  const REVALIDATION_TIMEOUT_SECONDS: int := 30

  /** `Config.timeout_budget_seconds`: the environment may lower the budget, never raise it. */
  function ConfiguredBudget(requested: Option<int>): (budget: int)
    ensures budget <= REVALIDATION_TIMEOUT_SECONDS
    ensures requested.Some? && requested.value <= REVALIDATION_TIMEOUT_SECONDS ==> budget == requested.value
    ensures requested.None? || requested.value >= REVALIDATION_TIMEOUT_SECONDS ==>
              budget == REVALIDATION_TIMEOUT_SECONDS
  {
    if requested.Some? && requested.value < REVALIDATION_TIMEOUT_SECONDS then requested.value
    else REVALIDATION_TIMEOUT_SECONDS
  }

  /** Everything the service does not decide: successive clock readings, live reads, failures. */
  datatype World = World(
    reading: nat -> real,
    observed: nat -> Result<Snapshot, ()>,
    publishes: nat -> bool,
    commits: nat -> bool)

  ghost predicate Monotonic(reading: nat -> real) {
    forall i, j :: i <= j ==> reading(i) <= reading(j)
  }

  /** How far the service has consumed the world's answers. */
  datatype Used = Used(samples: nat, listings: seq<Uuid>, attempts: nat, commits: nat)

  datatype State = State(
    up: bool,
    recorded: seq<DealReference>,
    marks: set<Uuid>,
    bus: seq<Answer>,
    used: Used)

  datatype Setting = Setting(world: World, budget: int, maxDeals: nat)

  function Boot(): State { State(true, [], {}, [], Used(0, [], 0, 0)) }

  // ---- One delivery, specified ---------------------------------------------------------

  predicate Expired(world: World, budget: int, start: nat, sample: nat) {
    world.reading(sample) - world.reading(start) >= budget as real
  }

  /** `revalidate`, for a budget whose clock started at sample `start`, the last one taken. */
  function RevalidateSpec(world: World, budget: int, start: nat, read: nat, deal: Uuid, listing: Uuid, detected: int)
    : Result<RevalidationResult, RevalidateError>
  {
    if Expired(world, budget, start, start + 1) then Raise(BudgetExceeded)
    else if world.observed(read).Raise? then Raise(ListingUnreadable)
    else if Expired(world, budget, start, start + 2) then Raise(BudgetExceeded)
    else
      var seen := world.observed(read).value;
      var changed := RevalidationChanged(detected, seen.currentPrice, seen.inStock, None);
      if changed.Raise? then Raise(CorruptReference(changed.error.price))
      else Ok(RevalidationResult(deal, listing, seen.currentPrice, seen.inStock, changed.value, seen.observedAt))
  }

  /** Clock samples and reads `revalidate` uses: the error message samples the clock once more. */
  function RevalidateUses(world: World, budget: int, start: nat, used: Used, listing: Uuid): Used {
    if Expired(world, budget, start, start + 1) then used.(samples := start + 3)
    else
      used.(listings := used.listings + [listing],
            samples := if world.observed(|used.listings|).Raise? then start + 2
                       else if Expired(world, budget, start, start + 2) then start + 4 else start + 3)
  }

  /** Why a request is refused before any clock check, if it is. */
  function Refusal(ref: Option<DealReference>, r: Request): Option<HandlerError> {
    if r.correlation != r.deal then Some(WrongCorrelation)
    else if ref.None? then Some(UnknownDeal)
    else if ref.value.listing != r.listing then Some(WrongListing)
    else None
  }

  /** What follows `revalidate`: one more look at the clock, then the publish. */
  function Conclusion(setting: Setting, used: Used, r: Request, result: Result<RevalidationResult, RevalidateError>)
    : Outcome
  {
    if result.Raise? then
      if result.error.CorruptReference? then Raised(NonPositiveDetectedPrice(result.error.price)) else Silent
    else if Expired(setting.world, setting.budget, used.samples, used.samples + 3) then Silent
    else if !setting.world.publishes(used.attempts) then Raised(PublishFailed)
    else Answered(Answer(result.value, r.correlation))
  }

  function ConclusionUses(setting: Setting, used: Used, after: Used,
                          result: Result<RevalidationResult, RevalidateError>): Used
  {
    if result.Raise? then after
    else if Expired(setting.world, setting.budget, used.samples, used.samples + 3) then
      after.(samples := used.samples + 4)
    else
      after.(samples := used.samples + if setting.world.publishes(used.attempts) then 5 else 4,
             attempts := after.attempts + 1)
  }

  function Revalidated(setting: Setting, detected: int, used: Used, r: Request)
    : Result<RevalidationResult, RevalidateError>
  {
    RevalidateSpec(setting.world, setting.budget, used.samples, |used.listings|, r.deal, r.listing, detected)
  }

  function RequestOutcome(setting: Setting, ref: Option<DealReference>, used: Used, r: Request): Outcome {
    var refusal := Refusal(ref, r);
    if refusal.Some? then Raised(refusal.value)
    else Conclusion(setting, used, r, Revalidated(setting, ref.value.detectedPrice, used, r))
  }

  function RequestUses(setting: Setting, ref: Option<DealReference>, used: Used, r: Request): Used {
    if Refusal(ref, r).Some? then used.(samples := used.samples + 1)
    else
      ConclusionUses(setting, used, RevalidateUses(setting.world, setting.budget, used.samples, used, r.listing),
                     Revalidated(setting, ref.value.detectedPrice, used, r))
  }

  function Reference(setting: Setting, s: State, deal: Uuid): Option<DealReference> {
    Remembered(s.recorded, deal, setting.maxDeals)
  }

  /** What the handler registered for the event's type does, before the mark. */
  function HandlerOutcome(setting: Setting, s: State, e: Event): Outcome {
    match e.payload
    case Scored(_) => Recorded
    case Requested(r) => RequestOutcome(setting, Reference(setting, s, r.deal), s.used, r)
    case Other => Raised(NoHandler)
  }

  function Handled(setting: Setting, s: State, e: Event): State {
    var outcome := HandlerOutcome(setting, s, e);
    s.(recorded := if e.payload.Scored? then s.recorded + [e.payload.ref] else s.recorded,
       bus := if outcome.Answered? then s.bus + [outcome.answer] else s.bus,
       used := if e.payload.Requested?
               then RequestUses(setting, Reference(setting, s, e.payload.request.deal), s.used, e.payload.request)
               else s.used)
  }

  predicate Duplicate(s: State, e: Event) { !e.payload.Other? && e.id in s.marks }

  /** `handle_event`: dedup, handler, mark, commit.  What was published stays published. */
  function DeliveryOutcome(setting: Setting, s: State, e: Event): Outcome {
    var outcome := if Duplicate(s, e) then Skipped else HandlerOutcome(setting, s, e);
    if outcome.Raised? || setting.world.commits(s.used.commits) then outcome else Raised(CommitFailed)
  }

  /** An exception leaves `run`, and with it the process. */
  function Delivered(setting: Setting, s: State, e: Event): State {
    var outcome := DeliveryOutcome(setting, s, e);
    var h := if Duplicate(s, e) then s else Handled(setting, s, e);
    var committing := Duplicate(s, e) || !HandlerOutcome(setting, s, e).Raised?;
    h.(up := !outcome.Raised?,
       marks := if outcome.Raised? then s.marks else s.marks + {e.id},
       used := if committing then h.used.(commits := h.used.commits + 1) else h.used)
  }

  // ---- Runs ----------------------------------------------------------------------------

  datatype Input = Delivery(event: Event) | Restart | Purge(events: set<Uuid>)

  predicate Enabled(s: State, input: Input) { input.Delivery? ==> s.up }

  /** A restart keeps the bus, the group and the marks, and starts with an empty store. */
  function Apply(setting: Setting, s: State, input: Input): State {
    match input
    case Delivery(e) => Delivered(setting, s, e)
    case Restart => s.(up := true, recorded := [])
    case Purge(events) => s.(marks := s.marks - events)
  }

  function After(setting: Setting, run: seq<Input>): State {
    if run == [] then Boot() else Apply(setting, After(setting, run[..|run| - 1]), run[|run| - 1])
  }

  predicate Legal(setting: Setting, run: seq<Input>) {
    run == [] || (Legal(setting, run[..|run| - 1]) && Enabled(After(setting, run[..|run| - 1]), run[|run| - 1]))
  }

  // ---- What one request gets -----------------------------------------------------------

  predicate InTime(setting: Setting, s: State, check: nat) {
    !Expired(setting.world, setting.budget, s.used.samples, s.used.samples + check)
  }

  /** The deal was recorded by this process, for this listing, and not yet evicted. */
  predicate Known(setting: Setting, s: State, r: Request, ref: DealReference) {
    && r.correlation == r.deal && ref.listing == r.listing
    && LastRecordOf(s.recorded, r.deal) == Some(ref) && |RecordedSince(s.recorded, r.deal)| < setting.maxDeals
  }

  /** Everything an answer claims, and everything that had to be true to send it. */
  predicate Justifies(setting: Setting, s: State, r: Request, ref: DealReference, a: Answer) {
    && Known(setting, s, r, ref)
    && a.correlation == a.result.deal == r.deal && a.result.listing == r.listing
    && setting.world.observed(|s.used.listings|)
         == Ok(Snapshot(a.result.currentPrice, a.result.inStock, a.result.checkedAt))
    && RevalidationChanged(ref.detectedPrice, a.result.currentPrice, a.result.inStock, None) == Ok(a.result.changed)
    && InTime(setting, s, 1) && InTime(setting, s, 2) && InTime(setting, s, 3)
    && setting.world.publishes(s.used.attempts)
  }

  lemma KnownMeaning(setting: Setting, s: State, r: Request)
    ensures var ref := Reference(setting, s, r.deal);
            if Refusal(ref, r).None? then Known(setting, s, r, ref.value)
            else forall known :: !Known(setting, s, r, known)
    ensures forall ref :: Known(setting, s, r, ref) ==> Reference(setting, s, r.deal) == Some(ref)
  {
  }

  /** A request is answered exactly when some reference justifies the answer. */
  lemma AnsweredMeaning(setting: Setting, s: State, r: Request, a: Answer)
    ensures RequestOutcome(setting, Reference(setting, s, r.deal), s.used, r) == Answered(a)
       <==> exists ref :: Justifies(setting, s, r, ref, a)
  {
    KnownMeaning(setting, s, r);
    var ref := Reference(setting, s, r.deal);
    if Refusal(ref, r).None? {
      AnsweredFor(setting, s, r, ref.value, a);
    }
  }

  lemma AnsweredFor(setting: Setting, s: State, r: Request, ref: DealReference, a: Answer)
    requires Known(setting, s, r, ref)
    ensures RequestOutcome(setting, Some(ref), s.used, r) == Answered(a) <==> Justifies(setting, s, r, ref, a)
  {
  }

  /** The guard's ValueError: exactly an in-stock, in-time read against a non-positive price. */
  lemma CorruptReferenceMeaning(setting: Setting, s: State, r: Request, price: int)
    ensures RequestOutcome(setting, Reference(setting, s, r.deal), s.used, r) == Raised(NonPositiveDetectedPrice(price))
       <==> exists ref :: Known(setting, s, r, ref) && ReadsCorrupt(setting, s, ref, price)
  {
    KnownMeaning(setting, s, r);
    var ref := Reference(setting, s, r.deal);
    if Refusal(ref, r).None? {
      CorruptFor(setting, s, r, ref.value, price);
    }
  }

  predicate ReadsCorrupt(setting: Setting, s: State, ref: DealReference, price: int) {
    var seen := setting.world.observed(|s.used.listings|);
    && ref.detectedPrice == price <= 0 && InTime(setting, s, 1) && InTime(setting, s, 2)
    && seen.Ok? && seen.value.inStock
  }

  lemma CorruptFor(setting: Setting, s: State, r: Request, ref: DealReference, price: int)
    requires Refusal(Some(ref), r).None?
    ensures RequestOutcome(setting, Some(ref), s.used, r) == Raised(NonPositiveDetectedPrice(price))
       <==> ReadsCorrupt(setting, s, ref, price)
  {
  }

  /** The verdict itself raises nothing: out of stock, or a positive price to measure against. */
  predicate Measurable(ref: DealReference, seen: Snapshot) { !seen.inStock || ref.detectedPrice > 0 }

  /**
    * Why a known deal's request ends without an answer and without an exception: the window is
    * closed before the read, the listing cannot be read, or the window is closed behind the read
    * or behind a verdict.
    */
  predicate StaysSilent(setting: Setting, s: State, ref: DealReference) {
    var seen := setting.world.observed(|s.used.listings|);
    || !InTime(setting, s, 1)
    || seen.Raise?
    || !InTime(setting, s, 2)
    || (Measurable(ref, seen.value) && !InTime(setting, s, 3))
  }

  /** Everything is as it should be, and then the bus refuses the answer. */
  predicate PublishRefused(setting: Setting, s: State, ref: DealReference) {
    var seen := setting.world.observed(|s.used.listings|);
    && InTime(setting, s, 1) && InTime(setting, s, 2) && InTime(setting, s, 3)
    && seen.Ok? && Measurable(ref, seen.value) && !setting.world.publishes(s.used.attempts)
  }

  /** The reference the store still has for a deal: its last record, unless as many deals came since as it keeps. */
  predicate Remembers(setting: Setting, s: State, deal: Uuid, ref: DealReference) {
    LastRecordOf(s.recorded, deal) == Some(ref) && |RecordedSince(s.recorded, deal)| < setting.maxDeals
  }

  lemma SilentFor(setting: Setting, s: State, r: Request, ref: DealReference)
    requires Refusal(Some(ref), r).None?
    ensures RequestOutcome(setting, Some(ref), s.used, r) == Silent <==> StaysSilent(setting, s, ref)
    ensures RequestOutcome(setting, Some(ref), s.used, r) == Raised(PublishFailed) <==> PublishRefused(setting, s, ref)
  {
    if setting.world.observed(|s.used.listings|).Ok? {
      var seen := setting.world.observed(|s.used.listings|).value;
      ChangedMeaning(ref.detectedPrice, seen.currentPrice, seen.inStock);
    }
  }

  /** The two outcomes of a known deal's request that are neither an answer nor the ValueError. */
  lemma SilentMeaning(setting: Setting, s: State, r: Request)
    ensures var outcome := RequestOutcome(setting, Reference(setting, s, r.deal), s.used, r);
            && (outcome == Silent <==> exists ref :: Known(setting, s, r, ref) && StaysSilent(setting, s, ref))
            && (outcome == Raised(PublishFailed) <==>
                exists ref :: Known(setting, s, r, ref) && PublishRefused(setting, s, ref))
  {
    KnownMeaning(setting, s, r);
    var ref := Reference(setting, s, r.deal);
    if Refusal(ref, r).None? {
      SilentFor(setting, s, r, ref.value);
    }
  }

  /** The three refusals, in the order the handler makes them, and that there is no other exception. */
  lemma RefusalMeaning(setting: Setting, s: State, r: Request)
    ensures var outcome := RequestOutcome(setting, Reference(setting, s, r.deal), s.used, r);
            && (outcome == Raised(WrongCorrelation) <==> r.correlation != r.deal)
            && (outcome == Raised(UnknownDeal) <==>
                r.correlation == r.deal && forall ref :: !Remembers(setting, s, r.deal, ref))
            && (outcome == Raised(WrongListing) <==>
                && r.correlation == r.deal
                && exists ref :: Remembers(setting, s, r.deal, ref) && ref.listing != r.listing)
            && outcome !in {Raised(NoHandler), Raised(CommitFailed), Skipped, Recorded}
  {
    var ref := Reference(setting, s, r.deal);
    assert ref.Some? ==> Remembers(setting, s, r.deal, ref.value);
    assert forall known :: Remembers(setting, s, r.deal, known) ==> ref == Some(known);
  }

  /** A request that raises, and so takes the process down. */
  ghost predicate RequestRaises(setting: Setting, s: State, r: Request) {
    || (forall ref :: !Known(setting, s, r, ref))
    || exists ref :: Known(setting, s, r, ref)
                     && (PublishRefused(setting, s, ref) || ReadsCorrupt(setting, s, ref, ref.detectedPrice))
  }

  lemma RaisesMeaning(setting: Setting, s: State, r: Request)
    ensures RequestOutcome(setting, Reference(setting, s, r.deal), s.used, r).Raised? <==> RequestRaises(setting, s, r)
  {
    KnownMeaning(setting, s, r);
    var ref := Reference(setting, s, r.deal);
    if Refusal(ref, r).None? {
      RaisesFor(setting, s, r, ref.value);
    }
  }

  lemma RaisesFor(setting: Setting, s: State, r: Request, ref: DealReference)
    requires Refusal(Some(ref), r).None?
    ensures RequestOutcome(setting, Some(ref), s.used, r).Raised? <==>
            PublishRefused(setting, s, ref) || ReadsCorrupt(setting, s, ref, ref.detectedPrice)
  {
    SilentFor(setting, s, r, ref);
    CorruptFor(setting, s, r, ref, ref.detectedPrice);
    if setting.world.observed(|s.used.listings|).Ok? {
      var seen := setting.world.observed(|s.used.listings|).value;
      ChangedMeaning(ref.detectedPrice, seen.currentPrice, seen.inStock);
    }
  }

  /** The listing is read at most once, and only for a known deal still inside its window. */
  lemma ReadOnlyInTime(setting: Setting, s: State, r: Request)
    ensures RequestUses(setting, Reference(setting, s, r.deal), s.used, r).listings
         == if (exists ref :: Known(setting, s, r, ref)) && InTime(setting, s, 1)
            then s.used.listings + [r.listing] else s.used.listings
  {
    KnownMeaning(setting, s, r);
  }

  /** On a monotonic clock the last check implies the others: one inequality covers the delivery. */
  lemma AnsweredWithinThirtySeconds(setting: Setting, s: State, r: Request, ref: DealReference, a: Answer)
    requires Justifies(setting, s, r, ref, a) && Monotonic(setting.world.reading)
    requires setting.budget <= REVALIDATION_TIMEOUT_SECONDS
    ensures forall i :: s.used.samples <= i <= s.used.samples + 3 ==>
              0.0 <= setting.world.reading(i) - setting.world.reading(s.used.samples) < 30.0
  {
  }

  /** The published verdict is the 2% rule, in integers. */
  lemma AnswerIsTheRule(setting: Setting, s: State, r: Request, ref: DealReference, a: Answer)
    requires Justifies(setting, s, r, ref, a) && 0 < ref.detectedPrice < EXACT_BELOW
    ensures a.result.changed <==>
            !a.result.inStock || 50 * Abs(a.result.currentPrice - ref.detectedPrice) > ref.detectedPrice
  {
    ChangedMeaning(ref.detectedPrice, a.result.currentPrice, a.result.inStock);
  }

  // ---- Over every run ------------------------------------------------------------------

  /** Delivery `j` recorded `ref`: a DEAL_SCORED that was not skipped as a duplicate. */
  predicate Records(setting: Setting, run: seq<Input>, j: nat, ref: DealReference)
    requires j < |run|
  {
    && run[j].Delivery? && run[j].event.payload == Scored(ref)
    && run[j].event.id !in After(setting, run[..j]).marks
  }

  predicate RecordsDeal(setting: Setting, run: seq<Input>, j: nat, deal: Uuid)
    requires j < |run|
  {
    && run[j].Delivery? && run[j].event.payload.Scored? && run[j].event.payload.ref.deal == deal
    && Records(setting, run, j, run[j].event.payload.ref)
  }

  predicate NoRestart(run: seq<Input>, first: nat, last: nat) {
    forall m :: first <= m < last && m < |run| ==> !run[m].Restart?
  }

  ghost predicate RecordedHere(setting: Setting, run: seq<Input>, ref: DealReference) {
    exists j :: 0 <= j < |run| && Records(setting, run, j, ref) && NoRestart(run, j, |run|)
  }

  lemma RecordsExtends(setting: Setting, run: seq<Input>, input: Input, j: nat, ref: DealReference)
    requires j < |run|
    ensures Records(setting, run + [input], j, ref) <==> Records(setting, run, j, ref)
  {
    assert (run + [input])[..j] == run[..j];
  }

  lemma RecordsLast(setting: Setting, run: seq<Input>, input: Input, ref: DealReference)
    ensures Records(setting, run + [input], |run|, ref) <==>
            input.Delivery? && input.event.payload == Scored(ref) && input.event.id !in After(setting, run).marks
  {
    assert (run + [input])[..|run|] == run;
  }

  /** The store holds nothing but what this process was delivered, unmarked, since it started. */
  lemma {:induction false} RecordedInThisProcess(setting: Setting, run: seq<Input>)
    ensures forall i :: 0 <= i < |After(setting, run).recorded| ==>
              RecordedHere(setting, run, After(setting, run).recorded[i])
  {
    if run != [] {
      var before, input := run[..|run| - 1], run[|run| - 1];
      RecordedInThisProcess(setting, before);
      var s, s' := After(setting, before), After(setting, run);
      assert run == before + [input];
      forall i | 0 <= i < |s'.recorded|
        ensures RecordedHere(setting, run, s'.recorded[i])
      {
        if i < |s.recorded| {
          var j :| 0 <= j < |before| && Records(setting, before, j, s.recorded[i]) && NoRestart(before, j, |before|);
          RecordsExtends(setting, before, input, j, s.recorded[i]);
        } else {
          RecordsLast(setting, before, input, s'.recorded[i]);
        }
      }
    }
  }

  /** Delivery `j` is the last one that recorded the deal of `ref`, in the process that now runs. */
  predicate LatestRecord(setting: Setting, run: seq<Input>, j: nat, ref: DealReference)
    requires j < |run|
  {
    && Records(setting, run, j, ref) && NoRestart(run, j, |run|)
    && forall k :: j < k < |run| ==> !RecordsDeal(setting, run, k, ref.deal)
  }

  ghost predicate HasLatest(setting: Setting, run: seq<Input>, ref: DealReference) {
    exists j :: 0 <= j < |run| && LatestRecord(setting, run, j, ref)
  }

  lemma LatestExtends(setting: Setting, run: seq<Input>, input: Input, j: nat, ref: DealReference)
    requires j < |run|
    ensures LatestRecord(setting, run + [input], j, ref) <==>
            && LatestRecord(setting, run, j, ref) && !input.Restart?
            && !RecordsDeal(setting, run + [input], |run|, ref.deal)
  {
    var longer := run + [input];
    RecordsExtends(setting, run, input, j, ref);
    forall k | 0 <= k < |run|
      ensures RecordsDeal(setting, longer, k, ref.deal) <==> RecordsDeal(setting, run, k, ref.deal)
    {
      if run[k].Delivery? && run[k].event.payload.Scored? {
        RecordsExtends(setting, run, input, k, run[k].event.payload.ref);
      }
    }
    assert forall k :: 0 <= k < |run| ==> longer[k] == run[k];
    assert longer[|run|] == input;
  }

  lemma HasLatestExtends(setting: Setting, run: seq<Input>, input: Input, ref: DealReference)
    ensures HasLatest(setting, run + [input], ref) <==>
            || Records(setting, run + [input], |run|, ref)
            || (HasLatest(setting, run, ref) && !input.Restart?
                && !RecordsDeal(setting, run + [input], |run|, ref.deal))
  {
    var longer := run + [input];
    if HasLatest(setting, longer, ref) {
      var j :| 0 <= j < |longer| && LatestRecord(setting, longer, j, ref);
      if j < |run| {
        LatestExtends(setting, run, input, j, ref);
      }
    }
    if HasLatest(setting, run, ref) {
      var j :| 0 <= j < |run| && LatestRecord(setting, run, j, ref);
      LatestExtends(setting, run, input, j, ref);
    }
    if Records(setting, longer, |run|, ref) {
      assert LatestRecord(setting, longer, |run|, ref);
    }
  }

  lemma LastRecordSnoc(history: seq<DealReference>, ref: DealReference, deal: Uuid)
    ensures LastRecordOf(history + [ref], deal) == if ref.deal == deal then Some(ref) else LastRecordOf(history, deal)
  {
    assert (history + [ref])[..|history|] == history;
  }

  /**
    * What the projection knows, in every run: of each deal exactly what the last delivery
    * recorded that was not a duplicate, if the process has not restarted since.
    */
  lemma {:induction false} LatestIsKnown(setting: Setting, run: seq<Input>, ref: DealReference)
    ensures LastRecordOf(After(setting, run).recorded, ref.deal) == Some(ref) <==> HasLatest(setting, run, ref)
  {
    if run != [] {
      var before, input := run[..|run| - 1], run[|run| - 1];
      assert run == before + [input];
      LatestIsKnown(setting, before, ref);
      HasLatestExtends(setting, before, input, ref);
      RecordsLast(setting, before, input, ref);
      if input.Delivery? && input.event.payload.Scored? {
        RecordsLast(setting, before, input, input.event.payload.ref);
        LastRecordSnoc(After(setting, before).recorded, input.event.payload.ref, ref.deal);
      }
    }
  }

  lemma {:induction false} LastRecordIsInHistory(history: seq<DealReference>, deal: Uuid)
    ensures var last := LastRecordOf(history, deal); last.Some? ==> last.value in history && last.value.deal == deal
  {
    if history != [] {
      LastRecordIsInHistory(history[..|history| - 1], deal);
    }
  }

  /** Delivery `k` of the run sent `a`, measured against what delivery `j` recorded, the latest to do so. */
  ghost predicate Explains(setting: Setting, run: seq<Input>, j: nat, k: nat, a: Answer)
    requires j < k < |run|
  {
    && run[k].Delivery? && run[k].event.payload.Requested?
    && run[j].Delivery? && run[j].event.payload.Scored?
    && LatestRecord(setting, run[..k], j, run[j].event.payload.ref)
    && Justifies(setting, After(setting, run[..k]), run[k].event.payload.request, run[j].event.payload.ref, a)
  }

  /** Delivery `k` put the entry at position `i` on the bus, and no other entry. */
  predicate PublishesAt(setting: Setting, run: seq<Input>, k: nat, i: nat)
    requires k < |run|
  {
    |After(setting, run[..k]).bus| == i && |After(setting, run[..k + 1]).bus| == i + 1
  }

  ghost predicate Explained(setting: Setting, run: seq<Input>, i: nat, a: Answer) {
    exists j, k :: 0 <= j < k < |run| && Explains(setting, run, j, k, a) && PublishesAt(setting, run, k, i)
  }

  lemma ExplainedExtends(setting: Setting, run: seq<Input>, input: Input, i: nat, a: Answer)
    requires Explained(setting, run, i, a)
    ensures Explained(setting, run + [input], i, a)
  {
    var j, k :| 0 <= j < k < |run| && Explains(setting, run, j, k, a) && PublishesAt(setting, run, k, i);
    var longer := run + [input];
    assert longer[..k] == run[..k] && longer[..k + 1] == run[..k + 1];
    assert Explains(setting, longer, j, k, a) && PublishesAt(setting, longer, k, i);
  }

  lemma PublishedLast(setting: Setting, before: seq<Input>, e: Event, a: Answer)
    requires e.payload.Requested? && HandlerOutcome(setting, After(setting, before), e) == Answered(a)
    requires !Duplicate(After(setting, before), e)
    ensures PublishesAt(setting, before + [Delivery(e)], |before|, |After(setting, before).bus|)
  {
    var run := before + [Delivery(e)];
    assert run[..|before|] == before && run[..|before| + 1] == run && run[..|run| - 1] == before;
  }

  lemma AnswerIsExplained(setting: Setting, before: seq<Input>, e: Event, a: Answer)
    requires e.payload.Requested? && HandlerOutcome(setting, After(setting, before), e) == Answered(a)
    requires !Duplicate(After(setting, before), e)
    ensures Explained(setting, before + [Delivery(e)], |After(setting, before).bus|, a)
  {
    var s, r := After(setting, before), e.payload.request;
    AnsweredMeaning(setting, s, r, a);
    var ref :| Justifies(setting, s, r, ref, a);
    LastRecordIsInHistory(s.recorded, r.deal);
    LatestIsKnown(setting, before, ref);
    var j :| 0 <= j < |before| && LatestRecord(setting, before, j, ref);
    var run := before + [Delivery(e)];
    PublishedLast(setting, before, e, a);
    assert run[..|before|] == before;
    assert Explains(setting, run, j, |before|, a);
  }

  /** A step leaves the bus alone, or is a fresh request that adds its answer at the end. */
  lemma BusStep(setting: Setting, s: State, input: Input)
    ensures var s' := Apply(setting, s, input);
            || s'.bus == s.bus
            || (input.Delivery? && input.event.payload.Requested? && !Duplicate(s, input.event)
                && |s'.bus| == |s.bus| + 1 && s.bus == s'.bus[..|s.bus|]
                && HandlerOutcome(setting, s, input.event) == Answered(s'.bus[|s.bus|]))
  {
  }

  /**
    * Over every run, restarts and purges included: each DEAL_REVALIDATED was published by its
    * own delivery of a request, and says exactly what the guard says about the latest record
    * of its deal, made by an earlier delivery to the same process, with the same listing, that
    * was no duplicate.  Never a guess.
    */
  lemma {:induction false} EveryAnswerIsExplained(setting: Setting, run: seq<Input>, i: nat)
    requires i < |After(setting, run).bus|
    ensures Explained(setting, run, i, After(setting, run).bus[i])
  {
    if run != [] {
      var before, input := run[..|run| - 1], run[|run| - 1];
      assert run == before + [input];
      var s := After(setting, before);
      BusStep(setting, s, input);
      if i < |s.bus| {
        EveryAnswerIsExplained(setting, before, i);
        ExplainedExtends(setting, before, input, i, s.bus[i]);
      } else {
        AnswerIsExplained(setting, before, input.event, After(setting, run).bus[i]);
      }
    }
  }

  lemma {:induction false} BusGrows(setting: Setting, run: seq<Input>, k: nat, l: nat)
    requires k <= l <= |run|
    ensures |After(setting, run[..k]).bus| <= |After(setting, run[..l]).bus|
  {
    if k < l {
      BusGrows(setting, run, k, l - 1);
      assert run[..l][..l - 1] == run[..l - 1];
    }
  }

  /** Two answers on the bus come from two deliveries, and two deliveries publish two answers. */
  lemma OneDeliveryPerAnswer(setting: Setting, run: seq<Input>, k: nat, l: nat, i: nat, j: nat)
    requires k < |run| && l < |run| && PublishesAt(setting, run, k, i) && PublishesAt(setting, run, l, j)
    ensures k == l <==> i == j
  {
    if k < l {
      BusGrows(setting, run, k + 1, l);
    } else if l < k {
      BusGrows(setting, run, l + 1, k);
    }
  }

  /** With positive scored prices the guard's ValueError is out of reach. */
  lemma PositivePricesNeverRaise(setting: Setting, run: seq<Input>, e: Event, price: int)
    requires forall j, ref :: 0 <= j < |run| && Records(setting, run, j, ref) ==> ref.detectedPrice > 0
    ensures DeliveryOutcome(setting, After(setting, run), e) != Raised(NonPositiveDetectedPrice(price))
  {
    var s := After(setting, run);
    RecordedInThisProcess(setting, run);
    if e.payload.Requested? {
      CorruptReferenceMeaning(setting, s, e.payload.request, price);
      LastRecordIsInHistory(s.recorded, e.payload.request.deal);
    }
  }

  /** Delivery `k` of `later` scores the deal under an event that is not marked when it comes. */
  predicate ScoresAfresh(setting: Setting, before: seq<Input>, later: seq<Input>, k: nat, deal: Uuid)
    requires k < |later|
  {
    && later[k].Delivery? && later[k].event.payload.Scored? && later[k].event.payload.ref.deal == deal
    && later[k].event.id !in After(setting, before + later[..k]).marks
  }

  /** One did, and the process has not restarted again. */
  ghost predicate ScoredAfresh(setting: Setting, before: seq<Input>, later: seq<Input>, deal: Uuid) {
    exists k :: 0 <= k < |later| && ScoresAfresh(setting, before, later, k, deal) && NoRestart(later, k, |later|)
  }

  lemma ScoresAfreshExtends(setting: Setting, before: seq<Input>, later: seq<Input>, input: Input, deal: Uuid)
    ensures var longer := later + [input];
            && (forall k :: 0 <= k < |later| ==>
                  (ScoresAfresh(setting, before, longer, k, deal) <==> ScoresAfresh(setting, before, later, k, deal)))
            && (ScoresAfresh(setting, before, longer, |later|, deal) <==>
                input.Delivery? && input.event.payload.Scored? && input.event.payload.ref.deal == deal
                && input.event.id !in After(setting, before + later).marks)
  {
    var longer := later + [input];
    forall k | 0 <= k < |later|
      ensures ScoresAfresh(setting, before, longer, k, deal) <==> ScoresAfresh(setting, before, later, k, deal)
    {
      assert longer[..k] == later[..k] && longer[k] == later[k];
    }
    assert longer[..|later|] == later && longer[|later|] == input;
  }

  lemma ScoredAfreshExtends(setting: Setting, before: seq<Input>, later: seq<Input>, input: Input, deal: Uuid)
    ensures ScoredAfresh(setting, before, later + [input], deal) <==>
            || (ScoredAfresh(setting, before, later, deal) && !input.Restart?)
            || ScoresAfresh(setting, before, later + [input], |later|, deal)
  {
    var longer := later + [input];
    ScoresAfreshExtends(setting, before, later, input, deal);
    assert longer[|later|] == input;
    if ScoredAfresh(setting, before, longer, deal) {
      var k :| 0 <= k < |longer| && ScoresAfresh(setting, before, longer, k, deal) && NoRestart(longer, k, |longer|);
      if k < |later| {
        assert forall m :: 0 <= m < |later| ==> longer[m] == later[m];
        assert ScoresAfresh(setting, before, later, k, deal) && NoRestart(later, k, |later|);
      }
    }
    if ScoredAfresh(setting, before, later, deal) && !input.Restart? {
      var k :| 0 <= k < |later| && ScoresAfresh(setting, before, later, k, deal) && NoRestart(later, k, |later|);
      assert ScoresAfresh(setting, before, longer, k, deal) && NoRestart(longer, k, |longer|);
    }
    if ScoresAfresh(setting, before, longer, |later|, deal) {
      assert NoRestart(longer, |later|, |longer|);
    }
  }

  lemma AfterSnoc(setting: Setting, before: seq<Input>, init: seq<Input>, input: Input)
    ensures After(setting, before + (init + [input])) == Apply(setting, After(setting, before + init), input)
  {
    Associates(before, init, [input]);
    var whole := before + init + [input];
    assert whole[..|whole| - 1] == before + init;
  }

  /**
    * Whether the projection rewarms, deal by deal, purges and further restarts included: after a
    * restart it knows a deal exactly if the deal was since scored under an event whose mark was
    * not, or no longer, there.  Redelivery alone does not do it: the marks outlive the process.
    */
  lemma {:induction false} RestartWarmsExactly(setting: Setting, run: seq<Input>, later: seq<Input>, deal: Uuid)
    ensures LastRecordOf(After(setting, run + [Restart] + later).recorded, deal).Some? <==>
            ScoredAfresh(setting, run + [Restart], later, deal)
  {
    var before := run + [Restart];
    if later == [] {
      assert before + later == before && before[..|before| - 1] == run;
    } else {
      var init, input := later[..|later| - 1], later[|later| - 1];
      assert later == init + [input];
      AfterSnoc(setting, before, init, input);
      RestartWarmsExactly(setting, run, init, deal);
      ScoredAfreshExtends(setting, before, init, input, deal);
      ScoresAfreshExtends(setting, before, init, input, deal);
      if input.Delivery? && input.event.payload.Scored? {
        LastRecordSnoc(After(setting, before + init).recorded, input.event.payload.ref, deal);
      }
    }
  }

  /** One step puts at most one answer on the bus, about a deal the projection knew. */
  lemma AnswersKnownDeal(setting: Setting, s: State, input: Input)
    ensures var s' := Apply(setting, s, input);
            || s'.bus == s.bus
            || (|s'.bus| == |s.bus| + 1 && s.bus == s'.bus[..|s.bus|]
                && LastRecordOf(s.recorded, s'.bus[|s.bus|].result.deal).Some?)
  {
    BusStep(setting, s, input);
    if input.Delivery? && input.event.payload.Requested? {
      var outcome := HandlerOutcome(setting, s, input.event);
      if outcome.Answered? {
        AnsweredMeaning(setting, s, input.event.payload.request, outcome.answer);
      }
    }
  }

  /** A deal never scored afresh since the restart: no answer about it, and every request refused. */
  lemma {:induction false} ColdDealIsSilent(setting: Setting, run: seq<Input>, later: seq<Input>, deal: Uuid)
    requires forall k :: 0 <= k < |later| ==> !ScoresAfresh(setting, run + [Restart], later, k, deal)
    ensures var s, s' := After(setting, run), After(setting, run + [Restart] + later);
            && s.bus <= s'.bus
            && (forall i :: |s.bus| <= i < |s'.bus| ==> s'.bus[i].result.deal != deal)
            && (forall e: Event :: e.payload.Requested? && e.payload.request.deal == deal ==>
                  HandlerOutcome(setting, s', e) in {Raised(UnknownDeal), Raised(WrongCorrelation)})
  {
    var before := run + [Restart];
    RestartWarmsExactly(setting, run, later, deal);
    if later == [] {
      assert before + later == before && before[..|before| - 1] == run;
    } else {
      var init, input := later[..|later| - 1], later[|later| - 1];
      assert later == init + [input];
      AfterSnoc(setting, before, init, input);
      ScoresAfreshExtends(setting, before, init, input, deal);
      ColdDealIsSilent(setting, run, init, deal);
      RestartWarmsExactly(setting, run, init, deal);
      AnswersKnownDeal(setting, After(setting, before + init), input);
    }
  }

  /** Redeliveries and requests only: nothing DEAL_SCORED that is not already marked. */
  predicate OnlyMarkedScores(run: seq<Input>, marks: set<Uuid>) {
    forall k :: 0 <= k < |run| ==>
      && !run[k].Purge?
      && (run[k].Delivery? && run[k].event.payload.Scored? ==> run[k].event.id in marks)
  }

  lemma {:induction false} MarksStay(setting: Setting, before: seq<Input>, later: seq<Input>)
    requires forall k :: 0 <= k < |later| ==> !later[k].Purge?
    ensures After(setting, before).marks <= After(setting, before + later).marks
  {
    if later == [] {
      assert before + later == before;
    } else {
      var init, input := later[..|later| - 1], later[|later| - 1];
      assert later == init + [input];
      AfterSnoc(setting, before, init, input);
      MarksStay(setting, before, init);
    }
  }

  lemma NothingAfresh(setting: Setting, before: seq<Input>, later: seq<Input>, deal: Uuid)
    requires OnlyMarkedScores(later, After(setting, before).marks)
    ensures forall k :: 0 <= k < |later| ==> !ScoresAfresh(setting, before, later, k, deal)
  {
    forall k | 0 <= k < |later|
      ensures !ScoresAfresh(setting, before, later, k, deal)
    {
      MarksStay(setting, before, later[..k]);
    }
  }

  /**
    * In particular, while every DEAL_SCORED that comes is a redelivery still marked, the
    * projection stays empty and nothing at all is answered.
    */
  lemma RestartSilences(setting: Setting, run: seq<Input>, later: seq<Input>)
    requires OnlyMarkedScores(later, After(setting, run).marks)
    ensures var s, s' := After(setting, run), After(setting, run + [Restart] + later);
            s'.recorded == [] && s'.bus == s.bus && s.marks <= s'.marks
  {
    var before := run + [Restart];
    var s, s' := After(setting, run), After(setting, before + later);
    assert before[..|before| - 1] == run;
    MarksStay(setting, before, later);
    if s'.recorded != [] {
      var deal := s'.recorded[|s'.recorded| - 1].deal;
      NothingAfresh(setting, before, later, deal);
      RestartWarmsExactly(setting, run, later, deal);
    }
    NothingAfresh(setting, before, later, 0);
    ColdDealIsSilent(setting, run, later, 0);
    if |s.bus| < |s'.bus| {
      var deal := s'.bus[|s.bus|].result.deal;
      NothingAfresh(setting, before, later, deal);
      ColdDealIsSilent(setting, run, later, deal);
      assert false;
    }
  }

  // ---- What a delivery leaves behind ---------------------------------------------------

  /** What takes the process down at this delivery: the causes there are, and no other. */
  ghost predicate EndsProcess(setting: Setting, s: State, e: Event) {
    || e.payload.Other?
    || (e.id !in s.marks && e.payload.Requested? && RequestRaises(setting, s, e.payload.request))
    || !setting.world.commits(s.used.commits)
  }

  /**
    * In every run: the process goes on exactly if none of those causes is there, and the event is
    * marked exactly if it was before or the process goes on.  A request that stays silent is no
    * such cause: it is marked like an answered one, and the projection keeps what it knows.
    */
  lemma DeliveryMeaning(setting: Setting, run: seq<Input>, e: Event)
    ensures var s, s' := After(setting, run), After(setting, run + [Delivery(e)]);
            && (!s'.up <==> EndsProcess(setting, s, e))
            && s'.marks == (if EndsProcess(setting, s, e) then s.marks else s.marks + {e.id})
            && s'.recorded == (if e.payload.Scored? && e.id !in s.marks then s.recorded + [e.payload.ref]
                               else s.recorded)
    ensures var s := After(setting, run);
            e.id !in s.marks && e.payload.Requested? && setting.world.commits(s.used.commits)
            && (exists ref :: Known(setting, s, e.payload.request, ref) && StaysSilent(setting, s, ref)) ==>
              var s' := After(setting, run + [Delivery(e)]);
              s'.up && e.id in s'.marks && s'.bus == s.bus && s'.recorded == s.recorded
  {
    var s := After(setting, run);
    assert (run + [Delivery(e)])[..|run|] == run;
    if e.payload.Requested? {
      RaisesMeaning(setting, s, e.payload.request);
      SilentMeaning(setting, s, e.payload.request);
    }
  }

  // ---- Duplicates ----------------------------------------------------------------------

  /** This input is a delivery of event `id` that publishes an answer. */
  predicate AnswersEvent(setting: Setting, s: State, input: Input, id: Uuid) {
    input.Delivery? && input.event.id == id && |Apply(setting, s, input).bus| > |s.bus|
  }

  function AnswersTo(setting: Setting, run: seq<Input>, id: Uuid): nat {
    if run == [] then 0
    else
      var before, input := run[..|run| - 1], run[|run| - 1];
      AnswersTo(setting, before, id) + if AnswersEvent(setting, After(setting, before), input, id) then 1 else 0
  }

  /** What may be demanded: that commits after an answer succeed, and that its mark is not purged. */
  datatype Keeping = Keeping(commits: bool, marks: bool)

  const MARK_KEPT: Keeping := Keeping(true, true)

  predicate Keeps(keeping: Keeping, setting: Setting, s: State, input: Input, id: Uuid) {
    && (keeping.commits && AnswersEvent(setting, s, input, id) ==> setting.world.commits(s.used.commits))
    && (keeping.marks && input.Purge? ==> id !in input.events)
  }

  predicate Obeys(keeping: Keeping, setting: Setting, run: seq<Input>, id: Uuid) {
    run == []
    || var before, input := run[..|run| - 1], run[|run| - 1];
       Obeys(keeping, setting, before, id) && Keeps(keeping, setting, After(setting, before), input, id)
  }

  /** Publish first, mark second: one answer per event while the commits after its answers succeed. */
  lemma {:induction false} AnsweredOnce(setting: Setting, run: seq<Input>, id: Uuid)
    requires Obeys(MARK_KEPT, setting, run, id)
    ensures AnswersTo(setting, run, id) <= 1
    ensures AnswersTo(setting, run, id) == 1 ==> id in After(setting, run).marks
  {
    if run != [] {
      AnsweredOnce(setting, run[..|run| - 1], id);
    }
  }

  /** A commit that fails after the publish leaves the answer out and the event unmarked. */
  lemma CrashAnswersTwice(setting: Setting, s: State, e: Event, a: Answer)
    requires e.payload.Requested? && e.id !in s.marks && HandlerOutcome(setting, s, e) == Answered(a)
    requires !setting.world.commits(s.used.commits)
    ensures var s' := Delivered(setting, s, e);
            && s'.bus == s.bus + [a] && s'.marks == s.marks && !s'.up
            && !Duplicate(Apply(setting, s', Restart), e)
  {
  }

  // ---- The service ---------------------------------------------------------------------

  /** `time.monotonic`. */
  class MonotonicClock {
    const reading: nat -> real
    var samples: nat

    constructor (reading: nat -> real)
      ensures this.reading == reading && samples == 0
    {
      this.reading := reading;
      samples := 0;
    }

    method Now() returns (t: real)
      modifies this
      ensures t == reading(old(samples)) && samples == old(samples) + 1
    {
      t := reading(samples);
      samples := samples + 1;
    }
  }

  /** A countdown that starts when it is constructed. */
  class TimeoutBudget {
    const budgetSeconds: int
    const clock: MonotonicClock
    const startedAt: real

    constructor (budgetSeconds: int, clock: MonotonicClock)
      modifies clock
      ensures this.budgetSeconds == budgetSeconds && this.clock == clock
      ensures startedAt == clock.reading(old(clock.samples)) && clock.samples == old(clock.samples) + 1
    {
      this.budgetSeconds := budgetSeconds;
      this.clock := clock;
      var t := clock.Now();
      startedAt := t;
    }

    method ElapsedSeconds() returns (elapsed: real)
      modifies clock
      ensures elapsed == clock.reading(old(clock.samples)) - startedAt && clock.samples == old(clock.samples) + 1
    {
      var t := clock.Now();
      elapsed := t - startedAt;
    }

    /** `>=`, so a budget of 0 is already closed. */
    method Expired() returns (expired: bool)
      modifies clock
      ensures expired <==> clock.reading(old(clock.samples)) - startedAt >= budgetSeconds as real
      ensures clock.samples == old(clock.samples) + 1
    {
      var elapsed := ElapsedSeconds();
      expired := elapsed >= budgetSeconds as real;
    }
  }

  class ListingSource {
    const observed: nat -> Result<Snapshot, ()>
    var listings: seq<Uuid>

    constructor (observed: nat -> Result<Snapshot, ()>)
      ensures this.observed == observed && listings == []
    {
      this.observed := observed;
      listings := [];
    }

    method Read(listing: Uuid) returns (snapshot: Result<Snapshot, ()>)
      modifies this
      ensures snapshot == observed(|old(listings)|) && listings == old(listings) + [listing]
    {
      snapshot := observed(|listings|);
      listings := listings + [listing];
    }
  }

  class EventPublisher {
    const publishes: nat -> bool
    var attempts: nat
    var bus: seq<Answer>

    constructor (publishes: nat -> bool)
      ensures this.publishes == publishes && attempts == 0 && bus == []
    {
      this.publishes := publishes;
      attempts := 0;
      bus := [];
    }

    method Publish(answer: Answer) returns (published: bool)
      modifies this
      ensures published == publishes(old(attempts)) && attempts == old(attempts) + 1
      ensures bus == if published then old(bus) + [answer] else old(bus)
    {
      published := publishes(attempts);
      attempts := attempts + 1;
      if published {
        bus := bus + [answer];
      }
    }
  }

  /** One process: its connections, its projection, and the marks it commits. */
  class Service {
    const setting: Setting
    const clock: MonotonicClock
    const source: ListingSource
    const publisher: EventPublisher
    var references: Store
    var up: bool
    var marks: set<Uuid>
    var commits: nat

    ghost predicate Valid()
      reads this, references
    {
      && references.Valid() && references.maxDeals == setting.maxDeals
      && clock.reading == setting.world.reading && source.observed == setting.world.observed
      && publisher.publishes == setting.world.publishes
    }

    ghost function Uses(): Used
      reads this, clock, source, publisher
    {
      Used(clock.samples, source.listings, publisher.attempts, commits)
    }

    ghost function Contents(): State
      reads this, references, clock, source, publisher
    {
      State(up, references.history, marks, publisher.bus, Uses())
    }

    constructor (setting: Setting)
      ensures Valid() && this.setting == setting && Contents() == Boot()
      ensures fresh(references) && fresh(clock) && fresh(source) && fresh(publisher)
    {
      this.setting := setting;
      clock := new MonotonicClock(setting.world.reading);
      source := new ListingSource(setting.world.observed);
      publisher := new EventPublisher(setting.world.publishes);
      references := new Store(setting.maxDeals);
      up, marks, commits := true, {}, 0;
    }

    /** Reads the listing live, between two budget checks, and forms the verdict. */
    method Revalidate(listing: Uuid, detectedPrice: int, deal: Uuid, budget: TimeoutBudget)
      returns (result: Result<RevalidationResult, RevalidateError>)
      requires Valid() && budget.clock == clock && budget.budgetSeconds == setting.budget && clock.samples > 0
      requires budget.startedAt == clock.reading(clock.samples - 1)
      modifies clock, source
      ensures var was := old(Uses());
              && result == RevalidateSpec(setting.world, setting.budget, was.samples - 1, |was.listings|,
                                          deal, listing, detectedPrice)
              && Uses() == RevalidateUses(setting.world, setting.budget, was.samples - 1, was, listing)
    {
      var expired := budget.Expired();
      if expired {
        var elapsed := budget.ElapsedSeconds();
        return Raise(BudgetExceeded);
      }
      var snapshot := source.Read(listing);
      if snapshot.Raise? {
        return Raise(ListingUnreadable);
      }
      expired := budget.Expired();
      if expired {
        var elapsed := budget.ElapsedSeconds();
        return Raise(BudgetExceeded);
      }
      var seen := snapshot.value;
      var changed := RevalidationChanged(detectedPrice, seen.currentPrice, seen.inStock, None);
      if changed.Raise? {
        return Raise(CorruptReference(changed.error.price));
      }
      return Ok(RevalidationResult(deal, listing, seen.currentPrice, seen.inStock, changed.value, seen.observedAt));
    }

    /** The handler from the lookup on: revalidate, check the clock once more, publish. */
    method RevalidateAndPublish(r: Request, detected: int, budget: TimeoutBudget) returns (outcome: Outcome)
      requires Valid() && budget.clock == clock && budget.budgetSeconds == setting.budget && clock.samples > 0
      requires budget.startedAt == clock.reading(clock.samples - 1)
      modifies clock, source, publisher
      ensures var was := old(Uses()).(samples := old(clock.samples) - 1);
              var result := Revalidated(setting, detected, was, r);
              && outcome == Conclusion(setting, was, r, result)
              && Uses() == ConclusionUses(setting, was,
                             RevalidateUses(setting.world, setting.budget, was.samples, was, r.listing), result)
      ensures publisher.bus == if outcome.Answered? then old(publisher.bus) + [outcome.answer] else old(publisher.bus)
    {
      var result := Revalidate(r.listing, detected, r.deal, budget);
      if result.Raise? {
        outcome :=
          if result.error.CorruptReference? then Raised(NonPositiveDetectedPrice(result.error.price)) else Silent;
        return;
      }
      var expired := budget.Expired();
      if expired {
        return Silent;
      }
      var answer := Answer(result.value, r.correlation);
      var published := publisher.Publish(answer);
      if !published {
        return Raised(PublishFailed);
      }
      var elapsed := budget.ElapsedSeconds();
      return Answered(answer);
    }

    /** Publishes an answer, or publishes nothing. */
    method HandleRevalidationRequest(r: Request, budget: TimeoutBudget) returns (outcome: Outcome)
      requires Valid() && budget.clock == clock && budget.budgetSeconds == setting.budget && clock.samples > 0
      requires budget.startedAt == clock.reading(clock.samples - 1)
      modifies clock, source, publisher
      ensures var was := old(Uses()).(samples := old(clock.samples) - 1);
              var ref := Remembered(references.history, r.deal, setting.maxDeals);
              && outcome == RequestOutcome(setting, ref, was, r)
              && Uses() == RequestUses(setting, ref, was, r)
      ensures publisher.bus == if outcome.Answered? then old(publisher.bus) + [outcome.answer] else old(publisher.bus)
    {
      if r.correlation != r.deal {
        return Raised(WrongCorrelation);
      }
      var ref := references.Get(r.deal);
      if ref.None? {
        return Raised(UnknownDeal);
      }
      if ref.value.listing != r.listing {
        return Raised(WrongListing);
      }
      outcome := RevalidateAndPublish(r, ref.value.detectedPrice, budget);
    }

    /** The handler registered for the event's type; the countdown starts here, at delivery. */
    method Dispatch(e: Event) returns (outcome: Outcome)
      requires Valid() && !e.payload.Other?
      modifies references, clock, source, publisher
      ensures Valid()
      ensures outcome == HandlerOutcome(setting, old(Contents()), e)
      ensures Contents() == Handled(setting, old(Contents()), e)
    {
      match e.payload {
        case Scored(ref) =>
          references.Record(ref);
          outcome := Recorded;
        case Requested(r) =>
          var budget := new TimeoutBudget(setting.budget, clock);
          outcome := HandleRevalidationRequest(r, budget);
      }
    }

    /** `mark_processed` and the commit; on an exception the mark is rolled back. */
    method MarkAndCommit(id: Uuid) returns (committed: bool)
      modifies this`marks, this`commits
      ensures committed == setting.world.commits(old(commits)) && commits == old(commits) + 1
      ensures marks == if committed then old(marks) + {id} else old(marks)
    {
      committed := setting.world.commits(commits);
      commits := commits + 1;
      if committed {
        marks := marks + {id};
      }
    }

    /** `process_once` around the handler registered for the event, then the commit. */
    method HandleEvent(e: Event) returns (outcome: Outcome)
      requires Valid() && up
      modifies this, references, clock, source, publisher
      ensures Valid() && references == old(references)
      ensures outcome == DeliveryOutcome(setting, old(Contents()), e)
      ensures Contents() == Apply(setting, old(Contents()), Delivery(e))
    {
      if e.payload.Other? {
        up := false;
        return Raised(NoHandler);
      }
      outcome := Skipped;
      if e.id !in marks {
        outcome := Dispatch(e);
      }
      if !outcome.Raised? {
        var committed := MarkAndCommit(e.id);
        if !committed {
          outcome := Raised(CommitFailed);
        }
      }
      up := !outcome.Raised?;
    }

    /** The container restarts the process: a new store, nothing replayed into it. */
    method Boots()
      requires Valid()
      modifies this
      ensures Valid() && fresh(references)
      ensures Contents() == Apply(setting, old(Contents()), Restart)
    {
      references := new Store(setting.maxDeals);
      up := true;
    }
  }
}
