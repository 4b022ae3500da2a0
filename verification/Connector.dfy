/** The marketplace connector: fetch, normalize, publish, skip what does not parse, carry on. */
module Connector {
  import opened Prelude
  import opened Normalizer

  // ---- What the marketplace and the bus do ---------------------------------------------

  type Raw = nat

  /** A `ConnectorError` ends a cycle; anything else ends the process. */
  datatype Fault = ConnectorError | OtherError

  /** A normalize failure: the one that is skipped, or any other exception. */
  datatype NormalizeError = ParseFailed | Fails(fault: Fault)

  /** One `fetch_raw()` generator: the items it yields, and how it ends. */
  datatype Fetch = Fetch(items: seq<Raw>, ending: Option<Fault>)

  /** `read` is the marketplace's own field mapping, before the shared rules. */
  datatype Site = Site(read: Raw -> Result<CanonicalProduct, NormalizeError>, urlparse: UrlParser)

  datatype BatchResult = BatchResult(published: nat, skipped: nat)

  // ---- Specification -------------------------------------------------------------------

  /** `normalize`: the field mapping, then `validate`. */
  ghost function NormalizeSpec(site: Site, raw: Raw): Result<CanonicalProduct, NormalizeError> {
    var mapped := site.read(raw);
    if mapped.Raise? then mapped
    else if UrlRaises(mapped.value, site.urlparse) then Raise(Fails(OtherError))
    else
      var product := Normalized(mapped.value, site.urlparse);
      if product.None? then Raise(ParseFailed) else Ok(product.value)
  }

  /** The normalizable items among the first `n`, in fetch order. */
  ghost function Products(site: Site, items: seq<Raw>, n: nat): seq<CanonicalProduct>
    requires n <= |items|
  {
    if n == 0 then []
    else
      var before, last := Products(site, items, n - 1), NormalizeSpec(site, items[n - 1]);
      if last.Ok? then before + [last.value] else before
  }

  /** The first `n` items normalize or fail to parse, and none raises anything else. */
  ghost predicate OnlySkips(site: Site, items: seq<Raw>, n: nat)
    requires n <= |items|
  {
    forall i :: 0 <= i < n ==> var r := NormalizeSpec(site, items[i]); r.Ok? || r.error == ParseFailed
  }

  /** How far one batch got, and why it stopped there: at a refused publish, or by another exception. */
  ghost predicate Ran(
    site: Site, fetch: Fetch, reached: nat, refused: bool, outcome: Result<BatchResult, Fault>)
  {
    && reached <= |fetch.items| && OnlySkips(site, fetch.items, reached)
    && match outcome
       case Ok(result) =>
         var n := |Products(site, fetch.items, |fetch.items|)|;
         && reached == |fetch.items| && fetch.ending == None && !refused
         && result.published == n && n + result.skipped == reached
       case Raise(fault) =>
         if reached == |fetch.items| then fetch.ending == Some(fault) && !refused
         else
           var stopped := NormalizeSpec(site, fetch.items[reached]);
           if refused then stopped.Ok? && fault == OtherError else stopped == Raise(Fails(fault))
  }

  /** Nothing reaches the bus that breaks a rule. */
  lemma {:induction false} ProductsAreValid(site: Site, items: seq<Raw>, n: nat, p: CanonicalProduct)
    requires n <= |items| && p in Products(site, items, n)
    ensures Valid(p, site.urlparse) && p.canonicalTitle.Str? && Trimmed(p.canonicalTitle.text)
  {
    if p in Products(site, items, n - 1) {
      ProductsAreValid(site, items, n - 1, p);
    } else {
      NormalizedIsValid(site.read(items[n - 1]).value, site.urlparse);
    }
  }

  /**
    * One item whose URL `urlparse` raises on ends its batch with an exception that is no
    * `ConnectorError`, there or at an earlier failed publish; nothing after it is reached.
    */
  lemma UnparseableUrlEndsBatch(
    site: Site, fetch: Fetch, reached: nat, refused: bool, outcome: Result<BatchResult, Fault>, i: nat)
    requires Ran(site, fetch, reached, refused, outcome)
    requires i < |fetch.items| && OnlySkips(site, fetch.items, i)
    requires site.read(fetch.items[i]).Ok? && UrlRaises(site.read(fetch.items[i]).value, site.urlparse)
    ensures reached <= i && outcome == Raise(OtherError)
  {
    assert NormalizeSpec(site, fetch.items[i]) == Raise(Fails(OtherError));
  }

  // ---- One batch -----------------------------------------------------------------------

  /** `publish` raises on a bus failure; `accepts(n)` is the fate of the `n`-th attempt. */
  class EventPublisher {
    const accepts: nat -> bool
    var attempts: nat
    var bus: seq<CanonicalProduct>

    constructor (accepts: nat -> bool)
      ensures this.accepts == accepts && attempts == 0 && bus == []
    {
      this.accepts := accepts;
      attempts := 0;
      bus := [];
    }

    method Publish(product: CanonicalProduct) returns (published: bool)
      modifies this
      ensures published == accepts(old(attempts)) && attempts == old(attempts) + 1
      ensures bus == if published then old(bus) + [product] else old(bus)
    {
      published := accepts(attempts);
      attempts := attempts + 1;
      if published {
        bus := bus + [product];
      }
    }
  }

  /**
    * The mapping's own failure, the ValueError of an unparseable URL, a parse failure for a
    * broken rule, or the valid product.
    */
  method Normalize(site: Site, raw: Raw) returns (result: Result<CanonicalProduct, NormalizeError>)
    ensures result == NormalizeSpec(site, raw)
    ensures site.read(raw).Ok? ==>
              var mapped := site.read(raw).value;
              && (result.Ok? <==> Valid(mapped, site.urlparse))
              && (result == Raise(Fails(OtherError)) <==> UrlRaises(mapped, site.urlparse))
    ensures result.Ok? ==> Valid(result.value, site.urlparse)
  {
    var mapped := site.read(raw);
    if mapped.Raise? {
      return mapped;
    }
    var validated := Validate(mapped.value, site.urlparse);
    if validated.Raise? {
      return if validated.error.UrlValueError? then Raise(Fails(OtherError)) else Raise(ParseFailed);
    }
    NormalizedIsValid(mapped.value, site.urlparse);
    return Ok(validated.value);
  }

  /** The `iter_products` generator: where it stands in the fetch, and its skip listener's count. */
  class ProductIterator {
    const site: Site
    const fetch: Fetch
    var at: nat
    var skipped: nat

    constructor (site: Site, fetch: Fetch)
      ensures this.site == site && this.fetch == fetch && at == 0 && skipped == 0
    {
      this.site := site;
      this.fetch := fetch;
      at, skipped := 0, 0;
    }

    /** Runs to the next product it yields, to the end of the fetch, or to an exception. */
    method Next() returns (next: Result<Option<CanonicalProduct>, Fault>)
      requires at <= |fetch.items| && OnlySkips(site, fetch.items, at)
      modifies this
      ensures old(at) <= at <= |fetch.items|
      ensures var before := Products(site, fetch.items, old(at));
              match next
              case Ok(Some(product)) =>
                && OnlySkips(site, fetch.items, at) && at > old(at) && skipped == old(skipped) + (at - old(at) - 1)
                && Products(site, fetch.items, at) == before + [product]
                && NormalizeSpec(site, fetch.items[at - 1]) == Ok(product)
                && OnlySkips(site, fetch.items, at - 1) && Products(site, fetch.items, at - 1) == before
              case Ok(None) =>
                && OnlySkips(site, fetch.items, |fetch.items|) && at == |fetch.items| && fetch.ending == None
                && skipped == old(skipped) + (at - old(at)) && Products(site, fetch.items, |fetch.items|) == before
              case Raise(fault) =>
                && OnlySkips(site, fetch.items, at) && Products(site, fetch.items, at) == before
                && if at == |fetch.items| then fetch.ending == Some(fault)
                   else NormalizeSpec(site, fetch.items[at]) == Raise(Fails(fault))
    {
      while at < |fetch.items|
        invariant old(at) <= at <= |fetch.items| && skipped == old(skipped) + (at - old(at))
        invariant OnlySkips(site, fetch.items, at)
        invariant Products(site, fetch.items, at) == Products(site, fetch.items, old(at))
      {
        var product := Normalize(site, fetch.items[at]);
        if product.Raise? && product.error.Fails? {
          return Raise(product.error.fault);
        }
        at := at + 1;
        if product.Ok? {
          return Ok(Some(product.value));
        }
        skipped := skipped + 1;
      }
      return if fetch.ending.Some? then Raise(fetch.ending.value) else Ok(None);
    }
  }

  /** The bus takes `n` publish attempts in a row, from number `first` on. */
  predicate Takes(accepts: nat -> bool, first: nat, n: nat) { forall k :: first <= k < first + n ==> accepts(k) }

  lemma TakesOneMore(accepts: nat -> bool, first: nat, n: nat)
    requires Takes(accepts, first, n) && accepts(first + n)
    ensures Takes(accepts, first, n + 1)
  {
  }

  /** One round of the loop: the next product, published; or why the batch ends here. */
  method PublishNext(products: ProductIterator, publisher: EventPublisher)
    returns (stop: Option<Result<(), Fault>>, ghost reached: nat, ghost refused: bool)
    requires products.at <= |products.fetch.items|
    requires OnlySkips(products.site, products.fetch.items, products.at)
    modifies products, publisher
    ensures old(products.at) <= products.at <= |products.fetch.items| && reached <= products.at
    ensures var sent := Products(products.site, products.fetch.items, old(products.at));
            match stop
            case None =>
              && OnlySkips(products.site, products.fetch.items, products.at) && products.at > old(products.at)
              && products.skipped == old(products.skipped) + (products.at - old(products.at) - 1)
              && publisher.attempts == old(publisher.attempts) + 1 && publisher.accepts(old(publisher.attempts))
              && exists product ::
                   && Products(products.site, products.fetch.items, products.at) == sent + [product]
                   && publisher.bus == old(publisher.bus) + [product]
            case Some(end) =>
              && Products(products.site, products.fetch.items, reached) == sent && publisher.bus == old(publisher.bus)
              && publisher.attempts == old(publisher.attempts) + (if refused then 1 else 0)
              && (refused ==> !publisher.accepts(old(publisher.attempts)))
              && Ran(products.site, products.fetch, reached, refused,
                     match end
                     case Raise(fault) => Raise(fault)
                     case Ok(_) =>
                       Ok(BatchResult(|sent|, if reached >= |sent| then reached - |sent| else 0)))
              && (end.Ok? ==> products.skipped == old(products.skipped) + (reached - old(products.at)))
  {
    reached, refused := 0, false;
    var next := products.Next();
    match next {
      case Raise(fault) =>
        return Some(Raise(fault)), products.at, false;
      case Ok(None) =>
        AtMostAll(products.site, products.fetch.items, products.at);
        return Some(Ok(())), products.at, false;
      case Ok(Some(product)) =>
        var accepted := publisher.Publish(product);
        if !accepted {
          return Some(Raise(OtherError)), products.at - 1, true;
        }
        return None, 0, false;
    }
  }

  lemma {:induction false} AtMostAll(site: Site, items: seq<Raw>, n: nat)
    requires n <= |items|
    ensures |Products(site, items, n)| <= n
  {
    if n > 0 {
      AtMostAll(site, items, n - 1);
    }
  }

  /**
    * Publishes one at a time, as each item is normalized.  It stops at an item that normalizes
    * exactly when the bus refuses that publish; every attempt before was taken.
    */
  method PublishBatch(site: Site, fetch: Fetch, publisher: EventPublisher)
    returns (outcome: Result<BatchResult, Fault>, ghost reached: nat, ghost refused: bool)
    modifies publisher
    ensures Ran(site, fetch, reached, refused, outcome)
    ensures var n := |Products(site, fetch.items, reached)|;
            && publisher.attempts == old(publisher.attempts) + n + (if refused then 1 else 0)
            && Takes(publisher.accepts, old(publisher.attempts), n)
            && (refused ==> !publisher.accepts(old(publisher.attempts) + n))
    ensures publisher.bus == old(publisher.bus) + Products(site, fetch.items, reached)
  {
    var products := new ProductIterator(site, fetch);
    var published := 0;
    while true
      invariant products.at <= |fetch.items| && OnlySkips(site, fetch.items, products.at)
      invariant published + products.skipped == products.at
      invariant published == |Products(site, fetch.items, products.at)|
      invariant publisher.attempts == old(publisher.attempts) + published
      invariant Takes(publisher.accepts, old(publisher.attempts), published)
      invariant publisher.bus == old(publisher.bus) + Products(site, fetch.items, products.at)
      decreases |fetch.items| - products.at
    {
      ghost var sent := Products(site, fetch.items, products.at);
      var stop;
      stop, reached, refused := PublishNext(products, publisher);
      match stop {
        case None =>
          ghost var product :| Products(site, fetch.items, products.at) == sent + [product];
          Associates(old(publisher.bus), sent, [product]);
          TakesOneMore(publisher.accepts, old(publisher.attempts), published);
          published := published + 1;
        case Some(Raise(fault)) =>
          return Raise(fault), reached, refused;
        case Some(Ok(_)) =>
          return Ok(BatchResult(published, products.skipped)), reached, refused;
      }
    }
  }

  // ---- Many cycles ---------------------------------------------------------------------

  /** One cycle as it went: how far its batch got, and what came of it. */
  datatype Cycle = Cycle(fetch: Fetch, reached: nat, refused: bool, outcome: Result<BatchResult, Fault>)

  ghost predicate Happened(site: Site, c: Cycle) { Ran(site, c.fetch, c.reached, c.refused, c.outcome) }

  /** Every cycle so far went as it went, on the fetch of its number. */
  ghost predicate AllHappened(site: Site, fetches: nat -> Fetch, cycles: seq<Cycle>) {
    forall i :: 0 <= i < |cycles| ==> Happened(site, cycles[i]) && cycles[i].fetch == fetches(i)
  }

  /** What one cycle put on the bus. */
  ghost function Emitted(site: Site, c: Cycle): seq<CanonicalProduct>
    requires Happened(site, c)
  {
    Products(site, c.fetch.items, c.reached)
  }

  ghost function EmittedAll(site: Site, cycles: seq<Cycle>): seq<CanonicalProduct>
    requires forall i :: 0 <= i < |cycles| ==> Happened(site, cycles[i])
  {
    if cycles == [] then []
    else EmittedAll(site, cycles[..|cycles| - 1]) + Emitted(site, cycles[|cycles| - 1])
  }

  /** The sums over the cycles that succeeded. */
  function Totals(cycles: seq<Cycle>): BatchResult {
    if cycles == [] then BatchResult(0, 0)
    else
      var before, last := Totals(cycles[..|cycles| - 1]), cycles[|cycles| - 1].outcome;
      if last.Ok? then BatchResult(before.published + last.value.published, before.skipped + last.value.skipped)
      else before
  }

  lemma OneMoreCycle(site: Site, cycles: seq<Cycle>, c: Cycle)
    requires Happened(site, c) && forall i :: 0 <= i < |cycles| ==> Happened(site, cycles[i])
    ensures EmittedAll(site, cycles + [c]) == EmittedAll(site, cycles) + Emitted(site, c)
    ensures Totals(cycles + [c])
         == if c.outcome.Raise? then Totals(cycles)
            else BatchResult(Totals(cycles).published + c.outcome.value.published,
                             Totals(cycles).skipped + c.outcome.value.skipped)
  {
    assert (cycles + [c])[..|cycles|] == cycles;
  }

  predicate OnlyConnectorErrors(cycles: seq<Cycle>) {
    forall i :: 0 <= i < |cycles| && cycles[i].outcome.Raise? ==> cycles[i].outcome.error == ConnectorError
  }

  /** `time.sleep`, counted. */
  class Sleeper {
    var slept: nat

    constructor ()
      ensures slept == 0
    {
      slept := 0;
    }

    method Sleep()
      modifies this
      ensures slept == old(slept) + 1
    {
      slept := slept + 1;
    }
  }

  /**
    * `maxCycles` batches with a sleep between them.  A connector error ends its cycle only;
    * any other exception ends the loop.
    */
  method Poll(site: Site, fetches: nat -> Fetch, publisher: EventPublisher, sleeper: Sleeper, maxCycles: nat)
    returns (result: Result<BatchResult, Fault>, ghost cycles: seq<Cycle>)
    modifies publisher, sleeper
    ensures |cycles| <= maxCycles
    ensures AllHappened(site, fetches, cycles)
    ensures publisher.bus == old(publisher.bus) + EmittedAll(site, cycles)
    ensures result.Ok? ==>
              && |cycles| == maxCycles && result.value == Totals(cycles)
              && OnlyConnectorErrors(cycles)
              && sleeper.slept == old(sleeper.slept) + if maxCycles == 0 then 0 else maxCycles - 1
    ensures result.Raise? ==>
              && cycles != [] && cycles[|cycles| - 1].outcome == Raise(OtherError) && result.error == OtherError
              && sleeper.slept == old(sleeper.slept) + |cycles| - 1
  {
    var published: nat, skipped: nat := 0, 0;
    var cycle := 0;
    cycles := [];
    while cycle < maxCycles
      invariant cycle == |cycles| <= maxCycles
      invariant AllHappened(site, fetches, cycles) && OnlyConnectorErrors(cycles)
      invariant publisher.bus == old(publisher.bus) + EmittedAll(site, cycles)
      invariant BatchResult(published, skipped) == Totals(cycles)
      invariant sleeper.slept == old(sleeper.slept) + if cycle < maxCycles || cycle == 0 then cycle else cycle - 1
    {
      var outcome;
      ghost var reached, refused;
      outcome, reached, refused := PublishBatch(site, fetches(cycle), publisher);
      ghost var c := Cycle(fetches(cycle), reached, refused, outcome);
      OneMoreCycle(site, cycles, c);
      Associates(old(publisher.bus), EmittedAll(site, cycles), Emitted(site, c));
      cycles := cycles + [c];
      cycle := cycle + 1;
      match outcome {
        case Raise(OtherError) => return Raise(OtherError), cycles;
        case Raise(ConnectorError) =>
        case Ok(batch) =>
          published := published + batch.published;
          skipped := skipped + batch.skipped;
      }
      if cycle < maxCycles {
        sleeper.Sleep();
      }
    }
    return Ok(BatchResult(published, skipped)), cycles;
  }

  /** What failing cycles put on the bus before they failed. */
  ghost function LostToFailures(site: Site, cycles: seq<Cycle>): nat
    requires forall i :: 0 <= i < |cycles| ==> Happened(site, cycles[i])
  {
    if cycles == [] then 0
    else
      var c := cycles[|cycles| - 1];
      LostToFailures(site, cycles[..|cycles| - 1]) + if c.outcome.Raise? then |Emitted(site, c)| else 0
  }

  /**
    * The reported total counts the bus exactly when no failed cycle had published anything:
    * what a cycle published before failing is on the bus and in no total.
    */
  lemma {:induction false} TotalsMissFailedCycles(site: Site, cycles: seq<Cycle>)
    requires forall i :: 0 <= i < |cycles| ==> Happened(site, cycles[i])
    ensures |EmittedAll(site, cycles)| == Totals(cycles).published + LostToFailures(site, cycles)
    ensures Totals(cycles).published == |EmittedAll(site, cycles)| <==>
            forall i :: 0 <= i < |cycles| && cycles[i].outcome.Raise? ==> Emitted(site, cycles[i]) == []
  {
    if cycles != [] {
      var before, c := cycles[..|cycles| - 1], cycles[|cycles| - 1];
      TotalsMissFailedCycles(site, before);
      if c.outcome.Ok? {
        assert c.reached == |c.fetch.items|;
      }
    }
  }

  /** Every product any cycle published satisfies every rule. */
  lemma {:induction false} EverythingEmittedIsValid(site: Site, cycles: seq<Cycle>, p: CanonicalProduct)
    requires forall i :: 0 <= i < |cycles| ==> Happened(site, cycles[i])
    requires p in EmittedAll(site, cycles)
    ensures Valid(p, site.urlparse) && p.canonicalTitle.Str? && Trimmed(p.canonicalTitle.text)
  {
    var before, c := cycles[..|cycles| - 1], cycles[|cycles| - 1];
    if p in EmittedAll(site, before) {
      EverythingEmittedIsValid(site, before, p);
    } else {
      ProductsAreValid(site, c.fetch.items, c.reached, p);
    }
  }
}
