/** The Deal Engine's announcements as the Revalidation Service's references: one price, end to end. */
module Pipeline {
  import opened Prelude
  import E = DealEngine
  import Runs = DealEngineRuns
  import D = DealReferenceStore
  import R = RevalidationService
  import S = Scorer

  /** The state of the Deal Engine after a run. */
  function Engine(engine: seq<E.Action>): E.State
    requires E.Legal(E.Init(E.AS_WRITTEN), engine)
  {
    E.After(E.Init(E.AS_WRITTEN), engine)
  }

  /** What `record` keeps of a DEAL_SCORED. */
  function ReferenceOf(deal: Uuid, facts: S.ScoredDeal): D.DealReference {
    D.DealReference(deal, facts.listing, facts.marketplace, facts.detectedPrice)
  }

  /** `ref` is what some announcement of this bus says. */
  ghost predicate FromBus(bus: seq<E.Announcement>, ref: D.DealReference) {
    exists m :: 0 <= m < |bus| && ref == ReferenceOf(bus[m].deal, bus[m].facts)
  }

  /** Every DEAL_SCORED delivered to the service is one the Deal Engine put on the bus. */
  ghost predicate Fed(bus: seq<E.Announcement>, run: seq<R.Input>) {
    forall j :: 0 <= j < |run| && run[j].Delivery? && run[j].event.payload.Scored? ==>
      FromBus(bus, run[j].event.payload.ref)
  }

  /** A delivery of this run published answer `i`, measured against `ref`. */
  ghost predicate MeasuredAgainst(setting: R.Setting, run: seq<R.Input>, i: nat, ref: D.DealReference)
    requires i < |R.After(setting, run).bus|
  {
    exists k ::
      && 0 <= k < |run| && R.PublishesAt(setting, run, k, i)
      && run[k].Delivery? && run[k].event.payload.Requested?
      && R.Justifies(setting, R.After(setting, run[..k]), run[k].event.payload.request, ref,
                     R.After(setting, run).bus[i])
  }

  lemma MeasuredAgainstAnnouncement(bus: seq<E.Announcement>, setting: R.Setting, run: seq<R.Input>, i: nat)
    returns (m: nat)
    requires Fed(bus, run) && i < |R.After(setting, run).bus|
    ensures m < |bus| && bus[m].deal == R.After(setting, run).bus[i].result.deal
    ensures MeasuredAgainst(setting, run, i, ReferenceOf(bus[m].deal, bus[m].facts))
  {
    var a := R.After(setting, run).bus[i];
    R.EveryAnswerIsExplained(setting, run, i);
    var j, k :| 0 <= j < k < |run| && R.Explains(setting, run, j, k, a) && R.PublishesAt(setting, run, k, i);
    var ref := run[j].event.payload.ref;
    R.LastRecordIsInHistory(R.After(setting, run[..k]).recorded, run[k].event.payload.request.deal);
    assert FromBus(bus, ref);
    m :| 0 <= m < |bus| && ref == ReferenceOf(bus[m].deal, bus[m].facts);
  }

  /**
    * Every answer is measured against the one announcement of its deal; if that deal was
    * committed, against the price and the listing in its own row of `deals`, at any later time.
    */
  lemma AnswersMeasureTheDeal(engine: seq<E.Action>, setting: R.Setting, run: seq<R.Input>, i: nat)
    requires E.Legal(E.Init(E.AS_WRITTEN), engine) && Fed(Engine(engine).bus, run)
    requires i < |R.After(setting, run).bus|
    ensures var bus, deals := Engine(engine).bus, Engine(engine).deals;
            var d := R.After(setting, run).bus[i].result.deal;
            && (exists m :: 0 <= m < |bus| && bus[m].deal == d
                            && MeasuredAgainst(setting, run, i, ReferenceOf(d, bus[m].facts)))
            && (d in deals ==> MeasuredAgainst(setting, run, i, ReferenceOf(d, deals[d].facts)))
  {
    var bus, deals := Engine(engine).bus, Engine(engine).deals;
    var m := MeasuredAgainstAnnouncement(bus, setting, run, i);
    Runs.AnnouncementsMatchDeals(engine);
    if bus[m].deal in deals {
      OwnFacts(bus, deals, m);
    }
  }

  lemma OwnFacts(bus: seq<E.Announcement>, deals: map<Uuid, E.Deal>, m: nat)
    requires m < |bus| && bus[m].deal in deals
    requires Runs.AnnouncedOnce(bus, bus[m].deal, deals[bus[m].deal].facts)
    ensures bus[m].facts == deals[bus[m].deal].facts
  {
    var n :| 0 <= n < |bus| && bus[n] == E.DealScored(bus[m].deal, deals[bus[m].deal].facts);
    assert m == n;
  }

  /** Fed by the Deal Engine, the service never meets the guard's ValueError. */
  lemma NeverCorrupt(engine: seq<E.Action>, setting: R.Setting, run: seq<R.Input>, e: R.Event, price: int)
    requires E.Legal(E.Init(E.AS_WRITTEN), engine) && Fed(Engine(engine).bus, run)
    ensures R.DeliveryOutcome(setting, R.After(setting, run), e) != R.Raised(R.NonPositiveDetectedPrice(price))
  {
    Runs.AnnouncementsMatchDeals(engine);
    forall j, ref | 0 <= j < |run| && R.Records(setting, run, j, ref)
      ensures ref.detectedPrice > 0
    {
      assert FromBus(Engine(engine).bus, ref);
    }
    R.PositivePricesNeverRaise(setting, run, e, price);
  }
}
