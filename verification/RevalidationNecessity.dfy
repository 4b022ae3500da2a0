/** What the Revalidation Service's guarantees need: runs in which one condition fails, and one guarantee. */
module RevalidationNecessity {
  import opened Prelude
  import D = DealReferenceStore
  import opened RevalidationRules
  import opened RevalidationService

  // ---- A world without surprises, but for its commits ----------------------------------

  ghost predicate Calm(setting: Setting) {
    && setting.budget == 30 && setting.maxDeals == 1
    && (forall n :: setting.world.reading(n) == 0.0)
    && (forall n :: setting.world.observed(n) == Ok(Snapshot(1000, true, 0)))
    && (forall n :: setting.world.publishes(n))
  }

  function Calmly(commits: nat -> bool): Setting {
    Setting(World(_ => 0.0, _ => Ok(Snapshot(1000, true, 0)), _ => true, commits), 30, 1)
  }

  const ALL_WORKS: Setting := Calmly(_ => true)

  const SECOND_COMMIT_FAILS: Setting := Calmly(n => n != 1)

  const ASKED: Event := Event(2, Requested(Request(5, 6, 5)))

  function Sold(price: int): D.DealReference { D.DealReference(5, 6, Amazon, price) }

  const ANSWER: Answer := Answer(RevalidationResult(5, 6, 1000, true, false, 0), 5)

  lemma SoldIsKnown(setting: Setting, s: State, price: int)
    requires Calm(setting) && s.recorded == [Sold(price)]
    ensures Known(setting, s, ASKED.payload.request, Sold(price))
    ensures InTime(setting, s, 1) && InTime(setting, s, 2) && InTime(setting, s, 3)
  {
    assert s.recorded[|s.recorded| - 1] == Sold(price);
  }

  /** Whenever the deal is recorded at the price still read, the request is answered: unchanged. */
  lemma SoldIsAnswered(setting: Setting, s: State)
    requires Calm(setting) && s.recorded == [Sold(1000)]
    ensures HandlerOutcome(setting, s, ASKED) == Answered(ANSWER)
  {
    var r := ASKED.payload.request;
    SoldIsKnown(setting, s, 1000);
    ChangedMeaning(1000, 1000, true);
    assert Justifies(setting, s, r, Sold(1000), ANSWER);
    AnsweredMeaning(setting, s, r, ANSWER);
  }

  // ---- Runs, one input at a time -------------------------------------------------------

  /** A legal run that keeps what `keeping` demands for event 2, with `n` answers to it. */
  ghost predicate Runs(keeping: Keeping, setting: Setting, run: seq<Input>, n: nat) {
    Legal(setting, run) && Obeys(keeping, setting, run, 2) && AnswersTo(setting, run, 2) == n
  }

  lemma RunSnoc(keeping: Keeping, setting: Setting, run: seq<Input>, input: Input, n: nat)
    requires Runs(keeping, setting, run, n)
    requires Enabled(After(setting, run), input) && Keeps(keeping, setting, After(setting, run), input, 2)
    ensures After(setting, run + [input]) == Apply(setting, After(setting, run), input)
    ensures Runs(keeping, setting, run + [input],
                 n + if AnswersEvent(setting, After(setting, run), input, 2) then 1 else 0)
  {
    assert (run + [input])[..|run|] == run;
  }

  /** Recording the deal under a fresh event, whose commit succeeds. */
  lemma RecordsSold(keeping: Keeping, setting: Setting, run: seq<Input>, n: nat, id: Uuid, price: int)
    returns (run': seq<Input>)
    requires Runs(keeping, setting, run, n) && id != 2
    requires var s := After(setting, run);
             s.up && s.recorded == [] && id !in s.marks && setting.world.commits(s.used.commits)
    ensures Runs(keeping, setting, run', n)
    ensures var s, s' := After(setting, run), After(setting, run');
            s' == s.(recorded := [Sold(price)], marks := s.marks + {id},
                     used := s.used.(commits := s.used.commits + 1))
  {
    var input := Delivery(Event(id, Scored(Sold(price))));
    RunSnoc(keeping, setting, run, input, n);
    run' := run + [input];
  }

  /** The request is answered once more. */
  lemma Answers(keeping: Keeping, setting: Setting, run: seq<Input>, n: nat) returns (run': seq<Input>)
    requires Calm(setting) && Runs(keeping, setting, run, n)
    requires var s := After(setting, run);
             && s.up && s.recorded == [Sold(1000)] && 2 !in s.marks
             && (keeping.commits ==> setting.world.commits(s.used.commits))
    ensures Runs(keeping, setting, run', n + 1)
    ensures After(setting, run') == Delivered(setting, After(setting, run), ASKED)
  {
    SoldIsAnswered(setting, After(setting, run));
    RunSnoc(keeping, setting, run, Delivery(ASKED), n);
    run' := run + [Delivery(ASKED)];
  }

  /** The deal is scored in a world whose first commit succeeds, and asked about. */
  lemma FirstAnswer(keeping: Keeping, setting: Setting) returns (run: seq<Input>)
    requires Calm(setting) && setting.world.commits(0) && (keeping.commits ==> setting.world.commits(1))
    ensures Runs(keeping, setting, run, 1)
    ensures var s := After(setting, run);
            if setting.world.commits(1)
            then s.up && s.recorded == [Sold(1000)] && s.marks == {1, 2} && s.used.commits == 2
            else !s.up && s.marks == {1} && s.used.commits == 2
  {
    run := RecordsSold(keeping, setting, [], 0, 1, 1000);
    SoldIsAnswered(setting, After(setting, run));
    run := Answers(keeping, setting, run, 0);
  }

  // ---- One answer per event, exactly ---------------------------------------------------

  /** No purge: the commit after an answer fails, and a redelivery to the next process answers again. */
  lemma CrashCanAnswerTwice(keeping: Keeping)
    requires !keeping.commits
    ensures exists run :: Runs(keeping, SECOND_COMMIT_FAILS, run, 2)
  {
    var setting := SECOND_COMMIT_FAILS;
    var run := FirstAnswer(keeping, setting);
    RunSnoc(keeping, setting, run, Restart, 1);
    run := RecordsSold(keeping, setting, run + [Restart], 1, 3, 1000);
    run := Answers(keeping, setting, run, 1);
  }

  /** Every commit succeeds: the answered event's mark is purged, and a redelivery answers again. */
  lemma PurgeCanAnswerTwice(keeping: Keeping)
    requires !keeping.marks
    ensures exists run :: Runs(keeping, ALL_WORKS, run, 2)
  {
    var setting := ALL_WORKS;
    var run := FirstAnswer(keeping, setting);
    RunSnoc(keeping, setting, run, Purge({2}), 1);
    run := Answers(keeping, setting, run + [Purge({2})], 1);
  }

  ghost predicate AlwaysAnsweredOnce(keeping: Keeping) {
    forall setting: Setting, run: seq<Input>, id: Uuid ::
      Legal(setting, run) && Obeys(keeping, setting, run, id) ==> AnswersTo(setting, run, id) <= 1
  }

  lemma RefutesOnce(keeping: Keeping, setting: Setting)
    requires exists run :: Runs(keeping, setting, run, 2)
    ensures !AlwaysAnsweredOnce(keeping)
  {
    var run :| Runs(keeping, setting, run, 2);
    assert AnswersTo(setting, run, 2) == 2;
  }

  /**
    * An event is answered at most once in every run of every world, exactly when both are
    * demanded: that the commits after its answers succeed, and that its mark is not purged.
    */
  lemma BothKeepingsAreNeeded(keeping: Keeping)
    ensures AlwaysAnsweredOnce(keeping) <==> keeping.commits && keeping.marks
  {
    if !keeping.commits {
      CrashCanAnswerTwice(keeping);
      RefutesOnce(keeping, SECOND_COMMIT_FAILS);
    } else if !keeping.marks {
      PurgeCanAnswerTwice(keeping);
      RefutesOnce(keeping, ALL_WORKS);
    } else {
      assert keeping == MARK_KEPT;
      forall setting: Setting, run: seq<Input>, id: Uuid | Legal(setting, run) && Obeys(keeping, setting, run, id)
        ensures AnswersTo(setting, run, id) <= 1
      {
        AnsweredOnce(setting, run, id);
      }
    }
  }

  // ---- The guard's ValueError, exactly -------------------------------------------------

  /** In no legal run whose recorded prices are all among these does a delivery raise the ValueError. */
  ghost predicate NeverRaises(prices: iset<int>) {
    forall setting: Setting, run: seq<Input>, e: Event, price: int ::
      && Legal(setting, run) && Enabled(After(setting, run), Delivery(e))
      && RecordsOnly(prices, setting, run)
      ==> DeliveryOutcome(setting, After(setting, run), e) != Raised(NonPositiveDetectedPrice(price))
  }

  ghost predicate RecordsOnly(prices: iset<int>, setting: Setting, run: seq<Input>) {
    forall j, ref :: 0 <= j < |run| && Records(setting, run, j, ref) ==> ref.detectedPrice in prices
  }

  /** A producer that announces a price of zero or less, and a tap on that deal. */
  lemma CorruptPriceRaises(price: int) returns (run: seq<Input>)
    requires price <= 0
    ensures Legal(ALL_WORKS, run) && Enabled(After(ALL_WORKS, run), Delivery(ASKED))
    ensures RecordsOnly(iset{price}, ALL_WORKS, run)
    ensures DeliveryOutcome(ALL_WORKS, After(ALL_WORKS, run), ASKED) == Raised(NonPositiveDetectedPrice(price))
  {
    var input := Delivery(Event(1, Scored(Sold(price))));
    run := [] + [input];
    RunSnoc(MARK_KEPT, ALL_WORKS, [], input, 0);
    var s := After(ALL_WORKS, run);
    assert s.recorded == [Sold(price)] && s.up && s.marks == {1};
    SoldIsKnown(ALL_WORKS, s, price);
    CorruptReferenceMeaning(ALL_WORKS, s, ASKED.payload.request, price);
    assert ReadsCorrupt(ALL_WORKS, s, Sold(price), price);
  }

  /** The ValueError stays out of reach exactly when no producer announces a price of zero or less. */
  lemma PositivePricesAreNeeded(prices: iset<int>)
    ensures NeverRaises(prices) <==> forall price :: price in prices ==> price > 0
  {
    if price :| price in prices && price <= 0 {
      var run := CorruptPriceRaises(price);
      assert RecordsOnly(prices, ALL_WORKS, run);
      assert !NeverRaises(prices);
    } else {
      forall setting: Setting, run: seq<Input>, e: Event, price: int |
        && Legal(setting, run) && Enabled(After(setting, run), Delivery(e)) && RecordsOnly(prices, setting, run)
        ensures DeliveryOutcome(setting, After(setting, run), e) != Raised(NonPositiveDetectedPrice(price))
      {
        PositivePricesNeverRaise(setting, run, e, price);
      }
    }
  }
}
