/** The bounded, in-memory projection of DEAL_SCORED, against the full history it was fed. */
module DealReferenceStore {
  import opened Prelude

  /** The scored-time facts one revalidation needs. */
  datatype DealReference = DealReference(deal: Uuid, listing: Uuid, marketplace: Marketplace, detectedPrice: int)

  // ---- The specification ---------------------------------------------------------------

  function Ids(refs: seq<DealReference>): set<Uuid> {
    if refs == [] then {} else {refs[0].deal} + Ids(refs[1..])
  }

  predicate DistinctIds(refs: seq<DealReference>) {
    refs == [] || (refs[0].deal !in Ids(refs[1..]) && DistinctIds(refs[1..]))
  }

  /** Each deal's last record, in the order of those records: what an unbounded store would hold. */
  function LastRecords(history: seq<DealReference>): (latest: seq<DealReference>)
    ensures Ids(latest) == Ids(history)
    ensures DistinctIds(latest)
  {
    if history == [] then []
    else if history[0].deal in Ids(history[1..]) then LastRecords(history[1..])
    else
      assert ([history[0]] + LastRecords(history[1..]))[1..] == LastRecords(history[1..]);
      [history[0]] + LastRecords(history[1..])
  }

  function Newest(refs: seq<DealReference>, cap: nat): seq<DealReference> {
    if |refs| <= cap then refs else refs[|refs| - cap..]
  }

  /** The last record of one deal in the whole history. */
  function LastRecordOf(history: seq<DealReference>, deal: Uuid): Option<DealReference> {
    if history == [] then None
    else if history[|history| - 1].deal == deal then Some(history[|history| - 1])
    else LastRecordOf(history[..|history| - 1], deal)
  }

  /** The deals recorded since the last record of `deal`. */
  function RecordedSince(history: seq<DealReference>, deal: Uuid): set<Uuid> {
    if history == [] || history[|history| - 1].deal == deal then {}
    else RecordedSince(history[..|history| - 1], deal) + {history[|history| - 1].deal}
  }

  /** What a store of `cap` entries may say about a deal: its last record, or nothing. */
  function Remembered(history: seq<DealReference>, deal: Uuid, cap: nat): Option<DealReference> {
    if |RecordedSince(history, deal)| < cap then LastRecordOf(history, deal) else None
  }

  // ---- Ordered-dictionary operations ---------------------------------------------------

  function Without(refs: seq<DealReference>, deal: Uuid): seq<DealReference> {
    if refs == [] then []
    else if refs[0].deal == deal then Without(refs[1..], deal)
    else [refs[0]] + Without(refs[1..], deal)
  }

  function Lookup(refs: seq<DealReference>, deal: Uuid): Option<DealReference> {
    if refs == [] then None
    else if refs[0].deal == deal then Some(refs[0])
    else Lookup(refs[1..], deal)
  }

  /** Assignment to a key: in place when present, at the end when new. */
  function Assigned(refs: seq<DealReference>, ref: DealReference): seq<DealReference> {
    if refs == [] then [ref]
    else if refs[0].deal == ref.deal then [ref] + refs[1..]
    else [refs[0]] + Assigned(refs[1..], ref)
  }

  lemma {:induction false} WithoutIds(refs: seq<DealReference>, deal: Uuid)
    ensures Ids(Without(refs, deal)) == Ids(refs) - {deal}
    ensures deal !in Ids(refs) ==> Without(refs, deal) == refs
    ensures DistinctIds(refs) ==> |Without(refs, deal)| >= |refs| - 1
  {
    if refs != [] {
      WithoutIds(refs[1..], deal);
      var rest := Without(refs[1..], deal);
      assert ([refs[0]] + rest)[1..] == rest;
    }
  }

  lemma {:induction false} WithoutConcat(a: seq<DealReference>, b: seq<DealReference>, deal: Uuid)
    ensures Without(a + b, deal) == Without(a, deal) + Without(b, deal)
  {
    if a == [] {
      assert a + b == b;
    } else {
      assert (a + b)[1..] == a[1..] + b;
      WithoutConcat(a[1..], b, deal);
    }
  }

  /** `d[k] = v` followed by `d.move_to_end(k)`. */
  lemma {:induction false} AssignThenMove(refs: seq<DealReference>, ref: DealReference)
    ensures Without(Assigned(refs, ref), ref.deal) == Without(refs, ref.deal)
    ensures Lookup(Assigned(refs, ref), ref.deal) == Some(ref)
  {
    if refs != [] {
      AssignThenMove(refs[1..], ref);
      if refs[0].deal == ref.deal {
        assert Assigned(refs, ref)[1..] == refs[1..];
      } else {
        assert Assigned(refs, ref)[1..] == Assigned(refs[1..], ref);
      }
    }
  }

  lemma {:induction false} IdsConcat(a: seq<DealReference>, b: seq<DealReference>)
    ensures Ids(a + b) == Ids(a) + Ids(b)
    ensures DistinctIds(a + b) ==> DistinctIds(b) && Ids(a) !! Ids(b)
  {
    if a == [] {
      assert a + b == b;
    } else {
      assert (a + b)[1..] == a[1..] + b;
      IdsConcat(a[1..], b);
    }
  }

  /** One more record moves its deal to the end. */
  lemma {:induction false} LastRecordsGrow(history: seq<DealReference>, ref: DealReference)
    ensures LastRecords(history + [ref]) == Without(LastRecords(history), ref.deal) + [ref]
  {
    if history == [] {
      assert history + [ref] == [ref];
    } else {
      var tail := history[1..];
      assert (history + [ref])[1..] == tail + [ref];
      LastRecordsGrow(tail, ref);
      IdsConcat(tail, [ref]);
      WithoutIds(LastRecords(tail), ref.deal);
      assert ([history[0]] + LastRecords(tail))[1..] == LastRecords(tail);
      assert [history[0]] + (Without(LastRecords(tail), ref.deal) + [ref])
          == ([history[0]] + Without(LastRecords(tail), ref.deal)) + [ref];
    }
  }

  /** Forgetting the overflow early changes nothing later. */
  lemma NewestAbsorbs(latest: seq<DealReference>, ref: DealReference, cap: nat)
    requires DistinctIds(latest)
    ensures Newest(Without(Newest(latest, cap), ref.deal) + [ref], cap)
         == Newest(Without(latest, ref.deal) + [ref], cap)
  {
    if |latest| > cap {
      var gone, kept := latest[..|latest| - cap], latest[|latest| - cap..];
      assert latest == gone + kept;
      IdsConcat(gone, kept);
      WithoutConcat(gone, kept, ref.deal);
      WithoutIds(kept, ref.deal);
      var tail := Without(kept, ref.deal) + [ref];
      assert Without(latest, ref.deal) + [ref] == Without(gone, ref.deal) + tail;
      NewestOfTail(Without(gone, ref.deal), tail, cap);
    }
  }

  lemma NewestOfTail(head: seq<DealReference>, tail: seq<DealReference>, cap: nat)
    requires |tail| >= cap
    ensures Newest(head + tail, cap) == Newest(tail, cap)
  {
  }

  /** `record` before eviction: the kept entries, with the deal moved to the end. */
  lemma RecordIsNewest(kept: seq<DealReference>, history: seq<DealReference>, ref: DealReference, cap: nat)
    requires kept == Newest(LastRecords(history), cap)
    ensures Newest(Without(Assigned(kept, ref), ref.deal) + [ref], cap) == Newest(LastRecords(history + [ref]), cap)
  {
    AssignThenMove(kept, ref);
    NewestAbsorbs(LastRecords(history), ref, cap);
    LastRecordsGrow(history, ref);
  }

  // ---- What `get` returns --------------------------------------------------------------

  function After(refs: seq<DealReference>, deal: Uuid): seq<DealReference> {
    if refs == [] then []
    else if refs[0].deal == deal then refs[1..]
    else After(refs[1..], deal)
  }

  lemma {:induction false} LookupFinds(refs: seq<DealReference>, deal: Uuid)
    ensures Lookup(refs, deal).Some? <==> deal in Ids(refs)
    ensures deal in Ids(refs) ==> |After(refs, deal)| < |refs|
    ensures DistinctIds(refs) ==> DistinctIds(After(refs, deal))
  {
    if refs != [] {
      LookupFinds(refs[1..], deal);
    }
  }

  lemma {:induction false} LookupConcat(a: seq<DealReference>, b: seq<DealReference>, deal: Uuid)
    ensures Lookup(a + b, deal) == if deal in Ids(a) then Lookup(a, deal) else Lookup(b, deal)
    ensures After(a + b, deal) == if deal in Ids(a) then After(a, deal) + b else After(b, deal)
  {
    if a == [] {
      assert a + b == b;
    } else {
      assert (a + b)[1..] == a[1..] + b;
      LookupConcat(a[1..], b, deal);
    }
  }

  /** The newest entries hold a deal exactly when fewer than `cap` others came after it. */
  lemma NewestLookup(latest: seq<DealReference>, deal: Uuid, cap: nat)
    requires DistinctIds(latest)
    ensures Lookup(Newest(latest, cap), deal)
         == if |After(latest, deal)| < cap then Lookup(latest, deal) else None
  {
    var kept := Newest(latest, cap);
    var gone := latest[..|latest| - |kept|];
    assert latest == gone + kept;
    IdsConcat(gone, kept);
    LookupConcat(gone, kept, deal);
    LookupFinds(latest, deal);
    LookupFinds(gone, deal);
    LookupFinds(kept, deal);
  }

  lemma {:induction false} AfterMoves(refs: seq<DealReference>, ref: DealReference, deal: Uuid)
    requires deal != ref.deal && deal in Ids(refs)
    ensures After(Without(refs, ref.deal) + [ref], deal) == Without(After(refs, deal), ref.deal) + [ref]
  {
    var rest := Without(refs[1..], ref.deal);
    assert ([refs[0]] + rest + [ref])[1..] == rest + [ref];
    if refs[0].deal != deal {
      AfterMoves(refs[1..], ref, deal);
    }
  }

  lemma {:induction false} LookupMoves(refs: seq<DealReference>, ref: DealReference, deal: Uuid)
    ensures Lookup(Without(refs, ref.deal) + [ref], deal)
         == if deal == ref.deal then Some(ref) else Lookup(refs, deal)
  {
    if refs != [] {
      LookupMoves(refs[1..], ref, deal);
      if refs[0].deal != ref.deal {
        assert (Without(refs, ref.deal) + [ref])[1..] == Without(refs[1..], ref.deal) + [ref];
      }
    } else {
      assert Without(refs, ref.deal) + [ref] == [ref];
    }
  }

  lemma {:induction false} HistoryLookup(history: seq<DealReference>, deal: Uuid)
    ensures Lookup(LastRecords(history), deal) == LastRecordOf(history, deal)
    ensures deal in Ids(history) ==> Ids(After(LastRecords(history), deal)) == RecordedSince(history, deal)
  {
    if history != [] {
      var before, ref := history[..|history| - 1], history[|history| - 1];
      assert history == before + [ref];
      var latest := LastRecords(before);
      HistoryLookup(before, deal);
      LastRecordsGrow(before, ref);
      LookupMoves(latest, ref, deal);
      IdsConcat(before, [ref]);
      WithoutIds(latest, ref.deal);
      if deal == ref.deal {
        LookupConcat(Without(latest, deal), [ref], deal);
      } else if deal in Ids(before) {
        AfterMoves(latest, ref, deal);
        WithoutIds(After(latest, deal), ref.deal);
        IdsConcat(Without(After(latest, deal), ref.deal), [ref]);
      }
    }
  }

  lemma {:induction false} DistinctCount(refs: seq<DealReference>)
    requires DistinctIds(refs)
    ensures |Ids(refs)| == |refs|
  {
    if refs != [] {
      DistinctCount(refs[1..]);
    }
  }

  /**
    * The bounded store's answer in terms of the whole history: the deal's last record, if fewer
    * than `cap` distinct deals were recorded since, and nothing otherwise.  Never a guess.
    */
  lemma BoundedLookup(history: seq<DealReference>, deal: Uuid, cap: nat)
    ensures Lookup(Newest(LastRecords(history), cap), deal) == Remembered(history, deal, cap)
  {
    var latest := LastRecords(history);
    NewestLookup(latest, deal, cap);
    HistoryLookup(history, deal);
    LookupFinds(latest, deal);
    DistinctCount(After(latest, deal));
  }

  // ---- The store -----------------------------------------------------------------------

  /** `OrderedDict` plus cap; `history` is every payload ever recorded in this process. */
  class Store {
    const maxDeals: nat
    var references: seq<DealReference>
    ghost var history: seq<DealReference>

    ghost predicate Valid()
      reads this
    {
      references == Newest(LastRecords(history), maxDeals)
    }

    constructor (maxDeals: nat)
      ensures Valid() && history == [] && this.maxDeals == maxDeals
    {
      this.maxDeals := maxDeals;
      references := [];
      history := [];
    }

    /** Remember one DEAL_SCORED payload, newest last, evicting the oldest past the cap. */
    method Record(ref: DealReference)
      requires Valid()
      modifies this
      ensures Valid() && history == old(history) + [ref]
      ensures |references| <= maxDeals
    {
      RecordIsNewest(references, history, ref, maxDeals);
      references := Assigned(references, ref);
      references := Without(references, ref.deal) + [ref];
      history := history + [ref];
      while |references| > maxDeals
        invariant Newest(references, maxDeals) == Newest(LastRecords(history), maxDeals)
        invariant history == old(history) + [ref]
        decreases |references|
      {
        NewestOfTail(references[..1], references[1..], maxDeals);
        assert references == references[..1] + references[1..];
        references := references[1..];
      }
    }

    /** The last record of the deal in the full history, or nothing. */
    method Get(deal: Uuid) returns (ref: Option<DealReference>)
      requires Valid()
      ensures ref == Remembered(history, deal, maxDeals)
    {
      ref := Lookup(references, deal);
      BoundedLookup(history, deal, maxDeals);
    }
  }
}
