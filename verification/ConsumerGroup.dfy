/**
  * One consumer group over several event streams, and the read-handle-acknowledge loop of one
  * of its workers, while any number of other workers use the same group.
  */
module ConsumerGroup {
  import opened Prelude

  /** A stream name, standing for its event type. */
  type Stream = nat

  type Worker = nat

  /** An entry id: entries of one stream are numbered in order. */
  datatype Id = Id(stream: Stream, index: nat)

  /**
    * What `_parse` makes of an entry's field map.  `Undecodable` is one whose bytes are not
    * UTF-8: the UnicodeDecodeError is not among the exceptions `_parse` catches.
    */
  datatype Entry = Malformed | Undecodable | Envelope(event: Uuid)

  datatype ReceivedEvent = ReceivedEvent(id: Id, event: Uuid)

  type Streams = map<Stream, seq<Entry>>

  type Cursors = map<Stream, nat>

  /** Delivered entries and the worker each was delivered to. */
  type Holders = map<Id, Worker>

  // ---- The group, as Redis keeps it ----------------------------------------------------

  datatype Group = Group(streams: Streams, cursors: Cursors, pending: Holders, acked: Holders)

  /** `ensure_groups`: every group starts at id 0. */
  function Created(): Group { Group(map[], map[], map[], map[]) }

  function Entries(streams: Streams, stream: Stream): seq<Entry> {
    if stream in streams then streams[stream] else []
  }

  function Cursor(cursors: Cursors, stream: Stream): nat {
    if stream in cursors then cursors[stream] else 0
  }

  predicate Delivered(cursors: Cursors, id: Id) { id.index < Cursor(cursors, id.stream) }

  /** Delivered entries are the disjoint union of acknowledged and pending ones. */
  ghost predicate Partition(cursors: Cursors, pending: Holders, acked: Holders) {
    && (forall id :: id in pending ==> id !in acked)
    && (forall id :: id in pending || id in acked <==> Delivered(cursors, id))
  }

  ghost predicate InBounds(streams: Streams, cursors: Cursors) {
    forall stream :: stream in cursors ==> cursors[stream] <= |Entries(streams, stream)|
  }

  ghost predicate Conserved(g: Group) { Partition(g.cursors, g.pending, g.acked) && InBounds(g.streams, g.cursors) }

  datatype Command =
    | Append(stream: Stream, entry: Entry)
    | ReadNew(w: Worker, names: seq<Stream>, count: nat)
    | AckOwn(w: Worker, id: Id)

  /** Where the cursor of one stream goes: at most `count` entries on. */
  function Next(streams: Streams, cursors: Cursors, stream: Stream, count: nat): (next: nat)
    ensures Cursor(cursors, stream) <= next
  {
    var here, end := Cursor(cursors, stream), |Entries(streams, stream)|;
    if here + count < end then here + count else if here < end then end else here
  }

  function Range(stream: Stream, first: nat, last: nat): (ids: seq<Id>)
    requires first <= last
    decreases last - first
    ensures |ids| == last - first && forall k :: 0 <= k < |ids| ==> ids[k] == Id(stream, first + k)
  {
    if first == last then [] else [Id(stream, first)] + Range(stream, first + 1, last)
  }

  /** XREADGROUP with `>`: per stream, in the order asked, the next entries nobody was given. */
  function Batch(streams: Streams, cursors: Cursors, names: seq<Stream>, count: nat): seq<Id> {
    if names == [] then []
    else
      Range(names[0], Cursor(cursors, names[0]), Next(streams, cursors, names[0], count))
        + Batch(streams, cursors, names[1..], count)
  }

  function Advanced(streams: Streams, cursors: Cursors, names: seq<Stream>, count: nat): Cursors {
    cursors + (map s | s in names :: Next(streams, cursors, s, count))
  }

  function Given(pending: Holders, batch: seq<Id>, w: Worker): Holders {
    pending + (map id | id in batch :: w)
  }

  function Read(g: Group, w: Worker, names: seq<Stream>, count: nat): Group {
    g.(cursors := Advanced(g.streams, g.cursors, names, count),
       pending := Given(g.pending, Batch(g.streams, g.cursors, names, count), w))
  }

  function Acknowledge(g: Group, id: Id): Group
    requires id in g.pending
  {
    g.(pending := g.pending - {id}, acked := g.acked[id := g.pending[id]])
  }

  function Step(g: Group, c: Command): Group {
    match c
    case Append(stream, entry) => g.(streams := g.streams[stream := Entries(g.streams, stream) + [entry]])
    case ReadNew(w, names, count) => Read(g, w, names, count)
    case AckOwn(w, id) => if id in g.pending && g.pending[id] == w then Acknowledge(g, id) else g
  }

  /** A batch is exactly what lies between the old cursors and the new ones. */
  lemma {:induction false} BatchMeaning(streams: Streams, cursors: Cursors, names: seq<Stream>, count: nat, id: Id)
    ensures id in Batch(streams, cursors, names, count) <==>
            !Delivered(cursors, id) && Delivered(Advanced(streams, cursors, names, count), id)
  {
    BatchBounds(streams, cursors, names, count, id);
    var advanced := Advanced(streams, cursors, names, count);
    if id.stream in names {
      assert Cursor(advanced, id.stream) == Next(streams, cursors, id.stream, count);
    } else {
      assert Cursor(advanced, id.stream) == Cursor(cursors, id.stream);
    }
  }

  lemma {:induction false} BatchBounds(streams: Streams, cursors: Cursors, names: seq<Stream>, count: nat, id: Id)
    ensures id in Batch(streams, cursors, names, count) <==>
            id.stream in names && Cursor(cursors, id.stream) <= id.index < Next(streams, cursors, id.stream, count)
  {
    if names != [] {
      var here := Cursor(cursors, names[0]);
      var first := Range(names[0], here, Next(streams, cursors, names[0], count));
      if id.stream == names[0] && here <= id.index < Next(streams, cursors, id.stream, count) {
        assert first[id.index - here] == id;
      }
      BatchBounds(streams, cursors, names[1..], count, id);
    }
  }

  /**
    * A read is as large as it can be: of each stream asked for it delivers exactly the next
    * `count` entries, or as many as there are.
    */
  lemma ReadMeaning(g: Group, names: seq<Stream>, count: nat, id: Id)
    requires Conserved(g)
    ensures id in Batch(g.streams, g.cursors, names, count) <==>
            && id.stream in names && id.index < |Entries(g.streams, id.stream)|
            && !Delivered(g.cursors, id) && id.index < Cursor(g.cursors, id.stream) + count
  {
    BatchBounds(g.streams, g.cursors, names, count, id);
  }

  /** Entries of one stream come in their order. */
  lemma {:induction false} BatchInOrder(
    streams: Streams, cursors: Cursors, names: seq<Stream>, count: nat, i: nat, j: nat)
    requires Distinct(names)
    requires i < j < |Batch(streams, cursors, names, count)|
    requires Batch(streams, cursors, names, count)[i].stream == Batch(streams, cursors, names, count)[j].stream
    ensures Batch(streams, cursors, names, count)[i].index < Batch(streams, cursors, names, count)[j].index
  {
    var first := Range(names[0], Cursor(cursors, names[0]), Next(streams, cursors, names[0], count));
    var rest := Batch(streams, cursors, names[1..], count);
    if |first| <= i {
      BatchInOrder(streams, cursors, names[1..], count, i - |first|, j - |first|);
    } else if |first| <= j {
      BatchBounds(streams, cursors, names[1..], count, rest[j - |first|]);
    }
  }

  lemma OnlyAdvances(streams: Streams, cursors: Cursors, names: seq<Stream>, count: nat, id: Id)
    requires Delivered(cursors, id)
    ensures Delivered(Advanced(streams, cursors, names, count), id)
  {
  }

  lemma ReadKeepsPartition(streams: Streams, cursors: Cursors, pending: Holders, acked: Holders,
                           w: Worker, names: seq<Stream>, count: nat)
    requires Partition(cursors, pending, acked)
    ensures Partition(Advanced(streams, cursors, names, count),
                      Given(pending, Batch(streams, cursors, names, count), w), acked)
  {
    var batch, advanced := Batch(streams, cursors, names, count), Advanced(streams, cursors, names, count);
    var given := Given(pending, batch, w);
    forall id
      ensures id in given ==> id !in acked
      ensures id in given || id in acked <==> Delivered(advanced, id)
    {
      BatchMeaning(streams, cursors, names, count, id);
      if Delivered(cursors, id) {
        OnlyAdvances(streams, cursors, names, count, id);
      }
    }
  }

  lemma ReadKeepsBounds(streams: Streams, cursors: Cursors, names: seq<Stream>, count: nat)
    requires InBounds(streams, cursors)
    ensures InBounds(streams, Advanced(streams, cursors, names, count))
  {
  }

  lemma ReadKeeps(g: Group, w: Worker, names: seq<Stream>, count: nat)
    requires Conserved(g)
    ensures Conserved(Read(g, w, names, count))
  {
    ReadKeepsPartition(g.streams, g.cursors, g.pending, g.acked, w, names, count);
    ReadKeepsBounds(g.streams, g.cursors, names, count);
  }

  lemma AcknowledgeKeeps(g: Group, id: Id)
    requires Conserved(g) && id in g.pending
    ensures Conserved(Acknowledge(g, id))
  {
  }

  lemma AppendKeeps(streams: Streams, cursors: Cursors, stream: Stream, entry: Entry)
    requires InBounds(streams, cursors)
    ensures InBounds(streams[stream := Entries(streams, stream) + [entry]], cursors)
  {
  }

  /** No command of any worker breaks the conservation of entries. */
  lemma StepKeeps(g: Group, c: Command)
    requires Conserved(g)
    ensures Conserved(Step(g, c))
  {
    match c
    case Append(stream, entry) => AppendKeeps(g.streams, g.cursors, stream, entry);
    case ReadNew(w, names, count) => ReadKeeps(g, w, names, count);
    case AckOwn(w, id) =>
      if id in g.pending {
        AcknowledgeKeeps(g, id);
      }
  }

  // ---- Every run of the group ----------------------------------------------------------

  /** The group after the first `k` commands of the run. */
  function At(run: seq<Command>, k: nat): Group
    requires k <= |run|
  {
    if k == 0 then Created() else Step(At(run, k - 1), run[k - 1])
  }

  /** For any number of workers, in any interleaving: delivered is acknowledged plus pending. */
  lemma {:induction false} RunKeeps(run: seq<Command>, k: nat)
    requires k <= |run|
    ensures Conserved(At(run, k))
  {
    if k > 0 {
      RunKeeps(run, k - 1);
      StepKeeps(At(run, k - 1), run[k - 1]);
    }
  }

  /** What the `k`-th command of the run delivered. */
  function DeliveredBy(run: seq<Command>, k: nat): seq<Id>
    requires k < |run|
  {
    var g := At(run, k);
    if run[k].ReadNew? then Batch(g.streams, g.cursors, run[k].names, run[k].count) else []
  }

  lemma StepOnlyAdvances(g: Group, c: Command, id: Id)
    requires Delivered(g.cursors, id)
    ensures Delivered(Step(g, c).cursors, id)
  {
    if c.ReadNew? {
      OnlyAdvances(g.streams, g.cursors, c.names, c.count, id);
    }
  }

  lemma {:induction false} StaysDelivered(run: seq<Command>, j: nat, k: nat, id: Id)
    requires j <= k <= |run| && Delivered(At(run, j).cursors, id)
    ensures Delivered(At(run, k).cursors, id)
  {
    if j < k {
      StaysDelivered(run, j, k - 1, id);
      StepOnlyAdvances(At(run, k - 1), run[k - 1], id);
    }
  }

  lemma DeliveredFromThenOn(run: seq<Command>, j: nat, id: Id) returns (m: nat)
    requires j < |run|
    ensures m == j + 1 && (id in DeliveredBy(run, j) ==> Delivered(At(run, m).cursors, id))
  {
    m := j + 1;
    var g := At(run, j);
    if run[j].ReadNew? {
      BatchMeaning(g.streams, g.cursors, run[j].names, run[j].count, id);
    }
  }

  lemma NeverAgain(run: seq<Command>, k: nat, id: Id)
    requires k < |run| && Delivered(At(run, k).cursors, id)
    ensures id !in DeliveredBy(run, k)
  {
    var g := At(run, k);
    if run[k].ReadNew? {
      BatchMeaning(g.streams, g.cursors, run[k].names, run[k].count, id);
    }
  }

  lemma NeverAfter(run: seq<Command>, m: nat, k: nat, id: Id)
    requires m <= k < |run| && Delivered(At(run, m).cursors, id)
    ensures id !in DeliveredBy(run, k)
  {
    StaysDelivered(run, m, k, id);
    NeverAgain(run, k, id);
  }

  /** Whichever workers read, no entry is delivered by two reads. */
  lemma DeliveriesAreDisjoint(run: seq<Command>, j: nat, k: nat, id: Id)
    requires j < k < |run| && id in DeliveredBy(run, j)
    ensures id !in DeliveredBy(run, k)
  {
    var m := DeliveredFromThenOn(run, j, id);
    NeverAfter(run, m, k, id);
  }

  // ---- What other workers may do meanwhile ---------------------------------------------

  function HeldBy(holders: Holders, w: Worker): set<Id> { set id | id in holders && holders[id] == w }

  predicate Extends(streams: Streams, streams': Streams) {
    forall stream :: stream in streams ==> streams[stream] <= Entries(streams', stream)
  }

  /** Streams only grow, and entries delivered to `w` keep their place. */
  ghost predicate Undisturbed(g: Group, g': Group, w: Worker) {
    && Conserved(g') && Extends(g.streams, g'.streams)
    && HeldBy(g'.pending, w) == HeldBy(g.pending, w) && HeldBy(g'.acked, w) == HeldBy(g.acked, w)
  }

  predicate ByOthers(c: Command, w: Worker) { c.Append? || c.w != w }

  lemma GivenToOther(cursors: Cursors, pending: Holders, acked: Holders, streams: Streams,
                     names: seq<Stream>, count: nat, other: Worker, w: Worker)
    requires Partition(cursors, pending, acked)
    ensures var given := HeldBy(Given(pending, Batch(streams, cursors, names, count), other), w);
            given
              == HeldBy(pending, w)
                 + (if w == other then (set id | id in Batch(streams, cursors, names, count)) else {})
  {
    var batch := Batch(streams, cursors, names, count);
    forall id | id in batch
      ensures id !in pending
    {
      BatchMeaning(streams, cursors, names, count, id);
    }
  }

  lemma SettledByOther(pending: Holders, acked: Holders, id: Id, w: Worker)
    requires id in pending && id !in acked && pending[id] != w
    ensures HeldBy(pending - {id}, w) == HeldBy(pending, w)
    ensures HeldBy(acked[id := pending[id]], w) == HeldBy(acked, w)
  {
  }

  lemma Grows(streams: Streams, stream: Stream, entry: Entry)
    ensures Extends(streams, streams[stream := Entries(streams, stream) + [entry]])
  {
  }

  lemma OthersLeaveAlone(g: Group, c: Command, w: Worker)
    requires Conserved(g) && ByOthers(c, w)
    ensures Undisturbed(g, Step(g, c), w)
  {
    StepKeeps(g, c);
    match c
    case Append(stream, entry) => Grows(g.streams, stream, entry);
    case ReadNew(v, names, count) =>
      GivenToOther(g.cursors, g.pending, g.acked, g.streams, names, count, v, w);
    case AckOwn(v, id) =>
      if id in g.pending && g.pending[id] == v {
        SettledByOther(g.pending, g.acked, id, w);
      }
  }

  // ---- Parsing a response --------------------------------------------------------------

  type Response = seq<(Id, Entry)>

  /** The entries behind a batch of ids. */
  function Fetched(streams: Streams, batch: seq<Id>): (response: Response)
    ensures |response| == |batch|
  {
    if batch == [] then []
    else
      var id := batch[|batch| - 1];
      var entries := Entries(streams, id.stream);
      Fetched(streams, batch[..|batch| - 1]) + [(id, if id.index < |entries| then entries[id.index] else Malformed)]
  }

  function ResponseIds(response: Response): (ids: seq<Id>)
    ensures |ids| == |response|
  {
    if response == [] then []
    else ResponseIds(response[..|response| - 1]) + [response[|response| - 1].0]
  }

  /** The well-formed entries of a response, in delivery order. */
  function Parsed(response: Response): seq<ReceivedEvent> {
    if response == [] then []
    else
      var (id, entry) := response[|response| - 1];
      var before := Parsed(response[..|response| - 1]);
      if entry.Envelope? then before + [ReceivedEvent(id, entry.event)] else before
  }

  /** Every well-formed entry yields its event under its id, and nothing else yields one. */
  lemma {:induction false} ParsedMeaning(response: Response, event: ReceivedEvent)
    ensures event in Parsed(response) <==> (event.id, Envelope(event.event)) in response
  {
    if response != [] {
      var before := response[..|response| - 1];
      var (id, entry) := response[|response| - 1];
      ParsedMeaning(before, event);
      assert response == before + [(id, entry)];
      if entry.Envelope? {
        assert Parsed(response) == Parsed(before) + [ReceivedEvent(id, entry.event)];
      }
    }
  }

  /** How many entries are parsed before one raises, if one does. */
  function Decoded(response: Response): (n: nat)
    ensures n <= |response|
  {
    if response == [] then 0
    else
      var n := Decoded(response[..|response| - 1]);
      if n == |response| - 1 && !response[n].1.Undecodable? then n + 1 else n
  }

  lemma {:induction false} DecodedMeaning(response: Response)
    ensures var n := Decoded(response);
            && (forall k :: 0 <= k < n ==> !response[k].1.Undecodable?)
            && (n < |response| ==> response[n].1.Undecodable?)
  {
    if response != [] {
      DecodedMeaning(response[..|response| - 1]);
    }
  }

  predicate Decodable(response: Response) { Decoded(response) == |response| }

  /** The first entry that raises ends it. */
  lemma StopsDecoding(response: Response, i: nat)
    requires i < |response| && Decodable(response[..i]) && response[i].1.Undecodable?
    ensures Decoded(response) == i
  {
    DecodedMeaning(response);
    DecodedMeaning(response[..i]);
    assert forall k :: 0 <= k < i ==> response[..i][k] == response[k];
  }

  /** One command of a worker and its reply. */
  datatype Exchange = Got(names: seq<Stream>, count: nat, response: Response) | Sent(id: Id)

  /** The acknowledgements `_parse` sends for a response. */
  function Drops(response: Response): seq<Exchange> {
    if response == [] then []
    else
      var (id, entry) := response[|response| - 1];
      var before := Drops(response[..|response| - 1]);
      if entry.Malformed? then before + [Sent(id)] else before
  }

  function Acks(events: seq<ReceivedEvent>): seq<Exchange> {
    if events == [] then [] else Acks(events[..|events| - 1]) + [Sent(events[|events| - 1].id)]
  }

  predicate Distinct<T(==)>(s: seq<T>) { forall i, j :: 0 <= i < j < |s| ==> s[i] != s[j] }

  lemma ResponseSnoc(response: Response, last: (Id, Entry))
    ensures ResponseIds(response + [last]) == ResponseIds(response) + [last.0]
  {
    assert (response + [last])[..|response|] == response;
  }

  lemma {:induction false} FetchedIds(streams: Streams, batch: seq<Id>)
    ensures ResponseIds(Fetched(streams, batch)) == batch
  {
    if batch != [] {
      var before := batch[..|batch| - 1];
      FetchedIds(streams, before);
      var all := Fetched(streams, batch);
      ResponseSnoc(Fetched(streams, before), all[|all| - 1]);
    }
  }

  /** A reply carries the entries behind the ids, as they stand in the streams. */
  lemma {:induction false} FetchedMeaning(streams: Streams, batch: seq<Id>, k: nat)
    requires k < |batch| && batch[k].index < |Entries(streams, batch[k].stream)|
    ensures Fetched(streams, batch)[k] == (batch[k], Entries(streams, batch[k].stream)[batch[k].index])
  {
    if k < |batch| - 1 {
      FetchedMeaning(streams, batch[..|batch| - 1], k);
    }
  }

  lemma {:induction false} BatchDistinct(streams: Streams, cursors: Cursors, names: seq<Stream>, count: nat)
    requires Distinct(names)
    ensures Distinct(Batch(streams, cursors, names, count))
  {
    if names != [] {
      var first := Range(names[0], Cursor(cursors, names[0]), Next(streams, cursors, names[0], count));
      var rest := Batch(streams, cursors, names[1..], count);
      BatchDistinct(streams, cursors, names[1..], count);
      forall k | 0 <= k < |rest|
        ensures rest[k].stream != names[0]
      {
        BatchBounds(streams, cursors, names[1..], count, rest[k]);
      }
    }
  }

  /** `dict.fromkeys`: first occurrences, in order. */
  function FromKeys(names: seq<Stream>): (keys: seq<Stream>)
    ensures Distinct(keys)
    ensures forall name :: name in keys <==> name in names
  {
    if names == [] then []
    else
      var before, last := FromKeys(names[..|names| - 1]), names[|names| - 1];
      assert names == names[..|names| - 1] + [last];
      if last in before then before else before + [last]
  }

  // ---- A worker's transcript against the group's books ----------------------------------

  function Taken(steps: seq<Exchange>): seq<Id> {
    if steps == [] then []
    else
      var before, last := steps[..|steps| - 1], steps[|steps| - 1];
      if last.Got? then Taken(before) + ResponseIds(last.response) else Taken(before)
  }

  function Returned(steps: seq<Exchange>): seq<Id> {
    if steps == [] then []
    else
      var before, last := steps[..|steps| - 1], steps[|steps| - 1];
      if last.Sent? then Returned(before) + [last.id] else Returned(before)
  }

  /** Distinct streams are asked for, and only entries received earlier are acknowledged. */
  predicate Sane(steps: seq<Exchange>) {
    steps == []
    || var before, last := steps[..|steps| - 1], steps[|steps| - 1];
       && Sane(before)
       && (last.Got? ==> Distinct(last.names))
       && (last.Sent? ==> last.id in Taken(before))
  }

  /** In the first `k` commands of this run, worker `w` had exactly this transcript. */
  predicate Executes(run: seq<Command>, k: nat, w: Worker, steps: seq<Exchange>)
    requires k <= |run|
  {
    if k == 0 then steps == []
    else
      var c := run[k - 1];
      if ByOthers(c, w) then Executes(run, k - 1, w, steps)
      else
        && steps != [] && Executes(run, k - 1, w, steps[..|steps| - 1])
        && match c
           case ReadNew(_, names, count) =>
             steps[|steps| - 1] == Got(names, count, Fetched(At(run, k - 1).streams, DeliveredBy(run, k - 1)))
           case AckOwn(_, id) => steps[|steps| - 1] == Sent(id)
  }

  /** A worker's own view of what it was given and acknowledged, against the group's books. */
  ghost predicate Accounts(g: Group, w: Worker, taken: seq<Id>, returned: seq<Id>) {
    && Distinct(taken)
    && (forall id :: id in returned ==> id in taken)
    && (forall id :: id in g.acked && g.acked[id] == w <==> id in returned)
    && (forall id :: id in g.pending && g.pending[id] == w <==> id in taken && id !in returned)
  }

  lemma AccountsUndisturbed(g: Group, g': Group, w: Worker, taken: seq<Id>, returned: seq<Id>)
    requires Undisturbed(g, g', w) && Accounts(g, w, taken, returned)
    ensures Accounts(g', w, taken, returned)
  {
    forall id
      ensures id in g'.acked && g'.acked[id] == w <==> id in g.acked && g.acked[id] == w
      ensures id in g'.pending && g'.pending[id] == w <==> id in g.pending && g.pending[id] == w
    {
      assert id in HeldBy(g'.acked, w) <==> id in HeldBy(g.acked, w);
      assert id in HeldBy(g'.pending, w) <==> id in HeldBy(g.pending, w);
    }
  }

  lemma DistinctExtends(taken: seq<Id>, batch: seq<Id>)
    requires Distinct(taken) && Distinct(batch) && forall id :: id in batch ==> id !in taken
    ensures Distinct(taken + batch)
  {
    assert forall k :: 0 <= k < |batch| ==> batch[k] in batch && batch[k] !in taken;
  }

  lemma PendingGrows(pending: Holders, batch: seq<Id>, w: Worker, taken: seq<Id>, returned: seq<Id>)
    requires forall id :: id in pending && pending[id] == w <==> id in taken && id !in returned
    requires forall id :: id in batch ==> id !in taken && id !in returned
    ensures forall id :: id in Given(pending, batch, w) && Given(pending, batch, w)[id] == w <==>
                         id in taken + batch && id !in returned
  {
  }

  lemma AccountsRead(g: Group, w: Worker, taken: seq<Id>, returned: seq<Id>, names: seq<Stream>, count: nat)
    requires Conserved(g) && Distinct(names) && Accounts(g, w, taken, returned)
    ensures Accounts(Read(g, w, names, count), w, taken + Batch(g.streams, g.cursors, names, count), returned)
  {
    var batch := Batch(g.streams, g.cursors, names, count);
    BatchDistinct(g.streams, g.cursors, names, count);
    forall id | id in batch
      ensures id !in taken && id !in returned
    {
      BatchBounds(g.streams, g.cursors, names, count, id);
      assert id !in g.pending && id !in g.acked;
    }
    DistinctExtends(taken, batch);
    PendingGrows(g.pending, batch, w, taken, returned);
  }

  lemma AccountsAck(g: Group, w: Worker, taken: seq<Id>, returned: seq<Id>, id: Id)
    requires Conserved(g) && Accounts(g, w, taken, returned) && id in taken
    ensures Accounts(Step(g, AckOwn(w, id)), w, taken, returned + [id])
  {
  }

  /**
    * In every run of the group, whatever other workers do in it: acknowledged by `w` is what it
    * asked to acknowledge, and pending on `w` is whatever else it was given.
    */
  lemma {:induction false} EveryRunAccounts(run: seq<Command>, k: nat, w: Worker, steps: seq<Exchange>)
    requires k <= |run| && Executes(run, k, w, steps) && Sane(steps)
    ensures Accounts(At(run, k), w, Taken(steps), Returned(steps))
  {
    if k > 0 {
      var c, g := run[k - 1], At(run, k - 1);
      RunKeeps(run, k - 1);
      if ByOthers(c, w) {
        EveryRunAccounts(run, k - 1, w, steps);
        OthersLeaveAlone(g, c, w);
        AccountsUndisturbed(g, Step(g, c), w, Taken(steps), Returned(steps));
      } else {
        var earlier := steps[..|steps| - 1];
        EveryRunAccounts(run, k - 1, w, earlier);
        if c.ReadNew? {
          AccountsRead(g, w, Taken(earlier), Returned(earlier), c.names, c.count);
          FetchedIds(g.streams, Batch(g.streams, g.cursors, c.names, c.count));
        } else {
          AccountsAck(g, w, Taken(earlier), Returned(earlier), c.id);
        }
      }
    }
  }

  // ---- The consumer --------------------------------------------------------------------

  /** The Redis client: what the server replies is up to the group, the log is ours. */
  class Redis {
    const replies: nat -> Response
    var reading: nat
    var steps: seq<Exchange>

    constructor (replies: nat -> Response)
      ensures this.replies == replies && reading == 0 && steps == []
    {
      this.replies := replies;
      reading := 0;
      steps := [];
    }

    method XReadGroup(names: seq<Stream>, count: nat) returns (response: Response)
      modifies this
      ensures response == replies(old(reading)) && reading == old(reading) + 1
      ensures steps == old(steps) + [Got(names, count, response)]
    {
      response := replies(reading);
      reading := reading + 1;
      steps := steps + [Got(names, count, response)];
    }

    method XAck(id: Id)
      modifies this
      ensures steps == old(steps) + [Sent(id)] && reading == old(reading)
    {
      steps := steps + [Sent(id)];
    }
  }

  lemma ParseStep(response: Response, i: nat)
    requires i < |response|
    ensures var (id, entry) := response[i];
            && Drops(response[..i + 1]) == (if entry.Malformed? then Drops(response[..i]) + [Sent(id)]
                                            else Drops(response[..i]))
            && Parsed(response[..i + 1]) == (if entry.Envelope?
                                             then Parsed(response[..i]) + [ReceivedEvent(id, entry.event)]
                                             else Parsed(response[..i]))
            && (Decodable(response[..i]) && !entry.Undecodable? ==> Decodable(response[..i + 1]))
  {
    assert response[..i + 1][..i] == response[..i];
  }

  lemma AckStep(events: seq<ReceivedEvent>, i: nat)
    requires i < |events|
    ensures Acks(events[..i + 1]) == Acks(events[..i]) + [Sent(events[i].id)]
  {
    assert events[..i + 1][..i] == events[..i];
  }

  function ParsedAll(responses: seq<Response>): seq<ReceivedEvent> {
    if responses == [] then []
    else ParsedAll(responses[..|responses| - 1]) + Parsed(responses[|responses| - 1])
  }

  /** One batch of which `n` events were handled: the read, the drops, the acknowledgements. */
  function Block(names: seq<Stream>, count: nat, response: Response, n: nat): seq<Exchange>
    requires n <= |Parsed(response)|
  {
    [Got(names, count, response)] + Drops(response) + Acks(Parsed(response)[..n])
  }

  /** A batch of which an entry raised while it was read: the entries before it are parsed or dropped. */
  function Broken(names: seq<Stream>, count: nat, response: Response): seq<Exchange> {
    [Got(names, count, response)] + Drops(response[..Decoded(response)])
  }

  /** The transcript of fully handled batches. */
  function Transcript(names: seq<Stream>, count: nat, responses: seq<Response>): seq<Exchange> {
    if responses == [] then []
    else
      var last := responses[|responses| - 1];
      Transcript(names, count, responses[..|responses| - 1]) + Block(names, count, last, |Parsed(last)|)
  }

  lemma OneMore(names: seq<Stream>, count: nat, responses: seq<Response>, response: Response)
    ensures ParsedAll(responses + [response]) == ParsedAll(responses) + Parsed(response)
    ensures Transcript(names, count, responses + [response])
         == Transcript(names, count, responses) + Block(names, count, response, |Parsed(response)|)
  {
    assert (responses + [response])[..|responses|] == responses;
  }

  lemma RoundAdds(was: seq<ReceivedEvent>, asked: seq<Exchange>, names: seq<Stream>, count: nat,
                  responses: seq<Response>, response: Response)
    ensures was + ParsedAll(responses + [response]) == was + ParsedAll(responses) + Parsed(response)
    ensures |ParsedAll(responses + [response])| == |ParsedAll(responses)| + |Parsed(response)|
    ensures asked + Transcript(names, count, responses + [response])
         == asked + Transcript(names, count, responses) + Block(names, count, response, |Parsed(response)|)
  {
    OneMore(names, count, responses, response);
    Associates(was, ParsedAll(responses), Parsed(response));
    Associates(asked, Transcript(names, count, responses), Block(names, count, response, |Parsed(response)|));
  }

  /** The server's replies to reads number `first` and following, each of them readable to its end. */
  predicate Replied(replies: nat -> Response, first: nat, responses: seq<Response>) {
    forall i :: 0 <= i < |responses| ==> responses[i] == replies(first + i) && Decodable(responses[i])
  }

  lemma RepliedAdds(replies: nat -> Response, first: nat, responses: seq<Response>, response: Response)
    requires Replied(replies, first, responses)
    requires response == replies(first + |responses|) && Decodable(response)
    ensures Replied(replies, first, responses + [response])
  {
  }

  /** What ended a round with an exception: the handler, after so many events, or the read itself. */
  datatype Stop = HandlerRaised(handled: nat) | ReadRaised

  /** The read raises on an undecodable entry, the handler on one of the parsed events. */
  predicate Stopped(stop: Stop, response: Response) {
    match stop
    case HandlerRaised(n) => Decodable(response) && n < |Parsed(response)|
    case ReadRaised => !Decodable(response)
  }

  /** The events handed to the handler in a round that ended this way. */
  function Called(response: Response, stop: Stop): seq<ReceivedEvent>
    requires Stopped(stop, response)
  {
    if stop.ReadRaised? then [] else Parsed(response)[..stop.handled + 1]
  }

  /** What such a round sends. */
  function Exchanges(names: seq<Stream>, count: nat, response: Response, stop: Stop): seq<Exchange>
    requires Stopped(stop, response)
  {
    if stop.ReadRaised? then Broken(names, count, response) else Block(names, count, response, stop.handled)
  }

  /** `EventConsumer`: `raises(n)` says whether the handler's `n`-th call raises. */
  class EventConsumer {
    const redis: Redis
    const streams: seq<Stream>
    const batchSize: nat
    const raises: nat -> bool
    var calls: seq<ReceivedEvent>

    constructor (redis: Redis, streams: seq<Stream>, batchSize: nat, raises: nat -> bool)
      ensures this.redis == redis && this.streams == streams && this.batchSize == batchSize
      ensures this.raises == raises && calls == []
    {
      this.redis := redis;
      this.streams := streams;
      this.batchSize := batchSize;
      this.raises := raises;
      calls := [];
    }

    /** `_parse`: a malformed entry is acknowledged on the spot and yields nothing; an undecodable one raises. */
    method Parse(id: Id, entry: Entry) returns (event: Result<Option<ReceivedEvent>, ()>)
      modifies redis
      ensures event == match entry
                       case Malformed => Ok(None)
                       case Undecodable => Raise(())
                       case Envelope(e) => Ok(Some(ReceivedEvent(id, e)))
      ensures redis.steps == if entry.Malformed? then old(redis.steps) + [Sent(id)] else old(redis.steps)
      ensures redis.reading == old(redis.reading)
    {
      if entry.Undecodable? {
        return Raise(());
      }
      if entry.Malformed? {
        redis.XAck(id);
        return Ok(None);
      }
      return Ok(Some(ReceivedEvent(id, entry.event)));
    }

    /**
      * One batch: malformed entries are acknowledged and dropped, the rest returned in order.
      * An undecodable one raises, and takes what was parsed before it along.
      */
    method Read() returns (events: Result<seq<ReceivedEvent>, ()>)
      modifies redis
      ensures var response := redis.replies(old(redis.reading));
              && events == (if Decodable(response) then Ok(Parsed(response)) else Raise(()))
              && redis.steps == old(redis.steps) + [Got(FromKeys(streams), batchSize, response)]
                                + Drops(response[..Decoded(response)])
      ensures redis.reading == old(redis.reading) + 1
    {
      var response := redis.XReadGroup(FromKeys(streams), batchSize);
      ghost var asked := redis.steps;
      var parsed: seq<ReceivedEvent> := [];
      var i := 0;
      while i < |response|
        invariant 0 <= i <= |response| && Decodable(response[..i])
        invariant parsed == Parsed(response[..i])
        invariant redis.steps == asked + Drops(response[..i])
        invariant redis.reading == old(redis.reading) + 1
      {
        ParseStep(response, i);
        var event := Parse(response[i].0, response[i].1);
        if event.Raise? {
          StopsDecoding(response, i);
          return Raise(());
        }
        if event.value.Some? {
          parsed := parsed + [event.value.value];
        }
        i := i + 1;
      }
      assert response[..i] == response;
      return Ok(parsed);
    }

    /** Until this runs the event stays in the group's pending list. */
    method Ack(event: ReceivedEvent)
      modifies redis
      ensures redis.steps == old(redis.steps) + [Sent(event.id)] && redis.reading == old(redis.reading)
    {
      redis.XAck(event.id);
    }

    /** The inner loop: hand one batch to the handler until it raises. */
    method HandleBatch(events: seq<ReceivedEvent>) returns (handled: nat)
      modifies this, redis
      ensures handled <= |events| && redis.reading == old(redis.reading)
      ensures redis.steps == old(redis.steps) + Acks(events[..handled])
      ensures if handled == |events| then calls == old(calls) + events
              else calls == old(calls) + events[..handled + 1] && raises(|calls| - 1)
      ensures forall k :: |old(calls)| <= k < |calls| && raises(k) ==> handled < |events| && k == |calls| - 1
    {
      handled := 0;
      while handled < |events|
        invariant 0 <= handled <= |events| && redis.reading == old(redis.reading)
        invariant calls == old(calls) + events[..handled]
        invariant redis.steps == old(redis.steps) + Acks(events[..handled])
        invariant forall k :: |old(calls)| <= k < |calls| ==> !raises(k)
      {
        calls := calls + [events[handled]];
        if raises(|calls| - 1) {
          return;
        }
        Ack(events[handled]);
        AckStep(events, handled);
        handled := handled + 1;
      }
    }

    /** One round: read a batch and hand it to the handler. */
    method ReadAndHandle() returns (handled: nat, stop: Option<Stop>, ghost response: Response)
      modifies this, redis
      ensures response == redis.replies(old(redis.reading)) && redis.reading == old(redis.reading) + 1
      ensures stop.None? ==>
                && Decodable(response) && handled == |Parsed(response)| && calls == old(calls) + Parsed(response)
                && redis.steps == old(redis.steps) + Block(FromKeys(streams), batchSize, response, handled)
      ensures stop.Some? ==>
                && Stopped(stop.value, response) && calls == old(calls) + Called(response, stop.value)
                && redis.steps == old(redis.steps) + Exchanges(FromKeys(streams), batchSize, response, stop.value)
                && (stop.value.HandlerRaised? ==> calls != [] && raises(|calls| - 1))
      ensures forall k :: |old(calls)| <= k < |calls| && raises(k) ==>
                stop.Some? && stop.value.HandlerRaised? && k == |calls| - 1
    {
      response := redis.replies(redis.reading);
      ghost var names, before := FromKeys(streams), redis.steps;
      var events := Read();
      Associates(before, [Got(names, batchSize, response)], Drops(response[..Decoded(response)]));
      if events.Raise? {
        return 0, Some(ReadRaised), response;
      }
      assert response[..Decoded(response)] == response;
      handled := HandleBatch(events.value);
      Associates(before, Broken(names, batchSize, response), Acks(Parsed(response)[..handled]));
      if handled < |events.value| {
        return handled, Some(HandlerRaised(handled)), response;
      }
      assert Parsed(response)[..handled] == Parsed(response);
      return handled, None, response;
    }

    /**
      * `maxBatches` rounds, `full` being those handled completely.  An exception comes from the
      * handler, after so many events of the batch `last`, or from reading `last`.
      */
    method Consume(maxBatches: nat)
      returns (result: Result<nat, Stop>, ghost full: seq<Response>, ghost last: Response)
      modifies this, redis
      ensures Replied(redis.replies, old(redis.reading), full)
      ensures result.Ok? ==>
                && |full| == maxBatches && result.value == |ParsedAll(full)|
                && calls == old(calls) + ParsedAll(full)
                && redis.steps == old(redis.steps) + Transcript(FromKeys(streams), batchSize, full)
      ensures result.Raise? ==>
                && |full| < maxBatches && last == redis.replies(old(redis.reading) + |full|)
                && Stopped(result.error, last)
                && (result.error.HandlerRaised? ==> calls != [] && raises(|calls| - 1))
                && calls == old(calls) + ParsedAll(full) + Called(last, result.error)
                && redis.steps == old(redis.steps) + Transcript(FromKeys(streams), batchSize, full)
                                    + Exchanges(FromKeys(streams), batchSize, last, result.error)
      ensures forall k :: |old(calls)| <= k < |calls| && raises(k) ==>
                result.Raise? && result.error.HandlerRaised? && k == |calls| - 1
    {
      ghost var was, asked, names := calls, redis.steps, FromKeys(streams);
      var handled := 0;
      var batches := 0;
      full, last := [], [];
      while batches < maxBatches
        invariant batches == |full| <= maxBatches && redis.reading == old(redis.reading) + batches
        invariant Replied(redis.replies, old(redis.reading), full)
        invariant calls == was + ParsedAll(full) && handled == |ParsedAll(full)|
        invariant redis.steps == asked + Transcript(names, batchSize, full)
        invariant forall k :: |was| <= k < |calls| ==> !raises(k)
      {
        batches := batches + 1;
        var n, stop;
        n, stop, last := ReadAndHandle();
        handled := handled + n;
        if stop.Some? {
          return Raise(stop.value), full, last;
        }
        RoundAdds(was, asked, names, batchSize, full, last);
        RepliedAdds(redis.replies, old(redis.reading), full, last);
        full := full + [last];
      }
      return Ok(handled), full, last;
    }
  }

  // ---- What a consumer leaves pending --------------------------------------------------

  function DroppedIds(response: Response): seq<Id> {
    if response == [] then []
    else
      var (id, entry) := response[|response| - 1];
      var before := DroppedIds(response[..|response| - 1]);
      if entry.Malformed? then before + [id] else before
  }

  function EventIds(events: seq<ReceivedEvent>): (ids: seq<Id>)
    ensures |ids| == |events|
  {
    if events == [] then [] else EventIds(events[..|events| - 1]) + [events[|events| - 1].id]
  }

  lemma {:induction false} EveryEntryGoesSomewhere(response: Response, id: Id)
    requires Decodable(response)
    ensures id in ResponseIds(response) <==> id in DroppedIds(response) || id in EventIds(Parsed(response))
  {
    if response != [] {
      var before, last := response[..|response| - 1], response[|response| - 1];
      EveryEntryGoesSomewhere(before, id);
      if !last.1.Malformed? {
        assert Parsed(response)[..|Parsed(before)|] == Parsed(before);
      }
    }
  }

  /** With distinct ids no entry is both parsed and dropped, nor parsed twice. */
  lemma {:induction false} ParsedOnce(response: Response)
    requires Distinct(ResponseIds(response)) && Decodable(response)
    ensures Distinct(EventIds(Parsed(response)))
    ensures forall id :: id in DroppedIds(response) ==> id !in EventIds(Parsed(response))
  {
    if response != [] {
      var before, last := response[..|response| - 1], response[|response| - 1];
      var ids := ResponseIds(before);
      forall k | 0 <= k < |ids|
        ensures ids[k] == ResponseIds(response)[k] && ids[k] != last.0
      {
        assert ResponseIds(response)[|ids|] == last.0;
      }
      ParsedOnce(before);
      EveryEntryGoesSomewhere(before, last.0);
      if !last.1.Malformed? {
        assert Parsed(response)[..|Parsed(before)|] == Parsed(before);
        DistinctExtends(EventIds(Parsed(before)), [last.0]);
      }
    }
  }

  lemma {:induction false} StepsConcat(a: seq<Exchange>, b: seq<Exchange>)
    ensures Taken(a + b) == Taken(a) + Taken(b)
    ensures Returned(a + b) == Returned(a) + Returned(b)
  {
    if b == [] {
      assert a + b == a;
    } else {
      var init, last := b[..|b| - 1], b[|b| - 1];
      assert (a + b)[..|a + b| - 1] == a + init;
      StepsConcat(a, init);
      if last.Got? {
        Associates(Taken(a), Taken(init), ResponseIds(last.response));
      } else {
        Associates(Returned(a), Returned(init), [last.id]);
      }
    }
  }

  /** Acknowledging entries already received is sane. */
  lemma {:induction false} SaneAcks(a: seq<Exchange>, b: seq<Exchange>)
    requires Sane(a) && forall k :: 0 <= k < |b| ==> b[k].Sent? && b[k].id in Taken(a)
    ensures Sane(a + b) && Taken(a + b) == Taken(a)
  {
    if b == [] {
      assert a + b == a;
    } else {
      var init := b[..|b| - 1];
      assert (a + b)[..|a + b| - 1] == a + init;
      SaneAcks(a, init);
    }
  }

  lemma {:induction false} SaneReturns(steps: seq<Exchange>)
    requires Sane(steps)
    ensures forall id :: id in Returned(steps) ==> id in Taken(steps)
  {
    if steps != [] {
      SaneReturns(steps[..|steps| - 1]);
    }
  }

  lemma {:induction false} DropsReturn(response: Response)
    ensures Taken(Drops(response)) == [] && Returned(Drops(response)) == DroppedIds(response)
    ensures forall k :: 0 <= k < |Drops(response)| ==>
              Drops(response)[k].Sent? && Drops(response)[k].id in DroppedIds(response)
  {
    if response != [] {
      var before := response[..|response| - 1];
      DropsReturn(before);
      if response[|response| - 1].1.Malformed? {
        assert Drops(response)[..|Drops(before)|] == Drops(before);
      }
    }
  }

  lemma {:induction false} AcksReturn(events: seq<ReceivedEvent>)
    ensures Taken(Acks(events)) == [] && Returned(Acks(events)) == EventIds(events)
    ensures forall k :: 0 <= k < |Acks(events)| ==> Acks(events)[k].Sent? && Acks(events)[k].id in EventIds(events)
  {
    if events != [] {
      var before := events[..|events| - 1];
      AcksReturn(before);
      assert Acks(events)[..|Acks(before)|] == Acks(before);
    }
  }

  lemma {:induction false} PrefixIds(events: seq<ReceivedEvent>, n: nat)
    requires n <= |events|
    ensures EventIds(events[..n]) == EventIds(events)[..n]
  {
    if n < |events| {
      var before := events[..|events| - 1];
      PrefixIds(before, n);
      assert before[..n] == events[..n];
    } else {
      assert events[..n] == events;
    }
  }

  lemma GotAdds(steps: seq<Exchange>, names: seq<Stream>, count: nat, response: Response)
    requires Sane(steps) && Distinct(names)
    ensures var longer := steps + [Got(names, count, response)];
            && Sane(longer) && Taken(longer) == Taken(steps) + ResponseIds(response)
            && Returned(longer) == Returned(steps)
  {
    assert (steps + [Got(names, count, response)])[..|steps|] == steps;
  }

  lemma DropsAdd(steps: seq<Exchange>, response: Response)
    requires Sane(steps) && Decodable(response) && forall id :: id in ResponseIds(response) ==> id in Taken(steps)
    ensures var longer := steps + Drops(response);
            && Sane(longer) && Taken(longer) == Taken(steps)
            && Returned(longer) == Returned(steps) + DroppedIds(response)
  {
    DropsReturn(response);
    forall id | id in DroppedIds(response)
      ensures id in Taken(steps)
    {
      EveryEntryGoesSomewhere(response, id);
    }
    SaneAcks(steps, Drops(response));
    StepsConcat(steps, Drops(response));
  }

  lemma AcksAdd(steps: seq<Exchange>, response: Response, n: nat)
    requires Sane(steps) && Decodable(response) && n <= |Parsed(response)|
    requires forall id :: id in ResponseIds(response) ==> id in Taken(steps)
    ensures var longer := steps + Acks(Parsed(response)[..n]);
            && Sane(longer) && Taken(longer) == Taken(steps)
            && Returned(longer) == Returned(steps) + EventIds(Parsed(response))[..n]
  {
    var handled := Parsed(response)[..n];
    AcksReturn(handled);
    PrefixIds(Parsed(response), n);
    forall id | id in EventIds(handled)
      ensures id in Taken(steps)
    {
      EveryEntryGoesSomewhere(response, id);
    }
    SaneAcks(steps, Acks(handled));
    StepsConcat(steps, Acks(handled));
  }

  lemma Regroup<T>(a: seq<T>, b: seq<T>, c: seq<T>, d: seq<T>)
    ensures a + b + c + d == a + (b + c + d)
  {
  }

  /** What one batch, handled as far as event `n`, adds to a transcript. */
  lemma BlockAdds(steps: seq<Exchange>, names: seq<Stream>, count: nat, response: Response, n: nat)
    requires Sane(steps) && Distinct(names) && Decodable(response) && n <= |Parsed(response)|
    ensures var longer := steps + Block(names, count, response, n);
            && Sane(longer) && Taken(longer) == Taken(steps) + ResponseIds(response)
            && Returned(longer) == Returned(steps) + DroppedIds(response) + EventIds(Parsed(response))[..n]
  {
    var got := [Got(names, count, response)];
    GotAdds(steps, names, count, response);
    DropsAdd(steps + got, response);
    AcksAdd(steps + got + Drops(response), response, n);
    Regroup(steps, got, Drops(response), Acks(Parsed(response)[..n]));
  }

  /** Fully handled batches leave nothing pending. */
  lemma {:induction false} TranscriptSettles(names: seq<Stream>, count: nat, responses: seq<Response>)
    requires Distinct(names) && forall i :: 0 <= i < |responses| ==> Decodable(responses[i])
    ensures var steps := Transcript(names, count, responses);
            Sane(steps) && forall id :: id in Taken(steps) ==> id in Returned(steps)
  {
    if responses != [] {
      var full, last := responses[..|responses| - 1], responses[|responses| - 1];
      TranscriptSettles(names, count, full);
      BlockAdds(Transcript(names, count, full), names, count, last, |Parsed(last)|);
      forall id
        ensures id in ResponseIds(last) ==> id in DroppedIds(last) || id in EventIds(Parsed(last))
      {
        EveryEntryGoesSomewhere(last, id);
      }
    }
  }

  /** Of distinct entries, those neither dropped nor among the first `n` parsed are the rest. */
  lemma RestOfBatch(taken: seq<Id>, returned: seq<Id>, response: Response, n: nat, id: Id)
    requires Decodable(response) && n <= |Parsed(response)| && Distinct(taken + ResponseIds(response))
    requires forall id :: id in taken <==> id in returned
    ensures (id in taken + ResponseIds(response)
             && id !in returned + DroppedIds(response) + EventIds(Parsed(response))[..n])
       <==> id in EventIds(Parsed(response))[n..]
  {
    var ids, parsed := ResponseIds(response), EventIds(Parsed(response));
    forall i, j | 0 <= i < |taken| && 0 <= j < |ids|
      ensures taken[i] != ids[j]
    {
      assert (taken + ids)[i] != (taken + ids)[|taken| + j];
    }
    assert Distinct(ids) by {
      assert forall k :: 0 <= k < |ids| ==> ids[k] == (taken + ids)[|taken| + k];
    }
    ParsedOnce(response);
    EveryEntryGoesSomewhere(response, id);
    assert parsed == parsed[..n] + parsed[n..];
    forall i, j | 0 <= i < n && n <= j < |parsed|
      ensures parsed[i] != parsed[j]
    {
    }
  }

  /**
    * A worker whose handler raised on event `k` of a batch: in every run of the group in which
    * it did this, exactly that event and the parsed events behind it are pending on it, and
    * everything else it was given is acknowledged.
    */
  lemma RestStaysPending(run: seq<Command>, w: Worker, names: seq<Stream>, count: nat,
                         full: seq<Response>, last: Response, k: nat, id: Id)
    requires Distinct(names) && Decodable(last) && k <= |Parsed(last)|
    requires forall i :: 0 <= i < |full| ==> Decodable(full[i])
    requires Executes(run, |run|, w, Transcript(names, count, full) + Block(names, count, last, k))
    ensures var g := At(run, |run|);
            var rest := EventIds(Parsed(last))[k..];
            && (id in g.pending && g.pending[id] == w <==> id in rest)
            && (id in g.acked && g.acked[id] == w <==>
                id in Taken(Transcript(names, count, full)) + ResponseIds(last) && id !in rest)
  {
    var before := Transcript(names, count, full);
    var steps := before + Block(names, count, last, k);
    TranscriptSettles(names, count, full);
    BlockAdds(before, names, count, last, k);
    EveryRunAccounts(run, |run|, w, steps);
    SaneReturns(before);
    RestOfBatch(Taken(before), Returned(before), last, k, id);
  }

  lemma {:induction false} PrefixResponse(response: Response, n: nat)
    requires n <= |response|
    ensures ResponseIds(response[..n]) == ResponseIds(response)[..n]
  {
    if n < |response| {
      var before := response[..|response| - 1];
      PrefixResponse(before, n);
      assert before[..n] == response[..n];
    } else {
      assert response[..n] == response;
    }
  }

  /** What a batch that could not be read to its end adds to a transcript. */
  lemma BrokenAdds(steps: seq<Exchange>, names: seq<Stream>, count: nat, response: Response)
    requires Sane(steps) && Distinct(names)
    ensures var longer := steps + Broken(names, count, response);
            && Sane(longer) && Taken(longer) == Taken(steps) + ResponseIds(response)
            && Returned(longer) == Returned(steps) + DroppedIds(response[..Decoded(response)])
  {
    var got, read := [Got(names, count, response)], response[..Decoded(response)];
    GotAdds(steps, names, count, response);
    DecodedMeaning(response);
    DecodedMeaning(read);
    PrefixResponse(response, Decoded(response));
    assert forall id :: id in ResponseIds(read) ==> id in ResponseIds(response);
    DropsAdd(steps + got, read);
    Associates(steps, got, Drops(read));
  }

  /** Of distinct entries, those of the last batch that were not dropped. */
  lemma NotDropped(taken: seq<Id>, returned: seq<Id>, ids: seq<Id>, dropped: seq<Id>, id: Id)
    requires Distinct(taken + ids) && forall id :: id in taken <==> id in returned
    ensures id in taken + ids && id !in returned + dropped <==> id in ids && id !in dropped
  {
    forall i, j | 0 <= i < |taken| && 0 <= j < |ids|
      ensures taken[i] != ids[j]
    {
      assert (taken + ids)[i] != (taken + ids)[|taken| + j];
    }
  }

  /**
    * A worker that met an undecodable entry: in every run of the group in which it did, the
    * whole batch is pending on it, that entry, those behind it and the well-formed ones before
    * it alike, but for the malformed ones before it; everything else it was given is acknowledged.
    */
  lemma BatchStaysPending(run: seq<Command>, w: Worker, names: seq<Stream>, count: nat,
                          full: seq<Response>, last: Response, id: Id)
    requires Distinct(names) && forall i :: 0 <= i < |full| ==> Decodable(full[i])
    requires Executes(run, |run|, w, Transcript(names, count, full) + Broken(names, count, last))
    ensures var g := At(run, |run|);
            var dropped := DroppedIds(last[..Decoded(last)]);
            var rest := id in ResponseIds(last) && id !in dropped;
            && (id in g.pending && g.pending[id] == w <==> rest)
            && (id in g.acked && g.acked[id] == w <==>
                id in Taken(Transcript(names, count, full)) + ResponseIds(last) && !rest)
  {
    var before := Transcript(names, count, full);
    var steps := before + Broken(names, count, last);
    TranscriptSettles(names, count, full);
    BrokenAdds(before, names, count, last);
    EveryRunAccounts(run, |run|, w, steps);
    SaneReturns(before);
    SaneReturns(steps);
    NotDropped(Taken(before), Returned(before), ResponseIds(last), DroppedIds(last[..Decoded(last)]), id);
  }
}
