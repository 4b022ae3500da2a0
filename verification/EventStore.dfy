/** The Event Store: the append-only `events` table and the one worker that fills it. */
module EventStore {
  import opened Prelude

  /** `content` stands for every column but the key; `valid` for `validate_event` accepting it. */
  datatype Envelope = Envelope(eventId: Uuid, content: nat, valid: bool)

  datatype Row = Row(number: nat, envelope: Envelope)

  datatype PersistError = SchemaInvalid | CommitFailed

  // ---- First-occurrence de-duplication -------------------------------------------------

  function Ids(envelopes: seq<Envelope>): set<Uuid> {
    if envelopes == [] then {} else Ids(envelopes[..|envelopes| - 1]) + {envelopes[|envelopes| - 1].eventId}
  }

  function FirstOccurrences(envelopes: seq<Envelope>): seq<Envelope> {
    if envelopes == [] then []
    else
      var before, last := envelopes[..|envelopes| - 1], envelopes[|envelopes| - 1];
      if last.eventId in Ids(before) then FirstOccurrences(before) else FirstOccurrences(before) + [last]
  }

  /** Position `i` carries an event id no earlier position carries. */
  predicate IsFirst(envelopes: seq<Envelope>, i: nat)
    requires i < |envelopes|
  {
    forall j :: 0 <= j < i ==> envelopes[j].eventId != envelopes[i].eventId
  }

  lemma {:induction false} IdsMeaning(envelopes: seq<Envelope>, id: Uuid)
    ensures id in Ids(envelopes) <==> exists i :: 0 <= i < |envelopes| && envelopes[i].eventId == id
  {
    if envelopes != [] {
      IdsMeaning(envelopes[..|envelopes| - 1], id);
    }
  }

  lemma IdsGrow(envelopes: seq<Envelope>, e: Envelope)
    ensures Ids(envelopes + [e]) == Ids(envelopes) + {e.eventId}
    ensures FirstOccurrences(envelopes + [e])
         == if e.eventId in Ids(envelopes) then FirstOccurrences(envelopes) else FirstOccurrences(envelopes) + [e]
  {
    assert (envelopes + [e])[..|envelopes|] == envelopes;
  }

  lemma {:induction false} FirstOccurrencesIds(envelopes: seq<Envelope>)
    ensures Ids(FirstOccurrences(envelopes)) == Ids(envelopes)
  {
    if envelopes != [] {
      var before, last := envelopes[..|envelopes| - 1], envelopes[|envelopes| - 1];
      FirstOccurrencesIds(before);
      IdsGrow(FirstOccurrences(before), last);
    }
  }

  /** The first occurrences among the first `n` positions, in order. */
  function FirstPositions(envelopes: seq<Envelope>, n: nat): (at: seq<nat>)
    requires n <= |envelopes|
    ensures forall k :: 0 <= k < |at| ==> at[k] < n
    ensures forall j, k :: 0 <= j < k < |at| ==> at[j] < at[k]
    ensures forall i :: 0 <= i < n ==> (i in at <==> IsFirst(envelopes, i))
  {
    if n == 0 then []
    else
      var before := FirstPositions(envelopes, n - 1);
      if IsFirst(envelopes, n - 1) then before + [n - 1] else before
  }

  lemma PrefixIds(envelopes: seq<Envelope>, n: nat)
    requires n < |envelopes|
    ensures envelopes[n].eventId in Ids(envelopes[..n]) <==> !IsFirst(envelopes, n)
  {
    IdsMeaning(envelopes[..n], envelopes[n].eventId);
  }

  /** Exactly the first occurrence of every id, in the order they came. */
  lemma {:induction false} FirstOccurrencesMeaning(envelopes: seq<Envelope>, n: nat)
    requires n <= |envelopes|
    ensures var first, at := FirstOccurrences(envelopes[..n]), FirstPositions(envelopes, n);
            |first| == |at| && forall k :: 0 <= k < |at| ==> first[k] == envelopes[at[k]]
  {
    if n > 0 {
      FirstOccurrencesMeaning(envelopes, n - 1);
      PrefixIds(envelopes, n - 1);
      IdsGrow(envelopes[..n - 1], envelopes[n - 1]);
      assert envelopes[..n] == envelopes[..n - 1] + [envelopes[n - 1]];
    }
  }

  // ---- The table -----------------------------------------------------------------------

  function Envelopes(rows: seq<Row>): seq<Envelope> {
    if rows == [] then [] else Envelopes(rows[..|rows| - 1]) + [rows[|rows| - 1].envelope]
  }

  lemma EnvelopesGrow(rows: seq<Row>, row: Row)
    ensures Envelopes(rows + [row]) == Envelopes(rows) + [row.envelope]
  {
    assert (rows + [row])[..|rows|] == rows;
  }

  /** `seq` strictly increases and stays below the sequence's next value. */
  predicate Numbered(rows: seq<Row>, next: nat) {
    rows == []
    || (rows[|rows| - 1].number < next && Numbered(rows[..|rows| - 1], rows[|rows| - 1].number))
  }

  lemma {:induction false} NumberedLater(rows: seq<Row>, next: nat, later: nat)
    requires Numbered(rows, next) && next <= later
    ensures Numbered(rows, later)
  {
  }

  lemma {:induction false} NumberedMeaning(rows: seq<Row>, next: nat)
    requires Numbered(rows, next)
    ensures forall i :: 0 <= i < |rows| ==> rows[i].number < next
    ensures forall i, j :: 0 <= i < j < |rows| ==> rows[i].number < rows[j].number
  {
    if rows != [] {
      NumberedMeaning(rows[..|rows| - 1], rows[|rows| - 1].number);
    }
  }

  /** One connection: committed rows, the open transaction's insert, and the BIGSERIAL sequence. */
  class Connection {
    var rows: seq<Row>
    var inserted: Option<Row>
    var nextval: nat
    // Every envelope whose transaction committed, in commit order.
    ghost var persisted: seq<Envelope>

    ghost predicate Valid()
      reads this
    {
      && Numbered(rows, nextval) && Envelopes(rows) == FirstOccurrences(persisted)
      && (inserted.Some? ==>
            && inserted.value.envelope.eventId !in Ids(persisted)
            && inserted.value.number < nextval && Numbered(rows, inserted.value.number))
    }

    constructor ()
      ensures Valid() && rows == [] && persisted == [] && inserted == None
    {
      rows, inserted, nextval, persisted := [], None, 1, [];
    }

    method Commit(ghost envelope: Envelope)
      requires Valid()
      requires if inserted.Some? then inserted.value.envelope == envelope else envelope.eventId in Ids(persisted)
      modifies this
      ensures Valid() && persisted == old(persisted) + [envelope] && inserted == None
      ensures rows == if old(inserted).Some? then old(rows) + [old(inserted).value] else old(rows)
    {
      IdsGrow(persisted, envelope);
      if inserted.Some? {
        EnvelopesGrow(rows, inserted.value);
        assert (rows + [inserted.value])[..|rows|] == rows;
        rows := rows + [inserted.value];
      }
      persisted := persisted + [envelope];
      inserted := None;
    }

    /** The sequence is not rolled back: the number stays used. */
    method Rollback()
      requires Valid()
      modifies this
      ensures Valid() && inserted == None
      ensures rows == old(rows) && persisted == old(persisted)
    {
      inserted := None;
    }
  }

  class EventRepository {
    const conn: Connection

    constructor (conn: Connection)
      ensures this.conn == conn
    {
      this.conn := conn;
    }

    /** `ON CONFLICT (event_id) DO NOTHING RETURNING seq`; a conflict uses up a number too. */
    method Insert(envelope: Envelope) returns (number: Option<nat>)
      requires conn.Valid() && conn.inserted == None
      modifies conn
      ensures conn.Valid() && conn.rows == old(conn.rows) && conn.persisted == old(conn.persisted)
      ensures conn.nextval == old(conn.nextval) + 1
      ensures if envelope.eventId in Ids(old(conn.persisted))
              then number == None && conn.inserted == None
              else number == Some(old(conn.nextval)) && conn.inserted == Some(Row(old(conn.nextval), envelope))
    {
      var next := conn.nextval;
      conn.nextval := next + 1;
      NumberedLater(conn.rows, next, next + 1);
      FirstOccurrencesIds(conn.persisted);
      if envelope.eventId in Ids(Envelopes(conn.rows)) {
        return None;
      }
      conn.inserted := Some(Row(next, envelope));
      return Some(next);
    }
  }

  class EventStoreHandler {
    const conn: Connection
    const events: EventRepository

    constructor (conn: Connection)
      ensures this.conn == conn && events.conn == conn
    {
      this.conn := conn;
      events := new EventRepository(conn);
    }

    /** Validate, append, commit.  `commits` says whether the database accepts the commit. */
    method Persist(envelope: Envelope, commits: bool) returns (result: Result<Option<nat>, PersistError>)
      requires conn.Valid() && conn.inserted == None && events.conn == conn
      modifies conn
      ensures conn.Valid()
      ensures !envelope.valid ==> result == Raise(SchemaInvalid) && conn.rows == old(conn.rows)
                                  && conn.persisted == old(conn.persisted) && conn.nextval == old(conn.nextval)
      ensures envelope.valid && !commits ==> result == Raise(CommitFailed) && conn.rows == old(conn.rows)
                                             && conn.persisted == old(conn.persisted)
      ensures envelope.valid && commits ==>
                && conn.inserted == None && conn.persisted == old(conn.persisted) + [envelope]
                && (if envelope.eventId in Ids(old(conn.persisted))
                    then result == Ok(None) && conn.rows == old(conn.rows)
                    else result == Ok(Some(old(conn.nextval)))
                         && conn.rows == old(conn.rows) + [Row(old(conn.nextval), envelope)])
    {
      if !envelope.valid {
        return Raise(SchemaInvalid);
      }
      var number := events.Insert(envelope);
      if !commits {
        return Raise(CommitFailed);
      }
      conn.Commit(envelope);
      return Ok(number);
    }
  }

  // ---- One worker over any deliveries --------------------------------------------------

  /** Where the process dies while it has this delivery in hand, if it does. */
  datatype Crash = NoCrash | BeforePersist | InCommit | BeforeAck

  /** A delivery, or redelivery, of a stream entry. */
  datatype Delivery = Delivery(entry: nat, envelope: Envelope, crash: Crash)

  predicate Persists(d: Delivery) { d.envelope.valid && (d.crash == NoCrash || d.crash == BeforeAck) }

  predicate Acknowledges(d: Delivery) { d.envelope.valid && d.crash == NoCrash }

  function Persisted(script: seq<Delivery>): seq<Envelope> {
    if script == [] then []
    else
      var before, last := Persisted(script[..|script| - 1]), script[|script| - 1];
      if Persists(last) then before + [last.envelope] else before
  }

  function Acknowledged(script: seq<Delivery>): seq<Delivery> {
    if script == [] then []
    else
      var before, last := Acknowledged(script[..|script| - 1]), script[|script| - 1];
      if Acknowledges(last) then before + [last] else before
  }

  /** Whatever is delivered intact and meets no crash is acknowledged, and nothing else is. */
  lemma {:induction false} AcknowledgedMeaning(script: seq<Delivery>, d: Delivery)
    ensures d in Acknowledged(script) <==> d in script && d.envelope.valid && d.crash == NoCrash
  {
    if script != [] {
      AcknowledgedMeaning(script[..|script| - 1], d);
      assert script == script[..|script| - 1] + [script[|script| - 1]];
    }
  }

  /** What is stored: the valid envelopes whose commit came through, acknowledged or not. */
  lemma {:induction false} PersistedMeaning(script: seq<Delivery>, e: Envelope)
    ensures e in Persisted(script) <==>
            e.valid && (Delivered(script, e, NoCrash) || Delivered(script, e, BeforeAck))
  {
    if script != [] {
      var before, last := script[..|script| - 1], script[|script| - 1];
      PersistedMeaning(before, e);
      DeliveredSnoc(before, last, e, NoCrash);
      DeliveredSnoc(before, last, e, BeforeAck);
      assert script == before + [last];
    }
  }

  ghost predicate Delivered(script: seq<Delivery>, e: Envelope, crash: Crash) {
    exists i :: 0 <= i < |script| && script[i].envelope == e && script[i].crash == crash
  }

  lemma DeliveredSnoc(before: seq<Delivery>, last: Delivery, e: Envelope, crash: Crash)
    ensures Delivered(before + [last], e, crash) <==>
            Delivered(before, e, crash) || (last.envelope == e && last.crash == crash)
  {
    var script := before + [last];
    assert script[|before|] == last;
    if Delivered(before, e, crash) {
      var i :| 0 <= i < |before| && before[i].envelope == e && before[i].crash == crash;
      assert script[i] == before[i];
    }
  }

  lemma ScriptStep(stored: seq<Envelope>, acked: seq<Delivery>, script: seq<Delivery>, i: nat)
    requires i < |script|
    ensures stored + Persisted(script[..i + 1])
         == if Persists(script[i]) then stored + Persisted(script[..i]) + [script[i].envelope]
            else stored + Persisted(script[..i])
    ensures acked + Acknowledged(script[..i + 1])
         == if Acknowledges(script[i]) then acked + Acknowledged(script[..i]) + [script[i]]
            else acked + Acknowledged(script[..i])
  {
    assert script[..i + 1][..i] == script[..i];
  }

  class Worker {
    const conn: Connection
    const handler: EventStoreHandler
    var acked: seq<Delivery>

    constructor (conn: Connection)
      ensures this.conn == conn && handler.conn == conn && handler.events.conn == conn && acked == []
    {
      this.conn := conn;
      handler := new EventStoreHandler(conn);
      acked := [];
    }

    /** Nothing is acknowledged whose row is not committed. */
    ghost predicate Valid()
      reads this, conn
    {
      && conn.Valid() && conn.inserted == None && handler.conn == conn && handler.events.conn == conn
      && forall k :: 0 <= k < |acked| ==> acked[k].envelope.eventId in Ids(conn.persisted)
    }

    /** Persist, then acknowledge; a crash or an exception rolls back and leaves the entry pending. */
    method Handle(d: Delivery)
      requires Valid()
      modifies this, conn
      ensures Valid() && old(conn.rows) <= conn.rows
      ensures conn.persisted == if Persists(d) then old(conn.persisted) + [d.envelope] else old(conn.persisted)
      ensures acked == if d.envelope.valid && d.crash == NoCrash then old(acked) + [d] else old(acked)
    {
      if d.crash == BeforePersist {
        return;
      }
      IdsGrow(conn.persisted, d.envelope);
      var result := handler.Persist(d.envelope, d.crash != InCommit);
      if result.Raise? {
        conn.Rollback();
        return;
      }
      if d.crash != BeforeAck {
        acked := acked + [d];
      }
    }

    /**
      * Over any deliveries, crashes and redeliveries: the table is the first-occurrence
      * de-duplication of what was persisted, and it only ever grows.
      */
    method Run(script: seq<Delivery>)
      requires Valid()
      modifies this, conn
      ensures Valid() && old(conn.rows) <= conn.rows
      ensures conn.persisted == old(conn.persisted) + Persisted(script)
      ensures acked == old(acked) + Acknowledged(script)
      ensures Envelopes(conn.rows) == FirstOccurrences(old(conn.persisted) + Persisted(script))
      ensures forall i, j :: 0 <= i < j < |conn.rows| ==> conn.rows[i].number < conn.rows[j].number
      ensures forall k :: 0 <= k < |acked| ==> acked[k].envelope.eventId in Ids(Envelopes(conn.rows))
      ensures forall d :: d in acked <==> d in old(acked) || (d in script && d.envelope.valid && d.crash == NoCrash)
    {
      var i := 0;
      while i < |script|
        invariant 0 <= i <= |script| && Valid() && old(conn.rows) <= conn.rows
        invariant conn.persisted == old(conn.persisted) + Persisted(script[..i])
        invariant acked == old(acked) + Acknowledged(script[..i])
      {
        ScriptStep(old(conn.persisted), old(acked), script, i);
        Handle(script[i]);
        i := i + 1;
      }
      assert script[..i] == script;
      NumberedMeaning(conn.rows, conn.nextval);
      FirstOccurrencesIds(conn.persisted);
      forall d
        ensures d in Acknowledged(script) <==> d in script && d.envelope.valid && d.crash == NoCrash
      {
        AcknowledgedMeaning(script, d);
      }
    }
  }
}
