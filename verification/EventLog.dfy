// The run's log of agent events (dispatch/src/run/do.ts), and the numbers the forwarder gives them
// (forwarder/src/run.ts): however often a batch arrives, the log holds each event once.
module EventLog {
  import opened Domain
  import opened Machine

  const LOG_TEXT_MAX := 2000
  const RETRY_SEQ_STRIDE := 1_000_000_000
  const SEQ_PER_ATTEMPT := 1_000_000

  datatype EventKind = System | Say | Tool | ToolResult | Finished | Broken

  datatype AgentEvent = AgentEvent(number: nat, ts: int, kind: EventKind, text: string)

  // A row's id is its position. A line of the run's own has no agent and no number.
  datatype Row = Row(agentId: Option<string>, agentSeq: Option<nat>, ts: int, kind: EventKind, text: string)

  // --- Storing events -----------------------------------------------------------------------

  function Clip(text: string): string {
    if |text| <= LOG_TEXT_MAX then text else text[..LOG_TEXT_MAX]
  }

  // Whether the unique key (agent_id, agent_seq) is taken; NULLs never clash.
  predicate Holds(rows: seq<Row>, agentId: string, key: nat) {
    exists i | 0 <= i < |rows| :: rows[i].agentId == Some(agentId) && rows[i].agentSeq == Some(key)
  }

  function KeyOf(retries: nat, number: nat): nat {
    number + retries * RETRY_SEQ_STRIDE
  }

  function RowOf(agentId: string, retries: nat, e: AgentEvent): Row {
    Row(Some(agentId), Some(KeyOf(retries, e.number)), e.ts, e.kind, Clip(e.text))
  }

  // INSERT OR IGNORE (do.ts:496-516).
  function Inserted(rows: seq<Row>, row: Row): seq<Row> {
    if row.agentId.Some? && row.agentSeq.Some? && Holds(rows, row.agentId.value, row.agentSeq.value) then rows
    else rows + [row]
  }

  // The log once `events` has stored a batch (do.ts:124-135).
  function Stored(rows: seq<Row>, agentId: string, retries: nat, batch: seq<AgentEvent>): seq<Row> {
    if batch == [] then rows
    else Inserted(Stored(rows, agentId, retries, batch[..|batch| - 1]), RowOf(agentId, retries, batch[|batch| - 1]))
  }

  class Log {
    var rows: seq<Row>

    constructor ()
      ensures rows == []
    {
      rows := [];
    }

    // The stored line, or None when the agent's number is already in the log.
    method AppendLog(row: Row) returns (line: Option<Row>)
      modifies this
      ensures rows == Inserted(old(rows), row)
      ensures line == if rows == old(rows) then None else Some(row)
    {
      if row.agentId.Some? && row.agentSeq.Some? && Holds(rows, row.agentId.value, row.agentSeq.value) {
        line := None;
      } else {
        rows := rows + [row];
        line := Some(row);
      }
    }

    // `count` is what onEvents is told of: the lines that were new.
    method StoreEvents(agentId: string, retries: nat, batch: seq<AgentEvent>) returns (count: nat)
      modifies this
      ensures rows == Stored(old(rows), agentId, retries, batch)
      ensures count == |rows| - |old(rows)|
    {
      count := 0;
      for k := 0 to |batch|
        invariant rows == Stored(old(rows), agentId, retries, batch[..k])
        invariant count == |rows| - |old(rows)|
      {
        assert batch[..k + 1][..k] == batch[..k];
        var line := AppendLog(RowOf(agentId, retries, batch[k]));
        if line.Some? {
          count := count + 1;
        }
      }
      assert batch[..|batch|] == batch;
    }
  }

  // --- Numbering events ---------------------------------------------------------------------

  // The number of an attempt's first event; None is a run attempt that is no whole number
  // (forwarder/src/run.ts:288-291).
  function FirstSeq(runAttempt: Option<int>): nat {
    if runAttempt.Some? && runAttempt.value > 1 then (runAttempt.value - 1) * SEQ_PER_ATTEMPT else 0
  }

  // One attempt of one job of an agent: the retry that started the job, and GitHub's attempt at it.
  datatype Source = Source(agentId: string, retries: nat, attempt: nat)

  predicate Numbered(source: Source, events: seq<AgentEvent>) {
    && 1 <= source.attempt <= 1000
    && |events| <= SEQ_PER_ATTEMPT
    && forall k | 0 <= k < |events| :: events[k].number == FirstSeq(Some(source.attempt)) + k
  }

  function Base(source: Source): nat
    requires source.attempt >= 1
  {
    KeyOf(source.retries, FirstSeq(Some(source.attempt)))
  }

  // Sources never share a key, as long as an attempt has at most a million events and a job at most
  // a thousand attempts.
  lemma KeysApart(r: nat, q: nat, a: nat, b: nat, k: nat, j: nat)
    requires 1 <= a <= 1000 && 1 <= b <= 1000 && k < SEQ_PER_ATTEMPT && j < SEQ_PER_ATTEMPT
    requires KeyOf(r, FirstSeq(Some(a)) + k) == KeyOf(q, FirstSeq(Some(b)) + j)
    ensures r == q && a == b && k == j
  {
    assert FirstSeq(Some(a)) == (a - 1) * SEQ_PER_ATTEMPT && FirstSeq(Some(b)) == (b - 1) * SEQ_PER_ATTEMPT;
    assert (a - 1) * SEQ_PER_ATTEMPT + k < RETRY_SEQ_STRIDE && (b - 1) * SEQ_PER_ATTEMPT + j < RETRY_SEQ_STRIDE;
  }

  // Both bounds are needed: the next key on either side is another source's first.
  lemma KeysMeet(r: nat, a: nat)
    requires a >= 1
    ensures KeyOf(r, FirstSeq(Some(a)) + SEQ_PER_ATTEMPT) == KeyOf(r, FirstSeq(Some(a + 1)))
    ensures KeyOf(r, FirstSeq(Some(1001))) == KeyOf(r + 1, FirstSeq(Some(1)))
  {
  }

  // --- One batch ----------------------------------------------------------------------------

  ghost predicate AllHeld(rows: seq<Row>, agentId: string, retries: nat, batch: seq<AgentEvent>) {
    forall k | 0 <= k < |batch| :: Holds(rows, agentId, KeyOf(retries, batch[k].number))
  }

  ghost predicate NoneHeld(rows: seq<Row>, agentId: string, retries: nat, batch: seq<AgentEvent>) {
    forall k | 0 <= k < |batch| :: !Holds(rows, agentId, KeyOf(retries, batch[k].number))
  }

  function RowsOf(agentId: string, retries: nat, batch: seq<AgentEvent>): seq<Row> {
    Map(batch, (e: AgentEvent) => RowOf(agentId, retries, e))
  }

  lemma {:induction false} KnownBatch(rows: seq<Row>, agentId: string, retries: nat, batch: seq<AgentEvent>)
    requires AllHeld(rows, agentId, retries, batch)
    ensures Stored(rows, agentId, retries, batch) == rows
  {
    if batch != [] {
      KnownBatch(rows, agentId, retries, batch[..|batch| - 1]);
    }
  }

  lemma HoldsAppend(rows: seq<Row>, row: Row, agentId: string, key: nat)
    ensures Holds(rows + [row], agentId, key) <==>
      Holds(rows, agentId, key) || (row.agentId == Some(agentId) && row.agentSeq == Some(key))
  {
    if Holds(rows, agentId, key) {
      var i :| 0 <= i < |rows| && rows[i].agentId == Some(agentId) && rows[i].agentSeq == Some(key);
      assert (rows + [row])[i] == rows[i];
    }
    if row.agentId == Some(agentId) && row.agentSeq == Some(key) {
      assert (rows + [row])[|rows|] == row;
    }
  }

  lemma {:induction false} StoredHolds(rows: seq<Row>, agentId: string, retries: nat, batch: seq<AgentEvent>)
    ensures AllHeld(Stored(rows, agentId, retries, batch), agentId, retries, batch)
    ensures forall agent, key: nat ::
      Holds(rows, agent, key) ==> Holds(Stored(rows, agentId, retries, batch), agent, key)
  {
    if batch != [] {
      var init, last := batch[..|batch| - 1], batch[|batch| - 1];
      StoredHolds(rows, agentId, retries, init);
      var before, row := Stored(rows, agentId, retries, init), RowOf(agentId, retries, last);
      forall agent, key: nat ensures Holds(before + [row], agent, key) <==>
        Holds(before, agent, key) || (row.agentId == Some(agent) && row.agentSeq == Some(key))
      {
        HoldsAppend(before, row, agent, key);
      }
      forall k | 0 <= k < |batch|
        ensures Holds(Stored(rows, agentId, retries, batch), agentId, KeyOf(retries, batch[k].number))
      {
        if k < |init| {
          assert Holds(before, agentId, KeyOf(retries, init[k].number));
        }
      }
    }
  }

  lemma {:induction false} NewBatch(rows: seq<Row>, agentId: string, retries: nat, batch: seq<AgentEvent>)
    requires NoneHeld(rows, agentId, retries, batch)
    requires forall j, k | 0 <= j < k < |batch| :: batch[j].number != batch[k].number
    ensures Stored(rows, agentId, retries, batch) == rows + RowsOf(agentId, retries, batch)
  {
    if batch != [] {
      var init, last := batch[..|batch| - 1], batch[|batch| - 1];
      NewBatch(rows, agentId, retries, init);
      var before := rows + RowsOf(agentId, retries, init);
      assert RowsOf(agentId, retries, batch) == RowsOf(agentId, retries, init) + [RowOf(agentId, retries, last)];
      var key := KeyOf(retries, last.number);
      assert !Holds(rows, agentId, key);
      forall i | 0 <= i < |before| ensures !(before[i].agentId == Some(agentId) && before[i].agentSeq == Some(key)) {
        if i >= |rows| {
          assert before[i] == RowOf(agentId, retries, init[i - |rows|]);
          assert batch[i - |rows|].number != last.number;
        }
      }
    }
  }

  // --- Every delivery -----------------------------------------------------------------------

  // A source's events, cut into the batches its forwarder sends.
  type Sent = Source -> seq<seq<AgentEvent>>

  // A batch reaching the log, by its place among its source's batches.
  datatype Delivery = Delivery(source: Source, index: nat)

  function Concat(batches: seq<seq<AgentEvent>>): seq<AgentEvent> {
    if batches == [] then [] else Concat(batches[..|batches| - 1]) + batches[|batches| - 1]
  }

  ghost predicate Sound(sent: Sent, ds: seq<Delivery>) {
    forall k | 0 <= k < |ds| :: Numbered(ds[k].source, Concat(sent(ds[k].source)))
  }

  ghost predicate WereSent(sent: Sent, ds: seq<Delivery>) {
    forall k | 0 <= k < |ds| :: ds[k].index < |sent(ds[k].source)|
  }

  // The log after these deliveries, in this order.
  ghost function LogAfter(sent: Sent, ds: seq<Delivery>): seq<Row>
    requires WereSent(sent, ds)
  {
    if ds == [] then []
    else
      var d := ds[|ds| - 1];
      Stored(LogAfter(sent, ds[..|ds| - 1]), d.source.agentId, d.source.retries, sent(d.source)[d.index])
  }

  // The places of one source's batches among the deliveries.
  function IndicesOf(source: Source, ds: seq<Delivery>): seq<nat> {
    if ds == [] then []
    else
      IndicesOf(source, ds[..|ds| - 1])
      + (if ds[|ds| - 1].source == source then [ds[|ds| - 1].index] else [])
  }

  // Each batch as it first arrived.
  function Firsts(indices: seq<nat>): (r: seq<nat>)
    ensures forall i :: i in r <==> i in indices
  {
    if indices == [] then []
    else
      var rest, last := Firsts(indices[..|indices| - 1]), indices[|indices| - 1];
      assert indices == indices[..|indices| - 1] + [last];
      if last in rest then rest else rest + [last]
  }

  predicate Owns(source: Source, row: Row)
    requires source.attempt >= 1
  {
    && row.agentId == Some(source.agentId)
    && row.agentSeq.Some?
    && Base(source) <= row.agentSeq.value < Base(source) + SEQ_PER_ATTEMPT
  }

  // The source's lines, in the order the log holds them.
  function OwnRows(source: Source, rows: seq<Row>): seq<Row>
    requires source.attempt >= 1
  {
    if rows == [] then []
    else
      OwnRows(source, rows[..|rows| - 1])
      + (if Owns(source, rows[|rows| - 1]) then [rows[|rows| - 1]] else [])
  }

  function BatchAt(batches: seq<seq<AgentEvent>>, index: nat): seq<AgentEvent> {
    if index < |batches| then batches[index] else []
  }

  function Pick(batches: seq<seq<AgentEvent>>, indices: seq<nat>): seq<AgentEvent> {
    if indices == [] then []
    else Pick(batches, indices[..|indices| - 1]) + BatchAt(batches, indices[|indices| - 1])
  }

  // Where a batch starts among its source's events.
  function Start(batches: seq<seq<AgentEvent>>, index: nat): nat
    requires index <= |batches|
  {
    |Concat(batches[..index])|
  }

  lemma {:induction false} ConcatSlice(batches: seq<seq<AgentEvent>>, index: nat)
    requires index < |batches|
    ensures Start(batches, index + 1) == Start(batches, index) + |batches[index]| <= |Concat(batches)|
    ensures forall k | 0 <= k < |batches[index]| :: batches[index][k] == Concat(batches)[Start(batches, index) + k]
    decreases |batches|
  {
    assert batches[..index + 1][..index] == batches[..index];
    if index == |batches| - 1 {
      assert batches[..index + 1] == batches;
    } else {
      var init := batches[..|batches| - 1];
      assert init[..index] == batches[..index] && init[..index + 1] == batches[..index + 1];
      ConcatSlice(init, index);
    }
  }

  lemma {:induction false} StartMonotone(batches: seq<seq<AgentEvent>>, i: nat, j: nat)
    requires i <= j <= |batches|
    ensures Start(batches, i) <= Start(batches, j)
    decreases j - i
  {
    if i < j {
      ConcatSlice(batches, i);
      StartMonotone(batches, i + 1, j);
    }
  }

  // The key of the k-th event of a batch.
  lemma BatchKeys(source: Source, batches: seq<seq<AgentEvent>>, index: nat, k: nat)
    requires Numbered(source, Concat(batches)) && index < |batches| && k < |batches[index]|
    ensures KeyOf(source.retries, batches[index][k].number) == Base(source) + Start(batches, index) + k
    ensures Start(batches, index) + k < SEQ_PER_ATTEMPT
  {
    ConcatSlice(batches, index);
  }

  lemma OwnRowsAppend(source: Source, rows: seq<Row>, more: seq<Row>)
    requires source.attempt >= 1
    ensures OwnRows(source, rows + more) == OwnRows(source, rows) + OwnRows(source, more)
  {
    if more == [] {
      assert rows + more == rows;
    } else {
      OwnRowsAppend(source, rows, more[..|more| - 1]);
      assert (rows + more)[..|rows + more| - 1] == rows + more[..|more| - 1];
    }
  }

  lemma OwnRowsAll(source: Source, rows: seq<Row>)
    requires source.attempt >= 1
    ensures (forall i | 0 <= i < |rows| :: Owns(source, rows[i])) ==> OwnRows(source, rows) == rows
    ensures (forall i | 0 <= i < |rows| :: !Owns(source, rows[i])) ==> OwnRows(source, rows) == []
  {
    if rows != [] {
      OwnRowsAll(source, rows[..|rows| - 1]);
    }
  }

  // Other sources' batches leave a source's lines as they were.
  lemma {:induction false} OthersLeaveOwn(source: Source, rows: seq<Row>, agentId: string, retries: nat,
                                          batch: seq<AgentEvent>)
    requires source.attempt >= 1
    requires forall k | 0 <= k < |batch| :: !Owns(source, RowOf(agentId, retries, batch[k]))
    ensures OwnRows(source, Stored(rows, agentId, retries, batch)) == OwnRows(source, rows)
  {
    if batch != [] {
      var init := batch[..|batch| - 1];
      OthersLeaveOwn(source, rows, agentId, retries, init);
      var before, row := Stored(rows, agentId, retries, init), RowOf(agentId, retries, batch[|batch| - 1]);
      assert (before + [row])[..|before + [row]| - 1] == before;
    }
  }

  lemma SourcesApart(source: Source, other: Source, events: seq<AgentEvent>, k: nat)
    requires 1 <= source.attempt <= 1000 && Numbered(other, events) && k < |events| && source != other
    ensures !Owns(source, RowOf(other.agentId, other.retries, events[k]))
  {
    if Owns(source, RowOf(other.agentId, other.retries, events[k])) {
      var j := KeyOf(other.retries, events[k].number) - Base(source);
      KeysApart(source.retries, other.retries, source.attempt, other.attempt, j, k);
    }
  }

  lemma {:induction false} HoldsOwn(source: Source, rows: seq<Row>, key: nat)
    requires source.attempt >= 1 && Base(source) <= key < Base(source) + SEQ_PER_ATTEMPT
    ensures Holds(rows, source.agentId, key) <==> Holds(OwnRows(source, rows), source.agentId, key)
  {
    if rows != [] {
      var init, last := rows[..|rows| - 1], rows[|rows| - 1];
      HoldsOwn(source, init, key);
      assert rows == init + [last];
      HoldsAppend(init, last, source.agentId, key);
      if Owns(source, last) {
        HoldsAppend(OwnRows(source, init), last, source.agentId, key);
      } else {
        assert OwnRows(source, rows) == OwnRows(source, init);
      }
    }
  }

  // --- Again --------------------------------------------------------------------------------

  // Once delivered, a batch is all there, whatever is delivered after it.
  lemma {:induction false} DeliveredHeld(sent: Sent, ds: seq<Delivery>, k: nat)
    requires WereSent(sent, ds) && k < |ds|
    ensures AllHeld(LogAfter(sent, ds), ds[k].source.agentId, ds[k].source.retries, sent(ds[k].source)[ds[k].index])
  {
    var init, d := ds[..|ds| - 1], ds[|ds| - 1];
    StoredHolds(LogAfter(sent, init), d.source.agentId, d.source.retries, sent(d.source)[d.index]);
    if k < |init| {
      DeliveredHeld(sent, init, k);
    }
    hide Stored, Holds;
  }

  // A batch that arrives again, however late and behind whatever others, changes neither the log nor
  // the run: nothing in it is new, and onEvents is told so.
  lemma ReplayChangesNothing(sent: Sent, ds: seq<Delivery>, k: nat, s: RunState, now: int, jobUrl: string)
    requires WereSent(sent, ds) && k < |ds|
    ensures var rows, source := LogAfter(sent, ds), ds[k].source;
      var again := Stored(rows, source.agentId, source.retries, sent(source)[ds[k].index]);
      && again == rows
      && LogAfter(sent, ds + [ds[k]]) == rows
      && !OnEvents(s, source.agentId, |again| - |rows|, now, jobUrl).moved
  {
    DeliveredHeld(sent, ds, k);
    var source := ds[k].source;
    KnownBatch(LogAfter(sent, ds), source.agentId, source.retries, sent(source)[ds[k].index]);
    assert (ds + [ds[k]])[..|ds|] == ds;
  }

  // --- Exactly once -------------------------------------------------------------------------

  // The source's lines are its delivered batches, and all of each is there.
  ghost predicate LoggedSoFar(source: Source, batches: seq<seq<AgentEvent>>, indices: seq<nat>, rows: seq<Row>)
    requires source.attempt >= 1
  {
    && OwnRows(source, rows) == RowsOf(source.agentId, source.retries, Pick(batches, Firsts(indices)))
    && forall k | 0 <= k < |indices| ::
         indices[k] < |batches| && AllHeld(rows, source.agentId, source.retries, batches[indices[k]])
  }

  lemma FirstsNext(indices: seq<nat>, index: nat)
    ensures Firsts(indices + [index]) == if index in indices then Firsts(indices) else Firsts(indices) + [index]
  {
    assert (indices + [index])[..|indices|] == indices;
  }

  lemma PickNext(batches: seq<seq<AgentEvent>>, indices: seq<nat>, index: nat)
    ensures Pick(batches, indices + [index]) == Pick(batches, indices) + BatchAt(batches, index)
  {
    assert (indices + [index])[..|indices|] == indices;
  }

  lemma KnownDelivery(source: Source, batches: seq<seq<AgentEvent>>, indices: seq<nat>, index: nat, rows: seq<Row>)
    requires source.attempt >= 1 && LoggedSoFar(source, batches, indices, rows) && index in indices
    ensures index < |batches| && Stored(rows, source.agentId, source.retries, batches[index]) == rows
    ensures LoggedSoFar(source, batches, indices + [index], rows)
  {
    hide Stored, OwnRows, Pick, Firsts, AllHeld, RowsOf;
    var k :| 0 <= k < |indices| && indices[k] == index;
    KnownBatch(rows, source.agentId, source.retries, batches[index]);
    FirstsNext(indices, index);
  }

  // An event picked comes from one of the batches picked.
  lemma {:induction false} PickedFrom(batches: seq<seq<AgentEvent>>, indices: seq<nat>, i: nat)
    returns (index: nat, k: nat)
    requires i < |Pick(batches, indices)|
    ensures index in indices && index < |batches| && k < |batches[index]|
    ensures Pick(batches, indices)[i] == batches[index][k]
  {
    var init, last := indices[..|indices| - 1], indices[|indices| - 1];
    if i < |Pick(batches, init)| {
      index, k := PickedFrom(batches, init, i);
    } else {
      index, k := last, i - |Pick(batches, init)|;
    }
  }

  // Two batches of a source share no number, nor do two events of one: the later has the greater.
  lemma KeysRise(source: Source, batches: seq<seq<AgentEvent>>, i: nat, k: nat, j: nat, l: nat)
    requires Numbered(source, Concat(batches))
    requires i < |batches| && j < |batches| && k < |batches[i]| && l < |batches[j]|
    requires i < j || (i == j && k < l)
    ensures KeyOf(source.retries, batches[i][k].number) < KeyOf(source.retries, batches[j][l].number)
  {
    BatchKeys(source, batches, i, k);
    BatchKeys(source, batches, j, l);
    ConcatSlice(batches, i);
    if i < j {
      StartMonotone(batches, i + 1, j);
    }
  }

  lemma NewIsNotHeld(source: Source, batches: seq<seq<AgentEvent>>, indices: seq<nat>, index: nat, rows: seq<Row>)
    requires Numbered(source, Concat(batches)) && index < |batches| && index !in indices
    requires OwnRows(source, rows) == RowsOf(source.agentId, source.retries, Pick(batches, Firsts(indices)))
    ensures NoneHeld(rows, source.agentId, source.retries, batches[index])
  {
    var own := OwnRows(source, rows);
    forall k | 0 <= k < |batches[index]|
      ensures !Holds(rows, source.agentId, KeyOf(source.retries, batches[index][k].number))
    {
      var key := KeyOf(source.retries, batches[index][k].number);
      BatchKeys(source, batches, index, k);
      HoldsOwn(source, rows, key);
      hide OwnRows, Numbered, Concat, Start, Base, Firsts;
      forall i | 0 <= i < |own| ensures own[i].agentSeq != Some(key) {
        var j, l := PickedFrom(batches, Firsts(indices), i);
        if j < index {
          KeysRise(source, batches, j, l, index, k);
        } else {
          KeysRise(source, batches, index, k, j, l);
        }
      }
    }
  }

  lemma BatchRowsOwned(source: Source, batches: seq<seq<AgentEvent>>, index: nat)
    requires Numbered(source, Concat(batches)) && index < |batches|
    ensures var rows := RowsOf(source.agentId, source.retries, batches[index]); OwnRows(source, rows) == rows
  {
    var rows := RowsOf(source.agentId, source.retries, batches[index]);
    ConcatSlice(batches, index);
    hide Numbered, Concat, Clip;
    forall k | 0 <= k < |rows| ensures Owns(source, rows[k]) {
      BatchKeys(source, batches, index, k);
      hide Base, Start;
    }
    OwnRowsAll(source, rows);
  }

  lemma BatchNumbersDiffer(source: Source, batches: seq<seq<AgentEvent>>, index: nat)
    requires Numbered(source, Concat(batches)) && index < |batches|
    ensures forall j, k | 0 <= j < k < |batches[index]| :: batches[index][j].number != batches[index][k].number
  {
    ConcatSlice(batches, index);
    var batch, all, start := batches[index], Concat(batches), Start(batches, index);
    hide Concat, Start;
    forall j, k | 0 <= j < k < |batch| ensures batch[j].number != batch[k].number {
      assert batch[j] == all[start + j] && batch[k] == all[start + k];
    }
  }

  lemma NewDelivery(source: Source, batches: seq<seq<AgentEvent>>, indices: seq<nat>, index: nat, rows: seq<Row>)
    requires Numbered(source, Concat(batches)) && LoggedSoFar(source, batches, indices, rows)
    requires index < |batches| && index !in indices
    ensures LoggedSoFar(source, batches, indices + [index],
      Stored(rows, source.agentId, source.retries, batches[index]))
  {
    hide Stored, OwnRows, Pick, Firsts, Holds, Concat, NoneHeld, Base, Start, RowOf, RowsOf;
    var batch := batches[index];
    NewIsNotHeld(source, batches, indices, index, rows);
    BatchRowsOwned(source, batches, index);
    BatchNumbersDiffer(source, batches, index);
    NewBatch(rows, source.agentId, source.retries, batch);
    OwnRowsAppend(source, rows, RowsOf(source.agentId, source.retries, batch));
    StoredHolds(rows, source.agentId, source.retries, batch);
    FirstsNext(indices, index);
    PickNext(batches, Firsts(indices), index);
    RowsOfAppend(source.agentId, source.retries, Pick(batches, Firsts(indices)), batch);
  }

  lemma RowsOfAppend(agentId: string, retries: nat, a: seq<AgentEvent>, b: seq<AgentEvent>)
    ensures RowsOf(agentId, retries, a + b) == RowsOf(agentId, retries, a) + RowsOf(agentId, retries, b)
  {
  }

  lemma ForeignDelivery(source: Source, batches: seq<seq<AgentEvent>>, indices: seq<nat>, rows: seq<Row>,
                        other: Source, events: seq<AgentEvent>, batch: seq<AgentEvent>)
    requires 1 <= source.attempt <= 1000 && LoggedSoFar(source, batches, indices, rows)
    requires source != other && Numbered(other, events)
    requires forall k | 0 <= k < |batch| :: batch[k] in events
    ensures LoggedSoFar(source, batches, indices, Stored(rows, other.agentId, other.retries, batch))
  {
    forall k | 0 <= k < |batch| ensures !Owns(source, RowOf(other.agentId, other.retries, batch[k])) {
      var j :| 0 <= j < |events| && events[j] == batch[k];
      SourcesApart(source, other, events, j);
    }
    OthersLeaveOwn(source, rows, other.agentId, other.retries, batch);
    StoredHolds(rows, other.agentId, other.retries, batch);
    hide Stored, OwnRows, Pick, Firsts, Holds, Numbered, RowsOf, Owns;
  }

  lemma BatchWithin(batches: seq<seq<AgentEvent>>, index: nat)
    requires index < |batches|
    ensures forall k | 0 <= k < |batches[index]| :: batches[index][k] in Concat(batches)
  {
    ConcatSlice(batches, index);
  }

  lemma {:induction false} LoggedAlways(sent: Sent, ds: seq<Delivery>, source: Source)
    requires WereSent(sent, ds) && Sound(sent, ds) && Numbered(source, Concat(sent(source)))
    ensures LoggedSoFar(source, sent(source), IndicesOf(source, ds), LogAfter(sent, ds))
  {
    NumberedAttempt(source, Concat(sent(source)));
    hide LoggedSoFar, Concat, Numbered, Stored;
    if ds == [] {
      NothingLogged(source, sent(source));
    } else {
      var init, d := ds[..|ds| - 1], ds[|ds| - 1];
      var indices := IndicesOf(source, init);
      LoggedAlways(sent, init, source);
      var rows := LogAfter(sent, init);
      if d.source != source {
        assert IndicesOf(source, ds) == indices;
        BatchWithin(sent(d.source), d.index);
        ForeignDelivery(source, sent(source), indices, rows, d.source, Concat(sent(d.source)), sent(d.source)[d.index]);
      } else if d.index in indices {
        KnownDelivery(source, sent(source), indices, d.index, rows);
      } else {
        NewDelivery(source, sent(source), indices, d.index, rows);
      }
    }
  }

  lemma NumberedAttempt(source: Source, events: seq<AgentEvent>)
    requires Numbered(source, events)
    ensures 1 <= source.attempt <= 1000
  {
  }

  lemma NothingLogged(source: Source, batches: seq<seq<AgentEvent>>)
    requires source.attempt >= 1
    ensures LoggedSoFar(source, batches, [], [])
  {
  }

  // Whatever other agents, attempts and retries send in between, and however often and late a batch
  // arrives, a source's lines in the log are its delivered batches' events, each once, the batches in
  // the order they first arrived.
  lemma ExactlyOnce(sent: Sent, ds: seq<Delivery>, source: Source)
    requires WereSent(sent, ds) && Sound(sent, ds) && Numbered(source, Concat(sent(source)))
    ensures OwnRows(source, LogAfter(sent, ds))
      == RowsOf(source.agentId, source.retries, Pick(sent(source), Firsts(IndicesOf(source, ds))))
  {
    LoggedAlways(sent, ds, source);
  }

  // Each line shows its event: when, of what kind, and its text, cut at 2000 characters.
  lemma LinesTell(sent: Sent, ds: seq<Delivery>, source: Source)
    requires WereSent(sent, ds) && Sound(sent, ds) && Numbered(source, Concat(sent(source)))
    ensures var rows, events := OwnRows(source, LogAfter(sent, ds)),
        Pick(sent(source), Firsts(IndicesOf(source, ds)));
      && |rows| == |events|
      && forall i | 0 <= i < |rows| ::
           && rows[i].agentId == Some(source.agentId) && rows[i].ts == events[i].ts && rows[i].kind == events[i].kind
           && rows[i].text <= events[i].text
           && |rows[i].text| == if |events[i].text| <= 2000 then |events[i].text| else 2000
  {
    ExactlyOnce(sent, ds, source);
    hide OwnRows, LogAfter, Pick, Firsts, IndicesOf, WereSent, Sound, Numbered, Concat;
  }

  // --- In push order ------------------------------------------------------------------------

  ghost predicate Increasing(indices: seq<nat>) {
    forall j, k | 0 <= j < k < |indices| :: indices[j] < indices[k]
  }

  // Events in the order they were pushed.
  ghost predicate Rising(events: seq<AgentEvent>) {
    forall j, k | 0 <= j < k < |events| :: events[j].number < events[k].number
  }

  // The k-th event of a picked batch is picked.
  lemma {:induction false} PickedHas(batches: seq<seq<AgentEvent>>, indices: seq<nat>, j: nat, k: nat) returns (i: nat)
    requires j < |indices| && indices[j] < |batches| && k < |batches[indices[j]]|
    ensures i < |Pick(batches, indices)| && Pick(batches, indices)[i] == batches[indices[j]][k]
  {
    var init := indices[..|indices| - 1];
    if j < |init| {
      i := PickedHas(batches, init, j, k);
    } else {
      i := |Pick(batches, init)| + k;
    }
  }

  lemma NumbersRise(source: Source, batches: seq<seq<AgentEvent>>, i: nat, k: nat, j: nat, l: nat)
    requires Numbered(source, Concat(batches))
    requires i < |batches| && j < |batches| && k < |batches[i]| && l < |batches[j]|
    ensures batches[i][k].number < batches[j][l].number <==> i < j || (i == j && k < l)
  {
    if i < j || (i == j && k < l) {
      KeysRise(source, batches, i, k, j, l);
    } else if j < i || l < k {
      KeysRise(source, batches, j, l, i, k);
    }
  }

  ghost predicate PicksWell(batches: seq<seq<AgentEvent>>, indices: seq<nat>) {
    forall j | 0 <= j < |indices| :: indices[j] < |batches| && batches[indices[j]] != []
  }

  lemma {:induction false} PicksRise(source: Source, batches: seq<seq<AgentEvent>>, indices: seq<nat>)
    requires Numbered(source, Concat(batches)) && PicksWell(batches, indices) && Increasing(indices)
    ensures Rising(Pick(batches, indices))
  {
    if indices != [] {
      var init, last := indices[..|indices| - 1], indices[|indices| - 1];
      PicksRise(source, batches, init);
      var before := Pick(batches, init);
      hide Numbered, Concat, Pick;
      forall i, k | 0 <= i < |before| && 0 <= k < |batches[last]| ensures before[i].number < batches[last][k].number {
        var j, l := PickedFrom(batches, init, i);
        NumbersRise(source, batches, j, l, last, k);
      }
      forall i, k | 0 <= i < k < |batches[last]| ensures batches[last][i].number < batches[last][k].number {
        NumbersRise(source, batches, last, i, last, k);
      }
      RisingAppend(before, batches[last]);
      PickLast(batches, indices);
    }
  }

  lemma PickLast(batches: seq<seq<AgentEvent>>, indices: seq<nat>)
    requires indices != [] && indices[|indices| - 1] < |batches|
    ensures Pick(batches, indices) == Pick(batches, indices[..|indices| - 1]) + batches[indices[|indices| - 1]]
  {
  }

  lemma RisingAppend(a: seq<AgentEvent>, b: seq<AgentEvent>)
    requires Rising(a) && Rising(b)
    requires forall i, k | 0 <= i < |a| && 0 <= k < |b| :: a[i].number < b[k].number
    ensures Rising(a + b)
  {
  }

  lemma RisingPrefix(a: seq<AgentEvent>, b: seq<AgentEvent>)
    ensures Rising(a + b) ==> Rising(a)
  {
    assert forall i | 0 <= i < |a| :: (a + b)[i] == a[i];
  }

  // What is picked out of order shows: a later batch's first event stands before an earlier one's.
  lemma {:induction false} FallShows(source: Source, batches: seq<seq<AgentEvent>>, indices: seq<nat>, j: nat, k: nat)
    requires Numbered(source, Concat(batches)) && PicksWell(batches, indices)
    requires j < k < |indices| && indices[j] >= indices[k]
    ensures !Rising(Pick(batches, indices))
  {
    var init := indices[..|indices| - 1];
    PickLast(batches, indices);
    if k < |init| {
      FallShows(source, batches, init, j, k);
      RisingPrefix(Pick(batches, init), batches[indices[|indices| - 1]]);
    } else {
      var i := PickedHas(batches, init, j, 0);
      NumbersRise(source, batches, indices[j], 0, indices[k], 0);
      assert Pick(batches, indices)[|Pick(batches, init)|] == batches[indices[k]][0];
      assert Pick(batches, indices)[i] == batches[indices[j]][0];
    }
  }

  lemma PicksRiseExactly(source: Source, batches: seq<seq<AgentEvent>>, indices: seq<nat>)
    requires Numbered(source, Concat(batches)) && PicksWell(batches, indices)
    ensures Rising(Pick(batches, indices)) <==> Increasing(indices)
  {
    hide Numbered, Concat, Pick, PicksWell, Rising;
    if Increasing(indices) {
      PicksRise(source, batches, indices);
    } else {
      var j: nat, k: nat :| j < k < |indices| && indices[j] >= indices[k];
      FallShows(source, batches, indices, j, k);
    }
  }

  // The log keeps a source's events in push order exactly when no batch of the source first arrives
  // behind a later one.
  lemma PushOrderExactly(sent: Sent, ds: seq<Delivery>, source: Source)
    requires WereSent(sent, ds) && Sound(sent, ds) && Numbered(source, Concat(sent(source)))
    requires forall j | 0 <= j < |sent(source)| :: sent(source)[j] != []
    ensures var picked := Pick(sent(source), Firsts(IndicesOf(source, ds)));
      && OwnRows(source, LogAfter(sent, ds)) == RowsOf(source.agentId, source.retries, picked)
      && (Rising(picked) <==> Increasing(Firsts(IndicesOf(source, ds))))
  {
    FirstsPickWell(sent, ds, source);
    hide *;
    ExactlyOnce(sent, ds, source);
    PicksRiseExactly(source, sent(source), Firsts(IndicesOf(source, ds)));
  }

  lemma FirstsPickWell(sent: Sent, ds: seq<Delivery>, source: Source)
    requires WereSent(sent, ds) && forall j | 0 <= j < |sent(source)| :: sent(source)[j] != []
    ensures PicksWell(sent(source), Firsts(IndicesOf(source, ds)))
  {
    var firsts := Firsts(IndicesOf(source, ds));
    IndicesSent(sent, ds, source);
    hide Firsts, IndicesOf, WereSent;
    assert forall j | 0 <= j < |firsts| :: firsts[j] in firsts;
  }

  lemma {:induction false} IndicesSent(sent: Sent, ds: seq<Delivery>, source: Source)
    requires WereSent(sent, ds)
    ensures forall i | i in IndicesOf(source, ds) :: i < |sent(source)|
  {
    if ds != [] {
      IndicesSent(sent, ds[..|ds| - 1], source);
    }
  }
}
