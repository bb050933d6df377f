// The forwarder's event batcher (forwarder/src/batcher.ts): a queue, a timer, one drain at a time,
// and two ways to end.
module Batcher {
  import opened Domain
  import opened EventLog

  const RETRY_CEILING_MS := 30_000

  // `size` is the byte length of an event's JSON.
  datatype Options = Options(maxBatch: nat, maxBatchBytes: int, retryDelaysMs: seq<nat>, size: AgentEvent -> nat)

  // The drain: none, one awaiting `send`, or one asleep before it sends its batch again.
  datatype Drain =
    | Idle
    | Sending(batch: seq<AgentEvent>, attempt: nat)
    | Sleeping(batch: seq<AgentEvent>, attempt: nat, delay: nat)

  // What close() has come to.
  datatype Closed = NotClosed | Waiting | Drained | Expired | Released

  datatype State = State(
    queue: seq<AgentEvent>, timer: bool, drain: Drain, closing: bool, abandoned: bool, close: Closed)

  // The state after a stretch of code, and the batch it handed to `send`, if it did.
  datatype Turn = Turn(s: State, send: Option<seq<AgentEvent>>)

  // --- Batches ------------------------------------------------------------------------------

  function Sizes(o: Options, events: seq<AgentEvent>): nat {
    if events == [] then 0 else Sizes(o, events[..|events| - 1]) + o.size(events[|events| - 1]) + 1
  }

  // The byte length of the events' JSON array: two brackets, and a comma between two events.
  function JsonLength(o: Options, events: seq<AgentEvent>): nat {
    if events == [] then 2 else 1 + Sizes(o, events)
  }

  function BatchFrom(o: Options, queue: seq<AgentEvent>, count: nat): (n: nat)
    requires count <= |queue|
    ensures count <= n <= |queue|
    decreases |queue| - count
  {
    if count == |queue| || count == o.maxBatch then count
    else if count > 0 && 1 + Sizes(o, queue[..count + 1]) >= o.maxBatchBytes then count
    else BatchFrom(o, queue, count + 1)
  }

  // batcher.ts:85-95.
  function BatchLen(o: Options, queue: seq<AgentEvent>): (n: nat)
    ensures n <= |queue|
  {
    BatchFrom(o, queue, 0)
  }

  // Whether the first `n` events may go out together: no more than a batch, and either in fewer
  // bytes than the limit or alone.
  ghost predicate Fits(o: Options, queue: seq<AgentEvent>, n: nat)
    requires n <= |queue|
  {
    n <= o.maxBatch && (n <= 1 || JsonLength(o, queue[..n]) < o.maxBatchBytes)
  }

  lemma SizesMonotone(o: Options, queue: seq<AgentEvent>, m: nat, n: nat)
    requires m <= n <= |queue|
    ensures Sizes(o, queue[..m]) <= Sizes(o, queue[..n])
    decreases n
  {
    if m < n {
      assert queue[..n][..n - 1] == queue[..n - 1];
      SizesMonotone(o, queue, m, n - 1);
    }
  }

  lemma {:induction false} BatchFromLongest(o: Options, queue: seq<AgentEvent>, count: nat)
    requires o.maxBatch >= 1 && count <= |queue| && Fits(o, queue, count)
    ensures var n := BatchFrom(o, queue, count);
      && count <= n <= |queue| && Fits(o, queue, n)
      && forall m | n < m <= |queue| :: !Fits(o, queue, m)
    decreases |queue| - count
  {
    if count == |queue| || count == o.maxBatch {
      assert BatchFrom(o, queue, count) == count;
      forall m | count < m <= |queue| ensures !Fits(o, queue, m) {
      }
    } else if count > 0 && 1 + Sizes(o, queue[..count + 1]) >= o.maxBatchBytes {
      assert BatchFrom(o, queue, count) == count;
      forall m | count < m <= |queue| ensures !Fits(o, queue, m) {
        SizesMonotone(o, queue, count + 1, m);
      }
    } else {
      assert Fits(o, queue, count + 1);
      BatchFromLongest(o, queue, count + 1);
    }
  }

  // A batch is the longest prefix of the queue that may go out together, and never empty.
  lemma BatchIsLongest(o: Options, queue: seq<AgentEvent>)
    requires o.maxBatch >= 1
    ensures var n := BatchLen(o, queue);
      && n <= |queue| && Fits(o, queue, n)
      && (forall m | n < m <= |queue| :: !Fits(o, queue, m))
      && (queue != [] ==> n >= 1)
  {
    BatchFromLongest(o, queue, 0);
    assert queue != [] ==> Fits(o, queue, 1);
  }

  // --- What each uninterrupted stretch of code does -----------------------------------------

  // A drain takes its next batch and hands it to `send`.
  function Begin(o: Options, s: State): Turn {
    var n := BatchLen(o, s.queue);
    Turn(s.(queue := s.queue[n..], drain := Sending(s.queue[..n], 0)), Some(s.queue[..n]))
  }

  // batcher.ts:118-121.
  function Started(o: Options, s: State): Turn {
    if s.drain != Idle || s.abandoned || s.queue == [] then Turn(s, None) else Begin(o, s)
  }

  // batcher.ts:131-136.
  function Pushed(o: Options, s: State, e: AgentEvent): Turn {
    if s.abandoned then Turn(s, None)
    else
      var t := s.(queue := s.queue + [e]);
      if |t.queue| >= o.maxBatch then Started(o, t) else Turn(t.(timer := true), None)
  }

  // batcher.ts:99-102.
  function TimerFired(o: Options, s: State): Turn {
    Started(o, s.(timer := false))
  }

  // The drain is done with a batch: it takes another, or ends, and a close that was waiting for it
  // resolves (batcher.ts:107-113, 123-128).
  function Delivered(o: Options, s: State): Turn {
    if !s.abandoned && s.queue != [] && (s.closing || |s.queue| >= o.maxBatch) then Begin(o, s)
    else
      var ended := s.(drain := Idle, timer := s.timer || (s.queue != [] && !s.closing && !s.abandoned));
      Turn(if s.close == Waiting && !s.abandoned && s.queue == [] then ended.(close := Drained) else ended, None)
  }

  datatype Outcome =
    | Accepted       // `send` resolved: Dispatch took the batch, or no longer wants it
    | Refused        // it rejected for good: the batch is dropped
    | Broke          // it rejected: the batch is sent again after a delay

  function DelayFor(o: Options, attempt: nat): nat {
    if attempt < |o.retryDelaysMs| then o.retryDelaysMs[attempt] else RETRY_CEILING_MS
  }

  // batcher.ts:67-80.
  function Answered(o: Options, s: State, outcome: Outcome): Turn
    requires s.drain.Sending?
  {
    if outcome.Broke? then
      Turn(s.(drain := Sleeping(s.drain.batch, s.drain.attempt, DelayFor(o, s.drain.attempt))), None)
    else Delivered(o, s)
  }

  // The sleep is over, by its timer or by a wake-up (batcher.ts:66, 79).
  function Woken(o: Options, s: State): Turn
    requires s.drain.Sleeping?
  {
    if s.abandoned then Delivered(o, s)
    else Turn(s.(drain := Sending(s.drain.batch, s.drain.attempt + 1)), Some(s.drain.batch))
  }

  // batcher.ts:138-151, up to its wait.
  function CloseCalled(o: Options, s: State): Turn {
    var t := s.(closing := true, timer := false);
    if t.abandoned then Turn(t.(close := Released), None)
    else if t.drain == Idle && t.queue == [] then Turn(t.(close := Drained), None)
    else
      var waiting := t.(close := Waiting);
      if t.drain.Sleeping? then Woken(o, waiting) else Started(o, waiting)
  }

  // batcher.ts:153-157.
  function CloseExpired(o: Options, s: State): Turn {
    var t := s.(abandoned := true, close := Expired);
    if t.drain.Sleeping? then Woken(o, t) else Turn(t, None)
  }

  // batcher.ts:160-167.
  function Abandoned(o: Options, s: State): Turn {
    var t := s.(abandoned := true, queue := [], timer := false,
                close := if s.close == Waiting then Released else s.close);
    if t.drain.Sleeping? then Woken(o, t) else Turn(t, None)
  }

  // --- Its history --------------------------------------------------------------------------

  datatype End = Took | Dropped | GivenUp

  // The events pushed while it was not abandoned, the batches taken, how each finished one ended, the
  // place of the batch each time one reached Dispatch's log, and the batches a send of which broke.
  datatype History = History(
    s: State, pushed: seq<AgentEvent>, taken: seq<seq<AgentEvent>>, ends: seq<End>, reached: seq<nat>,
    broke: set<nat>)

  datatype Move =
    | Push(e: AgentEvent)
    | Timer
    | Reach(place: nat)
    | Answer(outcome: Outcome)
    | Wake
    | Close
    | Expire
    | Abandon

  // A batch reaches the log while it is being sent, or, if a send of it broke, at any time after: the
  // forwarder gives a send up after two minutes, and Dispatch may still be at work on it
  // (forwarder/src/client.ts:63-66). An accepted batch has reached the log, unless Dispatch no longer
  // wanted it, and then the batcher was abandoned first (forwarder/src/run.ts:111-127).
  predicate Enabled(h: History, m: Move) {
    match m
    case Push(e) => true
    case Timer => h.s.timer
    case Reach(place) => place in h.broke || (h.s.drain.Sending? && place == |h.taken| - 1)
    case Answer(outcome) =>
      && h.s.drain.Sending?
      && (outcome.Accepted? ==> |h.taken| > 0 && (|h.taken| - 1 in h.reached || h.s.abandoned))
    case Wake => h.s.drain.Sleeping?
    case Close => h.s.close == NotClosed
    case Expire => h.s.close == Waiting
    case Abandon => true
  }

  function TurnOf(o: Options, s: State, m: Move): Turn
    requires m.Answer? ==> s.drain.Sending?
    requires m.Wake? ==> s.drain.Sleeping?
  {
    match m
    case Push(e) => Pushed(o, s, e)
    case Timer => TimerFired(o, s)
    case Reach(place) => Turn(s, None)
    case Answer(outcome) => Answered(o, s, outcome)
    case Wake => Woken(o, s)
    case Close => CloseCalled(o, s)
    case Expire => CloseExpired(o, s)
    case Abandon => Abandoned(o, s)
  }

  // How the batch under way ends with this move, if it does.
  function EndBy(s: State, m: Move): Option<End> {
    match m
    case Answer(outcome) =>
      if outcome.Broke? then None else if outcome.Accepted? then Some(Took) else Some(Dropped)
    case Wake => if s.abandoned then Some(GivenUp) else None
    case Expire => if s.drain.Sleeping? then Some(GivenUp) else None
    case Abandon => if s.drain.Sleeping? then Some(GivenUp) else None
    case _ => None
  }

  function Next(o: Options, h: History, m: Move): History
    requires Enabled(h, m)
  {
    var turn := TurnOf(o, h.s, m);
    var end := EndBy(h.s, m);
    History(
      turn.s,
      if m.Push? && !h.s.abandoned then h.pushed + [m.e] else h.pushed,
      if turn.send.Some? && !h.s.drain.Sleeping? then h.taken + [turn.send.value] else h.taken,
      if end.Some? then h.ends + [end.value] else h.ends,
      if m.Reach? then h.reached + [m.place] else h.reached,
      if m.Answer? && m.outcome.Broke? && |h.taken| > 0 then h.broke + {|h.taken| - 1} else h.broke)
  }

  function New(): History {
    History(State([], false, Idle, false, false, NotClosed), [], [], [], [], {})
  }

  ghost predicate Runs(o: Options, hs: seq<History>, ms: seq<Move>) {
    && |hs| == |ms| + 1
    && hs[0] == New()
    && forall k | 0 <= k < |ms| :: Enabled(hs[k], ms[k]) && hs[k + 1] == Next(o, hs[k], ms[k])
  }

  // --- What every history satisfies ---------------------------------------------------------

  predicate Busy(s: State) {
    s.drain != Idle
  }

  // Nothing is lost and nothing is reordered.
  ghost predicate Conserves(h: History) {
    !h.s.abandoned ==> h.pushed == Concat(h.taken) + h.s.queue
  }

  // A queue that is neither closing nor abandoned is being drained or will be.
  ghost predicate Awake(s: State) {
    && (s.queue != [] && !s.closing && !s.abandoned ==> s.timer || Busy(s))
    && (s.close == Waiting ==> s.closing && !s.abandoned && Busy(s))
    && (s.close == NotClosed ==> !s.closing)
  }

  // The batch under way is the last one taken; every other has ended.
  ghost predicate OneUnderWay(h: History) {
    && |h.ends| == |h.taken| - (if Busy(h.s) then 1 else 0)
    && (Busy(h.s) ==> h.taken != [] && h.s.drain.batch == h.taken[|h.taken| - 1])
    && (!h.s.abandoned ==> forall j | 0 <= j < |h.ends| :: h.ends[j] != GivenUp)
  }

  ghost predicate NoneDropped(h: History) {
    forall j | 0 <= j < |h.ends| :: h.ends[j] != Dropped
  }

  // 0, 1, …, n - 1.
  function Upto(n: nat): (r: seq<nat>)
    ensures |r| == n && forall k | 0 <= k < n :: r[k] == k
  {
    if n == 0 then [] else Upto(n - 1) + [n - 1]
  }

  // No batch was refused after a send of it broke: no send is on its way of a batch done without.
  ghost predicate SafeRefusals(h: History) {
    forall j | 0 <= j < |h.ends| :: h.ends[j] == Dropped ==> j !in h.broke
  }

  // The batch has not arrived, and a later one has.
  ghost predicate Overtaken(h: History, j: nat) {
    j !in h.reached && exists i | i in h.reached :: j < i
  }

  // The batches first reached the log in the order they were taken.
  ghost predicate InPushOrder(h: History) {
    Increasing(Firsts(h.reached))
  }

  predicate ArrivedOrDropped(h: History, j: nat) {
    j < |h.ends| && (j in h.reached || h.ends[j] == Dropped)
  }

  // Every batch done with has arrived or was refused; once abandoned, every one but the last.
  ghost predicate Arrived(h: History) {
    && (!h.s.abandoned ==> forall j: nat | j < |h.ends| :: ArrivedOrDropped(h, j))
    && forall j: nat | j + 1 < |h.taken| :: ArrivedOrDropped(h, j)
  }

  // What arrives was taken, and so was what a send broke of.
  ghost predicate Within(h: History) {
    && (forall j | j in h.reached :: j < |h.taken|)
    && (forall j | j in h.broke :: j < |h.taken|)
  }

  ghost predicate Reaches(h: History) {
    Within(h) && Arrived(h) && (SafeRefusals(h) ==> InPushOrder(h))
  }

  // Every batch has an event, and what was taken was pushed, in that order.
  ghost predicate Batches(h: History) {
    (forall j | 0 <= j < |h.taken| :: h.taken[j] != []) && Concat(h.taken) <= h.pushed
  }

  ghost predicate Good(h: History) {
    Conserves(h) && Awake(h.s) && OneUnderWay(h) && Reaches(h) && Batches(h)
  }

  // A fresh batch is cut from the front of the queue.
  lemma BeginFacts(o: Options, s: State)
    requires o.maxBatch >= 1
    ensures var t := Begin(o, s);
      && t.send.Some? && t.s.drain == Sending(t.send.value, 0)
      && s.queue == t.send.value + t.s.queue
      && t.s == s.(queue := t.s.queue, drain := t.s.drain)
  {
    BatchIsLongest(o, s.queue);
  }

  lemma ConcatPush(taken: seq<seq<AgentEvent>>, batch: seq<AgentEvent>)
    ensures Concat(taken + [batch]) == Concat(taken) + batch
  {
    assert (taken + [batch])[..|taken + [batch]| - 1] == taken;
  }

  lemma CutConserves(pushed: seq<AgentEvent>, taken: seq<seq<AgentEvent>>, queue: seq<AgentEvent>,
                     batch: seq<AgentEvent>, rest: seq<AgentEvent>)
    requires pushed == Concat(taken) + queue && queue == batch + rest
    ensures pushed == Concat(taken + [batch]) + rest
  {
    ConcatPush(taken, batch);
    hide Concat;
  }

  lemma ConservesThrough(o: Options, h: History, m: Move)
    requires o.maxBatch >= 1 && Good(h) && Enabled(h, m)
    ensures Conserves(Next(o, h, m))
  {
    assert Conserves(h) && Awake(h.s);
    hide Reaches, OneUnderWay, Batches, Good;
    QueueCut(o, h.s, m);
    hide TurnOf, EndBy, Awake, Concat;
    var v, turn := Next(o, h, m), TurnOf(o, h.s, m);
    if !v.s.abandoned {
      var queue := if m.Push? then h.s.queue + [m.e] else h.s.queue;
      assert v.pushed == Concat(h.taken) + queue;
      if turn.send.Some? && !h.s.drain.Sleeping? {
        CutConserves(v.pushed, h.taken, queue, turn.send.value, v.s.queue);
      }
    }
  }

  // Where a move that does not abandon leaves the queue: as it was, or less the batch it sent.
  lemma QueueCut(o: Options, s: State, m: Move)
    requires o.maxBatch >= 1
    requires m.Answer? ==> s.drain.Sending?
    requires m.Wake? ==> s.drain.Sleeping?
    requires Awake(s)
    ensures var t, queue := TurnOf(o, s, m), if m.Push? && !s.abandoned then s.queue + [m.e] else s.queue;
      && (s.abandoned ==> t.s.abandoned)
      && (!t.s.abandoned && t.send.Some? && !s.drain.Sleeping? ==> queue == t.send.value + t.s.queue)
      && (!t.s.abandoned && !(t.send.Some? && !s.drain.Sleeping?) ==> queue == t.s.queue)
  {
    BeginFacts(o, s);
    BeginFacts(o, s.(timer := false));
    BeginFacts(o, s.(closing := true, timer := false, close := Waiting));
    if m.Push? {
      BeginFacts(o, s.(queue := s.queue + [m.e]));
    }
    hide Begin;
  }

  lemma AwakeThrough(o: Options, h: History, m: Move)
    requires o.maxBatch >= 1 && Awake(h.s) && Enabled(h, m)
    ensures Awake(Next(o, h, m).s)
  {
    BatchIsLongest(o, h.s.queue);
    hide BatchLen;
  }

  // How a move changes what is under way.
  lemma WayThrough(o: Options, h: History, m: Move)
    requires o.maxBatch >= 1 && Good(h) && Enabled(h, m)
    ensures OneUnderWay(Next(o, h, m))
  {
    hide BatchLen, Concat, Conserves, Reaches, Batches, Awake;
  }

  // A fresh batch has an event, and none is taken once abandoned.
  lemma SendsFresh(o: Options, s: State, m: Move)
    requires o.maxBatch >= 1
    requires m.Answer? ==> s.drain.Sending?
    requires m.Wake? ==> s.drain.Sleeping?
    ensures var t := TurnOf(o, s, m);
      t.send.Some? && !s.drain.Sleeping? ==> t.send.value != [] && !t.s.abandoned && t.s.drain != Idle
  {
    BatchIsLongest(o, s.queue);
    if m.Push? {
      BatchIsLongest(o, s.queue + [m.e]);
    }
    hide BatchLen;
  }

  lemma BatchesThrough(o: Options, h: History, m: Move)
    requires o.maxBatch >= 1 && Batches(h) && Enabled(h, m) && Conserves(Next(o, h, m))
    ensures Batches(Next(o, h, m))
  {
    SendsFresh(o, h.s, m);
    var v := Next(o, h, m);
    hide TurnOf, Concat, EndBy;
    assert v.s.abandoned ==> v.taken == h.taken && h.pushed <= v.pushed;
  }

  // What a move does to the record of the batches.
  lemma MovesOn(o: Options, h: History, m: Move)
    requires o.maxBatch >= 1 && OneUnderWay(h) && Within(h) && Enabled(h, m)
    ensures var v := Next(o, h, m);
      && Within(v) && h.broke <= v.broke
      && h.ends <= v.ends && |v.ends| <= |h.ends| + 1
      && v.reached == (if m.Reach? then h.reached + [m.place] else h.reached)
      && (m.Reach? ==> v == h.(reached := v.reached))
      && (h.s.abandoned ==> v.s.abandoned)
      && (v.taken == h.taken || (|v.taken| == |h.taken| + 1 && !v.s.abandoned && Busy(v.s)))
      && (|v.ends| > |h.ends| ==> Busy(h.s))
      && (!v.s.abandoned && |v.ends| > |h.ends| && v.ends[|h.ends|] != Dropped ==> |h.taken| - 1 in h.reached)
  {
    SendsFresh(o, h.s, m);
    if m.Answer? || m.Wake? || m.Expire? || m.Abandon? {
      hide Begin;
    } else {
      hide TurnOf;
      TurnKeepsAbandoned(o, h.s, m);
    }
  }

  lemma TurnKeepsAbandoned(o: Options, s: State, m: Move)
    requires m.Answer? ==> s.drain.Sending?
    requires m.Wake? ==> s.drain.Sleeping?
    ensures s.abandoned ==> TurnOf(o, s, m).s.abandoned
    ensures m.Reach? ==> TurnOf(o, s, m) == Turn(s, None)
  {
    hide BatchLen;
  }

  lemma ArrivedThrough(o: Options, h: History, m: Move)
    requires o.maxBatch >= 1 && OneUnderWay(h) && Reaches(h) && Enabled(h, m) && OneUnderWay(Next(o, h, m))
    ensures Arrived(Next(o, h, m))
  {
    MovesOn(o, h, m);
    var v := Next(o, h, m);
    hide Next, Enabled, TurnOf, EndBy, SafeRefusals, InPushOrder, Within;
    if !v.s.abandoned {
      forall j: nat | j < |v.ends| ensures ArrivedOrDropped(v, j) {
        assert j < |h.ends| ==> ArrivedOrDropped(h, j);
      }
    }
    forall j: nat | j + 1 < |v.taken| ensures ArrivedOrDropped(v, j) {
      assert v.taken == h.taken ==> ArrivedOrDropped(h, j);
    }
  }

  lemma IncreasingNext(indices: seq<nat>, last: nat)
    requires Increasing(indices)
    ensures Increasing(indices + [last]) <==> forall i | i in indices :: i < last
  {
    var r := indices + [last];
    if Increasing(r) {
      forall i | i in indices ensures i < last {
        var k :| 0 <= k < |indices| && indices[k] == i;
        assert r[k] == i && r[|indices|] == last;
      }
    }
    if forall i | i in indices :: i < last {
      assert forall k | 0 <= k < |indices| :: indices[k] in indices;
      assert Increasing(r);
    }
  }

  lemma FallsStay(indices: seq<nat>, last: nat)
    requires Increasing(indices + [last])
    ensures Increasing(indices)
  {
    var r := indices + [last];
    assert forall k | 0 <= k < |indices| :: indices[k] == r[k];
  }

  // An arrival keeps the order exactly when it overtakes nothing that should have come before.
  lemma ReachExactly(h: History, place: nat)
    ensures InPushOrder(h.(reached := h.reached + [place])) <==> InPushOrder(h) && !Overtaken(h, place)
  {
    var firsts := Firsts(h.reached);
    FirstsNext(h.reached, place);
    assert forall i: nat :: i in firsts <==> i in h.reached;
    hide Firsts, Increasing;
    if place !in h.reached {
      if Increasing(firsts) {
        IncreasingNext(firsts, place);
      } else if Increasing(firsts + [place]) {
        FallsStay(firsts, place);
      }
    }
  }

  // A batch that arrives behind a later one was refused after a send of it broke.
  lemma OvertakenDropped(h: History, place: nat)
    requires Within(h) && Arrived(h) && Enabled(h, Reach(place)) && Overtaken(h, place)
    ensures place < |h.ends| && h.ends[place] == Dropped && place in h.broke
  {
    var i :| i in h.reached && place < i;
    assert place + 1 < |h.taken|;
    assert ArrivedOrDropped(h, place);
  }

  lemma SafeBefore(h: History, v: History)
    requires SafeRefusals(v) && h.ends <= v.ends && h.broke <= v.broke
    ensures SafeRefusals(h)
  {
    assert forall j | 0 <= j < |h.ends| :: v.ends[j] == h.ends[j];
  }

  lemma OrderThrough(o: Options, h: History, m: Move)
    requires o.maxBatch >= 1 && OneUnderWay(h) && Reaches(h) && Enabled(h, m) && SafeRefusals(Next(o, h, m))
    ensures InPushOrder(Next(o, h, m))
  {
    MovesOn(o, h, m);
    var v := Next(o, h, m);
    SafeBefore(h, v);
    hide Next, TurnOf, EndBy, InPushOrder, Within, Arrived, Overtaken;
    if m.Reach? {
      ReachExactly(h, m.place);
      if Overtaken(h, m.place) {
        OvertakenDropped(h, m.place);
      }
    } else {
      SameOrder(h, v);
    }
  }

  lemma SameOrder(h: History, v: History)
    requires v.reached == h.reached
    ensures InPushOrder(v) <==> InPushOrder(h)
  {
  }

  lemma ReachesThrough(o: Options, h: History, m: Move)
    requires o.maxBatch >= 1 && OneUnderWay(h) && Reaches(h) && Enabled(h, m) && OneUnderWay(Next(o, h, m))
    ensures Reaches(Next(o, h, m))
  {
    hide OneUnderWay, Next, Enabled, Arrived, SafeRefusals, InPushOrder, Within;
    MovesOn(o, h, m);
    ArrivedThrough(o, h, m);
    if SafeRefusals(Next(o, h, m)) {
      OrderThrough(o, h, m);
    }
  }

  lemma {:induction false} UptoHas(n: nat)
    ensures forall k: nat :: k in Upto(n) <==> k < n
  {
    if n > 0 {
      UptoHas(n - 1);
    }
  }

  lemma GoodThrough(o: Options, h: History, m: Move)
    requires o.maxBatch >= 1 && Good(h) && Enabled(h, m)
    ensures Good(Next(o, h, m))
  {
    hide *;
    ConservesThrough(o, h, m);
    GoodParts(h);
    AwakeThrough(o, h, m);
    WayThrough(o, h, m);
    ReachesThrough(o, h, m);
    BatchesThrough(o, h, m);
    AllGood(Next(o, h, m));
  }

  lemma GoodParts(h: History)
    requires Good(h)
    ensures Awake(h.s) && OneUnderWay(h) && Reaches(h) && Batches(h)
  {
  }

  lemma AllGood(h: History)
    requires Conserves(h) && Awake(h.s) && OneUnderWay(h) && Reaches(h) && Batches(h)
    ensures Good(h)
  {
  }

  lemma {:induction false} AlwaysGood(o: Options, hs: seq<History>, ms: seq<Move>, k: nat)
    requires o.maxBatch >= 1 && Runs(o, hs, ms) && k < |hs|
    ensures Good(hs[k])
  {
    if k > 0 {
      AlwaysGood(o, hs, ms, k - 1);
      GoodThrough(o, hs[k - 1], ms[k - 1]);
    }
  }

  // Until it is abandoned, the events pushed are the batches taken, in order, followed by the queue;
  // and a queue that is neither closing nor abandoned is never left to sleep.
  lemma ConservesAndNeverSleeps(o: Options, hs: seq<History>, ms: seq<Move>, k: nat)
    requires o.maxBatch >= 1 && Runs(o, hs, ms) && k < |hs|
    ensures !hs[k].s.abandoned ==> hs[k].pushed == Concat(hs[k].taken) + hs[k].s.queue
    ensures hs[k].s.queue != [] && !hs[k].s.closing && !hs[k].s.abandoned ==> hs[k].s.timer || Busy(hs[k].s)
  {
    AlwaysGood(o, hs, ms, k);
  }

  // A full batch is never left to wait for the timer.
  lemma {:induction false} FullNeverWaits(o: Options, hs: seq<History>, ms: seq<Move>, k: nat)
    requires o.maxBatch >= 1 && Runs(o, hs, ms) && k < |hs|
    ensures |hs[k].s.queue| >= o.maxBatch && !hs[k].s.abandoned ==> Busy(hs[k].s)
  {
    if k > 0 {
      FullNeverWaits(o, hs, ms, k - 1);
      assert Enabled(hs[k - 1], ms[k - 1]) && hs[k] == Next(o, hs[k - 1], ms[k - 1]);
      hide Next, Enabled;
      FullThrough(o, hs[k - 1], ms[k - 1]);
    }
  }

  lemma FullThrough(o: Options, h: History, m: Move)
    requires o.maxBatch >= 1 && Enabled(h, m)
    requires |h.s.queue| >= o.maxBatch && !h.s.abandoned ==> Busy(h.s)
    ensures var t := Next(o, h, m).s; |t.queue| >= o.maxBatch && !t.abandoned ==> Busy(t)
  {
    hide BatchLen, EndBy;
  }

  // The event that fills a batch, coming to an idle batcher, sends it at once: the longest batch the
  // queue now allows.
  lemma FullPushSends(o: Options, h: History, e: AgentEvent)
    requires o.maxBatch >= 1 && !Busy(h.s) && !h.s.abandoned && |h.s.queue| + 1 >= o.maxBatch
    ensures var v, queue, n := Next(o, h, Push(e)), h.s.queue + [e], BatchLen(o, h.s.queue + [e]);
      && n >= 1 && v.s.drain == Sending(queue[..n], 0) && v.s.queue == queue[n..]
      && v.taken == h.taken + [queue[..n]]
  {
    BatchIsLongest(o, h.s.queue + [e]);
    hide BatchLen;
  }

  // Where a drain stands after a batch of its has broken `n` times in a row, each time slept out.
  function Persisted(o: Options, s: State, n: nat): State
    requires s.drain.Sending?
    ensures !s.abandoned ==> Persisted(o, s, n) == s.(drain := Sending(s.drain.batch, s.drain.attempt + n))
  {
    if n == 0 || s.abandoned then s
    else Woken(o, Answered(o, Persisted(o, s, n - 1), Broke).s).s
  }

  // A batch that breaks is not given up while the batcher lives: it sleeps out each of the delays set,
  // one after the other, and then the ceiling each time.
  lemma BacksOff(o: Options, s: State, n: nat)
    requires s.drain.Sending? && s.drain.attempt == 0 && !s.abandoned
    ensures Answered(o, Persisted(o, s, n), Broke).s
      == s.(drain := Sleeping(s.drain.batch, n, if n < |o.retryDelaysMs| then o.retryDelaysMs[n] else 30_000))
  {
  }

  // A close that drains leaves nothing queued and nothing under way.
  lemma DrainedIsEmpty(o: Options, hs: seq<History>, ms: seq<Move>, k: nat)
    requires o.maxBatch >= 1 && Runs(o, hs, ms) && k < |ms|
    requires hs[k].s.close != Drained && hs[k + 1].s.close == Drained
    ensures var h := hs[k + 1];
      h.s.queue == [] && !Busy(h.s) && !h.s.abandoned && h.pushed == Concat(h.taken)
  {
    AlwaysGood(o, hs, ms, k);
    AlwaysGood(o, hs, ms, k + 1);
    DrainedStep(o, hs[k].s, ms[k]);
    hide TurnOf;
  }

  lemma DrainedStep(o: Options, s: State, m: Move)
    requires m.Answer? ==> s.drain.Sending?
    requires m.Wake? ==> s.drain.Sleeping?
    requires s.close != Drained && TurnOf(o, s, m).s.close == Drained
    ensures var t := TurnOf(o, s, m).s; t.queue == [] && !Busy(t) && !t.abandoned
  {
    hide BatchLen;
  }

  // --- The order of arrival -----------------------------------------------------------------

  // However it is pushed to, closed or abandoned, and whatever is lost, repeated or late: unless a batch
  // was refused after a send of it broke, the batches first arrive in push order.
  lemma SafeInOrder(o: Options, hs: seq<History>, ms: seq<Move>, k: nat)
    requires o.maxBatch >= 1 && Runs(o, hs, ms) && k < |hs| && SafeRefusals(hs[k])
    ensures InPushOrder(hs[k])
  {
    AlwaysGood(o, hs, ms, k);
    hide Conserves, Awake, OneUnderWay, Batches;
  }

  // In every run the batches first arrive in push order exactly when none arrives behind a later one.
  lemma {:induction false} OrderExactly(o: Options, hs: seq<History>, ms: seq<Move>, k: nat)
    requires Runs(o, hs, ms) && k < |hs|
    ensures InPushOrder(hs[k]) <==> forall i | 0 <= i < k && ms[i].Reach? :: !Overtaken(hs[i], ms[i].place)
  {
    hide InPushOrder, Overtaken, TurnOf, EndBy;
    if k == 0 {
      NothingArrived();
    } else {
      OrderExactly(o, hs, ms, k - 1);
      assert hs[k] == Next(o, hs[k - 1], ms[k - 1]) && Enabled(hs[k - 1], ms[k - 1]);
      if ms[k - 1].Reach? {
        ReachExactly(hs[k - 1], ms[k - 1].place);
      }
      SameOrder(hs[k], hs[k - 1].(reached := hs[k].reached));
    }
  }

  lemma NothingArrived()
    ensures InPushOrder(New())
  {
  }

  // A batch refused after a send of it broke, not yet arrived, with a later one arrived.
  ghost predicate Strays(h: History, j: nat) {
    j < |h.ends| && h.ends[j] == Dropped && j in h.broke && Overtaken(h, j)
  }

  // An arrival breaks an order that has held exactly when it is such a batch's, and such a batch may
  // always arrive.
  lemma BreaksExactly(o: Options, hs: seq<History>, ms: seq<Move>, k: nat, j: nat)
    requires o.maxBatch >= 1 && Runs(o, hs, ms) && k < |hs| && InPushOrder(hs[k])
    ensures Enabled(hs[k], Reach(j)) && !InPushOrder(Next(o, hs[k], Reach(j))) <==> Strays(hs[k], j)
  {
    var h := hs[k];
    AlwaysGood(o, hs, ms, k);
    hide Conserves, Awake, OneUnderWay, Batches, Runs, InPushOrder, Within, Arrived, Overtaken;
    ReachExactly(h, j);
    if Enabled(h, Reach(j)) && Overtaken(h, j) {
      OvertakenDropped(h, j);
    }
    if Enabled(h, Reach(j)) {
      SameOrder(Next(o, h, Reach(j)), h.(reached := h.reached + [j]));
    }
  }

  // --- The batcher itself -------------------------------------------------------------------

  class EventBatcher {
    const o: Options
    var queue: seq<AgentEvent>
    var timer: bool
    var draining: Drain
    var closing: bool
    var abandoned: bool
    var closed: Closed
    ghost var history: History

    function View(): State
      reads this
    {
      State(queue, timer, draining, closing, abandoned, closed)
    }

    // Until it is abandoned nothing pushed is lost or reordered, and a queue that is neither closing
    // nor abandoned has a timer or a drain.
    ghost predicate Valid()
      reads this
      ensures Valid() && !abandoned ==> history.pushed == Concat(history.taken) + queue
      ensures Valid() && queue != [] && !closing && !abandoned ==> timer || draining != Idle
    {
      o.maxBatch >= 1 && history.s == View() && Good(history)
    }

    constructor (o: Options)
      requires o.maxBatch >= 1
      ensures this.o == o && history == New() && Valid()
    {
      this.o := o;
      queue, timer, draining, closing, abandoned, closed := [], false, Idle, false, false, NotClosed;
      history := New();
    }

    // The move has been made: it goes into the history.
    ghost method Record(m: Move)
      requires o.maxBatch >= 1 && Good(history) && Enabled(history, m) && View() == TurnOf(o, history.s, m).s
      modifies this`history
      ensures history == Next(o, old(history), m) && Valid()
    {
      GoodThrough(o, history, m);
      history := Next(o, history, m);
      hide Good, TurnOf;
    }

    method TakeBatch() returns (batch: seq<AgentEvent>)
      requires o.maxBatch >= 1
      modifies this`queue
      ensures var n := BatchLen(o, old(queue));
        batch == old(queue)[..n] && queue == old(queue)[n..]
    {
      var bytes := 1;
      var count := 0;
      BatchIsLongest(o, queue);
      while count < |queue| && count != o.maxBatch
        invariant 0 <= count <= |queue|
        invariant bytes == 1 + Sizes(o, queue[..count])
        invariant BatchFrom(o, queue, count) == BatchLen(o, queue)
      {
        assert queue[..count + 1][..count] == queue[..count];
        bytes := bytes + o.size(queue[count]) + 1;
        if count > 0 && bytes >= o.maxBatchBytes {
          break;
        }
        count := count + 1;
      }
      batch := queue[..count];
      queue := queue[count..];
    }

    method BeginDrain() returns (send: Option<seq<AgentEvent>>)
      requires o.maxBatch >= 1
      modifies this`queue, this`draining
      ensures Turn(View(), send) == Begin(o, old(View()))
    {
      var batch := TakeBatch();
      draining := Sending(batch, 0);
      send := Some(batch);
    }

    method Start() returns (send: Option<seq<AgentEvent>>)
      requires o.maxBatch >= 1
      modifies this`queue, this`draining
      ensures Turn(View(), send) == Started(o, old(View()))
    {
      if draining != Idle || abandoned || queue == [] {
        return None;
      }
      send := BeginDrain();
    }

    method AfterBatch() returns (send: Option<seq<AgentEvent>>)
      requires o.maxBatch >= 1
      modifies this`queue, this`draining, this`timer, this`closed
      ensures Turn(View(), send) == Delivered(o, old(View()))
    {
      if !abandoned && queue != [] && (closing || |queue| >= o.maxBatch) {
        send := BeginDrain();
        return;
      }
      draining := Idle;
      if queue != [] && !closing && !abandoned {
        timer := true;
      }
      if closed == Waiting && !abandoned && queue == [] {
        closed := Drained;
      }
      send := None;
    }

    method WakeSleeper() returns (send: Option<seq<AgentEvent>>)
      requires o.maxBatch >= 1 && draining.Sleeping?
      modifies this`queue, this`draining, this`timer, this`closed
      ensures Turn(View(), send) == Woken(o, old(View()))
    {
      if abandoned {
        send := AfterBatch();
      } else {
        send := Some(draining.batch);
        draining := Sending(draining.batch, draining.attempt + 1);
      }
    }

    method Push(e: AgentEvent) returns (send: Option<seq<AgentEvent>>)
      requires Valid()
      modifies this
      ensures Valid() && history == Next(o, old(history), Move.Push(e))
      ensures send == TurnOf(o, old(View()), Move.Push(e)).send
    {
      send := None;
      if !abandoned {
        queue := queue + [e];
        if |queue| >= o.maxBatch {
          send := Start();
        } else {
          timer := true;
        }
      }
      Record(Move.Push(e));
    }

    method OnTimer() returns (send: Option<seq<AgentEvent>>)
      requires Valid() && timer
      modifies this
      ensures Valid() && history == Next(o, old(history), Timer)
      ensures send == TurnOf(o, old(View()), Timer).send
    {
      timer := false;
      send := Start();
      Record(Timer);
    }

    // A send of a batch reaches Dispatch's log.
    ghost method OnReach(place: nat)
      requires Valid() && Enabled(history, Reach(place))
      modifies this`history
      ensures Valid() && history == Next(o, old(history), Reach(place))
    {
      Record(Reach(place));
    }

    method OnAnswer(outcome: Outcome) returns (send: Option<seq<AgentEvent>>)
      requires Valid() && Enabled(history, Answer(outcome))
      modifies this
      ensures Valid() && history == Next(o, old(history), Answer(outcome))
      ensures send == TurnOf(o, old(View()), Answer(outcome)).send
    {
      if outcome.Broke? {
        draining := Sleeping(draining.batch, draining.attempt, DelayFor(o, draining.attempt));
        send := None;
      } else {
        send := AfterBatch();
      }
      Record(Answer(outcome));
    }

    method OnSlept() returns (send: Option<seq<AgentEvent>>)
      requires Valid() && draining.Sleeping?
      modifies this
      ensures Valid() && history == Next(o, old(history), Wake)
      ensures send == TurnOf(o, old(View()), Wake).send
    {
      send := WakeSleeper();
      Record(Wake);
    }

    method Close() returns (send: Option<seq<AgentEvent>>)
      requires Valid() && closed == NotClosed
      modifies this
      ensures Valid() && history == Next(o, old(history), Move.Close)
      ensures send == TurnOf(o, old(View()), Move.Close).send
    {
      closing, timer, send := true, false, None;
      if abandoned {
        closed := Released;
      } else if draining == Idle && queue == [] {
        closed := Drained;
      } else {
        closed := Waiting;
        if draining.Sleeping? {
          send := WakeSleeper();
        } else {
          send := Start();
        }
      }
      Record(Move.Close);
    }

    method OnExpired() returns (send: Option<seq<AgentEvent>>)
      requires Valid() && closed == Waiting
      modifies this
      ensures Valid() && history == Next(o, old(history), Expire)
      ensures send == TurnOf(o, old(View()), Expire).send
    {
      abandoned, closed, send := true, Expired, None;
      if draining.Sleeping? {
        send := WakeSleeper();
      }
      Record(Expire);
    }

    method Abandon() returns (send: Option<seq<AgentEvent>>)
      requires Valid()
      modifies this
      ensures Valid() && history == Next(o, old(history), Move.Abandon)
      ensures send == TurnOf(o, old(View()), Move.Abandon).send
    {
      abandoned, queue, timer, send := true, [], false, None;
      if closed == Waiting {
        closed := Released;
      }
      if draining.Sleeping? {
        send := WakeSleeper();
      }
      Record(Move.Abandon);
    }
  }

  // --- With the log -------------------------------------------------------------------------

  lemma {:induction false} PickAll(batches: seq<seq<AgentEvent>>, n: nat)
    requires n <= |batches|
    ensures Pick(batches, Upto(n)) == Concat(batches[..n])
  {
    if n > 0 {
      PickAll(batches, n - 1);
      assert Upto(n)[..n - 1] == Upto(n - 1);
      assert batches[..n][..n - 1] == batches[..n - 1];
    }
  }

  // The log holds a source's first `n` batches, and no more of it.
  lemma LogsFirst(sent: Sent, ds: seq<Delivery>, source: Source, n: nat)
    requires WereSent(sent, ds) && Sound(sent, ds) && Numbered(source, Concat(sent(source)))
    requires n <= |sent(source)| && Firsts(IndicesOf(source, ds)) == Upto(n)
    ensures OwnRows(source, LogAfter(sent, ds)) == RowsOf(source.agentId, source.retries, Concat(sent(source)[..n]))
  {
    hide *;
    ExactlyOnce(sent, ds, source);
    PickAll(sent(source), n);
  }

  lemma {:induction false} ConcatPrefix(batches: seq<seq<AgentEvent>>, n: nat)
    requires n <= |batches|
    ensures Concat(batches[..n]) <= Concat(batches)
    decreases |batches|
  {
    if n < |batches| {
      assert batches[..|batches| - 1][..n] == batches[..n];
      ConcatPrefix(batches[..|batches| - 1], n);
    } else {
      assert batches[..n] == batches;
    }
  }

  lemma LastOff(indices: seq<nat>)
    requires indices != [] && Increasing(indices)
    ensures var init, last := indices[..|indices| - 1], indices[|indices| - 1];
      && indices == init + [last] && Increasing(init)
      && (forall i | i in init :: i < last)
      && forall i :: i in indices <==> i in init || i == last
  {
    var init, last := indices[..|indices| - 1], indices[|indices| - 1];
    assert indices == init + [last];
    FallsStay(init, last);
    IncreasingNext(init, last);
  }

  // Numbers that rise, all of those below `n` and none above it, are the first `n` or one more.
  lemma {:induction false} RisingFull(indices: seq<nat>, n: nat)
    requires Increasing(indices) && (forall j: nat | j < n :: j in indices) && forall i | i in indices :: i <= n
    ensures indices == Upto(n) || indices == Upto(n + 1)
  {
    hide Increasing, Upto;
    UptoGrows(n);
    if indices != [] {
      var init, last := indices[..|indices| - 1], indices[|indices| - 1];
      LastOff(indices);
      assert last in indices;
      assert forall i | i in init :: i in indices && i < n;
      if n == 0 {
        NoneBelow(init, last);
        UptoNone();
      } else {
        var m: nat := n - 1;
        assert m in indices && last >= m;
        assert forall j: nat | j < m :: j in indices && j != last;
        RisingFull(init, m);
        UptoGrows(m);
        UptoHas(m);
        UptoHas(n);
        assert last == n ==> m in init;
      }
    } else {
      assert n > 0 ==> n - 1 in indices;
      UptoNone();
    }
  }

  lemma NoneBelow(indices: seq<nat>, last: nat)
    requires forall i | i in indices :: i < last
    ensures indices != [] ==> last > 0
  {
    if indices != [] {
      assert indices[0] in indices;
    }
  }

  lemma UptoNone()
    ensures Upto(0) == []
  {
  }

  lemma UptoGrows(n: nat)
    ensures Upto(n + 1) == Upto(n) + [n]
  {
  }

  // Where nothing was refused, the first batches taken have arrived, in push order: all but the last, and
  // that one too if the batcher is done with it and was not abandoned.
  lemma ArrivedFirst(h: History) returns (n: nat)
    requires OneUnderWay(h) && Reaches(h) && NoneDropped(h)
    ensures n <= |h.taken| <= n + 1 && (!h.s.abandoned ==> |h.ends| <= n) && Firsts(h.reached) == Upto(n)
  {
    var firsts := Firsts(h.reached);
    assert forall i: nat :: i in firsts <==> i in h.reached;
    assert Increasing(firsts);
    var m: nat := if |h.taken| == 0 then 0 else |h.taken| - 1;
    forall j: nat | j < m ensures j in firsts {
      assert ArrivedOrDropped(h, j);
    }
    if !h.s.abandoned && |h.ends| == m + 1 {
      assert ArrivedOrDropped(h, m);
    }
    hide Firsts, Upto, Increasing;
    RisingFull(firsts, m);
    UptoHas(m);
    UptoHas(m + 1);
    n := if m in firsts then m + 1 else m;
  }

  lemma ConcatWithin(batches: seq<seq<AgentEvent>>, n: nat, events: seq<AgentEvent>)
    requires n <= |batches| && Concat(batches) <= events
    ensures Concat(batches[..n]) <= events
  {
    ConcatPrefix(batches, n);
  }

  // At every moment, until a batch is refused: the attempt's lines in the log are the first so many of
  // the events pushed, each once and in push order; those of every batch taken but perhaps the last,
  // and of every batch the batcher is done with unless it was abandoned; whatever sends were lost,
  // repeated or late, and whatever other agents and attempts sent in between.
  lemma LoggedIsPrefix(o: Options, hs: seq<History>, ms: seq<Move>, k: nat,
                       sent: Sent, ds: seq<Delivery>, source: Source) returns (n: nat)
    requires o.maxBatch >= 1 && Runs(o, hs, ms) && k < |hs| && NoneDropped(hs[k])
    requires WereSent(sent, ds) && Sound(sent, ds)
    requires sent(source) == hs[k].taken && Numbered(source, Concat(hs[k].taken))
    requires IndicesOf(source, ds) == hs[k].reached
    ensures n <= |hs[k].taken| <= n + 1 && (!hs[k].s.abandoned ==> |hs[k].ends| <= n)
    ensures Concat(hs[k].taken[..n]) <= hs[k].pushed
    ensures OwnRows(source, LogAfter(sent, ds)) == RowsOf(source.agentId, source.retries, Concat(hs[k].taken[..n]))
  {
    AlwaysGood(o, hs, ms, k);
    var h := hs[k];
    hide Runs, Sound, WereSent, Numbered, LogAfter, OwnRows, RowsOf, Awake, Firsts, Upto, Concat, Reaches, NoneDropped;
    n := ArrivedFirst(h);
    LogsFirst(sent, ds, source, n);
    ConcatWithin(h.taken, n, h.pushed);
  }

  // Refusals or not, abandoned or not: the log holds the events of the batches that arrived, each once,
  // and they stand in push order exactly when no batch arrived behind a later one; which none does that
  // was not refused after a send of it broke. Every batch done with has arrived or was refused, but for the
  // last one of an abandoned batcher.
  lemma LogOrderExactly(o: Options, hs: seq<History>, ms: seq<Move>, k: nat,
                        sent: Sent, ds: seq<Delivery>, source: Source)
    requires o.maxBatch >= 1 && Runs(o, hs, ms) && k < |hs|
    requires WereSent(sent, ds) && Sound(sent, ds)
    requires sent(source) == hs[k].taken && Numbered(source, Concat(hs[k].taken))
    requires IndicesOf(source, ds) == hs[k].reached
    ensures var picked := Pick(hs[k].taken, Firsts(hs[k].reached));
      && OwnRows(source, LogAfter(sent, ds)) == RowsOf(source.agentId, source.retries, picked)
      && (Rising(picked) <==> forall i | 0 <= i < k && ms[i].Reach? :: !Overtaken(hs[i], ms[i].place))
      && (SafeRefusals(hs[k]) ==> Rising(picked))
      && Arrived(hs[k])
  {
    assert Arrived(hs[k]) && forall j | 0 <= j < |hs[k].taken| :: hs[k].taken[j] != [] by {
      AlwaysGood(o, hs, ms, k);
    }
    assert InPushOrder(hs[k]) <==> Increasing(Firsts(hs[k].reached));
    hide Runs, Good, WereSent, Sound, Numbered, Concat, SafeRefusals, InPushOrder, Increasing, Rising, Firsts,
      Arrived, Pick, OwnRows, LogAfter, RowsOf, Overtaken;
    PushOrderExactly(sent, ds, source);
    OrderExactly(o, hs, ms, k);
    if SafeRefusals(hs[k]) {
      SafeInOrder(o, hs, ms, k);
    }
  }

  // Every batch having arrived, further arrivals change nothing.
  lemma {:induction false} LateFirsts(indices: seq<nat>, late: seq<nat>, n: nat)
    requires Firsts(indices) == Upto(n) && forall k | 0 <= k < |late| :: late[k] < n
    ensures Firsts(indices + late) == Upto(n)
  {
    if late == [] {
      assert indices + late == indices;
    } else {
      var init, last := late[..|late| - 1], late[|late| - 1];
      LateFirsts(indices, init, n);
      assert indices + late == (indices + init) + [last];
      FirstsNext(indices + init, last);
      assert Upto(n)[last] == last;
    }
  }

  lemma LogsAll(sent: Sent, ds: seq<Delivery>, source: Source, indices: seq<nat>, late: seq<nat>)
    requires WereSent(sent, ds) && Sound(sent, ds) && Numbered(source, Concat(sent(source)))
    requires IndicesOf(source, ds) == indices + late && Firsts(indices) == Upto(|sent(source)|)
    ensures OwnRows(source, LogAfter(sent, ds)) == RowsOf(source.agentId, source.retries, Concat(sent(source)))
  {
    hide *;
    IndicesSent(sent, ds, source);
    var n := |sent(source)|;
    forall i | 0 <= i < |late| ensures late[i] < n {
      assert (indices + late)[|indices| + i] == late[i];
      assert late[i] in indices + late;
    }
    LateFirsts(indices, late, n);
    LogsFirst(sent, ds, source, n);
    assert sent(source)[..n] == sent(source);
  }

  lemma DrainedInTurn(o: Options, hs: seq<History>, ms: seq<Move>, k: nat)
    requires o.maxBatch >= 1 && Runs(o, hs, ms) && k < |ms|
    requires hs[k].s.close != Drained && hs[k + 1].s.close == Drained && NoneDropped(hs[k + 1])
    ensures var h := hs[k + 1]; h.pushed == Concat(h.taken) && Firsts(h.reached) == Upto(|h.taken|)
  {
    AlwaysGood(o, hs, ms, k + 1);
    hide Runs, Conserves, Awake, Firsts, Upto, Concat, Reaches, NoneDropped;
    DrainedIsEmpty(o, hs, ms, k);
    var n := ArrivedFirst(hs[k + 1]);
  }

  // From the forwarder's push to the log: once a close has drained and no batch was refused, the
  // attempt's lines in the log are exactly the events pushed, each once and in push order, whatever
  // sends were lost, repeated or late, `late` even than the drain, and whatever other agents and
  // attempts sent in between.
  lemma DrainedIsLogged(o: Options, hs: seq<History>, ms: seq<Move>, k: nat,
                        sent: Sent, ds: seq<Delivery>, source: Source, late: seq<nat>)
    requires o.maxBatch >= 1 && Runs(o, hs, ms) && k < |ms|
    requires hs[k].s.close != Drained && hs[k + 1].s.close == Drained
    requires NoneDropped(hs[k + 1])
    requires WereSent(sent, ds) && Sound(sent, ds)
    requires sent(source) == hs[k + 1].taken && Numbered(source, hs[k + 1].pushed)
    requires IndicesOf(source, ds) == hs[k + 1].reached + late
    ensures OwnRows(source, LogAfter(sent, ds)) == RowsOf(source.agentId, source.retries, hs[k + 1].pushed)
  {
    var h := hs[k + 1];
    hide *;
    DrainedInTurn(o, hs, ms, k);
    LogsAll(sent, ds, source, h.reached, late);
  }

  ghost predicate Goes(o: Options, h: History, m: Move, v: History) {
    Enabled(h, m) && Next(o, h, m) == v
  }

  // One event alone in its batch is pushed, its batch broken and refused, another pushed and accepted,
  // and then the first send arrives.
  function SceneMove(k: nat, x: AgentEvent, y: AgentEvent): Move {
    match k
    case 0 => Push(x)
    case 1 => Answer(Broke)
    case 2 => Wake
    case 3 => Answer(Refused)
    case 4 => Push(y)
    case 5 => Reach(1)
    case 6 => Answer(Accepted)
    case _ => Reach(0)
  }

  function SceneDrain(o: Options, k: nat, x: AgentEvent, y: AgentEvent): Drain {
    match k
    case 1 => Sending([x], 0)
    case 2 => Sleeping([x], 0, DelayFor(o, 0))
    case 3 => Sending([x], 1)
    case 5 => Sending([y], 0)
    case 6 => Sending([y], 0)
    case _ => Idle
  }

  function Scene(o: Options, k: nat, x: AgentEvent, y: AgentEvent): History {
    History(State([], false, SceneDrain(o, k, x, y), false, false, NotClosed),
      if k == 0 then [] else if k < 5 then [x] else [x, y],
      if k == 0 then [] else if k < 5 then [[x]] else [[x], [y]],
      if k < 4 then [] else if k < 7 then [Dropped] else [Dropped, Took],
      if k < 6 then [] else if k < 8 then [1] else [1, 0],
      if k < 2 then {} else {0})
  }

  lemma ScenesRun(o: Options, x: AgentEvent, y: AgentEvent, hs: seq<History>, ms: seq<Move>)
    requires o.maxBatch == 1 && |hs| == 9 && |ms| == 8
    requires forall k | 0 <= k < 9 :: hs[k] == Scene(o, k, x, y)
    requires forall k | 0 <= k < 8 :: ms[k] == SceneMove(k, x, y)
    ensures Runs(o, hs, ms)
  {
    assert hs[0] == New();
    hide New, Next, Enabled, Scene, SceneMove;
    forall k | 0 <= k < 8 ensures Goes(o, hs[k], ms[k], hs[k + 1]) {
      if k < 4 {
        FirstScenes(o, k, x, y);
      } else {
        LaterScenes(o, k, x, y);
      }
    }
  }

  // A batch refused after a send of it broke may still arrive, behind a later one: the log then holds
  // its events after the later ones' (`EventLog.PushOrderExactly`).
  lemma RefusedMayArriveLate(o: Options, x: AgentEvent, y: AgentEvent) returns (hs: seq<History>, ms: seq<Move>)
    requires o.maxBatch == 1
    ensures Runs(o, hs, ms) && |hs| == 9
    ensures !hs[8].s.abandoned && hs[8].taken == [[x], [y]] && Firsts(hs[8].reached) == [1, 0]
  {
    hs := seq(9, k requires 0 <= k < 9 => Scene(o, k, x, y));
    ms := seq(8, k requires 0 <= k < 8 => SceneMove(k, x, y));
    assert !hs[8].s.abandoned && hs[8].taken == [[x], [y]] && hs[8].reached == [1, 0];
    hide Scene, SceneMove, Runs;
    ScenesRun(o, x, y, hs, ms);
    FirstsNext([], 1);
    FirstsNext([1], 0);
    assert [] + [1] == [1] && [1] + [0] == [1, 0];
  }

  lemma FirstScenes(o: Options, k: nat, x: AgentEvent, y: AgentEvent)
    requires o.maxBatch == 1 && k < 4
    ensures Goes(o, Scene(o, k, x, y), SceneMove(k, x, y), Scene(o, k + 1, x, y))
  {
    AloneGoes(o, Scene(o, 0, x, y).s, x);
    hide Pushed, Begin, BatchLen;
  }

  lemma LaterScenes(o: Options, k: nat, x: AgentEvent, y: AgentEvent)
    requires o.maxBatch == 1 && 4 <= k < 8
    ensures Goes(o, Scene(o, k, x, y), SceneMove(k, x, y), Scene(o, k + 1, x, y))
  {
    AloneGoes(o, Scene(o, 4, x, y).s, y);
    hide Pushed, Begin, BatchLen;
  }

  lemma AloneGoes(o: Options, s: State, e: AgentEvent)
    requires o.maxBatch == 1 && s.queue == [] && s.drain == Idle && !s.abandoned
    ensures Pushed(o, s, e) == Turn(s.(drain := Sending([e], 0)), Some([e]))
  {
    var t := s.(queue := [e]);
    assert s.queue + [e] == [e];
    BatchIsLongest(o, [e]);
    assert BatchLen(o, [e]) == 1;
    assert [e][..1] == [e] && [e][1..] == [];
    assert s.(queue := []) == s;
  }
}
