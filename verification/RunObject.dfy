// The durable object that owns a run (dispatch/src/run/do.ts): its state is stored with a mark for
// the check write it owes, and check syncs go to GitHub one at a time.
module RunObject {
  import opened Domain
  import opened Machine
  import opened Lifecycle

  // The GitHub call a check sync is waiting for. `rev` is the mark the sync read. A create keeps the
  // check run it is to replace and the asks it answers; a replace marks that old check run.
  datatype Call =
    | Update(rev: nat, id: int, body: CheckBody)
    | Create(rev: nat, body: CheckBody, prior: Option<int>, asked: Option<nat>)
    | Replace(rev: nat, replaced: int)

  // Storage: the state, the mark (the revision of the commit that set it) and the last revision used.
  // Memory: commits yet to queue their check sync, syncs waiting their turn, the call the running
  // sync is waiting for, owners whose sync is over, and the count of syncs owed.
  datatype Obj = Obj(
    state: RunState, mark: Option<nat>, lastRev: nat,
    unqueued: nat, waiting: nat, call: Option<Call>, finishing: nat, owed: nat)

  datatype Answer =
    | Applied(id: int)        // GitHub made the write, and said so
    | Unheard(id: int)        // it made the write, but the call failed
    | NotApplied              // the call failed and nothing was written

  // --- What each uninterrupted stretch of code does -----------------------------------------

  // start's commit of the run just created (do.ts:91-95, 294-311).
  function Started(a: Start): Obj {
    Obj(CreateRun(a).state, Some(1), 1, 1, 0, None, 0, 1)
  }

  // A machine step and its commit (do.ts:284-311). Revisions are fresh.
  function Committed(o: Obj, e: Event): Obj {
    var t := Apply(o.state, e);
    if !t.moved then o
    else if Check in t.effects then
      o.(state := t.state, mark := Some(o.lastRev + 1), lastRev := o.lastRev + 1,
         unqueued := o.unqueued + 1, owed := o.owed + 1)
    else o.(state := t.state, lastRev := o.lastRev + 1)
  }

  // A commit reaches its check effect (do.ts:396-398).
  function Queued(o: Obj): Obj
    requires o.unqueued > 0
  {
    o.(unqueued := o.unqueued - 1, waiting := o.waiting + 1)
  }

  // An effect before it throws, and the commit gives up (do.ts:308-310).
  function GaveUpQueueing(o: Obj): Obj
    requires o.unqueued > 0 && o.owed > 0
  {
    o.(unqueued := o.unqueued - 1, owed := o.owed - 1)
  }

  // do.ts:355-365.
  function RetryQueued(o: Obj): Obj {
    if o.mark.None? || o.owed > 0 then o
    else o.(owed := o.owed + 1, waiting := o.waiting + 1)
  }

  // The mark goes, unless it is by now a later commit's (do.ts:346-348).
  function Settled(o: Obj, rev: nat): Obj {
    if o.mark == Some(rev) then o.(mark := None) else o
  }

  function SyncOver(o: Obj): Obj {
    o.(call := None, finishing := o.finishing + 1)
  }

  // The next sync runs up to its GitHub call, if it has one to make (do.ts:409-433).
  function SyncStarted(o: Obj): Obj
    requires o.waiting > 0 && o.call.None?
  {
    var run := o.(waiting := o.waiting - 1);
    if o.mark.None? then SyncOver(run)
    else if !WantsCheck(o.state) then SyncOver(Settled(run, o.mark.value))
    else
      var body := CheckRunOf(o.state);
      if o.state.checkRunId.Some? && o.state.checkReposts.None? then
        run.(call := Some(Update(o.mark.value, o.state.checkRunId.value, body)))
      else
        run.(call := Some(Create(o.mark.value, body, o.state.checkRunId, o.state.checkReposts)))
  }

  // The sync goes on from GitHub's answer (do.ts:415-421, 433-447).
  function Answered(o: Obj, answer: Answer): Obj
    requires o.call.Some?
  {
    match o.call.value
    case Update(rev, id, body) =>
      SyncOver(if answer.Applied? then Settled(o, rev) else o)
    case Create(rev, body, prior, asked) =>
      if !answer.Applied? then SyncOver(o)
      else
        var stored := o.(state :=
          if asked.None? then OnCheckCreated(o.state, answer.id).state
          else OnCheckReposted(o.state, answer.id, asked.value).state);
        if prior.None? then SyncOver(Settled(stored, rev))
        else stored.(call := Some(Replace(rev, prior.value)))
    case Replace(rev, replaced) =>
      SyncOver(Settled(o, rev))
  }

  // The owner of a finished sync is done with its effects (do.ts:309-310, 362-364).
  function OwnerDone(o: Obj): Obj
    requires o.finishing > 0 && o.owed > 0
  {
    o.(finishing := o.finishing - 1, owed := o.owed - 1)
  }

  // A reset keeps storage and nothing else.
  function Reset(o: Obj): Obj {
    Obj(o.state, o.mark, o.lastRev, 0, 0, None, 0, 0)
  }
}
