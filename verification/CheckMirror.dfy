// The run's check on GitHub mirrors the run, whatever interleaving of commits, syncs, failed calls
// and resets happens.
module CheckMirror {
  import opened Domain
  import opened Machine
  import opened Lifecycle
  import opened Effects
  import opened Review
  import opened RunObject

  // --- The object and GitHub together -------------------------------------------------------

  datatype Shown = Posted(body: CheckBody) | Superseded

  // The check runs this run has created, and the newest of them.
  datatype GitHub = GitHub(checks: map<int, Shown>, newest: Option<int>)

  // `asks` counts the asks for a repost so far; `served` those made before the last completed create
  // read the state; `readAsks` those made before the create under way did.
  datatype World = World(o: Obj, gh: GitHub, asks: nat, served: nat, readAsks: nat)

  datatype Move =
    | Commit(e: Event)
    | Queue
    | GiveUp
    | Retry
    | Sync
    | Answer(answer: Answer)
    | Finish
    | Crash(answer: Answer)

  predicate IsAsk(e: Event) {
    e.Retry? || e.Bypass? || e.AskRepost?
  }

  function GitHubAfter(gh: GitHub, call: Call, answer: RunObject.Answer): GitHub {
    if answer.NotApplied? then gh
    else
      match call
      case Update(rev, id, body) => gh.(checks := gh.checks[id := Posted(body)])
      case Create(rev, body, prior, asked) => GitHub(gh.checks[answer.id := Posted(body)], Some(answer.id))
      case Replace(rev, replaced) => gh.(checks := gh.checks[replaced := Superseded])
  }

  // GitHub gives every check run it creates an id of its own.
  predicate FreshId(w: World, answer: RunObject.Answer) {
    w.o.call.Some? && w.o.call.value.Create? && !answer.NotApplied? ==> answer.id !in w.gh.checks
  }

  // When a move can happen. GitHub's own answers are the only source of a check run's id.
  predicate Enabled(w: World, m: Move) {
    match m
    case Commit(e) => Legal(e) && !e.CheckCreated? && !e.CheckReposted?
    case Queue => w.o.unqueued > 0
    case GiveUp => w.o.unqueued > 0 && w.o.owed > 0
    case Retry => true
    case Sync => w.o.waiting > 0 && w.o.call.None?
    case Answer(answer) => w.o.call.Some? && FreshId(w, answer)
    case Finish => w.o.finishing > 0 && w.o.owed > 0
    case Crash(answer) => FreshId(w, answer)
  }

  function Next(w: World, m: Move): World
    requires Enabled(w, m)
  {
    match m
    case Commit(e) =>
      w.(o := Committed(w.o, e), asks := w.asks + (if IsAsk(e) && Apply(w.o.state, e).moved then 1 else 0))
    case Queue => w.(o := Queued(w.o))
    case GiveUp => w.(o := GaveUpQueueing(w.o))
    case Retry => w.(o := RetryQueued(w.o))
    case Sync => w.(o := SyncStarted(w.o), readAsks := w.asks)
    case Answer(answer) =>
      World(Answered(w.o, answer), GitHubAfter(w.gh, w.o.call.value, answer), w.asks,
        if w.o.call.value.Create? && answer.Applied? then w.readAsks else w.served, w.readAsks)
    case Finish => w.(o := OwnerDone(w.o))
    case Crash(answer) =>
      w.(o := Reset(w.o), gh := if w.o.call.Some? then GitHubAfter(w.gh, w.o.call.value, answer) else w.gh)
  }

  function Initial(a: Start): World {
    World(Started(a), GitHub(map[], None), 0, 0, 0)
  }

  // A run of the object: every state after the first comes from the one before by an enabled move.
  ghost predicate Behaviour(a: Start, ws: seq<World>, ms: seq<Move>) {
    && |ws| == |ms| + 1
    && ws[0] == Initial(a)
    && forall k | 0 <= k < |ms| :: Enabled(ws[k], ms[k]) && ws[k + 1] == Next(ws[k], ms[k])
  }

  // --- The invariant ------------------------------------------------------------------------

  // The newest check run is the run's own, and shows its current state.
  ghost predicate Mirrored(w: World) {
    var id := w.o.state.checkRunId;
    && id.Some?
    && w.gh.newest == id
    && id.value in w.gh.checks
    && w.gh.checks[id.value] == Posted(CheckRunOf(w.o.state))
  }

  // `body`, once posted, is not yet contradicted by the run: completed, it still has its conclusion.
  predicate StillTrue(body: CheckBody, s: RunState) {
    body.Completed? ==> CheckRunOf(s).Completed? && CheckRunOf(s).conclusion == body.conclusion
  }

  // The call under way: up to date as long as its mark still stands.
  ghost predicate CallSound(w: World, call: Call) {
    && w.o.mark.Some? && call.rev <= w.o.mark.value
    && match call
       case Update(rev, id, body) =>
         && w.o.state.checkRunId == Some(id)
         && (w.o.mark == Some(rev) ==> body == CheckRunOf(w.o.state) && w.o.state.checkReposts.None?)
         && (w.o.state.checkReposts.None? ==> StillTrue(body, w.o.state))
       case Create(rev, body, prior, asked) =>
         && w.o.state.checkRunId == prior
         && (prior.Some? ==> asked.Some?)
         && (w.o.mark == Some(rev) ==> body == CheckRunOf(w.o.state) && w.o.state.checkReposts == asked)
         && (w.o.state.checkReposts == asked ==> StillTrue(body, w.o.state) && w.readAsks == w.asks)
         && (asked.Some? ==> w.o.state.checkReposts.Some? && asked.value <= w.o.state.checkReposts.value)
       case Replace(rev, replaced) =>
         && w.o.state.checkRunId != Some(replaced)
         && (w.o.mark == Some(rev) ==> Mirrored(w) && w.o.state.checkReposts.None?)
  }

  ghost predicate Good(w: World) {
    var s := w.o.state;
    && Inv(s)
    && (w.o.mark.Some? ==> w.o.mark.value <= w.o.lastRev)
    && (w.o.mark.None? && WantsCheck(s) ==> Mirrored(w))
    && (s.checkReposts.Some? && WantsCheck(s) ==> w.o.mark.Some?)
    && (s.checkReposts.None? ==> w.served == w.asks)
    && (s.checkRunId.Some? ==> s.checkRunId.value in w.gh.checks && w.gh.checks[s.checkRunId.value].Posted?)
    && (s.checkRunId.Some? && s.checkReposts.None? ==>
          w.gh.newest == s.checkRunId && StillTrue(w.gh.checks[s.checkRunId.value].body, s))
    && (w.o.call.Some? ==> CallSound(w, w.o.call.value))
    && w.o.owed == w.o.unqueued + w.o.waiting + (if w.o.call.Some? then 1 else 0) + w.o.finishing
  }

  // --- The machine's part -------------------------------------------------------------------

  // A completed check's conclusion changes only by a retry or a bypass, which ask for a new one.
  lemma ConclusionStays(s: RunState, e: Event)
    requires Inv(s) && Legal(e) && CheckRunOf(s).Completed?
    requires !((e.Retry? || e.Bypass?) && Apply(s, e).moved)
    ensures StillTrue(CheckRunOf(s), Apply(s, e).state)
  {
    hide *;
    var t := Apply(s, e).state;
    CompletedIff(s);
    if ReviewOutcome(s) == OutcomePending {
      EndedIff(s);
      EndedStays(s, e);
      EndedIff(t);
    } else if Apply(s, e).moved {
      OutcomeChanges(s, e);
    } else {
      UnmovedSame(s, e);
    }
    Concluded(s, t);
  }

  lemma EndedIff(s: RunState)
    ensures Ended(s) <==> s.status == Stopped || s.status == Landed
  {
  }

  function ConclusionFor(outcome: Outcome): Conclusion {
    match outcome
    case OutcomePending => Cancelled
    case OutcomeNone => Neutral
    case OutcomeClear => Success
    case OutcomeHazards => Failure
    case OutcomeFailed => Failure
  }

  predicate Ended(s: RunState) {
    s.status == Stopped || s.status == Landed
  }

  lemma CompletedIff(s: RunState)
    ensures CheckRunOf(s).Completed? <==> ReviewOutcome(s) != OutcomePending || Ended(s)
    ensures CheckRunOf(s).Completed? ==> CheckRunOf(s).conclusion == ConclusionFor(ReviewOutcome(s))
  {
    hide ReviewOutcome, CheckSummary, FailureTitle;
  }

  lemma Concluded(s: RunState, t: RunState)
    requires CheckRunOf(s).Completed? && ReviewOutcome(s) == ReviewOutcome(t)
    requires ReviewOutcome(s) == OutcomePending ==> Ended(t)
    ensures StillTrue(CheckRunOf(s), t)
  {
    CompletedIff(s);
    CompletedIff(t);
    hide CheckRunOf, ReviewOutcome;
  }

  // An ask that is taken is one more to answer, and owes a check write; one that is not changes nothing.
  lemma AskAsks(s: RunState, e: Event)
    requires IsAsk(e)
    ensures var t := Apply(s, e);
      if t.moved then
        && t.state.checkRunId == s.checkRunId
        && t.state.checkReposts == Some(s.checkReposts.Or(0) + 1) && Check in t.effects
      else t.state == s
  {
    hide ConditionsReport, JobCancels, WithAgent, CanBypassDesign, RetryableAgents, Minted, Retried, StepIs,
      WithStep, Filter;
  }

  // What a committed event does to the check run's id and to the asks for a repost.
  lemma RepostFacts(s: RunState, e: Event)
    requires !e.CheckCreated? && !e.CheckReposted?
    ensures var t := Apply(s, e);
      && t.state.checkRunId == s.checkRunId
      && (IsAsk(e) && t.moved ==> t.state.checkReposts == Some(s.checkReposts.Or(0) + 1) && Check in t.effects)
      && (!(IsAsk(e) && t.moved) ==> t.state.checkReposts == s.checkReposts)
  {
    hide Apply;
    if IsAsk(e) {
      AskAsks(s, e);
    } else {
      BooksKept(s, e);
    }
  }

  // The check body reads neither the check run's id nor the asks.
  lemma IdNotShown(s: RunState, t: RunState)
    requires t == s.(checkRunId := t.checkRunId, checkReposts := t.checkReposts)
    ensures CheckRunOf(t) == CheckRunOf(s)
    ensures Inv(s) && t.checkReposts != Some(0) ==> Inv(t)
  {
    AnswerKeepsOutcome(s, t);
    hide ReviewOutcome, SoundAgents, HoldsWaived, SomeOut, SomeStopped, KeyedBy, KeyedWithin, HazardLines;
  }

  // --- Every move keeps the object and GitHub good ------------------------------------------

  // What a commit leaves of all that the invariant speaks of.
  ghost predicate CommitEffect(w: World, v: World, asked: bool, owes: bool) {
    && v.gh == w.gh && v.served == w.served && v.readAsks == w.readAsks
    && v.o.call == w.o.call
    && v.asks == w.asks + (if asked then 1 else 0)
    && v.o.state.checkRunId == w.o.state.checkRunId
    && v.o.state.checkReposts == (if asked then Some(w.o.state.checkReposts.Or(0) + 1) else w.o.state.checkReposts)
    && (asked ==> owes)
    && w.o.lastRev <= v.o.lastRev
    && (if owes then v.o.mark == Some(v.o.lastRev) && v.o.lastRev == w.o.lastRev + 1 else v.o.mark == w.o.mark)
    && (!owes ==> CheckRunOf(v.o.state) == CheckRunOf(w.o.state))
    && (WantsCheck(v.o.state) ==> WantsCheck(w.o.state))
    && (!asked ==> StillTrue(CheckRunOf(w.o.state), v.o.state))
    && v.o.owed - w.o.owed == v.o.unqueued - w.o.unqueued
    && v.o.waiting == w.o.waiting && v.o.finishing == w.o.finishing
  }

  lemma CommitDoes(w: World, e: Event)
    requires Good(w) && Enabled(w, Commit(e))
    ensures var v, t := Next(w, Commit(e)), Apply(w.o.state, e);
      CommitEffect(w, v, IsAsk(e) && t.moved, t.moved && Check in t.effects)
      && Inv(v.o.state)
  {
    hide Inv, CheckRunOf, WantsCheck, Apply, StillTrue, CallSound, Mirrored;
    var s := w.o.state;
    var t := Apply(s, e);
    StepKeepsInv(s, e);
    RepostFacts(s, e);
    if !t.moved {
      UnmovedSame(s, e);
    }
    if Check !in t.effects {
      CheckComplete(s, e);
    }
    if WantsCheck(t.state) {
      WantsNoMore(s, e);
    }
    if CheckRunOf(s).Completed? && !(IsAsk(e) && t.moved) {
      assert IsAsk(e) || !(e.Retry? || e.Bypass?);
      ConclusionStays(s, e);
    }
    NotCompleted(s, t.state);
  }

  lemma NotCompleted(s: RunState, t: RunState)
    ensures !CheckRunOf(s).Completed? ==> StillTrue(CheckRunOf(s), t)
  {
  }

  lemma StillTrueChain(body: CheckBody, s: RunState, t: RunState)
    requires StillTrue(body, s) && StillTrue(CheckRunOf(s), t)
    ensures StillTrue(body, t)
  {
  }

  lemma CommitCall(w: World, v: World, asked: bool, owes: bool)
    requires Good(w) && CommitEffect(w, v, asked, owes) && w.o.call.Some?
    ensures CallSound(v, w.o.call.value)
  {
    hide Inv, CheckRunOf, WantsCheck, StillTrue;
    var call := w.o.call.value;
    if call.Update? && !asked && w.o.state.checkReposts.None? {
      StillTrueChain(call.body, w.o.state, v.o.state);
    }
    if call.Create? && !asked && w.o.state.checkReposts == call.asked {
      StillTrueChain(call.body, w.o.state, v.o.state);
    }
  }

  lemma CommitGood(w: World, e: Event)
    requires Good(w) && Enabled(w, Commit(e))
    ensures Good(Next(w, Commit(e)))
  {
    var v, t := Next(w, Commit(e)), Apply(w.o.state, e);
    var asked, owes := IsAsk(e) && t.moved, t.moved && Check in t.effects;
    assert CommitEffect(w, v, asked, owes) && Inv(v.o.state) by {
      hide *;
      CommitDoes(w, e);
    }
    assert w.o.call.Some? ==> CallSound(v, w.o.call.value) by {
      hide *;
      if w.o.call.Some? {
        CommitCall(w, v, asked, owes);
      }
    }
    hide Next;
    EffectKeepsGood(w, v, asked, owes);
  }

  lemma EffectKeepsGood(w: World, v: World, asked: bool, owes: bool)
    requires Good(w) && CommitEffect(w, v, asked, owes) && Inv(v.o.state)
    requires w.o.call.Some? ==> CallSound(v, w.o.call.value)
    ensures Good(v)
  {
    hide Inv, CheckRunOf, WantsCheck, StillTrue, CallSound;
    var id := w.o.state.checkRunId;
    if !asked && id.Some? && w.o.state.checkReposts.None? {
      StillTrueChain(w.gh.checks[id.value].body, w.o.state, v.o.state);
    }
  }

  // Of a move that only counts syncs.
  lemma CountingGood(w: World, m: Move)
    requires Good(w) && Enabled(w, m) && (m.Queue? || m.GiveUp? || m.Retry? || m.Finish?)
    ensures Good(Next(w, m))
  {
    hide Inv, CheckRunOf, WantsCheck, StillTrue;
  }

  lemma SyncGood(w: World)
    requires Good(w) && Enabled(w, Sync)
    ensures Good(Next(w, Sync))
  {
    hide Inv, WantsCheck;
    StillTrueSelf(w.o.state);
    hide CheckRunOf, StillTrue;
  }

  lemma StillTrueSelf(s: RunState)
    ensures StillTrue(CheckRunOf(s), s)
  {
  }

  // GitHub's answer, heard or not, to an update or a replace.
  lemma WriteGood(w: World, answer: RunObject.Answer)
    requires Good(w) && Enabled(w, Move.Answer(answer)) && !w.o.call.value.Create?
    ensures Good(Next(w, Move.Answer(answer)))
  {
    hide Inv, WantsCheck, CheckRunOf, StillTrue;
  }

  // The run once GitHub has named the check run it created.
  function Named(s: RunState, asked: Option<nat>, id: int): RunState {
    if asked.None? then OnCheckCreated(s, id).state else OnCheckReposted(s, id, asked.value).state
  }

  lemma NamedFacts(s: RunState, asked: Option<nat>, id: int)
    requires Inv(s) && (asked.None? ==> s.checkRunId.None?)
    ensures var t := Named(s, asked, id);
      && t.checkRunId == Some(id)
      && t.checkReposts == (if asked.Some? && s.checkReposts == asked then None else s.checkReposts)
      && CheckRunOf(t) == CheckRunOf(s) && Inv(t)
      && forall body :: StillTrue(body, t) == StillTrue(body, s)
  {
    IdNotShown(s, Named(s, asked, id));
    hide CheckRunOf;
  }

  lemma CreatedGood(w: World, id: int)
    requires Good(w) && Enabled(w, Move.Answer(Applied(id))) && w.o.call.value.Create?
    ensures Good(Next(w, Move.Answer(Applied(id))))
  {
    hide Inv, WantsCheck, CheckRunOf, StillTrue;
    var call := w.o.call.value;
    NamedFacts(w.o.state, call.asked, id);
    var v := Next(w, Move.Answer(Applied(id)));
    assert v.o.state == Named(w.o.state, call.asked, id);
    hide Named, OnCheckCreated, OnCheckReposted;
  }

  lemma UnheardGood(w: World, answer: RunObject.Answer)
    requires Good(w) && Enabled(w, Move.Answer(answer)) && w.o.call.value.Create? && !answer.Applied?
    ensures Good(Next(w, Move.Answer(answer)))
  {
    hide Inv, WantsCheck, CheckRunOf, StillTrue;
  }

  lemma CrashGood(w: World, answer: RunObject.Answer)
    requires Good(w) && Enabled(w, Crash(answer))
    ensures Good(Next(w, Crash(answer)))
  {
    hide Inv, WantsCheck, CheckRunOf, StillTrue;
  }

  lemma MoveGood(w: World, m: Move)
    requires Good(w) && Enabled(w, m)
    ensures Good(Next(w, m))
  {
    hide Good, Next;
    match m
    case Commit(e) => CommitGood(w, e);
    case Sync => SyncGood(w);
    case Answer(answer) =>
      if !w.o.call.value.Create? {
        WriteGood(w, answer);
      } else if answer.Applied? {
        CreatedGood(w, answer.id);
      } else {
        UnheardGood(w, answer);
      }
    case Crash(answer) => CrashGood(w, answer);
    case _ => CountingGood(w, m);
  }

  lemma InitialGood(a: Start)
    requires DistinctRoster(a.cfg.roster)
    ensures Good(Initial(a))
  {
    CreatedInv(a);
    SweptFacts(FreshRun(a), a.now);
    hide Inv, SweptState, CheckRunOf, WantsCheck;
  }

  lemma {:induction false} AlwaysGood(a: Start, ws: seq<World>, ms: seq<Move>, k: nat)
    requires DistinctRoster(a.cfg.roster) && Behaviour(a, ws, ms) && k < |ws|
    ensures Good(ws[k])
  {
    hide Good, Next, Enabled;
    if k == 0 {
      InitialGood(a);
    } else {
      AlwaysGood(a, ws, ms, k - 1);
      MoveGood(ws[k - 1], ms[k - 1]);
    }
  }

  // --- What this comes to -------------------------------------------------------------------

  // Whatever has happened: when no check write is owed and the run wants a check, the newest check
  // run it created is the one it knows, and shows the run as it is.
  lemma CheckMirrorsRun(a: Start, ws: seq<World>, ms: seq<Move>, k: nat)
    requires DistinctRoster(a.cfg.roster) && Behaviour(a, ws, ms) && k < |ws|
    requires ws[k].o.mark.None? && WantsCheck(ws[k].o.state)
    ensures Mirrored(ws[k])
  {
    AlwaysGood(a, ws, ms, k);
  }

  // No ask for a repost is lost: none is outstanding only when a create that has completed read the
  // state after every ask, and one outstanding on a run that wants a check keeps its write owed.
  lemma NoRepostLost(a: Start, ws: seq<World>, ms: seq<Move>, k: nat)
    requires DistinctRoster(a.cfg.roster) && Behaviour(a, ws, ms) && k < |ws|
    ensures ws[k].o.state.checkReposts.None? ==> ws[k].served == ws[k].asks
    ensures ws[k].o.state.checkReposts.Some? && WantsCheck(ws[k].o.state) ==> ws[k].o.mark.Some?
  {
    AlwaysGood(a, ws, ms, k);
    hide Inv, WantsCheck;
  }

  // A check run once completed is never put back in progress, nor given another conclusion: an update
  // sent to it agrees with what it already shows.
  lemma NeverReopened(a: Start, ws: seq<World>, ms: seq<Move>, k: nat)
    requires DistinctRoster(a.cfg.roster) && Behaviour(a, ws, ms) && k < |ms| && ms[k].Sync?
    requires ws[k + 1].o.call.Some? && ws[k + 1].o.call.value.Update?
    ensures var call := ws[k + 1].o.call.value;
      && call.id in ws[k].gh.checks && ws[k].gh.checks[call.id].Posted?
      && var shown := ws[k].gh.checks[call.id].body;
         shown.Completed? ==> call.body.Completed? && call.body.conclusion == shown.conclusion
  {
    hide Inv, WantsCheck, CheckRunOf;
    AlwaysGood(a, ws, ms, k);
  }

  // A retry queues a sync only when nothing in this instance is queued, running or yet to queue one,
  // so it never waits on GitHub behind another.
  lemma RetryNeverWaits(a: Start, ws: seq<World>, ms: seq<Move>, k: nat)
    requires DistinctRoster(a.cfg.roster) && Behaviour(a, ws, ms) && k < |ms| && ms[k].Retry?
    requires ws[k + 1].o.waiting > ws[k].o.waiting
    ensures ws[k].o.waiting == 0 && ws[k].o.unqueued == 0 && ws[k].o.call.None? && ws[k].o.mark.Some?
  {
    hide Good, Enabled, Next;
    AlwaysGood(a, ws, ms, k);
    assert ws[k + 1] == Next(ws[k], ms[k]) && Enabled(ws[k], ms[k]);
    hide *;
    RetryQueuesAlone(ws[k]);
  }

  lemma RetryQueuesAlone(w: World)
    requires Good(w) && Enabled(w, Move.Retry) && Next(w, Move.Retry).o.waiting > w.o.waiting
    ensures w.o.waiting == 0 && w.o.unqueued == 0 && w.o.call.None? && w.o.mark.Some?
  {
    hide Inv, WantsCheck, CheckRunOf, CallSound, Mirrored, StillTrue;
  }

  // One sync that nothing disturbs is enough: GitHub having taken its writes, no check is owed and
  // the check mirrors the run.
  lemma QuietSyncSettles(w: World, id: int)
    requires Good(w) && Enabled(w, Sync) && WantsCheck(w.o.state) && id !in w.gh.checks
    ensures var v := AfterAnswers(Next(w, Sync), id);
      v.o.mark.None? && v.o.call.None? && Mirrored(v)
  {
    var u := Next(w, Sync);
    assert Good(u) by {
      hide *;
      MoveGood(w, Sync);
    }
    if w.o.mark.None? {
      hide Inv, CheckRunOf, StillTrue, CallSound;
    } else {
      AnswersKeepGood(u, id);
      SyncClearsMark(w, id);
      hide *;
      GoodMirrors(AfterAnswers(u, id));
    }
  }

  // A retry queues a sync exactly when a write is owed and nobody in this instance has it in hand: no
  // commit yet to queue its own, no sync waiting or running, and no owner still at its effects.
  lemma RetryQueuesIff(w: World)
    requires Good(w)
    ensures var o := w.o;
      Next(w, Move.Retry).o == if o.mark.Some? && o.unqueued == 0 && o.waiting == 0 && o.call.None? && o.finishing == 0
        then o.(waiting := 1, owed := 1) else o
  {
    hide Inv, WantsCheck, CheckRunOf, CallSound, Mirrored, StillTrue;
  }

  // So a write that failed is made good by the next retry, once GitHub takes it.
  lemma RetryRecovers(w: World, id: int)
    requires Good(w) && w.o.mark.Some? && w.o.owed == 0 && WantsCheck(w.o.state) && id !in w.gh.checks
    ensures Enabled(Next(w, Move.Retry), Sync)
    ensures var v := AfterAnswers(Next(Next(w, Move.Retry), Sync), id);
      v.o.mark.None? && v.o.call.None? && v.o.waiting == 0 && Mirrored(v)
  {
    hide *;
    RetryWaits(w);
    var u := Next(w, Move.Retry);
    MoveGood(w, Move.Retry);
    QuietSyncSettles(u, id);
    SyncCounts(u);
    AnswersCount(Next(u, Sync), id);
  }

  lemma RetryWaits(w: World)
    requires Good(w) && w.o.mark.Some? && w.o.owed == 0
    ensures Enabled(w, Move.Retry) && Enabled(Next(w, Move.Retry), Sync)
    ensures Next(w, Move.Retry) == w.(o := w.o.(waiting := 1, owed := 1)) && w.o.waiting == 0
  {
    hide Inv, WantsCheck, CheckRunOf, CallSound, Mirrored, StillTrue;
  }

  lemma SyncCounts(w: World)
    requires Enabled(w, Sync)
    ensures Next(w, Sync).o.waiting == w.o.waiting - 1
  {
    hide WantsCheck, CheckRunOf;
  }

  lemma AnswersCount(w: World, id: int)
    ensures AfterAnswers(w, id).o.waiting == w.o.waiting
  {
  }

  // A reset loses no write: one owed when it comes is made good by the next retry.
  lemma ResetRecovers(w: World, answer: RunObject.Answer, id: int)
    requires Good(w) && Enabled(w, Crash(answer)) && w.o.mark.Some? && WantsCheck(w.o.state)
    requires id !in Next(w, Crash(answer)).gh.checks
    ensures var u := Next(w, Crash(answer));
      && u.o.state == w.o.state && Enabled(Next(u, Move.Retry), Sync)
      && var v := AfterAnswers(Next(Next(u, Move.Retry), Sync), id);
         v.o.mark.None? && v.o.call.None? && v.o.waiting == 0 && Mirrored(v)
  {
    assert Next(w, Crash(answer)).o == w.o.(unqueued := 0, waiting := 0, call := None, finishing := 0, owed := 0);
    hide *;
    MoveGood(w, Crash(answer));
    RetryRecovers(Next(w, Crash(answer)), id);
  }

  // Nor does a commit need one: the sync its check effect queues does as much, at its turn.
  lemma QueueRecovers(w: World, id: int)
    requires Good(w) && Enabled(w, Queue) && w.o.call.None? && WantsCheck(w.o.state) && id !in w.gh.checks
    ensures Enabled(Next(w, Queue), Sync)
    ensures var v := AfterAnswers(Next(Next(w, Queue), Sync), id);
      v.o.mark.None? && v.o.call.None? && v.o.waiting == w.o.waiting && Mirrored(v)
  {
    assert Next(w, Queue) == w.(o := w.o.(unqueued := w.o.unqueued - 1, waiting := w.o.waiting + 1));
    assert Enabled(Next(w, Queue), Sync);
    hide *;
    MoveGood(w, Queue);
    QuietSyncSettles(Next(w, Queue), id);
    SyncCounts(Next(w, Queue));
    AnswersCount(Next(Next(w, Queue), Sync), id);
  }

  // A sync that answers an ask for a repost leaves the check run it replaces marked so.
  lemma ReplacedIsMarked(w: World, id: int)
    requires Good(w) && Enabled(w, Sync) && w.o.mark.Some? && WantsCheck(w.o.state) && id !in w.gh.checks
    requires w.o.state.checkRunId.Some? && w.o.state.checkReposts.Some?
    ensures var v, was := AfterAnswers(Next(w, Sync), id), w.o.state.checkRunId.value;
      && was in v.gh.checks && v.gh.checks[was] == Superseded
      && v.o.state.checkRunId == Some(id) && v.gh.newest == Some(id)
  {
    KnownId(w);
    var u := Next(w, Sync);
    var s := w.o.state;
    assert u == w.(o := u.o, readAsks := u.readAsks) && u.o.state == s
        && u.o.call == Some(Create(w.o.mark.value, CheckRunOf(s), s.checkRunId, s.checkReposts)) by {
      hide Good, WantsCheck, CheckRunOf;
    }
    hide Good, WantsCheck, CheckRunOf, SyncStarted;
    Replaces(u, id);
  }

  lemma KnownId(w: World)
    requires Good(w) && w.o.state.checkRunId.Some?
    ensures w.o.state.checkRunId.value in w.gh.checks
  {
    hide Inv, CallSound, Mirrored, StillTrue, WantsCheck, CheckRunOf;
  }

  lemma Replaces(w: World, id: int)
    requires w.o.call.Some? && w.o.call.value.Create? && w.o.call.value.prior.Some? && w.o.call.value.asked.Some?
    requires id !in w.gh.checks && w.o.call.value.prior.value in w.gh.checks
    ensures var v, was := AfterAnswers(w, id), w.o.call.value.prior.value;
      && was in v.gh.checks && v.gh.checks[was] == Superseded
      && v.o.state.checkRunId == Some(id) && v.gh.newest == Some(id)
  {
    hide CheckRunOf;
  }

  // A run that ended before its sweep was done, and has no check run, posts none ever after, if no call
  // is under way when it ends: a cancelled check of it could hide the one of the run that replaced it.
  lemma {:induction false} NonePosted(a: Start, ws: seq<World>, ms: seq<Move>, j: nat, k: nat)
    requires DistinctRoster(a.cfg.roster) && Behaviour(a, ws, ms) && j <= k < |ws|
    requires !WantsCheck(ws[j].o.state) && ws[j].o.call.None?
    ensures !WantsCheck(ws[k].o.state) && ws[k].o.call.None? && ws[k].gh == ws[j].gh
  {
    hide *;
    if j < k {
      StepOf(a, ws, ms, k - 1);
      NonePosted(a, ws, ms, j, k - 1);
      AlwaysGood(a, ws, ms, k - 1);
      GoodInv(ws[k - 1]);
      NonePostedBy(ws[k - 1], ms[k - 1]);
    }
  }

  lemma StepOf(a: Start, ws: seq<World>, ms: seq<Move>, k: nat)
    requires Behaviour(a, ws, ms) && k < |ws| - 1
    ensures k < |ms| && Enabled(ws[k], ms[k]) && ws[k + 1] == Next(ws[k], ms[k])
  {
    hide Enabled, Next, Initial;
  }

  lemma GoodInv(w: World)
    requires Good(w)
    ensures Inv(w.o.state)
  {
    hide Inv, CallSound, Mirrored, StillTrue, WantsCheck, CheckRunOf;
  }

  lemma NonePostedBy(w: World, m: Move)
    requires Inv(w.o.state) && Enabled(w, m) && !WantsCheck(w.o.state) && w.o.call.None?
    ensures var v := Next(w, m); !WantsCheck(v.o.state) && v.o.call.None? && v.gh == w.gh
  {
    hide Inv, WantsCheck, Apply, CheckRunOf, Legal;
    if m.Commit? && WantsCheck(Apply(w.o.state, m.e).state) {
      WantsNoMore(w.o.state, m.e);
    }
  }

  lemma AnswersKeepGood(w: World, id: int)
    requires Good(w)
    ensures Good(AfterAnswers(w, id))
  {
    hide Good, Next;
    if w.o.call.Some? && FreshId(w, Applied(id)) {
      var m := Move.Answer(Applied(id));
      MoveGood(w, m);
      var v := Next(w, m);
      if v.o.call.Some? && FreshId(v, Applied(id)) {
        MoveGood(v, m);
      }
    }
  }

  lemma SyncClearsMark(w: World, id: int)
    requires Enabled(w, Sync) && w.o.mark.Some? && WantsCheck(w.o.state) && id !in w.gh.checks
    ensures var v := AfterAnswers(Next(w, Sync), id);
      v.o.mark.None? && v.o.call.None? && v.o.state.checkRunId.Some?
  {
    hide WantsCheck, CheckRunOf;
  }

  lemma GoodMirrors(w: World)
    requires Good(w) && w.o.mark.None? && w.o.state.checkRunId.Some?
    ensures Mirrored(w)
  {
    hide Inv, CheckRunOf, StillTrue, CallSound;
  }

  // GitHub takes the call under way, creating check run `id` if it is a create, and then the mark on
  // the check run it replaced, if there is one.
  function AfterAnswers(w: World, id: int): World {
    if w.o.call.None? || !FreshId(w, Applied(id)) then w
    else
      var v := Next(w, Move.Answer(Applied(id)));
      if v.o.call.None? || !FreshId(v, Applied(id)) then v else Next(v, Move.Answer(Applied(id)))
  }
}
