// The run's object itself (dispatch/src/run/do.ts), with GitHub's side of it as ghost state.
module DurableRun {
  import opened Domain
  import opened Machine
  import opened Lifecycle
  import opened RunObject
  import opened CheckMirror

  class RunDO {
    var state: RunState
    var checkPending: Option<nat>
    var revision: nat
    var unqueued: nat
    var checkSyncs: nat
    var call: Option<Call>
    var finishing: nat
    var checksOwed: nat
    ghost var world: World

    function View(): Obj
      reads this
    {
      Obj(state, checkPending, revision, unqueued, checkSyncs, call, finishing, checksOwed)
    }

    // While no check write is owed, the check mirrors the run; and no ask for a repost is lost.
    ghost predicate Valid()
      reads this
      ensures Valid() && checkPending.None? && WantsCheck(state) ==> Mirrored(world)
      ensures Valid() && state.checkReposts.None? ==> world.served == world.asks
    {
      world.o == View() && Good(world)
    }

    constructor (a: Start)
      requires DistinctRoster(a.cfg.roster)
      ensures world == Initial(a) && Valid()
    {
      state := CreateRun(a).state;
      checkPending, revision := Some(1), 1;
      unqueued, checkSyncs, call, finishing, checksOwed := 1, 0, None, 0, 1;
      world := Initial(a);
      InitialGood(a);
    }

    // The move has been made: GitHub's side of it follows.
    ghost method Record(m: Move)
      requires Good(world) && Enabled(world, m) && View() == Next(world, m).o
      modifies this`world
      ensures world == Next(old(world), m) && Valid()
    {
      hide Good, Next, Enabled;
      MoveGood(world, m);
      world := Next(world, m);
    }

    // `step` with the commit it makes, up to the commit's first effect.
    method Step(e: Event)
      requires Valid() && Enabled(world, Commit(e))
      modifies this
      ensures Valid() && world == Next(old(world), Commit(e))
    {
      hide Apply, Good;
      var t := Apply(state, e);
      if t.moved {
        var owesCheck := Check in t.effects;
        if owesCheck {
          checksOwed := checksOwed + 1;
          unqueued := unqueued + 1;
        }
        revision := revision + 1;
        state := t.state;
        if owesCheck {
          checkPending := Some(revision);
        }
      }
      Record(Commit(e));
    }

    method QueueCheck()
      requires Valid() && Enabled(world, Queue)
      modifies this
      ensures Valid() && world == Next(old(world), Queue)
    {
      hide Good;
      unqueued := unqueued - 1;
      checkSyncs := checkSyncs + 1;
      Record(Queue);
    }

    method AbandonCommit()
      requires Valid() && Enabled(world, GiveUp)
      modifies this
      ensures Valid() && world == Next(old(world), GiveUp)
    {
      hide Good;
      unqueued := unqueued - 1;
      checksOwed := checksOwed - 1;
      Record(GiveUp);
    }

    method RetryCheck()
      requires Valid()
      modifies this
      ensures Valid() && world == Next(old(world), Move.Retry)
    {
      hide Good;
      if checkPending.Some? && checksOwed == 0 {
        checksOwed := checksOwed + 1;
        checkSyncs := checkSyncs + 1;
      }
      Record(Move.Retry);
    }

    method Settle(rev: nat)
      modifies this`checkPending
      ensures View() == Settled(old(View()), rev)
    {
      if checkPending == Some(rev) {
        checkPending := None;
      }
    }

    method FinishSync()
      modifies this`call, this`finishing
      ensures View() == SyncOver(old(View()))
    {
      call := None;
      finishing := finishing + 1;
    }

    method SyncCheck()
      requires Valid() && Enabled(world, Sync)
      modifies this
      ensures Valid() && world == Next(old(world), Sync)
    {
      hide Good, WantsCheck, CheckRunOf;
      checkSyncs := checkSyncs - 1;
      if checkPending.None? {
        FinishSync();
      } else if !WantsCheck(state) {
        Settle(checkPending.value);
        FinishSync();
      } else if state.checkRunId.Some? && state.checkReposts.None? {
        call := Some(Update(checkPending.value, state.checkRunId.value, CheckRunOf(state)));
      } else {
        call := Some(Create(checkPending.value, CheckRunOf(state), state.checkRunId, state.checkReposts));
      }
      Record(Sync);
    }

    method OnAnswer(answer: RunObject.Answer)
      requires Valid() && Enabled(world, Move.Answer(answer))
      modifies this
      ensures Valid() && world == Next(old(world), Move.Answer(answer))
    {
      hide Good;
      match call.value {
        case Update(rev, id, body) =>
          if answer.Applied? {
            Settle(rev);
          }
          FinishSync();
        case Create(rev, body, was, asked) =>
          if !answer.Applied? {
            FinishSync();
          } else {
            state := if asked.None? then OnCheckCreated(state, answer.id).state
                     else OnCheckReposted(state, answer.id, asked.value).state;
            if was.None? {
              Settle(rev);
              FinishSync();
            } else {
              call := Some(Replace(rev, was.value));
            }
          }
        case Replace(rev, replaced) =>
          Settle(rev);
          FinishSync();
      }
      Record(Move.Answer(answer));
    }

    method FinishOwner()
      requires Valid() && Enabled(world, Finish)
      modifies this
      ensures Valid() && world == Next(old(world), Finish)
    {
      hide Good;
      finishing := finishing - 1;
      checksOwed := checksOwed - 1;
      Record(Finish);
    }

    // `answer` is what becomes of a call the reset leaves outstanding.
    method Restart(answer: RunObject.Answer)
      requires Valid() && Enabled(world, Crash(answer))
      modifies this
      ensures Valid() && world == Next(old(world), Crash(answer))
    {
      hide Good;
      unqueued, checkSyncs, call, finishing, checksOwed := 0, 0, None, 0, 0;
      Record(Crash(answer));
    }
  }
}
