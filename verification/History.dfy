/**
  Runs of the state machine that grow with what the classes do: an object that
  acts records each of its steps as an event, which must be enabled there.
 */
module GatewayHistory {
  import opened Durable
  import opened QueueSpec
  import opened CrashSafety
  import opened OperationSafety
  import opened Bookkeeping
  import opened GatewaySystem
  import opened GatewayTheorems

  lemma {:induction false} RunOnward(p: Params, s: Sys, es: seq<Event>, t: Sys, e: Event)
    requires Run(p, s, es, t) && Enabled(p, t, e)
    ensures Run(p, s, es + [e], Next(p, t, e))
    decreases |es|
  {
    if es == [] {
      assert [e][1..] == [];
      assert Run(p, Next(p, t, e), [], Next(p, t, e));
      assert es + [e] == [e];
    } else {
      assert (es + [e])[0] == es[0] && (es + [e])[1..] == es[1..] + [e];
      RunOnward(p, Next(p, s, es[0]), es[1..], t, e);
    }
  }

  lemma ReachableOnward(p: Params, s: Sys, e: Event)
    requires Reachable(p, s) && Enabled(p, s, e)
    ensures Reachable(p, Next(p, s, e))
  {
    var clock, window, es :| Run(p, Initial(clock, window), es, s);
    RunOnward(p, Initial(clock, window), es, s, e);
  }

  /** What a history gained since an earlier look at it is itself a run. */
  lemma {:induction false} GainIsRun(p: Params, s: Sys, before: seq<Event>, u: Sys, gain: seq<Event>, t: Sys)
    requires Run(p, s, before, u) && Run(p, s, before + gain, t)
    ensures Run(p, u, gain, t)
    decreases |before|
  {
    if before == [] {
      assert before + gain == gain;
    } else {
      assert (before + gain)[0] == before[0] && (before + gain)[1..] == before[1..] + gain;
      GainIsRun(p, Next(p, s, before[0]), before[1..], u, gain, t);
    }
  }

  /**
    What the promises must stand: in any state of any run the process may die,
    and any file may come to hold something that does not parse or bears
    another id.
   */
  lemma TroubleIsPossible(p: Params, s: Sys, slot: Slot, file: File)
    requires Reachable(p, s) && slot in s.disk.files && (file.Doc? ==> file.item.id != slot.id)
    ensures exists t :: Reachable(p, t) && !t.up && t.disk == s.disk && t.ledger == s.ledger
    ensures exists t :: Reachable(p, t) && t == s.(disk := Disk(s.disk.files[slot := file], s.disk.rows))
  {
    ReachableOnward(p, s, Crash);
    assert Next(p, s, Crash).disk == s.disk;
    ReachableOnward(p, s, Rot(slot, file));
    assert Next(p, s, Rot(slot, file)).disk == Disk(s.disk.files[slot := file], s.disk.rows);
  }

  /** What holds of a running gateway whenever it can be looked at. */
  lemma RunningFacts(p: Params, s: Sys)
    requires Reachable(p, s) && s.up
    ensures Settled(s.disk, s.clock)
    ensures s.worker.Idle? ==> ProcessingWithin(s.disk, {})
    ensures !s.worker.Idle? ==>
      && Held(s.disk, s.worker.item) && s.worker.item.key in s.disk.rows
      && DueOf(s.ledger, s.worker.item.id) == s.worker.item.nextRetry
  {
    ReachableInv(p, s);
  }

  /** What holds of one that is down. */
  lemma DownFacts(p: Params, s: Sys)
    requires Reachable(p, s) && !s.up
    ensures s.worker.Idle? && s.rereads == map[]
  {
    ReachableInv(p, s);
  }

  class History {
    ghost const params: Params
    ghost const start: Sys
    ghost var events: seq<Event>
    ghost var state: Sys

    ghost predicate Valid()
      reads this
    {
      (exists clock, window :: start == Initial(clock, window)) && Run(params, start, events, state)
    }

    lemma Reached()
      requires Valid()
      ensures Reachable(params, state)
    {
      var clock, window :| start == Initial(clock, window);
      assert Run(params, Initial(clock, window), events, state);
    }

    ghost constructor (params: Params, clock: Time, window: nat)
      ensures Valid() && state == Initial(clock, window) && events == [] && this.params == params
    {
      this.params := params;
      start := Initial(clock, window);
      events := [];
      state := Initial(clock, window);
    }

    ghost method Step(e: Event)
      requires Valid() && Enabled(params, state, e)
      modifies this
      ensures Valid() && state == Next(params, old(state), e) && events == old(events) + [e]
    {
      RunOnward(params, start, events, state, e);
      events := events + [e];
      state := Next(params, state, e);
    }

    /* ---- single events ---- */

    ghost method Pass(dt: nat)
      requires Valid()
      modifies this
      ensures Valid() && old(events) <= events
      ensures state == old(state).(clock := old(state).clock + dt)
    {
      Step(Tick(dt));
    }

    ghost method BeginRereads(path: string)
      requires Valid() && state.up && path !in state.rereads
      modifies this
      ensures Valid() && old(events) <= events
      ensures state == old(state).(rereads := old(state).rereads[path := 0],
                                   begun := old(state).begun[path := |old(state).emptyReads|])
    {
      Step(Event.BeginRereads(path));
    }

    ghost method CountReread(path: string)
      requires Valid() && state.up && path in state.rereads && state.rereads[path] < params.maxAttempts
      modifies this
      ensures Valid() && old(events) <= events
      ensures state == old(state).(rereads := old(state).rereads[path := old(state).rereads[path] + 1],
                                   emptyReads := old(state).emptyReads + [path])
    {
      Step(EmptyReread(path));
    }

    ghost method EndRereads(path: string)
      requires Valid() && state.up && path in state.rereads
      modifies this
      ensures Valid() && old(events) <= events
      ensures state == old(state).(rereads := old(state).rereads - {path}, begun := old(state).begun - {path})
    {
      Step(Event.EndRereads(path));
    }

    ghost method End()
      requires Valid()
      modifies this
      ensures Valid() && old(events) <= events
      ensures state == Stopped(old(state))
    {
      Step(Crash);
    }

    ghost method Begin(window: nat)
      requires Valid() && !state.up
      modifies this
      ensures Valid() && old(events) <= events
      ensures state == old(state).(disk := RunSteps(old(state).disk, BootSteps(old(state).disk, old(state).clock)),
                                   window := window, up := true, boots := old(state).boots + 1)
      ensures state.worker.Idle? && ProcessingWithin(state.disk, {})
    {
      Reached();
      ReachableInv(params, state);
      Step(Boot(window));
      Reached();
      RunningFacts(params, state);
    }
  }
}
