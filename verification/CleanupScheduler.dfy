/** The periodic retention pass over a queue. */
module Scheduling {
  import opened Prelude
  import opened Durable
  import opened Clocks
  import opened QueueSpec
  import opened FileQueue
  import opened Retention
  import opened GatewayHistory
  import G = GatewaySystem

  class CleanupScheduler {
    const queue: Queue
    const clock: Clock
    const sentRetentionDays: int
    const failedRetentionDays: int
    ghost const history: History

    /** The state machine is where the queue is. */
    ghost predicate Valid()
      reads this, queue, queue.store, queue.dir, clock, history
    {
      && queue.Valid() && queue.ready && history.Valid() && history.state.up
      && history.state.disk == queue.dir.State() && history.state.clock == clock.now
    }

    constructor (queue: Queue, clock: Clock, sentRetentionDays: int, failedRetentionDays: int, ghost history: History)
      requires queue.Valid() && queue.ready && history.Valid() && history.state.up
      requires history.state.disk == queue.dir.State() && history.state.clock == clock.now
      ensures Valid()
      ensures this.queue == queue && this.clock == clock && this.history == history
      ensures this.sentRetentionDays == sentRetentionDays && this.failedRetentionDays == failedRetentionDays
    {
      this.queue := queue;
      this.clock := clock;
      this.sentRetentionDays := sentRetentionDays;
      this.failedRetentionDays := failedRetentionDays;
      this.history := history;
    }

    /**
      Requeue, then the sent directory, then the failed one; the first error ends
      the pass, and the only error there can be is a negative retention. Each
      cleanup reads the clock three times. `saved` and `tidied` are the disks in
      between. As long as no row of a valid file expires between the readings of
      a cleanup, the pass is a run of the state machine.
     */
    method RunCleanup()
      returns (r: Result<(nat, nat, nat)>, ghost t: Time, ghost sent: Readings, ghost failed: Readings,
               ghost saved: Disk, ghost tidied: Disk)
      requires Valid()
      modifies queue.dir, clock, history
      ensures r.Ok? <==> sentRetentionDays >= 0 && failedRetentionDays >= 0
      ensures r.Err? ==> r.error == InvalidArgument
      ensures r.Ok? ==>
        && old(clock.now) <= t && Ordered(sent, t, failed.expiry) && Ordered(failed, sent.purge, clock.now)
        && queue.dir.State() ==
             AfterPass(old(queue.dir.State()), sentRetentionDays, failedRetentionDays, t, sent, failed)
      ensures TidyPass(old(queue.dir.State()), sentRetentionDays, failedRetentionDays, t, sent, failed) ==>
        Valid() && old(history.events) <= history.events
      ensures RequeuesYoung(old(queue.dir.State()), saved, failedRetentionDays, t)
      ensures sentRetentionDays < 0 ==> queue.dir.State() == saved
      ensures sentRetentionDays >= 0 ==> CleanedUp(saved, tidied, Sent, SENT, sentRetentionDays, sent)
      ensures sentRetentionDays >= 0 && failedRetentionDays < 0 ==> queue.dir.State() == tidied
      ensures r.Ok? ==> CleanedUp(tidied, queue.dir.State(), Failed, FAILED, failedRetentionDays, failed)
      ensures SavesYoung(old(queue.dir.State()), queue.dir.State(), failedRetentionDays, t)
    {
      var requeued := RequeueFailed();
      saved := queue.dir.State();
      t := clock.now;
      var counts;
      counts, sent, failed, tidied := CleanBoth();
      YoungStay(old(queue.dir.State()), saved, queue.dir.State(), failedRetentionDays, t);
      if counts.Err? { return Err(counts.error), t, sent, failed, saved, tidied; }
      return Ok((requeued, counts.value.0, counts.value.1)), t, sent, failed, saved, tidied;
    }

    /** The two cleanups, of which the first error ends the pass. */
    method CleanBoth()
      returns (r: Result<(nat, nat)>, ghost sent: Readings, ghost failed: Readings, ghost tidied: Disk)
      requires Valid()
      modifies queue.dir, clock, history
      ensures r.Ok? <==> sentRetentionDays >= 0 && failedRetentionDays >= 0
      ensures r.Err? ==> r.error == InvalidArgument
      ensures sentRetentionDays < 0 ==> queue.dir.State() == old(queue.dir.State())
      ensures sentRetentionDays >= 0 ==>
        && tidied == RunSteps(old(queue.dir.State()),
                              CleanupStepsBy(old(queue.dir.State()), Sent, sentRetentionDays, sent))
        && CleanedUp(old(queue.dir.State()), tidied, Sent, SENT, sentRetentionDays, sent)
      ensures sentRetentionDays >= 0 && failedRetentionDays < 0 ==> queue.dir.State() == tidied
      ensures r.Ok? ==>
        && Ordered(sent, old(clock.now), failed.expiry) && Ordered(failed, sent.purge, clock.now)
        && queue.dir.State() == RunSteps(tidied, CleanupStepsBy(tidied, Failed, failedRetentionDays, failed))
        && CleanedUp(tidied, queue.dir.State(), Failed, FAILED, failedRetentionDays, failed)
      ensures TidyBy(old(queue.dir.State()), Sent, sentRetentionDays, sent)
              && TidyBy(RunSteps(old(queue.dir.State()),
                                 CleanupStepsBy(old(queue.dir.State()), Sent, sentRetentionDays, sent)),
                        Failed, failedRetentionDays, failed) ==>
        Valid() && old(history.events) <= history.events
      ensures PendingKept(old(queue.dir.State()), queue.dir.State())
    {
      ghost var d := queue.dir.State();
      var first, second: Result<nat>;
      first, sent := Cleanup(Sent, sentRetentionDays, true);
      tidied := queue.dir.State();
      failed := sent;
      if first.Err? { return Err(first.error), sent, failed, tidied; }
      second, failed := Cleanup(Failed, failedRetentionDays, TidyBy(d, Sent, sentRetentionDays, sent));
      if second.Err? { return Err(second.error), sent, failed, tidied; }
      return Ok((first.value, second.value)), sent, failed, tidied;
    }

    method RequeueFailed() returns (count: nat)
      requires Valid()
      modifies queue.dir, clock, history
      ensures Valid() && clock.now >= old(clock.now) && old(history.events) <= history.events
      ensures queue.dir.State() ==
        RunSteps(old(queue.dir.State()), RequeueSteps(old(queue.dir.State()), failedRetentionDays, clock.now))
      ensures RequeuesYoung(old(queue.dir.State()), queue.dir.State(), failedRetentionDays, clock.now)
    {
      var t := ReadClock();
      ghost var d := queue.dir.State();
      history.Reached();
      RunningFacts(history.params, history.state);
      RequeueSafe(d, failedRetentionDays, t);
      label before:
      var r := queue.RequeueFailed(failedRetentionDays, t);
      queue.DidFixesState@before(RequeueSteps(d, failedRetentionDays, t));
      history.Step(G.Do(G.Requeue(Cutoff(t, failedRetentionDays))));
      count := r.value;
    }

    /** A reading of the clock, and the time that passed in the state machine. */
    method ReadClock() returns (now: Time)
      requires Valid()
      modifies clock, history
      ensures Valid() && now == clock.now >= old(clock.now) && old(history.events) <= history.events
    {
      now := clock.Read();
      history.Pass(now - old(clock.now));
    }

    /** One cleanup. `mirrored` says whether the state machine is still with the queue. */
    method Cleanup(dir: Dir, days: int, ghost mirrored: bool) returns (r: Result<nat>, ghost when: Readings)
      requires queue.Valid() && queue.ready && (mirrored ==> Valid()) && (dir == Sent || dir == Failed)
      modifies queue.dir, clock, history
      ensures queue.Valid() && queue.ready && Ordered(when, old(clock.now), clock.now)
      ensures days < 0 ==> r == Err(InvalidArgument) && queue.dir.State() == old(queue.dir.State())
      ensures days >= 0 ==>
        && r.Ok?
        && queue.dir.State() ==
             RunSteps(old(queue.dir.State()), CleanupStepsBy(old(queue.dir.State()), dir, days, when))
        && CleanedUp(old(queue.dir.State()), queue.dir.State(), dir, if dir == Sent then SENT else FAILED, days, when)
      ensures mirrored && TidyBy(old(queue.dir.State()), dir, days, when) ==>
        Valid() && old(history.events) <= history.events
      ensures PendingKept(old(queue.dir.State()), queue.dir.State())
    {
      ghost var d := queue.dir.State();
      var t1 := clock.Read();
      var t2 := clock.Read();
      var t3 := clock.Read();
      when := Readings(t1, t2, t3);
      CleanupExactAt(d, dir, Cutoff(t1, days), Cutoff(t2, days), Cutoff(t3, days));
      label before:
      if dir == Sent {
        r := queue.CleanupSent(days, t1, t2, t3);
      } else {
        r := queue.CleanupFailed(days, t1, t2, t3);
      }
      queue.DidFixesState@before(if days >= 0 then CleanupStepsBy(d, dir, days, when) else []);
      Follow(dir, days, mirrored, when, d);
    }

    /** Takes the state machine along, if it can follow. */
    ghost method Follow(dir: Dir, days: int, mirrored: bool, when: Readings, d: Disk)
      requires history.Valid() || !mirrored
      requires mirrored ==> history.state.up && history.state.disk == d && history.state.clock <= clock.now
      requires queue.Valid() && queue.ready && (dir == Sent || dir == Failed) && when.expiry <= when.purge
      requires queue.dir.State() == if days >= 0 then RunSteps(d, CleanupStepsBy(d, dir, days, when)) else d
      modifies history
      ensures mirrored && TidyBy(d, dir, days, when) ==> Valid() && old(history.events) <= history.events
    {
      if mirrored && TidyBy(d, dir, days, when) {
        history.Pass(clock.now - history.state.clock);
        if days >= 0 {
          var expiry, age, purge := Cutoff(when.expiry, days), Cutoff(when.age, days), Cutoff(when.purge, days);
          history.Step(G.Do(G.Cleanup(dir, expiry, age, purge)));
        }
      }
    }
  }

  /** Every young item of `failed` is in `pending` afterwards, unchanged. */
  ghost predicate SavesYoung(d: Disk, e: Disk, days: int, now: Time) {
    forall x :: Slot(Failed, x) in d.files && Young(d.files[Slot(Failed, x)], x, days, now) ==>
      Slot(Pending, x) in e.files && e.files[Slot(Pending, x)] == d.files[Slot(Failed, x)]
  }

  lemma YoungStay(d: Disk, saved: Disk, e: Disk, days: int, now: Time)
    requires RequeuesYoung(d, saved, days, now) && PendingKept(saved, e)
    ensures SavesYoung(d, e, days, now)
  {
  }

  ghost predicate PendingKept(d: Disk, e: Disk) {
    forall x :: Slot(Pending, x) in d.files ==>
      Slot(Pending, x) in e.files && e.files[Slot(Pending, x)] == d.files[Slot(Pending, x)]
  }
}
