/**
  The delivery worker: pick a due item, try to deliver it, record what came of
  it. Everything it does is an event of the gateway's state machine, so that
  what is proved of every run holds of the worker.
 */
module DeliveryWorking {
  import opened Prelude
  import opened Durable
  import opened Clocks
  import opened QueueSpec
  import opened FileQueue
  import opened CrashSafety
  import opened OperationSafety
  import opened ClaimScan
  import opened GatewayHistory
  import G = GatewaySystem
  import B = Bookkeeping
  import Text = TelegramText
  import Telegram = TelegramSending

  /** How an attempt to deliver ended. */
  datatype Outcome =
    | Success
    | InvalidMessage
    | AuthRejected
    | RateLimited(retryAfter: Time)
    | Unreachable
    | ApiRejected
    | Surprise

  function OutcomeOf(s: Telegram.Sending): Outcome {
    match s
    case Delivered => Success
    case Failed(AuthError) => AuthRejected
    case Failed(RateLimited(after)) => RateLimited(after)
    case Failed(TransportError) => Unreachable
    case Failed(ApiError) => ApiRejected
  }

  datatype Pass = NoWork | Handled(item: Item, outcome: Outcome)

  /** What the state machine calls a failed attempt. */
  function VerdictOf(o: Outcome): G.Verdict
    requires !o.Success?
  {
    match o
    case RateLimited(after) => G.Recoverable(Some(after))
    case Unreachable => G.Recoverable(None)
    case Surprise => G.Unexpected
    case _ => G.Rejected
  }

  predicate Due(item: Item, now: Time) {
    G.Due(item, now)
  }

  predicate Recoverable(o: Outcome) {
    o.RateLimited? || o.Unreachable?
  }

  function RetryDelay(schedule: seq<Time>, attempts: nat, o: Outcome): Time
    requires attempts < |schedule|
  {
    if o.RateLimited? && o.retryAfter > schedule[attempts] then o.retryAfter else schedule[attempts]
  }

  /** Computed at `at` and recorded at `stamp`, the next attempt of `item` waits for the schedule and for Telegram. */
  predicate Retried(item: Item, updated: Item, o: Outcome, schedule: seq<Time>, at: Time, stamp: Time)
    requires item.attempts < |schedule|
  {
    updated == Attempted(item, at + RetryDelay(schedule, item.attempts, o), stamp)
  }

  /** The item must still wait for its next attempt. */
  predicate NotYet(item: Item, now: Time) {
    item.nextRetry.Some? && now < item.nextRetry.value
  }

  /** No valid pending item was due at `since`. */
  ghost predicate NoneDue(d: Disk, since: Time) {
    forall x :: Live(d, Slot(Pending, x)) ==> NotYet(ItemAt(d, Slot(Pending, x)), since)
  }

  /** Every valid pending item before `item` was not due at `since`. */
  ghost predicate FirstDue(d: Disk, item: Item, since: Time) {
    && Live(d, Slot(Pending, item.id)) && ItemAt(d, Slot(Pending, item.id)) == item
    && forall x :: x < item.id && Live(d, Slot(Pending, x)) ==> NotYet(ItemAt(d, Slot(Pending, x)), since)
  }

  ghost function LivePending(d: Disk): set<Id> {
    set s | s in d.files && s.dir == Pending && Live(d, s) :: s.id
  }

  /** Where the item of a pass is in the end, and in what shape. */
  ghost predicate Disposed(d: Disk, item: Item, o: Outcome, schedule: seq<Time>, from: Time, until: Time) {
    if o.Success? then
      Live(d, Slot(Sent, item.id)) && ItemAt(d, Slot(Sent, item.id)) == item
    else if Recoverable(o) && item.attempts < |schedule| then
      var s := Slot(Pending, item.id);
      && Live(d, s)
      && exists at, stamp :: from <= at <= stamp <= until && Retried(item, ItemAt(d, s), o, schedule, at, stamp)
    else
      var s := Slot(Failed, item.id);
      Live(d, s) && ItemAt(d, s) == item.(permanent := !o.Surprise?)
  }

  /* ---- what a reply leads to ---- */

  /** The outcome that the reply which ended the sending stands for. */
  predicate StandsFor(reply: Telegram.Reply, o: Outcome) {
    && !o.InvalidMessage? && !o.Surprise?
    && (o.Success? <==> Telegram.Accepted(reply))
    && (o.Unreachable? <==> Telegram.Unanswered(reply))
    && (o.AuthRejected? <==> reply.Response? && reply.status == 401)
    && (o.RateLimited? <==> reply.Response? && reply.status == 429)
    && (o.RateLimited? ==> Telegram.AsksToWait(reply, o.retryAfter))
  }

  ghost predicate FailedAs(d: Disk, item: Item, permanent: bool) {
    Live(d, Slot(Failed, item.id)) && ItemAt(d, Slot(Failed, item.id)) == item.(permanent := permanent)
  }

  /** The delay is the scheduled one or the one asked for, whichever is longer. */
  ghost predicate LongerOf(delay: Time, scheduled: Time, reply: Telegram.Reply) {
    && delay >= scheduled && (forall wait :: Telegram.AsksToWait(reply, wait) ==> delay >= wait)
    && (delay == scheduled || Telegram.AsksToWait(reply, delay))
  }

  /** Back in `pending`, with one attempt more and the time of the next one. */
  ghost predicate PutOff(d: Disk, item: Item, delay: Time, at: Time, stamp: Time) {
    && Live(d, Slot(Pending, item.id))
    && ItemAt(d, Slot(Pending, item.id)) ==
         item.(attempts := item.attempts + 1, lastAttempt := Some(stamp), nextRetry := Some(at + delay))
  }

  /**
    Where the item is after a pass whose sending ended with this reply: in
    `sent` if it was accepted, put off if it may pass and the schedule has an
    entry left, and otherwise in `failed` for good.
   */
  ghost predicate EndsUp(d: Disk, item: Item, schedule: seq<Time>, from: Time, until: Time, reply: Telegram.Reply) {
    if Telegram.Accepted(reply) then
      Live(d, Slot(Sent, item.id)) && ItemAt(d, Slot(Sent, item.id)) == item
    else if Telegram.Transient(reply) && item.attempts < |schedule| then
      exists delay, at, stamp ::
        from <= at <= stamp <= until && LongerOf(delay, schedule[item.attempts], reply)
        && PutOff(d, item, delay, at, stamp)
    else
      FailedAs(d, item, true)
  }

  lemma DisposedEndsUp(d: Disk, item: Item, o: Outcome, schedule: seq<Time>, from: Time, until: Time,
                       reply: Telegram.Reply)
    requires Disposed(d, item, o, schedule, from, until) && StandsFor(reply, o)
    ensures EndsUp(d, item, schedule, from, until, reply)
  {
    if Recoverable(o) && item.attempts < |schedule| {
      var at, stamp :| from <= at <= stamp <= until
        && Retried(item, ItemAt(d, Slot(Pending, item.id)), o, schedule, at, stamp);
      var delay := RetryDelay(schedule, item.attempts, o);
      assert LongerOf(delay, schedule[item.attempts], reply);
      assert PutOff(d, item, delay, at, stamp);
    }
  }

  /** The same for a pass: a blank text and an unforeseen error come before any reply. */
  ghost predicate PassEndsUp(d: Disk, item: Item, schedule: seq<Time>, from: Time, until: Time,
                             telegram: Telegram.TelegramClient, server: nat -> Telegram.Reply, interrupted: bool)
    reads telegram
  {
    if Text.Blank(item.sms.text) then FailedAs(d, item, true)
    else if interrupted then FailedAs(d, item, false)
    else if !telegram.open then EndsUp(d, item, schedule, from, until, Telegram.TransportFailure)
    else
      exists last: nat ::
        Telegram.StopsAt(server, telegram.maxRetries, last) && EndsUp(d, item, schedule, from, until, server(last))
  }

  /** Every other valid file is where it was. */
  ghost predicate OthersUntouched(d: Disk, e: Disk, id: Id) {
    forall s: Slot :: s.id != id ==> (Live(e, s) <==> Live(d, s)) && (Live(d, s) ==> e.files[s] == d.files[s])
  }

  /** Every other file, valid or not, is where it was. */
  ghost predicate OthersEqual(d: Disk, e: Disk, id: Id) {
    forall s: Slot :: s.id != id ==> (s in e.files <==> s in d.files) && (s in d.files ==> e.files[s] == d.files[s])
  }

  class DeliveryWorker {
    const queue: Queue
    const telegram: Telegram.TelegramClient
    const clock: Clock
    const schedule: seq<Time>
    ghost const history: History

    /** The state machine is where the objects are. */
    ghost predicate Mirrored()
      reads this, queue, queue.store, queue.dir, telegram, clock, history
    {
      && queue.Valid() && queue.ready && telegram.Valid() && history.Valid()
      && history.params.digest == queue.cfg.digest && history.params.schedule == schedule
      && history.state.up && history.state.window == queue.cfg.window
      && history.state.disk == queue.dir.State() && history.state.clock == clock.now
    }

    ghost predicate Valid()
      reads this, queue, queue.store, queue.dir, telegram, clock, history
    {
      Mirrored() && history.state.worker.Idle?
    }

    /** Between a claim and the call that ends it, the item lies in `processing` as the worker knows it. */
    ghost predicate Holding(item: Item)
      reads this, queue, queue.store, queue.dir, telegram, clock, history
    {
      && Mirrored()
      && !history.state.worker.Idle? && history.state.worker.item == item
      && Live(queue.dir.State(), Slot(Processing, item.id))
      && ItemAt(queue.dir.State(), Slot(Processing, item.id)) == item
    }

    constructor (queue: Queue, telegram: Telegram.TelegramClient, clock: Clock, schedule: seq<Time>,
                 ghost history: History)
      requires queue.Valid() && queue.ready && telegram.Valid() && history.Valid()
      requires history.params.digest == queue.cfg.digest && history.params.schedule == schedule
      requires history.state.up && history.state.window == queue.cfg.window && history.state.worker.Idle?
      requires history.state.disk == queue.dir.State() && history.state.clock == clock.now
      ensures Valid()
      ensures this.queue == queue && this.telegram == telegram && this.clock == clock
      ensures this.schedule == schedule && this.history == history
    {
      this.queue := queue;
      this.telegram := telegram;
      this.clock := clock;
      this.schedule := schedule;
      this.history := history;
    }

    /**
      One pass. With the clock going from t0 to t1: without work, no valid
      pending item was due at t0 and nothing moved but files that are not
      valid. With work, the item handled was the valid pending item of least id
      that was due, in that every valid item before it was not due at t0, and
      it ends where the reply says that ended the sending. `interrupted` says
      whether an unforeseen error gets in the way of the sending. The pass is a
      run of the state machine.
     */
    method ProcessOnePendingItem(server: nat -> Telegram.Reply, interrupted: bool) returns (r: Pass)
      requires Valid()
      modifies queue.dir, clock, telegram, history
      ensures Valid() && old(history.events) <= history.events
      ensures r.NoWork? ==>
        && OnlyQuarantined(old(queue.dir.State()), queue.dir.State())
        && NoneDue(old(queue.dir.State()), old(clock.now))
      ensures r.Handled? ==>
        var d := old(queue.dir.State());
        && FirstDue(d, r.item, old(clock.now)) && !NotYet(r.item, clock.now)
        && PassEndsUp(queue.dir.State(), r.item, schedule, old(clock.now), clock.now, telegram, server, interrupted)
        && OthersUntouched(d, queue.dir.State(), r.item.id)
      ensures r.Handled? && r.outcome.Success? ==>
        exists n :: 1 <= n <= telegram.maxRetries && Telegram.Accepted(server(n))
    {
      var found := NextDueItem();
      if found.None? {
        return NoWork;
      }
      ghost var e := queue.dir.State();
      var outcome := Handle(found.value, server, interrupted);
      DisposalTouchesOne(old(queue.dir.State()), e, queue.dir.State(), found.value);
      return Handled(found.value, outcome);
    }

    /** Tries to deliver the item held and records what came of it. */
    method Handle(item: Item, server: nat -> Telegram.Reply, interrupted: bool) returns (outcome: Outcome)
      requires Holding(item) && history.state.worker.Claimed? && Due(item, clock.now)
      modifies queue.dir, clock, telegram, history
      ensures Valid() && clock.now >= old(clock.now) && old(history.events) <= history.events
      ensures PassEndsUp(queue.dir.State(), item, schedule, old(clock.now), clock.now, telegram, server, interrupted)
      ensures OthersEqual(old(queue.dir.State()), queue.dir.State(), item.id)
      ensures outcome.Success? ==> exists n :: 1 <= n <= telegram.maxRetries && Telegram.Accepted(server(n))
    {
      outcome := Attempt(item, server, interrupted);
      Dispose(item, outcome);
      if !outcome.InvalidMessage? && !outcome.Surprise? {
        ghost var reply := Telegram.TransportFailure;
        if telegram.open {
          ghost var last: nat :| Telegram.StopsAt(server, telegram.maxRetries, last) &&
                                 StandsFor(server(last), outcome);
          reply := server(last);
        }
        DisposedEndsUp(queue.dir.State(), item, outcome, schedule, old(clock.now), clock.now, reply);
      }
    }

    /** Claims and puts back items that are not due yet until one is, or none is left. */
    method NextDueItem() returns (found: Option<Item>)
      requires Valid()
      modifies queue.dir, clock, history
      ensures clock.now >= old(clock.now) && old(history.events) <= history.events
      ensures found.None? ==>
        && Valid()
        && OnlyQuarantined(old(queue.dir.State()), queue.dir.State())
        && NoneDue(old(queue.dir.State()), old(clock.now))
      ensures found.Some? ==>
        var d := old(queue.dir.State());
        var item := found.value;
        && Holding(item) && history.state.worker.Claimed?
        && FirstDue(d, item, old(clock.now)) && Due(item, clock.now)
        && Claimed(d, queue.dir.State(), item)
    {
      ghost var d := queue.dir.State();
      ghost var since := clock.now;
      var skipped: set<Id> := {};
      NothingQuarantined(d, d);
      while true
        invariant Valid() && clock.now >= since && old(history.events) <= history.events
        invariant OnlyQuarantined(d, queue.dir.State())
        invariant AllEarly(d, skipped, since)
        decreases |LivePending(d) - skipped|
      {
        var due: bool;
        found, due := ClaimAndCheck(skipped, d);
        if found.None? {
          NoneLeft(d, skipped, since);
          return;
        }
        if due {
          FirstLeft(d, skipped, found.value, since);
          return;
        }
        OneMoreEarly(d, skipped, found.value, since, clock.now);
        skipped := skipped + {found.value.id};
      }
    }

    /** One claim; an item that is not due yet is moved back. */
    method ClaimAndCheck(skipped: set<Id>, ghost d: Disk) returns (found: Option<Item>, due: bool)
      requires Valid() && OnlyQuarantined(d, queue.dir.State())
      modifies queue.dir, clock, history
      ensures clock.now >= old(clock.now) && old(history.events) <= history.events
      ensures LeftBelow(d, skipped, found)
      ensures found.Some? ==>
        && found.value.id !in skipped && found.value.id in LivePending(d)
        && ItemAt(d, Slot(Pending, found.value.id)) == found.value
        && (due <==> Due(found.value, clock.now))
      ensures if found.Some? && due then
          Holding(found.value) && history.state.worker.Claimed? && Claimed(d, queue.dir.State(), found.value)
        else Valid() && OnlyQuarantined(d, queue.dir.State())
    {
      due := false;
      NothingInProcessing(d);
      found := ClaimAt(skipped, d);
      if found.Some? {
        due := KeepIfDue(found.value, d);
      }
    }

    method KeepIfDue(item: Item, ghost d: Disk) returns (due: bool)
      requires Holding(item) && history.state.worker.Claimed? && Claimed(d, queue.dir.State(), item)
      requires ProcessingWithin(d, {}) && Live(d, Slot(Pending, item.id))
      modifies queue.dir, clock, history
      ensures clock.now >= old(clock.now) && old(history.events) <= history.events
      ensures due <==> Due(item, clock.now)
      ensures if due then Holding(item) && history.state.worker.Claimed? && Claimed(d, queue.dir.State(), item)
              else Valid() && OnlyQuarantined(d, queue.dir.State())
    {
      var now := ReadClock();
      due := Due(item, now);
      if !due {
        ghost var e := queue.dir.State();
        GiveBack(item);
        ClaimedAndBack(d, e, queue.dir.State(), item);
      }
    }

    /** An idle worker has left nothing in `processing`. */
    lemma NothingInProcessing(d: Disk)
      requires Valid() && OnlyQuarantined(d, queue.dir.State())
      ensures Settled(queue.dir.State(), clock.now) && ProcessingWithin(d, {})
    {
      history.Reached();
      RunningFacts(history.params, history.state);
      QuarantineLeavesProcessing(d, queue.dir.State());
    }

    /** One claim, relative to the disk `d` the pass started from. */
    method ClaimAt(skipped: set<Id>, ghost d: Disk) returns (found: Option<Item>)
      requires Valid() && OnlyQuarantined(d, queue.dir.State())
      modifies queue.dir, clock, history
      ensures clock.now >= old(clock.now) && old(history.events) <= history.events
      ensures LeftBelow(d, skipped, found)
      ensures found.None? ==> Valid() && OnlyQuarantined(d, queue.dir.State())
      ensures found.Some? ==>
        var item := found.value;
        && Holding(item) && history.state.worker.Claimed? && Claimed(d, queue.dir.State(), item)
        && item.id !in skipped && item.id in LivePending(d)
        && ItemAt(d, Slot(Pending, item.id)) == item
    {
      var t := ReadClock();
      ghost var cur := queue.dir.State();
      NothingInProcessing(d);
      ClaimIsLeast(cur, skipped);
      ghost var mid := ClaimEffect(cur, skipped, t);
      QuarantinedTwice(d, cur, mid);
      label before:
      var r := queue.ClaimNext(skipped, t);
      queue.DidFixesState@before(ClaimSteps(cur, skipped, t));
      history.Step(G.Do(G.Claim(skipped)));
      found := r.value;
      ghost var e := queue.dir.State();
      if found.None? {
        NothingQuarantined(mid, e);
        QuarantinedTwice(d, mid, e);
      } else {
        assert Slot(Pending, found.value.id) in d.files;
        ClaimedIsLive(cur, mid, e, found.value);
      }
    }

    /** A reading of the clock, and the time that passed in the state machine. */
    method ReadClock() returns (now: Time)
      requires Mirrored()
      modifies clock, history
      ensures Mirrored() && now == clock.now >= old(clock.now)
      ensures history.state == old(history.state).(clock := now)
      ensures old(history.events) <= history.events
    {
      now := clock.Read();
      history.Pass(now - old(clock.now));
    }

    /** Ends the hold by moving the file back to `pending`. */
    method GiveBack(item: Item)
      requires Holding(item) && G.OpEnabled(history.params, history.state, G.MoveBack)
      modifies queue.dir, history
      ensures Valid() && old(history.events) <= history.events
      ensures queue.dir.files == MoveFile(old(queue.dir.files), item.id, Processing, Pending)
    {
      ghost var e := queue.dir.State();
      var r := queue.MoveBackToPending(item);
      assert r.Ok?;
      queue.DidFixesState(MoveBackSteps(e, item));
      RunOne(e, Move(item.id, Processing, Pending));
      history.Step(G.Do(G.MoveBack));
    }

    /**
      Builds the message and sends it. A blank text is never sent; otherwise the
      reply that ended the sending decides, unless an unforeseen error interrupts.
      The state machine counts one more success exactly when there was one.
     */
    method Attempt(item: Item, server: nat -> Telegram.Reply, interrupted: bool) returns (o: Outcome)
      requires Holding(item) && history.state.worker.Claimed? && Due(item, clock.now)
      modifies telegram, history
      ensures Holding(item) && old(history.events) <= history.events
      ensures history.state.worker ==
        if o.Success? then G.Delivered(item) else G.Refused(item, VerdictOf(o), clock.now)
      ensures B.Count(history.state.ledger.sends, item.id) ==
        B.Count(old(history.state.ledger.sends), item.id) + if o.Success? then 1 else 0
      ensures history.state.attempts ==
        old(history.state.attempts) + [G.Attempt(item.id, clock.now, item.nextRetry)]
      ensures o.InvalidMessage? <==> Text.Blank(item.sms.text)
      ensures o.Surprise? <==> interrupted && !Text.Blank(item.sms.text)
      ensures o.InvalidMessage? || !telegram.open ==> telegram.requests == old(telegram.requests)
      ensures !o.InvalidMessage? && !o.Surprise? ==>
        if telegram.open then
          exists last: nat :: Telegram.StopsAt(server, telegram.maxRetries, last) && StandsFor(server(last), o)
        else o == Unreachable
      ensures o.Success? ==> exists n :: 1 <= n <= telegram.maxRetries && Telegram.Accepted(server(n))
    {
      history.Reached();
      RunningFacts(history.params, history.state);
      o := BuildAndSend(item, server, interrupted);
      if o.Success? {
        history.Step(G.Deliver);
      } else {
        history.Step(G.Refuse(VerdictOf(o)));
      }
    }

    method BuildAndSend(item: Item, server: nat -> Telegram.Reply, interrupted: bool) returns (o: Outcome)
      requires telegram.Valid()
      modifies telegram
      ensures telegram.Valid()
      ensures o.InvalidMessage? <==> Text.Blank(item.sms.text)
      ensures o.Surprise? <==> interrupted && !Text.Blank(item.sms.text)
      ensures o.InvalidMessage? || !telegram.open ==> telegram.requests == old(telegram.requests)
      ensures !o.InvalidMessage? && !o.Surprise? ==>
        if telegram.open then
          exists last: nat :: Telegram.StopsAt(server, telegram.maxRetries, last) && StandsFor(server(last), o)
        else o == Unreachable
      ensures o.Success? ==> exists n :: 1 <= n <= telegram.maxRetries && Telegram.Accepted(server(n))
    {
      Text.FromSmsRoundTrip(item.sms.number, item.sms.text);
      if Text.FromSms(item.sms.number, item.sms.text).Invalid? {
        return InvalidMessage;
      }
      if interrupted {
        return Surprise;
      }
      var sending := telegram.SendMessage(server);
      if telegram.open {
        ghost var last: nat :| Telegram.StopsAt(server, telegram.maxRetries, last) &&
                               Telegram.ComesTo(server(last), sending);
        assert StandsFor(server(last), OutcomeOf(sending));
      }
      return OutcomeOf(sending);
    }

    /** Records the outcome; none of the queue calls can fail here. */
    method Dispose(item: Item, o: Outcome)
      requires Holding(item)
      requires history.state.worker ==
        if o.Success? then G.Delivered(item) else G.Refused(item, VerdictOf(o), clock.now)
      modifies queue.dir, clock, history
      ensures Valid() && clock.now >= old(clock.now) && old(history.events) <= history.events
      ensures Disposed(queue.dir.State(), item, o, schedule, old(clock.now), clock.now)
      ensures OthersEqual(old(queue.dir.State()), queue.dir.State(), item.id)
    {
      if o.Success? {
        Finish(item);
      } else if Recoverable(o) {
        HandleRecoverableDeliveryFailure(item, o);
      } else {
        Fail(item, !o.Surprise?);
      }
    }

    method Finish(item: Item)
      requires Holding(item) && history.state.worker.Delivered?
      modifies queue.dir, clock, history
      ensures Valid() && clock.now >= old(clock.now) && old(history.events) <= history.events
      ensures queue.dir.files == MoveFile(old(queue.dir.files), item.id, Processing, Sent)
    {
      var t := ReadClock();
      ghost var e := queue.dir.State();
      HeldHasRow(item);
      label before:
      var r := queue.MarkSent(item, t);
      assert r.Ok?;
      queue.DidFixesState@before(MarkSentSteps(e, item, t));
      RunTwo(e, Move(item.id, Processing, Sent), SetStatus(item.key, SENT, t));
      history.Step(G.Do(G.MarkSent));
    }

    /** So the row update that follows a rename finds its row. */
    lemma HeldHasRow(item: Item)
      requires Holding(item)
      ensures item.key in queue.dir.rows
    {
      history.Reached();
      RunningFacts(history.params, history.state);
    }

    method Fail(item: Item, permanent: bool)
      requires Holding(item) && G.Final(history.params, history.state.worker)
      requires permanent == !history.state.worker.verdict.Unexpected?
      modifies queue.dir, clock, history
      ensures Valid() && clock.now >= old(clock.now) && old(history.events) <= history.events
      ensures exists at ::
        queue.dir.files ==
          MoveFile(old(queue.dir.files)[Slot(Processing, item.id) := Doc(item.(permanent := permanent), at)],
                   item.id, Processing, Failed)
    {
      var t := ReadClock();
      ghost var e := queue.dir.State();
      HeldHasRow(item);
      label before:
      var r := queue.MarkFailed(item, permanent, t);
      assert r.Ok?;
      queue.DidFixesState@before(MarkFailedSteps(e, item, permanent, t));
      RunThree(e, Write(Processing, item.(permanent := permanent), t), Move(item.id, Processing, Failed),
               SetStatus(item.key, FAILED, t));
      history.Step(G.Do(G.MarkFailed));
    }

    /** The next attempt waits for the schedule and for Telegram; past the schedule the item fails for good. */
    method HandleRecoverableDeliveryFailure(item: Item, o: Outcome)
      requires Holding(item) && Recoverable(o) && history.state.worker == G.Refused(item, VerdictOf(o), clock.now)
      modifies queue.dir, clock, history
      ensures Valid() && clock.now >= old(clock.now) && old(history.events) <= history.events
      ensures Disposed(queue.dir.State(), item, o, schedule, old(clock.now), clock.now)
      ensures OthersEqual(old(queue.dir.State()), queue.dir.State(), item.id)
    {
      if item.attempts >= |schedule| {
        Fail(item, true);
      } else {
        ghost var at, stamp, updated := ScheduleRetry(item, o);
        assert ItemAt(queue.dir.State(), Slot(Pending, item.id)) == updated;
      }
    }

    method ScheduleRetry(item: Item, o: Outcome) returns (ghost at: Time, ghost stamp: Time, ghost updated: Item)
      requires Holding(item) && Recoverable(o) && history.state.worker == G.Refused(item, VerdictOf(o), clock.now)
      requires item.attempts < |schedule|
      modifies queue.dir, clock, history
      ensures Valid() && clock.now >= old(clock.now) && old(history.events) <= history.events
      ensures old(clock.now) <= at <= stamp <= clock.now
      ensures Retried(item, updated, o, schedule, at, stamp)
      ensures queue.dir.files == MoveFile(old(queue.dir.files)[Slot(Processing, item.id) := Doc(updated, stamp)],
                                          item.id, Processing, Pending)
    {
      var now := ReadClock();
      var next := now + RetryDelay(schedule, item.attempts, o);
      var later := ReadClock();
      var again := Reschedule(item, o, now, next, later);
      at, stamp, updated := now, later, again;
      GiveBack(again);
    }

    method Reschedule(item: Item, o: Outcome, at: Time, next: Time, stamp: Time) returns (updated: Item)
      requires Holding(item) && Recoverable(o) && item.attempts < |schedule| && stamp == clock.now
      requires history.state.worker.Refused? && history.state.worker.verdict == VerdictOf(o)
      requires history.state.worker.since <= at <= stamp && next == at + RetryDelay(schedule, item.attempts, o)
      modifies queue.dir, history
      ensures updated == Attempted(item, next, stamp) && Holding(updated) && history.state.worker.Deferred?
      ensures old(history.events) <= history.events
      ensures queue.dir.files == old(queue.dir.files)[Slot(Processing, item.id) := Doc(updated, stamp)]
    {
      ghost var e := queue.dir.State();
      var r := queue.UpdateAttempt(item, next, stamp);
      assert r.Ok?;
      updated := r.value;
      queue.DidFixesState(UpdateAttemptSteps(e, item, next, stamp));
      RunOne(e, Write(Processing, updated, stamp));
      assert G.NextRetry(history.params, history.state, at) == next;
      history.Step(G.Do(G.UpdateAttempt(at)));
    }
  }

  /** Valid pending items that were not due at `since`. */
  ghost predicate AllEarly(d: Disk, ids: set<Id>, since: Time) {
    ids <= LivePending(d) && forall x :: x in ids ==> Early(d, x, since)
  }

  ghost predicate Early(d: Disk, id: Id, since: Time) {
    Live(d, Slot(Pending, id)) && NotYet(ItemAt(d, Slot(Pending, id)), since)
  }

  /** Everything valid in `pending`, as far as the item found, is skipped. */
  ghost predicate LeftBelow(d: Disk, skipped: set<Id>, found: Option<Item>) {
    forall x :: Live(d, Slot(Pending, x)) && (found.Some? ==> x < found.value.id) ==> x in skipped
  }

  lemma NoneLeft(d: Disk, skipped: set<Id>, since: Time)
    requires AllEarly(d, skipped, since) && LeftBelow(d, skipped, None)
    ensures NoneDue(d, since)
  {
    assert forall x :: Live(d, Slot(Pending, x)) ==> Early(d, x, since);
  }

  lemma FirstLeft(d: Disk, skipped: set<Id>, item: Item, since: Time)
    requires AllEarly(d, skipped, since) && LeftBelow(d, skipped, Some(item))
    requires Live(d, Slot(Pending, item.id)) && ItemAt(d, Slot(Pending, item.id)) == item
    ensures FirstDue(d, item, since)
  {
    assert forall x :: x < item.id && Live(d, Slot(Pending, x)) ==> Early(d, x, since);
  }

  lemma OneMoreEarly(d: Disk, skipped: set<Id>, item: Item, since: Time, now: Time)
    requires AllEarly(d, skipped, since) && since <= now && !Due(item, now)
    requires item.id in LivePending(d) && item.id !in skipped && ItemAt(d, Slot(Pending, item.id)) == item
    ensures AllEarly(d, skipped + {item.id}, since)
    ensures |LivePending(d) - (skipped + {item.id})| < |LivePending(d) - skipped|
  {
    Smaller(LivePending(d), skipped, item.id);
  }

  /** `e` is `d` after some quarantining and the claim of one item. */
  ghost predicate Claimed(d: Disk, e: Disk, item: Item) {
    exists mid :: OnlyQuarantined(d, mid) && e.files == MoveFile(mid.files, item.id, Pending, Processing)
  }

  lemma QuarantineLeavesProcessing(d: Disk, e: Disk)
    requires OnlyQuarantined(d, e) && ProcessingWithin(e, {})
    ensures ProcessingWithin(d, {})
  {
    assert forall s: Slot :: s in d.files && s.dir == Processing ==> s == Slot(Processing, s.id) && s in e.files;
  }

  /** The item a claim returns lies in `processing` as it lay in `pending`. */
  lemma ClaimedIsLive(d: Disk, mid: Disk, e: Disk, item: Item)
    requires OnlyQuarantined(d, mid) && e.files == MoveFile(mid.files, item.id, Pending, Processing)
    requires Live(d, Slot(Pending, item.id)) && ItemAt(d, Slot(Pending, item.id)) == item
    ensures Live(e, Slot(Processing, item.id)) && ItemAt(e, Slot(Processing, item.id)) == item
  {
    assert Live(mid, Slot(Pending, item.id));
  }

  lemma Smaller(all: set<Id>, skipped: set<Id>, id: Id)
    requires id in all && id !in skipped
    ensures |all - (skipped + {id})| < |all - skipped|
  {
    assert all - (skipped + {id}) == (all - skipped) - {id};
  }

  /** Claiming an item and moving it back leaves nothing changed but the quarantine. */
  lemma ClaimedAndBack(d: Disk, e: Disk, f: Disk, item: Item)
    requires Claimed(d, e, item) && ProcessingWithin(d, {}) && Live(d, Slot(Pending, item.id))
    requires f.files == MoveFile(e.files, item.id, Processing, Pending)
    ensures OnlyQuarantined(d, f)
  {
    var mid :| OnlyQuarantined(d, mid) && e.files == MoveFile(mid.files, item.id, Pending, Processing);
    ClaimThenBack(d, item, mid, e, f);
  }

  lemma ClaimTouchesOne(d: Disk, e: Disk, item: Item)
    requires Claimed(d, e, item)
    ensures OthersUntouched(d, e, item.id)
  {
    var mid :| OnlyQuarantined(d, mid) && e.files == MoveFile(mid.files, item.id, Pending, Processing);
    forall s: Slot | s.id != item.id
      ensures Live(e, s) <==> Live(d, s)
      ensures Live(d, s) ==> e.files[s] == d.files[s]
    {
      assert s in e.files <==> s in mid.files;
      assert Live(mid, s) <==> Live(d, s);
    }
  }

  /** A claim and a disposal together touch one valid file. */
  lemma DisposalTouchesOne(d: Disk, e: Disk, f: Disk, item: Item)
    requires Claimed(d, e, item)
    requires OthersEqual(e, f, item.id)
    ensures OthersUntouched(d, f, item.id)
  {
    ClaimTouchesOne(d, e, item);
  }
}
