/**
  The relay: messages read from the modem go into the queue first and are
  deleted from the modem after that; messages whose text stays empty are read
  again a number of times before they are given up. Everything the relay does
  is an event of the gateway's state machine.
 */
module Relaying {
  import opened Prelude
  import opened Durable
  import opened Clocks
  import opened QueueSpec
  import opened FileQueue
  import opened CrashSafety
  import opened OperationSafety
  import opened GatewayHistory
  import M = ModemManager
  import G = GatewaySystem
  import B = Bookkeeping
  import S = SystemSafety
  import T = GatewayTheorems

  datatype RelayStatus = Stopped | Starting | Running | Stopping

  datatype RelayFailure = AlreadyStarted | ModemFailure(failure: M.Failure) | QueueFailure(error: Error)

  /** A task that reads an undecoded message again and again; tasks are numbered as they are created. */
  datatype RetryTask = RetryTask(path: M.Path, emptyReads: nat, done: bool)

  /**
    Why a message was deleted from the modem: reading number `reading` had it,
    and it was enqueued under the key of the instant `born`; or a task gave it up.
   */
  datatype Reason = Enqueued(reading: nat, born: Time) | GivenUp(task: nat)

  const ON_NEW_SMS: M.CallbackKey := 0

  /* ---- what the queue knows ---- */

  /** The queue knows the key: it has a row, or a valid pending file answers to it. */
  ghost predicate Known(cfg: Config, d: Disk, key: Key) {
    key in d.rows || exists s :: Live(d, s) && s.dir == Pending && AnswersTo(cfg, ItemAt(d, s), key)
  }

  /** The queue knows the message under the key it had at some instant. */
  ghost predicate Stored(cfg: Config, d: Disk, sms: Sms) {
    exists born :: Known(cfg, d, ContentKey(cfg, sms, born))
  }

  /** Whatever was known still is. */
  ghost predicate Remembers(cfg: Config, d: Disk, e: Disk) {
    forall key :: Known(cfg, d, key) ==> Known(cfg, e, key)
  }

  ghost predicate SameProcessing(d: Disk, e: Disk) {
    forall x :: Slot(Processing, x) in e.files <==> Slot(Processing, x) in d.files
  }

  lemma StillNothingInProcessing(d: Disk, e: Disk)
    requires SameProcessing(d, e) && ProcessingWithin(d, {})
    ensures ProcessingWithin(e, {})
  {
    assert forall s: Slot :: s in e.files && s.dir == Processing ==> s == Slot(Processing, s.id) && s in d.files;
  }

  lemma EnqueueRemembers(cfg: Config, d: Disk, item: Item, now: Time)
    requires Unused(d, item.id)
    ensures Remembers(cfg, d, RunSteps(d, EnqueueSteps(cfg, d, item, now)))
  {
    var e := RunSteps(d, EnqueueSteps(cfg, d, item, now));
    EnqueueKnows(cfg, d, item, now);
    EnqueueKeepsRows(cfg, d, item, now);
    forall key | Known(cfg, d, key) ensures Known(cfg, e, key) {
      if key !in d.rows {
        var s :| Live(d, s) && s.dir == Pending && AnswersTo(cfg, ItemAt(d, s), key);
        assert Slot(s.dir, s.id) in d.files;
        assert Live(e, s) && ItemAt(e, s) == ItemAt(d, s);
      }
    }
  }

  lemma EnqueueKeepsRows(cfg: Config, d: Disk, item: Item, now: Time)
    ensures d.rows.Keys <= RunSteps(d, EnqueueSteps(cfg, d, item, now)).rows.Keys
  {
    var ms := EnqueueSteps(cfg, d, item, now);
    if |ms| == 1 {
      RunOne(d, ms[0]);
      assert ms == [ms[0]];
    } else if |ms| == 2 {
      RunTwo(d, ms[0], ms[1]);
      assert ms == [ms[0], ms[1]];
    }
  }

  lemma StoredStays(cfg: Config, d: Disk, e: Disk, messages: seq<Sms>)
    requires Remembers(cfg, d, e)
    requires forall m :: m in messages ==> Stored(cfg, d, m)
    ensures forall m :: m in messages ==> Stored(cfg, e, m)
  {
    forall m | m in messages ensures Stored(cfg, e, m) {
      var born :| Known(cfg, d, ContentKey(cfg, m, born));
      assert Known(cfg, e, ContentKey(cfg, m, born));
    }
  }

  /* ---- why messages are deleted ---- */

  /** The disk when its journal had `n` steps. */
  ghost function DiskAt(origin: Disk, journal: seq<Micro>, n: nat): Disk
    requires n <= |journal|
  {
    RunSteps(origin, journal[..n])
  }

  /** When the deletion was asked for, a complete reading was known to the queue, or the limit was reached. */
  ghost predicate Justified(cfg: Config, origin: Disk, journal: seq<Micro>, readings: seq<M.Reading>,
                            tasks: seq<RetryTask>, starts: seq<nat>, limit: nat, d: M.Deletion, why: Reason)
  {
    && d.written <= |journal| && d.seen <= |readings|
    && match why
       case Enqueued(r, born) =>
         && r < d.seen && readings[r].path == d.path && readings[r].answer.Got? && readings[r].answer.value.Some?
         && Known(cfg, DiskAt(origin, journal, d.written), ContentKey(cfg, readings[r].answer.value.value, born))
       case GivenUp(t) =>
         && t < |tasks| && tasks[t].path == d.path && tasks[t].emptyReads == limit
         && t < |starts| && starts[t] <= d.seen && M.EmptyReads(readings[starts[t]..d.seen], d.path) >= limit
  }

  lemma EnqueuedJustNow(cfg: Config, origin: Disk, journal: seq<Micro>, readings: seq<M.Reading>,
                        tasks: seq<RetryTask>, starts: seq<nat>, limit: nat, r: nat, sms: Sms, born: Time)
    requires ReadingHas(readings, r, sms) && Known(cfg, RunSteps(origin, journal), ContentKey(cfg, sms, born))
    ensures Justified(cfg, origin, journal, readings, tasks, starts, limit,
                      M.Deletion(sms.path, |journal|, |readings|), Enqueued(r, born))
  {
    assert journal[..|journal|] == journal;
  }

  lemma GivenUpJustNow(cfg: Config, origin: Disk, journal: seq<Micro>, readings: seq<M.Reading>,
                       tasks: seq<RetryTask>, starts: seq<nat>, limit: nat, t: nat)
    requires t < |tasks| && tasks[t].emptyReads == limit && ReadsCounted(tasks, starts, readings)
    ensures Justified(cfg, origin, journal, readings, tasks, starts, limit,
                      M.Deletion(tasks[t].path, |journal|, |readings|), GivenUp(t))
  {
    assert readings[starts[t]..|readings|] == readings[starts[t]..];
  }

  /** `places` numbers the readings that had the messages. */
  ghost predicate Placed(readings: seq<M.Reading>, places: seq<nat>, messages: seq<Sms>) {
    |places| == |messages| && forall i :: 0 <= i < |messages| ==> ReadingHas(readings, places[i], messages[i])
  }

  /** Reading number `r` had the message. */
  ghost predicate ReadingHas(readings: seq<M.Reading>, r: nat, sms: Sms) {
    r < |readings| && readings[r] == M.Reading(sms.path, M.Got(Some(sms)))
  }

  /** Later on, the tasks are the same ones, further ahead. */
  ghost predicate Progressed(before: seq<RetryTask>, after: seq<RetryTask>) {
    && |before| <= |after|
    && forall i :: 0 <= i < |before| ==>
         && after[i].path == before[i].path
         && after[i].emptyReads >= before[i].emptyReads
         && (before[i].done ==> after[i] == before[i])
  }

  ghost predicate WithinLimit(tasks: seq<RetryTask>, limit: nat) {
    forall i :: 0 <= i < |tasks| ==> tasks[i].emptyReads <= limit
  }

  /** A reason stays one while journal, readings and tasks go on. */
  lemma JustifiedLater(cfg: Config, origin: Disk, journal: seq<Micro>, later: seq<Micro>,
                       readings: seq<M.Reading>, more: seq<M.Reading>,
                       tasks: seq<RetryTask>, starts: seq<nat>, after: seq<RetryTask>, since: seq<nat>,
                       limit: nat, d: M.Deletion, why: Reason)
    requires Justified(cfg, origin, journal, readings, tasks, starts, limit, d, why)
    requires journal <= later && readings <= more && starts <= since
    requires Progressed(tasks, after) && WithinLimit(after, limit)
    ensures Justified(cfg, origin, later, more, after, since, limit, d, why)
  {
    assert later[..d.written] == journal[..d.written];
    if why.GivenUp? {
      assert more[starts[why.task]..d.seen] == readings[starts[why.task]..d.seen];
    }
  }

  /** Every deletion has its reason. */
  ghost predicate AllJustified(cfg: Config, origin: Disk, journal: seq<Micro>, log: M.ModemLog,
                               tasks: seq<RetryTask>, starts: seq<nat>, limit: nat, reasons: seq<Reason>)
  {
    && |reasons| == |log.deletions|
    && forall i :: 0 <= i < |reasons| ==>
         Justified(cfg, origin, journal, log.readings, tasks, starts, limit, log.deletions[i], reasons[i])
  }

  lemma AllJustifiedLater(cfg: Config, origin: Disk, journal: seq<Micro>, later: seq<Micro>,
                          log: M.ModemLog, more: M.ModemLog,
                          tasks: seq<RetryTask>, starts: seq<nat>, after: seq<RetryTask>, since: seq<nat>,
                          limit: nat, reasons: seq<Reason>)
    requires AllJustified(cfg, origin, journal, log, tasks, starts, limit, reasons)
    requires journal <= later && log.readings <= more.readings && log.deletions == more.deletions
    requires Progressed(tasks, after) && WithinLimit(after, limit) && starts <= since
    ensures AllJustified(cfg, origin, later, more, after, since, limit, reasons)
  {
    forall i | 0 <= i < |reasons|
      ensures Justified(cfg, origin, later, more.readings, after, since, limit, more.deletions[i], reasons[i])
    {
      JustifiedLater(cfg, origin, journal, later, log.readings, more.readings, tasks, starts, after, since, limit,
                     log.deletions[i], reasons[i]);
    }
  }

  lemma AllJustifiedMore(cfg: Config, origin: Disk, journal: seq<Micro>, log: M.ModemLog, more: M.ModemLog,
                         tasks: seq<RetryTask>, starts: seq<nat>, limit: nat, reasons: seq<Reason>,
                         d: M.Deletion, why: Reason)
    requires AllJustified(cfg, origin, journal, log, tasks, starts, limit, reasons)
    requires more == log.(deletions := log.deletions + [d])
    requires Justified(cfg, origin, journal, log.readings, tasks, starts, limit, d, why)
    ensures AllJustified(cfg, origin, journal, more, tasks, starts, limit, reasons + [why])
  {
  }

  /* ---- the retry tasks ---- */

  /** Pending entries name tasks for their path, and every task that is not done has its entry. */
  ghost predicate RetriesOk(pending: map<M.Path, nat>, tasks: seq<RetryTask>, limit: nat) {
    && (forall p :: p in pending ==> pending[p] < |tasks| && tasks[pending[p]].path == p)
    && (forall i :: 0 <= i < |tasks| && !tasks[i].done ==> tasks[i].path in pending && pending[tasks[i].path] == i)
    && WithinLimit(tasks, limit)
  }

  /** A task still at work has attempts left. */
  ghost predicate AttemptsLeft(tasks: seq<RetryTask>, limit: nat) {
    forall i :: 0 <= i < |tasks| && !tasks[i].done ==> tasks[i].emptyReads < limit
  }

  /** A task has counted no more empty reads than there were since it started. */
  ghost predicate ReadsCounted(tasks: seq<RetryTask>, starts: seq<nat>, readings: seq<M.Reading>) {
    && |starts| == |tasks|
    && forall i :: 0 <= i < |tasks| ==>
         && starts[i] <= |readings|
         && tasks[i].emptyReads <= M.EmptyReads(readings[starts[i]..], tasks[i].path)
  }

  /** There is an empty read that the task has not counted yet. */
  ghost predicate ReadToCount(tasks: seq<RetryTask>, starts: seq<nat>, readings: seq<M.Reading>, t: nat)
    requires t < |tasks| && ReadsCounted(tasks, starts, readings)
  {
    tasks[t].emptyReads < M.EmptyReads(readings[starts[t]..], tasks[t].path)
  }

  lemma TaskStaysCounted(pending: map<M.Path, nat>, tasks: seq<RetryTask>, starts: seq<nat>,
                         readings: seq<M.Reading>, t: nat, limit: nat)
    requires RetriesOk(pending, tasks, limit) && ReadsCounted(tasks, starts, readings) && AttemptsLeft(tasks, limit)
    requires t < |tasks| && !tasks[t].done && ReadToCount(tasks, starts, readings, t)
    ensures var after := tasks[t := tasks[t].(emptyReads := tasks[t].emptyReads + 1)];
      && RetriesOk(pending, after, limit) && Progressed(tasks, after)
      && ReadsCounted(after, starts, readings)
      && forall i :: 0 <= i < |after| && i != t && !after[i].done ==> after[i].emptyReads < limit
  {
  }

  lemma TaskStartsCounted(tasks: seq<RetryTask>, starts: seq<nat>, readings: seq<M.Reading>, path: M.Path, limit: nat)
    requires ReadsCounted(tasks, starts, readings) && AttemptsLeft(tasks, limit) && limit >= 1
    ensures ReadsCounted(tasks + [RetryTask(path, 0, false)], starts + [|readings|], readings)
    ensures AttemptsLeft(tasks + [RetryTask(path, 0, false)], limit)
  {
  }

  lemma ReadsCountedLater(tasks: seq<RetryTask>, starts: seq<nat>, readings: seq<M.Reading>, last: M.Reading)
    requires ReadsCounted(tasks, starts, readings)
    ensures ReadsCounted(tasks, starts, readings + [last])
    ensures forall i :: 0 <= i < |tasks| && last == M.Reading(tasks[i].path, M.Got(None)) ==>
      ReadToCount(tasks, starts, readings + [last], i)
  {
    forall i | 0 <= i < |tasks|
      ensures M.EmptyReads((readings + [last])[starts[i]..], tasks[i].path) ==
        M.EmptyReads(readings[starts[i]..], tasks[i].path) +
        if last == M.Reading(tasks[i].path, M.Got(None)) then 1 else 0
    {
      assert (readings + [last])[starts[i]..] == readings[starts[i]..] + [last];
      M.OneMoreReading(readings[starts[i]..], last, tasks[i].path);
    }
  }

  /** The tasks at work, as the state machine counts them. */
  ghost function AtWork(pending: map<M.Path, nat>, tasks: seq<RetryTask>): map<M.Path, nat> {
    map p | p in pending && pending[p] < |tasks| && !tasks[pending[p]].done :: tasks[pending[p]].emptyReads
  }

  lemma TaskStarts(pending: map<M.Path, nat>, tasks: seq<RetryTask>, limit: nat, path: M.Path)
    requires RetriesOk(pending, tasks, limit) && path !in pending
    ensures var more := tasks + [RetryTask(path, 0, false)];
      var entries := pending[path := |tasks|];
      && RetriesOk(entries, more, limit) && Progressed(tasks, more)
      && path !in AtWork(pending, tasks)
      && AtWork(entries, more) == AtWork(pending, tasks)[path := 0]
  {
  }

  lemma TaskCounts(pending: map<M.Path, nat>, tasks: seq<RetryTask>, limit: nat, t: nat)
    requires RetriesOk(pending, tasks, limit) && t < |tasks| && !tasks[t].done && tasks[t].emptyReads < limit
    ensures var path := tasks[t].path;
      var n := tasks[t].emptyReads + 1;
      var after := tasks[t := tasks[t].(emptyReads := n)];
      && path in AtWork(pending, tasks) && AtWork(pending, tasks)[path] == n - 1
      && AtWork(pending, after) == AtWork(pending, tasks)[path := n]
  {
    var path := tasks[t].path;
    var n := tasks[t].emptyReads + 1;
    var after := tasks[t := tasks[t].(emptyReads := n)];
    assert forall p :: p in pending && p != path ==> pending[p] != t;
    assert AtWork(pending, after) == AtWork(pending, tasks)[path := n];
  }

  lemma TaskEnds(pending: map<M.Path, nat>, tasks: seq<RetryTask>, limit: nat, t: nat)
    requires RetriesOk(pending, tasks, limit) && t < |tasks| && !tasks[t].done
    ensures var path := tasks[t].path;
      var after := tasks[t := tasks[t].(done := true)];
      && RetriesOk(pending, after, limit) && Progressed(tasks, after)
      && path in AtWork(pending, tasks)
      && AtWork(pending, after) == AtWork(pending, tasks) - {path}
  {
    var path := tasks[t].path;
    var after := tasks[t := tasks[t].(done := true)];
    assert forall p :: p in pending && p != path ==> pending[p] != t;
    assert AtWork(pending, after) == AtWork(pending, tasks) - {path};
  }

  /* ---- the state machine ---- */

  /** Ids as they are drawn at random: never the same one twice. */
  class IdSource {
    var used: set<Id>

    constructor ()
      ensures used == {}
    {
      used := {};
    }

    method Draw() returns (id: Id)
      modifies this
      ensures id !in old(used) && used == old(used) + {id}
    {
      id := Above(used);
      used := used + {id};
    }
  }

  function Above(ids: set<Id>): (m: Id)
    ensures forall x :: x in ids ==> x < m
  {
    var s := Sort(ids);
    if s == [] then 0 else s[|s| - 1] + 1
  }

  /** The removals of the state machine are the deletions the modem was asked for. */
  ghost predicate SameRemovals(removals: seq<G.Removal>, deletions: seq<M.Deletion>) {
    && |removals| == |deletions|
    && forall i :: 0 <= i < |removals| ==> deletions[i].path == PathOf(removals[i])
  }

  function PathOf(r: G.Removal): M.Path {
    match r
    case Covered(cover) => cover.sms.path
    case GivenUp(path, _, _) => path
  }

  /** What enqueueing does to the state machine. */
  lemma EnqueueEvent(p: G.Params, s: G.Sys, sms: Sms, id: Id, born: Time) returns (cover: G.Cover)
    requires G.Reachable(p, s) && G.OpEnabled(p, s, G.Enqueue(sms, id, born))
    ensures Settled(s.disk, s.clock) && Unused(s.disk, id)
    ensures var t := G.Next(p, s, G.Do(G.Enqueue(sms, id, born)));
      && t == s.(disk := t.disk, ledger := t.ledger, covers := t.covers)
      && t.disk == RunSteps(s.disk, EnqueueSteps(G.Cfg(p, s), s.disk, NewItem(G.Cfg(p, s), sms, id, born), s.clock))
      && t.ledger.accepted.Keys <= s.ledger.accepted.Keys + {id}
      && cover in t.covers && cover.sms == sms
  {
    var op := G.Enqueue(sms, id, born);
    RunningFacts(p, s);
    T.ReachableInv(p, s);
    S.IdsAreFresh(p, s, id);
    B.NotesOnly(s.ledger, G.OpSteps(p, s, op)[..|G.OpSteps(p, s, op)|]);
    cover := G.Cover(sms, born, s.window, G.CoveredBy(p, s, NewItem(G.Cfg(p, s), sms, id, born)));
  }

  class SmsRelay {
    const modem: M.ModemManagerClient
    const queue: Queue
    const clock: Clock
    const ids: IdSource
    const maxAttempts: nat
    var status: RelayStatus
    var deleteFailures: nat
    var pendingTextRetries: map<M.Path, nat>
    var tasks: seq<RetryTask>

    /** Why each message was deleted, and how many reads had been made when each task started. */
    ghost var reasons: seq<Reason>
    ghost var starts: seq<nat>
    ghost const history: History

    ghost predicate Valid()
      reads this, modem, queue, queue.store, queue.dir, clock, ids, history
    {
      Sane() && Mirrored() && AttemptsLeft(tasks, maxAttempts)
    }

    ghost predicate Sane()
      reads this, modem, queue, queue.store, queue.dir
    {
      && modem.Valid() && queue.Valid() && modem.store == queue.dir && maxAttempts >= 1
      && (status.Stopped? ==> !queue.ready)
      && RetriesOk(pendingTextRetries, tasks, maxAttempts)
      && ReadsCounted(tasks, starts, modem.log.readings)
      && AllJustified(queue.cfg, queue.dir.origin, queue.dir.journal, modem.log, tasks, starts, maxAttempts, reasons)
    }

    /** The state machine is where the objects are. */
    ghost predicate Mirrored()
      reads this, modem, queue, queue.dir, clock, ids, history
    {
      MirroredWith(pendingTextRetries, tasks)
    }

    /** The same with these entries and tasks. */
    ghost predicate MirroredWith(entries: map<M.Path, nat>, work: seq<RetryTask>)
      reads this, modem, queue, queue.dir, clock, ids, history
    {
      && history.Valid()
      && history.params.digest == queue.cfg.digest && history.params.maxAttempts == maxAttempts
      && history.state.up == queue.ready && (queue.ready ==> history.state.window == queue.cfg.window)
      && history.state.disk == queue.dir.State() && history.state.clock == clock.now
      && history.state.rereads == AtWork(entries, work)
      && SameRemovals(history.state.removals, modem.log.deletions)
      && history.state.ledger.accepted.Keys <= ids.used
    }

    /** What no call takes back. */
    twostate predicate Onward()
      reads this, modem, queue.dir, clock, history
    {
      && old(modem.log).deletions <= modem.log.deletions && old(modem.log).readings <= modem.log.readings
      && old(reasons) <= reasons && Progressed(old(tasks), tasks) && old(starts) <= starts
      && old(queue.dir.journal) <= queue.dir.journal && clock.now >= old(clock.now)
      && old(history.events) <= history.events
    }

    /** What no call but a start or a stop touches. */
    twostate predicate Undisturbed()
      reads this, modem, history
    {
      status == old(status) && modem.confirmed == old(modem.confirmed) &&
      history.state.worker == old(history.state.worker)
    }

    constructor (modem: M.ModemManagerClient, queue: Queue, clock: Clock, ids: IdSource, maxAttempts: nat,
                 ghost history: History)
      requires modem.Valid() && modem.log == M.EMPTY_LOG && modem.store == queue.dir
      requires queue.Valid() && !queue.ready && maxAttempts >= 1
      requires history.Valid() && !history.state.up && history.state.removals == [] && history.state.rereads == map[]
      requires history.params.digest == queue.cfg.digest && history.params.maxAttempts == maxAttempts
      requires history.state.disk == queue.dir.State() && history.state.clock == clock.now
      requires history.state.ledger.accepted.Keys <= ids.used
      ensures Valid() && status == Stopped && tasks == [] && starts == []
      ensures this.modem == modem && this.queue == queue && this.clock == clock && this.ids == ids
      ensures this.maxAttempts == maxAttempts && this.history == history
    {
      this.modem := modem;
      this.queue := queue;
      this.clock := clock;
      this.ids := ids;
      this.maxAttempts := maxAttempts;
      this.history := history;
      status := Stopped;
      deleteFailures := 0;
      pendingTextRetries := map[];
      tasks := [];
      reasons := [];
      starts := [];
    }

    /* ---- one message ---- */

    /** A reading of the clock, and the time that passed in the state machine. */
    method ReadClock() returns (now: Time)
      requires Valid()
      modifies clock, history
      ensures Valid() && Onward() && Undisturbed() && now == clock.now
    {
      now := clock.Read();
      history.Pass(now - old(clock.now));
    }

    /** One read of a message. */
    method Read(path: M.Path) returns (answer: M.Answer<Option<Sms>>)
      requires Valid()
      modifies modem`log, modem.system
      ensures Valid() && Onward() && Undisturbed()
      ensures modem.log == old(modem.log).(readings := old(modem.log).readings + [M.Reading(path, answer)])
      ensures answer.Got? && answer.value.Some? ==> answer.value.value.path == path
      ensures answer == M.Got(None) ==>
        forall t :: 0 <= t < |tasks| && tasks[t].path == path ==> ReadToCount(tasks, starts, modem.log.readings, t)
    {
      answer := modem.ReadMessage(path);
      ReadsCountedLater(tasks, starts, old(modem.log).readings, M.Reading(path, answer));
      AllJustifiedLater(queue.cfg, queue.dir.origin, queue.dir.journal, queue.dir.journal, old(modem.log), modem.log,
                        tasks, starts, tasks, starts, maxAttempts, reasons);
    }

    /**
      Enqueues a message that reading number `reading` had, then asks the modem
      to delete it. A failed enqueue deletes nothing; a failed deletion is
      counted and only raised on request.
     */
    method ProcessSms(sms: Sms, failOnDeleteError: bool, ghost reading: nat) returns (r: Option<RelayFailure>)
      requires Valid() && ReadingHas(modem.log.readings, reading, sms)
      modifies this`deleteFailures, this`reasons, modem, modem.system, queue.dir, clock, ids, history
      ensures Valid() && Onward() && Undisturbed()
      ensures modem.log == old(modem.log).(deletions := modem.log.deletions)
      ensures !queue.ready ==> r == Some(QueueFailure(NotInitialized)) && modem.log == old(modem.log)
      ensures queue.ready ==> Stored(queue.cfg, queue.dir.State(), sms)
      ensures queue.ready && r.None? && deleteFailures == old(deleteFailures) ==> modem.log != old(modem.log)
      ensures DeletedAtMost(old(modem.log), modem.log, sms.path)
      ensures SameProcessing(old(queue.dir.State()), queue.dir.State())
      ensures Remembers(queue.cfg, old(queue.dir.State()), queue.dir.State())
    {
      var item, born;
      ghost var cover: G.Cover;
      item, born, cover := EnqueueNow(sms);
      if item.Err? { return Some(QueueFailure(item.error)); }
      r := DeleteEnqueued(sms, reading, born, cover, failOnDeleteError);
    }

    /** The message is known by now, so it may go. */
    method DeleteEnqueued(sms: Sms, ghost reading: nat, ghost born: Time, ghost cover: G.Cover, failOnDeleteError: bool)
      returns (r: Option<RelayFailure>)
      requires Valid() && queue.ready && ReadingHas(modem.log.readings, reading, sms)
      requires Known(queue.cfg, queue.dir.State(), ContentKey(queue.cfg, sms, born))
      requires cover in history.state.covers && cover.sms == sms
      modifies this`deleteFailures, this`reasons, modem, modem.system, history
      ensures Valid() && Onward() && Undisturbed()
      ensures modem.log == old(modem.log).(deletions := modem.log.deletions)
      ensures DeletedAtMost(old(modem.log), modem.log, sms.path)
      ensures r.None? && deleteFailures == old(deleteFailures) ==> modem.log != old(modem.log)
    {
      EnqueuedJustNow(queue.cfg, queue.dir.origin, queue.dir.journal, modem.log.readings, tasks, starts, maxAttempts,
                      reading, sms, born);
      r := Delete(sms.path, Enqueued(reading, born), G.DeleteSms(cover), failOnDeleteError);
    }

    /** The item is born before the queue is asked. */
    method EnqueueNow(sms: Sms) returns (r: Result<Option<Item>>, born: Time, ghost cover: G.Cover)
      requires Valid()
      modifies queue.dir, clock, ids, history
      ensures Valid() && Onward() && Undisturbed()
      ensures r.Err? <==> !queue.ready
      ensures r.Err? ==> r.error == NotInitialized
      ensures r.Ok? ==>
        && Known(queue.cfg, queue.dir.State(), ContentKey(queue.cfg, sms, born))
        && cover in history.state.covers && cover.sms == sms
      ensures SameProcessing(old(queue.dir.State()), queue.dir.State())
      ensures Remembers(queue.cfg, old(queue.dir.State()), queue.dir.State())
    {
      born := ReadClock();
      var now := ReadClock();
      r, cover := Enqueue(sms, born, now);
    }

    method Enqueue(sms: Sms, born: Time, now: Time) returns (r: Result<Option<Item>>, ghost cover: G.Cover)
      requires Valid() && born <= now == clock.now
      modifies queue.dir, ids, history
      ensures Valid() && Onward() && Undisturbed()
      ensures r.Err? <==> !queue.ready
      ensures r.Err? ==> r.error == NotInitialized
      ensures r.Ok? ==>
        && Known(queue.cfg, queue.dir.State(), ContentKey(queue.cfg, sms, born))
        && cover in history.state.covers && cover.sms == sms
      ensures SameProcessing(old(queue.dir.State()), queue.dir.State())
      ensures Remembers(queue.cfg, old(queue.dir.State()), queue.dir.State())
    {
      ghost var d := queue.dir.State();
      ghost var s := history.state;
      cover := G.Cover(sms, born, 0, 0);
      var id := ids.Draw();
      label before:
      r := queue.Enqueue(sms, id, born, now);
      if queue.ready {
        ghost var item := NewItem(queue.cfg, sms, id, born);
        history.Reached();
        cover := EnqueueEvent(history.params, s, sms, id, born);
        EnqueueSafe(queue.cfg, d, item, now);
        EnqueueKnows(queue.cfg, d, item, now);
        EnqueueRemembers(queue.cfg, d, item, now);
        queue.DidFixesState@before(EnqueueSteps(queue.cfg, d, item, now));
        history.Step(G.Do(G.Enqueue(sms, id, born)));
      } else {
        queue.DidFixesState@before([]);
      }
      AllJustifiedLater(queue.cfg, queue.dir.origin, old(queue.dir.journal), queue.dir.journal, modem.log, modem.log,
                        tasks, starts, tasks, starts, maxAttempts, reasons);
    }

    /** The request itself; one that gets through is an event. */
    method Ask(path: M.Path, ghost why: Reason, ghost event: G.Event) returns (answer: M.Answer<()>)
      requires Sane() && Mirrored()
      requires Justified(queue.cfg, queue.dir.origin, queue.dir.journal, modem.log.readings, tasks, starts, maxAttempts,
                         M.Deletion(path, |queue.dir.journal|, |modem.log.readings|), why)
      requires G.Enabled(history.params, history.state, event) && Removes(event, path)
      modifies this`reasons, modem, modem.system, history
      ensures Sane() && Mirrored() && Onward() && Undisturbed()
      ensures modem.log == old(modem.log).(deletions := modem.log.deletions)
      ensures DeletedAtMost(old(modem.log), modem.log, path)
      ensures answer.Got? ==> modem.log != old(modem.log)
    {
      ghost var before := modem.log;
      ghost var d := M.Deletion(path, |queue.dir.journal|, |before.readings|);
      answer := modem.DeleteMessage(path);
      if modem.log != before {
        NoteDeletion(before, d, why, event);
      }
    }

    /** A deletion was asked for. */
    ghost method NoteDeletion(before: M.ModemLog, d: M.Deletion, why: Reason, event: G.Event)
      requires modem.log == before.(deletions := before.deletions + [d])
      requires AllJustified(queue.cfg, queue.dir.origin, queue.dir.journal, before, tasks, starts, maxAttempts, reasons)
      requires Justified(queue.cfg, queue.dir.origin, queue.dir.journal, before.readings, tasks, starts, maxAttempts,
                         d, why)
      requires history.Valid() && G.Enabled(history.params, history.state, event) && Removes(event, d.path)
      requires SameRemovals(history.state.removals, before.deletions)
      modifies this`reasons, history
      ensures AllJustified(queue.cfg, queue.dir.origin, queue.dir.journal, modem.log, tasks, starts, maxAttempts,
                           reasons)
      ensures old(reasons) <= reasons && history.Valid() && old(history.events) <= history.events
      ensures SameRemovals(history.state.removals, modem.log.deletions)
      ensures history.state ==
        old(history.state).(covers := history.state.covers, removals := history.state.removals)
    {
      AllJustifiedMore(queue.cfg, queue.dir.origin, queue.dir.journal, before, modem.log, tasks, starts, maxAttempts,
                       reasons, d, why);
      RemovalEvent(history.params, history.state, event, d.path, before.deletions, d);
      reasons := reasons + [why];
      history.Step(event);
    }

    /** Asks the modem to delete a message for a reason that holds now. */
    method Delete(path: M.Path, ghost why: Reason, ghost event: G.Event, failOnDeleteError: bool)
      returns (r: Option<RelayFailure>)
      requires Sane() && Mirrored()
      requires Justified(queue.cfg, queue.dir.origin, queue.dir.journal, modem.log.readings, tasks, starts, maxAttempts,
                         M.Deletion(path, |queue.dir.journal|, |modem.log.readings|), why)
      requires G.Enabled(history.params, history.state, event) && Removes(event, path)
      modifies this`deleteFailures, this`reasons, modem, modem.system, history
      ensures Sane() && Mirrored() && Onward() && Undisturbed()
      ensures modem.log == old(modem.log).(deletions := modem.log.deletions)
      ensures DeletedAtMost(old(modem.log), modem.log, path)
      ensures deleteFailures == old(deleteFailures) || deleteFailures == old(deleteFailures) + 1
      ensures r == Some(ModemFailure(M.MessageDeleteFailed)) ==> failOnDeleteError
      ensures r.None? && deleteFailures == old(deleteFailures) ==> modem.log != old(modem.log)
    {
      var answer := Ask(path, why, event);
      if answer.Got? { return None; }
      if answer.failure == M.MessageDeleteFailed {
        deleteFailures := deleteFailures + 1;
        if !failOnDeleteError { return None; }
      }
      return Some(ModemFailure(answer.failure));
    }

    /** A complete message is processed, a failure to read is passed on. */
    method ProcessRead(sms: M.Answer<Option<Sms>>, failOnDeleteError: bool, ghost reading: nat)
      returns (error: Option<RelayFailure>)
      requires Valid() && queue.ready && sms != M.Got(None)
      requires sms.Got? ==> ReadingHas(modem.log.readings, reading, sms.value.value)
      modifies this`deleteFailures, this`reasons, modem, modem.system, queue.dir, clock, ids, history
      ensures Valid() && Onward() && Undisturbed()
      ensures modem.log == old(modem.log).(deletions := modem.log.deletions)
      ensures SameProcessing(old(queue.dir.State()), queue.dir.State())
      ensures sms.Raised? ==>
        && modem.log == old(modem.log)
        && error == (if sms.failure in {M.MessageReadMissing, M.MessageReadSkipped} then None
                     else Some(ModemFailure(sms.failure)))
      ensures sms.Got? ==>
        && Stored(queue.cfg, queue.dir.State(), sms.value.value)
        && (error.None? && deleteFailures == old(deleteFailures) ==> modem.log != old(modem.log))
        && DeletedAtMost(old(modem.log), modem.log, sms.value.value.path)
    {
      if sms.Raised? {
        return if LeftAlone(sms.failure) then None else Some(ModemFailure(sms.failure));
      }
      error := ProcessSms(sms.value.value, failOnDeleteError, reading);
    }

    /* ---- one path ---- */

    /**
      The message was read once, and dealt with: without text it has a retry
      task, gone or outgoing it was left alone, complete it is stored and its
      deletion was asked for. Any other failure to read is the outcome `r`.
     */
    twostate predicate ReadAndSettled(path: M.Path, new r: Option<RelayFailure>)
      reads this, modem, queue, queue.dir
    {
      && |modem.log.readings| == |old(modem.log).readings| + 1
      && var last := modem.log.readings[|old(modem.log).readings|];
         && last.path == path
         && (if last.answer.Raised? then
               && modem.log.deletions == old(modem.log).deletions && tasks == old(tasks)
               && r == (if last.answer.failure in {M.MessageReadMissing, M.MessageReadSkipped} then None
                        else Some(ModemFailure(last.answer.failure)))
             else if last.answer.value.None? then
               r.None? && modem.log.deletions == old(modem.log).deletions && path in pendingTextRetries
             else
               && Stored(queue.cfg, queue.dir.State(), last.answer.value.value) && tasks == old(tasks)
               && DeletedAtMost(old(modem.log), modem.log, path)
               && (r.None? && deleteFailures == old(deleteFailures) ==>
                     modem.log.deletions != old(modem.log).deletions))
    }

    /** A signal for a new message, which comes only while the relay watches; whatever goes wrong is swallowed. */
    method OnNewSms(path: M.Path) returns (error: Option<RelayFailure>)
      requires Valid() && queue.ready
      modifies this, modem, modem.system, queue.dir, clock, ids, history
      ensures Valid() && Onward() && Undisturbed()
      ensures ReadAndSettled(path, error)
    {
      error := ProcessSmsPath(path, false);
    }

    /**
      Reads a message once. One that is gone or outgoing is left alone, one
      without text is handed to a retry task, a complete one is stored and its
      deletion asked for, and any other failure to read is raised.
     */
    method ProcessSmsPath(path: M.Path, failOnDeleteError: bool) returns (r: Option<RelayFailure>)
      requires Valid() && queue.ready
      modifies this, modem, modem.system, queue.dir, clock, ids, history
      ensures Valid() && Onward() && Undisturbed() && queue.ready
      ensures ReadAndSettled(path, r)
      ensures SameProcessing(old(queue.dir.State()), queue.dir.State())
    {
      var sms := Read(path);
      if sms == M.Got(None) {
        var _ := ScheduleTextRetry(path);
        return None;
      }
      assert sms.Got? ==> sms == M.Got(Some(sms.value.value));
      r := ProcessRead(sms, failOnDeleteError, |old(modem.log).readings|);
    }

    /* ---- retries ---- */

    /** Starts a retry task for a path unless one is pending. */
    method ScheduleTextRetry(path: M.Path) returns (scheduled: bool)
      requires Valid() && queue.ready
      modifies this`pendingTextRetries, this`tasks, this`starts, history
      ensures Valid() && Onward() && Undisturbed()
      ensures scheduled <==> path !in old(pendingTextRetries)
      ensures scheduled ==>
        && tasks == old(tasks) + [RetryTask(path, 0, false)]
        && starts == old(starts) + [|modem.log.readings|]
        && pendingTextRetries == old(pendingTextRetries)[path := |old(tasks)|]
      ensures !scheduled ==>
        tasks == old(tasks) && starts == old(starts) && pendingTextRetries == old(pendingTextRetries)
    {
      if path in pendingTextRetries { return false; }
      TaskStarts(pendingTextRetries, tasks, maxAttempts, path);
      TaskStartsCounted(tasks, starts, modem.log.readings, path, maxAttempts);
      history.BeginRereads(path);
      SetTasks(pendingTextRetries[path := |tasks|], tasks + [RetryTask(path, 0, false)],
               starts + [|modem.log.readings|]);
      return true;
    }

    /** A task at work means that the gateway is up. */
    lemma AtWorkMeansReady(t: nat)
      requires Sane() && Mirrored() && t < |tasks| && !tasks[t].done
      ensures queue.ready
    {
      history.Reached();
      if !history.state.up {
        DownFacts(history.params, history.state);
      }
      assert tasks[t].path in AtWork(pendingTextRetries, tasks);
    }

    /**
      One attempt of a retry task, after its pause: one read. An empty one is
      counted, and after the last the message is given up; a complete message is
      processed; anything else ends the retry and leaves the modem alone.
     */
    method RetryAttempt(t: nat) returns (error: Option<RelayFailure>)
      requires Valid() && t < |tasks| && !tasks[t].done
      modifies this, modem, modem.system, queue.dir, clock, ids, history
      ensures Valid() && Onward() && Undisturbed() && pendingTextRetries == old(pendingTextRetries)
      ensures |modem.log.readings| == |old(modem.log).readings| + 1
      ensures var last := modem.log.readings[|old(modem.log).readings|];
        var path := old(tasks[t].path);
        && last.path == path
        && tasks[t].emptyReads == old(tasks[t].emptyReads) + (if last.answer == M.Got(None) then 1 else 0)
        && (tasks[t].done <==> last.answer != M.Got(None) || tasks[t].emptyReads == maxAttempts)
        && (forall i :: 0 <= i < |tasks| && i != t ==> i < |old(tasks)| && tasks[i] == old(tasks)[i])
        && (modem.log.deletions != old(modem.log).deletions ==>
              if last.answer == M.Got(None) then tasks[t].emptyReads == maxAttempts
              else last.answer.Got? && Stored(queue.cfg, queue.dir.State(), last.answer.value.value))
        && DeletedAtMost(old(modem.log), modem.log, path)
        && (last.answer.Got? && tasks[t].done && error.None? && deleteFailures == old(deleteFailures) ==>
              modem.log.deletions != old(modem.log).deletions)
    {
      AtWorkMeansReady(t);
      var path := tasks[t].path;
      var sms := Read(path);
      if sms == M.Got(None) {
        error := AfterEmptyRead(t);
      } else {
        assert sms.Got? ==> sms == M.Got(Some(sms.value.value));
        error := AfterOtherRead(t, sms, |old(modem.log).readings|);
      }
    }

    /** The attempt found no text. */
    method AfterEmptyRead(t: nat) returns (error: Option<RelayFailure>)
      requires Valid() && t < |tasks| && !tasks[t].done && queue.ready
      requires ReadToCount(tasks, starts, modem.log.readings, t)
      modifies this`pendingTextRetries, this`tasks, this`starts, this`deleteFailures, this`reasons
      modifies modem, modem.system, history
      ensures Valid() && Onward() && Undisturbed() && pendingTextRetries == old(pendingTextRetries)
      ensures modem.log == old(modem.log).(deletions := modem.log.deletions)
      ensures var n := old(tasks[t]).emptyReads + 1;
        && tasks == old(tasks)[t := RetryTask(old(tasks[t]).path, n, n == maxAttempts)]
        && (modem.log != old(modem.log) ==> n == maxAttempts)
        && (n == maxAttempts && error.None? && deleteFailures == old(deleteFailures) ==> modem.log != old(modem.log))
      ensures DeletedAtMost(old(modem.log), modem.log, old(tasks[t]).path)
    {
      CountEmptyRead(t);
      if tasks[t].emptyReads < maxAttempts { return None; }
      error := AfterLastAttempt(t);
    }

    method AfterLastAttempt(t: nat) returns (error: Option<RelayFailure>)
      requires Sane() && Mirrored() && t < |tasks| && !tasks[t].done && queue.ready
      requires tasks[t].emptyReads == maxAttempts && OthersLeft(t)
      modifies this`pendingTextRetries, this`tasks, this`starts, this`deleteFailures, this`reasons
      modifies modem, modem.system, history
      ensures Valid() && Onward() && Undisturbed() && pendingTextRetries == old(pendingTextRetries)
      ensures modem.log == old(modem.log).(deletions := modem.log.deletions)
      ensures tasks == old(tasks)[t := old(tasks[t]).(done := true)]
      ensures DeletedAtMost(old(modem.log), modem.log, old(tasks[t]).path)
      ensures error.None? && deleteFailures == old(deleteFailures) ==> modem.log != old(modem.log)
    {
      error := GiveUp(t);
      Finish(t);
    }

    /** The attempt found the message complete, or did not find it. */
    method AfterOtherRead(t: nat, sms: M.Answer<Option<Sms>>, ghost reading: nat) returns (error: Option<RelayFailure>)
      requires Valid() && t < |tasks| && !tasks[t].done && queue.ready && sms != M.Got(None)
      requires sms.Got? ==>
        sms.value.value.path == tasks[t].path && ReadingHas(modem.log.readings, reading, sms.value.value)
      modifies this`pendingTextRetries, this`tasks, this`starts, this`deleteFailures, this`reasons
      modifies modem, modem.system, queue.dir, clock, ids, history
      ensures Valid() && Onward() && Undisturbed() && pendingTextRetries == old(pendingTextRetries)
      ensures modem.log == old(modem.log).(deletions := modem.log.deletions)
      ensures tasks == old(tasks)[t := old(tasks[t]).(done := true)]
      ensures modem.log != old(modem.log) ==> sms.Got? && Stored(queue.cfg, queue.dir.State(), sms.value.value)
      ensures sms.Got? && error.None? && deleteFailures == old(deleteFailures) ==> modem.log != old(modem.log)
      ensures DeletedAtMost(old(modem.log), modem.log, old(tasks[t]).path)
    {
      error := ProcessRead(sms, false, reading);
      Finish(t);
    }

    /** Only this task may have no attempts left. */
    ghost predicate OthersLeft(t: nat)
      reads this
    {
      forall i :: 0 <= i < |tasks| && i != t && !tasks[i].done ==> tasks[i].emptyReads < maxAttempts
    }

    /** The attempt read an empty text. */
    method CountEmptyRead(t: nat)
      requires Valid() && t < |tasks| && !tasks[t].done && queue.ready
      requires ReadToCount(tasks, starts, modem.log.readings, t)
      modifies this`pendingTextRetries, this`tasks, this`starts, history
      ensures Sane() && Mirrored() && Onward() && Undisturbed() && OthersLeft(t)
      ensures pendingTextRetries == old(pendingTextRetries)
      ensures tasks == old(tasks)[t := old(tasks[t]).(emptyReads := old(tasks[t]).emptyReads + 1)]
    {
      var after := tasks[t := tasks[t].(emptyReads := tasks[t].emptyReads + 1)];
      TaskStaysCounted(pendingTextRetries, tasks, starts, modem.log.readings, t, maxAttempts);
      Recount(t, after);
      SetTasks(pendingTextRetries, after, starts);
    }

    ghost method Recount(t: nat, after: seq<RetryTask>)
      requires Mirrored() && RetriesOk(pendingTextRetries, tasks, maxAttempts) && queue.ready
      requires t < |tasks| && !tasks[t].done && tasks[t].emptyReads < maxAttempts
      requires after == tasks[t := tasks[t].(emptyReads := tasks[t].emptyReads + 1)]
      modifies history
      ensures MirroredWith(pendingTextRetries, after) && old(history.events) <= history.events
      ensures history.state.worker == old(history.state.worker)
    {
      TaskCounts(pendingTextRetries, tasks, maxAttempts, t);
      history.CountReread(tasks[t].path);
    }

    /** The entries and tasks as they are from here on; the state machine has them already. */
    method SetTasks(entries: map<M.Path, nat>, after: seq<RetryTask>, ghost since: seq<nat>)
      requires Sane() && MirroredWith(entries, after) && Progressed(tasks, after) && starts <= since
      requires RetriesOk(entries, after, maxAttempts) && ReadsCounted(after, since, modem.log.readings)
      modifies this`pendingTextRetries, this`tasks, this`starts
      ensures Sane() && Mirrored() && pendingTextRetries == entries && tasks == after && starts == since
    {
      AllJustifiedLater(queue.cfg, queue.dir.origin, queue.dir.journal, queue.dir.journal, modem.log, modem.log,
                        tasks, starts, after, since, maxAttempts, reasons);
      pendingTextRetries := entries;
      tasks := after;
      starts := since;
    }

    /** All attempts were in vain: the message is deleted unread. */
    method GiveUp(t: nat) returns (error: Option<RelayFailure>)
      requires Sane() && Mirrored() && t < |tasks| && !tasks[t].done && queue.ready
      requires tasks[t].emptyReads == maxAttempts && OthersLeft(t)
      modifies this`deleteFailures, this`reasons, modem, modem.system, history
      ensures Sane() && Mirrored() && Onward() && Undisturbed() && OthersLeft(t)
      ensures modem.log == old(modem.log).(deletions := modem.log.deletions)
      ensures DeletedAtMost(old(modem.log), modem.log, tasks[t].path)
      ensures error.None? && deleteFailures == old(deleteFailures) ==> modem.log != old(modem.log)
    {
      GivenUpJustNow(queue.cfg, queue.dir.origin, queue.dir.journal, modem.log.readings, tasks, starts, maxAttempts, t);
      assert tasks[t].path in AtWork(pendingTextRetries, tasks);
      error := Delete(tasks[t].path, GivenUp(t), G.GiveUp(tasks[t].path), false);
    }

    /** The retry is over. */
    method Finish(t: nat)
      requires Sane() && Mirrored() && OthersLeft(t) && t < |tasks| && !tasks[t].done && queue.ready
      modifies this`pendingTextRetries, this`tasks, this`starts, history
      ensures Valid() && Onward() && Undisturbed() && pendingTextRetries == old(pendingTextRetries)
      ensures tasks == old(tasks)[t := old(tasks[t]).(done := true)]
    {
      TaskEnds(pendingTextRetries, tasks, maxAttempts, t);
      history.EndRereads(tasks[t].path);
      SetTasks(pendingTextRetries, tasks[t := tasks[t].(done := true)], starts);
    }

    /** A finished task gives up its entry, but only its own. */
    method HandleTextRetryDone(path: M.Path, t: nat)
      requires Valid() && t < |tasks| && tasks[t].done && tasks[t].path == path
      modifies this`pendingTextRetries
      ensures Valid()
      ensures pendingTextRetries == if path in old(pendingTextRetries) && old(pendingTextRetries)[path] == t
                                    then old(pendingTextRetries) - {path} else old(pendingTextRetries)
    {
      if path in pendingTextRetries && pendingTextRetries[path] == t {
        assert AtWork(pendingTextRetries - {path}, tasks) == AtWork(pendingTextRetries, tasks);
        pendingTextRetries := pendingTextRetries - {path};
      }
    }

    /* ---- lifecycle ---- */

    method CancelPendingTextRetries()
      requires Sane()
      modifies this`pendingTextRetries, this`tasks
      ensures Sane() && Progressed(old(tasks), tasks)
      ensures pendingTextRetries == map[] && AtWork(pendingTextRetries, tasks) == map[]
      ensures forall i :: 0 <= i < |tasks| ==> tasks[i].done
    {
      var before := tasks;
      tasks := seq(|before|, i requires 0 <= i < |before| => before[i].(done := true));
      pendingTextRetries := map[];
      AllJustifiedLater(queue.cfg, queue.dir.origin, queue.dir.journal, queue.dir.journal, modem.log, modem.log,
                        before, starts, tasks, starts, maxAttempts, reasons);
    }

    /** No task is left at work, and the bus was let go of if it had been connected. */
    ghost predicate Released(connected: bool)
      reads this, modem
    {
      && pendingTextRetries == map[] && (forall i :: 0 <= i < |tasks| ==> tasks[i].done)
      && (connected ==> modem.bus.NoBus?)
    }

    /** Cancels the tasks, then gives back what was obtained; for the state machine this is the end of the process. */
    method Release(connected: bool, initialized: bool)
      requires Valid() && !status.Stopped? && (!initialized ==> !queue.ready)
      modifies this, modem, modem.system, queue, queue.store, history
      ensures Valid() && Onward() && status == Stopped && !queue.ready
      ensures Released(connected)
    {
      if initialized {
        ReleaseOpen(connected);
      } else {
        ReleaseEarly(connected);
      }
    }

    method ReleaseOpen(connected: bool)
      requires Valid() && !status.Stopped?
      modifies this, modem, modem.system, queue, queue.store, history
      ensures Valid() && Onward() && status == Stopped && !queue.ready && Released(connected)
    {
      CancelPendingTextRetries();
      LetGo(connected);
      Shut();
      status := Stopped;
    }

    /** The queue has not been opened, so that nothing was at work. */
    method ReleaseEarly(connected: bool)
      requires Valid() && !queue.ready
      modifies this, modem, modem.system
      ensures Valid() && Onward() && status == Stopped && !queue.ready && Released(connected)
    {
      history.Reached();
      DownFacts(history.params, history.state);
      CancelPendingTextRetries();
      LetGo(connected);
      status := Stopped;
    }

    method LetGo(connected: bool)
      requires Sane()
      modifies modem, modem.system
      ensures Sane() && modem.log == old(modem.log) && (connected ==> modem.bus.NoBus?)
    {
      if connected { modem.Disconnect(); }
    }

    /** Closes the queue, which ends the process as far as the disk is concerned. */
    method Shut()
      requires Sane() && history.Valid()
      modifies queue, queue.store, history
      ensures Sane() && history.Valid() && !queue.ready && old(history.events) <= history.events
      ensures history.state == G.Stopped(old(history.state))
    {
      queue.Close();
      history.End();
    }

    method Stop()
      requires Valid()
      modifies this, modem, modem.system, queue, queue.store, history
      ensures Valid() && Onward()
      ensures !old(status).Stopping? ==> status == Stopped && !queue.ready
      ensures !old(status).Stopping? && !old(status).Stopped? ==>
        modem.bus.NoBus? && pendingTextRetries == map[] && forall i :: 0 <= i < |tasks| ==> tasks[i].done
    {
      if status.Stopped? || status.Stopping? { return; }
      status := Stopping;
      Release(true, true);
    }

    method OpenQueue(now: Time)
      requires queue.Valid() && !queue.ready && history.Valid() && !history.state.up
      requires history.state.disk == queue.dir.State() && history.state.clock == now
      modifies queue, queue.store, queue.dir, history
      ensures queue.Valid() && queue.ready && old(queue.dir.journal) <= queue.dir.journal
      ensures history.Valid() && old(history.events) <= history.events
      ensures history.state == old(history.state).(disk := queue.dir.State(), window := queue.cfg.window, up := true,
                                                   boots := old(history.state).boots + 1)
      ensures history.state.worker.Idle? && ProcessingWithin(queue.dir.State(), {})
    {
      ghost var d := queue.dir.State();
      queue.Initialize(now);
      queue.DidFixesState(InitializeSteps(d, now));
      ghost var e := queue.dir.State();
      label between:
      var _ := queue.RecoverProcessing();
      queue.DidFixesState@between(RecoverSteps(e));
      RunStepsConcat(d, InitializeSteps(d, now), RecoverSteps(e));
      history.Begin(queue.cfg.window);
    }

    /** Initialize, then recover: for the state machine this is a startup, which leaves nothing in `processing`. */
    method RestoreQueue()
      requires Valid() && !queue.ready && !status.Stopped?
      modifies queue, queue.store, queue.dir, clock, history
      ensures Valid() && Onward() && queue.ready && status == old(status)
      ensures modem.log == old(modem.log) && history.state.worker.Idle?
      ensures ProcessingWithin(queue.dir.State(), {})
    {
      var now := ReadClock();
      OpenQueue(now);
      AllJustifiedLater(queue.cfg, queue.dir.origin, old(queue.dir.journal), queue.dir.journal, modem.log, modem.log,
                        tasks, starts, tasks, starts, maxAttempts, reasons);
    }

    /**
      Connects, repairs the disk, watches for messages, and drains what is
      already there. It succeeds with nothing in `processing`, the watch
      confirmed, and every message the modem listed either stored, handed to a
      retry task, gone or outgoing. A failure at any point undoes the start.
     */
    method Start() returns (r: Option<RelayFailure>)
      requires Valid()
      modifies this, modem, modem.system, queue, queue.store, queue.dir, clock, ids, history
      ensures Valid() && Onward()
      ensures !old(status).Stopped? ==> r == Some(AlreadyStarted) && status == old(status)
      ensures old(status).Stopped? && r.None? ==>
        && status == Running && queue.ready && ON_NEW_SMS in modem.confirmed && history.state.worker.Idle?
        && ProcessingWithin(queue.dir.State(), {})
        && Drained(queue.cfg, queue.dir.State(), old(modem.log), modem.log, pendingTextRetries)
      ensures old(status).Stopped? && r.Some? ==> status == Stopped
    {
      if !status.Stopped? { return Some(AlreadyStarted); }
      status := Starting;
      var connected := modem.Connect();
      if connected.Raised? {
        Release(false, false);
        return Some(ModemFailure(connected.failure));
      }
      r := StartConnected();
    }

    method StartConnected() returns (r: Option<RelayFailure>)
      requires Valid() && !queue.ready && status.Starting?
      modifies this, modem, modem.system, queue, queue.store, queue.dir, clock, ids, history
      ensures Valid() && Onward()
      ensures r.None? ==>
        && status == Running && queue.ready && ON_NEW_SMS in modem.confirmed && history.state.worker.Idle?
        && ProcessingWithin(queue.dir.State(), {})
        && Drained(queue.cfg, queue.dir.State(), old(modem.log), modem.log, pendingTextRetries)
      ensures r.Some? ==> status == Stopped
    {
      r := RestoreAndDrain();
      if r.Some? {
        Release(true, true);
      } else {
        status := Running;
      }
    }

    method RestoreAndDrain() returns (r: Option<RelayFailure>)
      requires Valid() && !queue.ready && !status.Stopped?
      modifies this, modem, modem.system, queue, queue.store, queue.dir, clock, ids, history
      ensures Valid() && Onward() && queue.ready && status == old(status)
      ensures r.None? ==>
        && ON_NEW_SMS in modem.confirmed && history.state.worker.Idle?
        && ProcessingWithin(queue.dir.State(), {})
        && Drained(queue.cfg, queue.dir.State(), old(modem.log), modem.log, pendingTextRetries)
    {
      RestoreQueue();
      ghost var d := queue.dir.State();
      r := WatchAndDrain();
      StillNothingInProcessing(d, queue.dir.State());
    }

    /** Subscribes to new messages before draining the old ones, so that none falls in between. */
    method WatchAndDrain() returns (r: Option<RelayFailure>)
      requires Valid() && queue.ready && !status.Stopped?
      modifies this, modem, modem.system, queue.dir, clock, ids, history
      ensures Valid() && Onward() && queue.ready && status == old(status)
      ensures history.state.worker == old(history.state.worker)
      ensures SameProcessing(old(queue.dir.State()), queue.dir.State())
      ensures r.None? ==>
        && ON_NEW_SMS in modem.confirmed
        && Drained(queue.cfg, queue.dir.State(), old(modem.log), modem.log, pendingTextRetries)
    {
      var watched := modem.WatchAdded(ON_NEW_SMS);
      if watched.Raised? { return Some(ModemFailure(watched.failure)); }
      r := DrainExistingMessages();
    }

    /**
      Lists the messages the modem holds and reads each of them once, then
      processes the complete ones; a failed deletion is raised.
     */
    method DrainExistingMessages() returns (r: Option<RelayFailure>)
      requires Valid() && queue.ready
      modifies this, modem, modem.system, queue.dir, clock, ids, history
      ensures Valid() && Onward() && Undisturbed() && queue.ready
      ensures SameProcessing(old(queue.dir.State()), queue.dir.State())
      ensures r.None? ==> Drained(queue.cfg, queue.dir.State(), old(modem.log), modem.log, pendingTextRetries)
    {
      var messages: seq<Sms>;
      ghost var places: seq<nat>;
      r, messages, places := ReadExistingMessages();
      if r.Some? { return; }
      r := ProcessAll(messages, places);
      assert r.None? ==> ReadThrough(old(modem.log), modem.log, pendingTextRetries, messages);
    }

    /** Processes messages one after the other, until a failure. */
    method ProcessAll(messages: seq<Sms>, ghost places: seq<nat>) returns (r: Option<RelayFailure>)
      requires Valid() && queue.ready && Placed(modem.log.readings, places, messages)
      modifies this`deleteFailures, this`reasons, modem, modem.system, queue.dir, clock, ids, history
      ensures Valid() && Onward() && Undisturbed() && queue.ready
      ensures modem.log == old(modem.log).(deletions := modem.log.deletions)
      ensures SameProcessing(old(queue.dir.State()), queue.dir.State())
      ensures r.None? ==> forall m :: m in messages ==> Stored(queue.cfg, queue.dir.State(), m)
    {
      for i := 0 to |messages|
        invariant Valid() && Onward() && Undisturbed()
        invariant modem.log == old(modem.log).(deletions := modem.log.deletions)
        invariant SameProcessing(old(queue.dir.State()), queue.dir.State())
        invariant forall m :: m in messages[..i] ==> Stored(queue.cfg, queue.dir.State(), m)
      {
        r := ProcessNext(messages, places, i);
        if r.Some? { return; }
      }
      assert messages[..|messages|] == messages;
      return None;
    }

    method ProcessNext(messages: seq<Sms>, ghost places: seq<nat>, i: nat) returns (r: Option<RelayFailure>)
      requires Valid() && queue.ready && Placed(modem.log.readings, places, messages) && i < |messages|
      requires forall m :: m in messages[..i] ==> Stored(queue.cfg, queue.dir.State(), m)
      modifies this`deleteFailures, this`reasons, modem, modem.system, queue.dir, clock, ids, history
      ensures Valid() && Onward() && Undisturbed()
      ensures modem.log == old(modem.log).(deletions := modem.log.deletions)
      ensures SameProcessing(old(queue.dir.State()), queue.dir.State())
      ensures forall m :: m in messages[..i + 1] ==> Stored(queue.cfg, queue.dir.State(), m)
    {
      ghost var d := queue.dir.State();
      r := ProcessSms(messages[i], true, places[i]);
      StoredStays(queue.cfg, d, queue.dir.State(), messages[..i]);
      assert messages[..i + 1] == messages[..i] + [messages[i]];
    }

    /** Reads one message and notes what to do with it; the ones before stay noted. */
    method ReadNext(path: M.Path, messages: seq<Sms>, ghost places: seq<nat>)
      returns (r: Option<RelayFailure>, more: seq<Sms>, ghost at: seq<nat>)
      requires Valid() && queue.ready && Placed(modem.log.readings, places, messages)
      modifies this`pendingTextRetries, this`tasks, this`starts, modem`log, modem.system, history
      ensures Valid() && Onward() && Undisturbed()
      ensures |modem.log.readings| == |old(modem.log).readings| + 1
      ensures modem.log == old(modem.log).(readings := modem.log.readings)
      ensures old(pendingTextRetries.Keys) <= pendingTextRetries.Keys && messages <= more
      ensures Placed(modem.log.readings, at, more)
      ensures r.None? ==> Noted(modem.log.readings[|old(modem.log).readings|], path, pendingTextRetries, more)
    {
      r, more, at := None, messages, places;
      var sms := Read(path);
      if sms.Raised? {
        if !LeftAlone(sms.failure) { r := Some(ModemFailure(sms.failure)); }
      } else if sms.value.None? {
        var _ := ScheduleTextRetry(path);
      } else {
        more := messages + [sms.value.value];
        at := places + [|old(modem.log).readings|];
      }
    }

    /** Reads every listed message once; `places` numbers the readings of the complete ones. */
    method ReadExistingMessages() returns (r: Option<RelayFailure>, messages: seq<Sms>, ghost places: seq<nat>)
      requires Valid() && queue.ready
      modifies this`pendingTextRetries, this`tasks, this`starts, modem, modem.system, history
      ensures Valid() && Onward() && Undisturbed()
      ensures modem.log.deletions == old(modem.log).deletions
      ensures Placed(modem.log.readings, places, messages)
      ensures r.None? ==> ReadThrough(old(modem.log), modem.log, pendingTextRetries, messages)
    {
      var paths := modem.ListSmsPaths();
      if paths.Raised? { return Some(ModemFailure(paths.failure)), [], []; }
      r, messages, places := ReadEach(paths.value);
    }

    /** Reads path number `i`, when the ones before are noted. */
    method ReadAndNote(paths: seq<M.Path>, i: nat, ghost start: nat, messages: seq<Sms>, ghost places: seq<nat>)
      returns (r: Option<RelayFailure>, more: seq<Sms>, ghost at: seq<nat>)
      requires Valid() && queue.ready && Placed(modem.log.readings, places, messages) && i < |paths|
      requires NotedSoFar(modem.log.readings, start, paths, i, pendingTextRetries, messages)
      modifies this`pendingTextRetries, this`tasks, this`starts, modem`log, modem.system, history
      ensures Valid() && Onward() && Undisturbed()
      ensures modem.log == old(modem.log).(readings := modem.log.readings)
      ensures Placed(modem.log.readings, at, more)
      ensures r.None? ==> NotedSoFar(modem.log.readings, start, paths, i + 1, pendingTextRetries, more)
    {
      r, more, at := ReadNext(paths[i], messages, places);
      if r.None? {
        OneMoreNoted(old(modem.log).readings, modem.log.readings, start, paths, i,
                     old(pendingTextRetries), pendingTextRetries, messages, more);
      }
    }

    method ReadEach(paths: seq<M.Path>) returns (r: Option<RelayFailure>, messages: seq<Sms>, ghost places: seq<nat>)
      requires Valid() && queue.ready
      modifies this`pendingTextRetries, this`tasks, this`starts, modem`log, modem.system, history
      ensures Valid() && Onward() && Undisturbed()
      ensures modem.log == old(modem.log).(readings := modem.log.readings)
      ensures Placed(modem.log.readings, places, messages)
      ensures r.None? ==> NotedSoFar(modem.log.readings, |old(modem.log).readings|, paths, |paths|,
                                     pendingTextRetries, messages)
    {
      r, messages, places := None, [], [];
      ghost var start := |modem.log.readings|;
      var i := 0;
      while i < |paths| && r.None?
        invariant 0 <= i <= |paths|
        invariant Valid() && Onward() && Undisturbed()
        invariant modem.log == old(modem.log).(readings := modem.log.readings)
        invariant r.None? ==> NotedSoFar(modem.log.readings, start, paths, i, pendingTextRetries, messages)
        invariant Placed(modem.log.readings, places, messages)
      {
        r, messages, places := ReadAndNote(paths, i, start, messages, places);
        i := i + 1;
      }
    }
  }

  /** Failures to read that are no reason for concern: the message is gone, or outgoing. */
  predicate LeftAlone(f: M.Failure) {
    f == M.MessageReadMissing || f == M.MessageReadSkipped
  }

  /** A reading of this path, and what became of the message. */
  ghost predicate Noted(reading: M.Reading, path: M.Path, pending: map<M.Path, nat>, messages: seq<Sms>) {
    && reading.path == path
    && match reading.answer
       case Raised(failure) => failure == M.MessageReadMissing || failure == M.MessageReadSkipped
       case Got(sms) => if sms.None? then path in pending else sms.value in messages
  }

  /** The readings from `start` on are those of the first `n` paths, all of them noted. */
  ghost predicate NotedSoFar(readings: seq<M.Reading>, start: nat, paths: seq<M.Path>, n: nat,
                             pending: map<M.Path, nat>, messages: seq<Sms>)
  {
    && n <= |paths| && |readings| == start + n
    && forall k :: 0 <= k < n ==> Noted(readings[start + k], paths[k], pending, messages)
  }

  lemma OneMoreNoted(readings: seq<M.Reading>, more: seq<M.Reading>, start: nat, paths: seq<M.Path>, n: nat,
                     before: map<M.Path, nat>, after: map<M.Path, nat>, found: seq<Sms>, messages: seq<Sms>)
    requires NotedSoFar(readings, start, paths, n, before, found) && n < |paths|
    requires readings <= more && |more| == |readings| + 1 && before.Keys <= after.Keys && found <= messages
    requires Noted(more[start + n], paths[n], after, messages)
    ensures NotedSoFar(more, start, paths, n + 1, after, messages)
  {
    forall k | 0 <= k < n ensures Noted(more[start + k], paths[k], after, messages) {
      assert more[start + k] == readings[start + k];
    }
  }

  /** The messages were listed once, and every listed one read once since, in order. */
  ghost predicate ReadThrough(before: M.ModemLog, after: M.ModemLog, pending: map<M.Path, nat>, messages: seq<Sms>) {
    && |after.inboxes| == |before.inboxes| + 1
    && var paths := after.inboxes[|before.inboxes|];
       && |after.readings| == |before.readings| + |paths|
       && forall k :: 0 <= k < |paths| ==> Noted(after.readings[|before.readings| + k], paths[k], pending, messages)
  }

  /** Every listed message is stored, pending a retry, gone or outgoing. */
  ghost predicate Drained(cfg: Config, d: Disk, before: M.ModemLog, after: M.ModemLog, pending: map<M.Path, nat>) {
    exists messages :: ReadThrough(before, after, pending, messages) && forall m :: m in messages ==> Stored(cfg, d, m)
  }

  /** The event removes the message at this path. */
  predicate Removes(e: G.Event, path: M.Path) {
    (e.DeleteSms? && e.cover.sms.path == path) || e == G.GiveUp(path)
  }

  lemma RemovalEvent(p: G.Params, s: G.Sys, e: G.Event, path: M.Path, before: seq<M.Deletion>, d: M.Deletion)
    requires G.Enabled(p, s, e) && Removes(e, path) && SameRemovals(s.removals, before) && d.path == path
    ensures var t := G.Next(p, s, e);
      t == s.(covers := t.covers, removals := t.removals) && SameRemovals(t.removals, before + [d])
  {
  }

  ghost predicate DeletedAtMost(before: M.ModemLog, after: M.ModemLog, path: M.Path) {
    || after.deletions == before.deletions
    || exists d: M.Deletion :: d.path == path && after.deletions == before.deletions + [d]
  }
}
