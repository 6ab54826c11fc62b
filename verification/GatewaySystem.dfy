/**
  The whole gateway as a state machine: startup, the relay's enqueues and modem
  deletions, the delivery worker, the cleanup scheduler, the passing of time,
  files that rot, and a crash at any durable step of anything.
 */
module GatewaySystem {
  import opened Prelude
  import opened Durable
  import opened QueueSpec
  import opened CrashSafety
  import opened OperationSafety
  import opened Retention
  import opened Bookkeeping

  /** The content digest, the worker's retry schedule, and how often a message without text is read again. */
  datatype Params = Params(digest: (string, string, Time, nat) -> Key, schedule: seq<Time>, maxAttempts: nat)

  /** How a delivery attempt that did not succeed ended. */
  datatype Verdict = Rejected | Unexpected | Recoverable(retryAfter: Option<Time>)

  /** Where the worker is between two queue operations. */
  datatype Worker =
    | Idle
    | Claimed(item: Item)
    | Delivered(item: Item)
    | Refused(item: Item, verdict: Verdict, since: Time)
    | Deferred(item: Item)

  /** A message handed to enqueue at time `born` under `window`, and the accepted item that stands for it. */
  datatype Cover = Cover(sms: Sms, born: Time, window: nat, owner: Id)

  /**
    A message removed from the modem: enqueued before, or given up when `seen`
    empty reads had been made, of which `begun` before the retries of this path.
   */
  datatype Removal = Covered(cover: Cover) | GivenUp(path: string, begun: nat, seen: nat)

  /** An attempt to deliver, and the time before which it was not to happen. */
  datatype Attempt = Attempt(id: Id, at: Time, due: Option<Time>)

  datatype Sys = Sys(
    disk: Disk,
    clock: Time,
    window: nat,
    up: bool,
    worker: Worker,
    covers: set<Cover>,           // enqueued, not yet deleted from the modem
    rereads: map<string, nat>,    // messages without text, and how often they were read again
    begun: map<string, nat>,      // how many empty reads there had been when their retries began
    ledger: Ledger,
    boots: nat,
    emptyReads: seq<string>,      // every repeated read that found no text
    removals: seq<Removal>,       // every message deleted from the modem
    attempts: seq<Attempt>)

  datatype Op =
    | Enqueue(sms: Sms, id: Id, born: Time)
    | Claim(skip: set<Id>)
    | MarkSent
    | MarkFailed
    | MoveBack
    | UpdateAttempt(at: Time)
    | Requeue(cutoff: Time)
    | Cleanup(dir: Dir, expiry: Time, age: Time, purge: Time)

  datatype Event =
    | Tick(dt: nat)
    | Boot(newWindow: nat)
    | BootCrash(k: nat)
    | Crash
    | Do(op: Op)
    | Die(op: Op, k: nat)
    | Deliver
    | Refuse(verdict: Verdict)
    | DeleteSms(cover: Cover)
    | BeginRereads(path: string)
    | EmptyReread(path: string)
    | EndRereads(path: string)
    | GiveUp(path: string)
    | Rot(slot: Slot, file: File)

  function Cfg(p: Params, s: Sys): Config {
    Config(p.digest, s.window)
  }

  function Initial(clock: Time, window: nat): Sys {
    Sys(EMPTY_DISK, clock, window, false, Idle, {}, map[], map[],
        Ledger(map[], {}, map[], map[], map[], {}, {}), 0, [], [], [])
  }

  predicate Due(item: Item, now: Time) {
    item.nextRetry.None? || now >= item.nextRetry.value
  }

  /** The verdict ends the item's life in `failed` rather than scheduling a retry. */
  predicate Final(p: Params, w: Worker) {
    w.Refused? && (w.verdict.Recoverable? ==> w.item.attempts >= |p.schedule|)
  }

  /** The longer of the scheduled delay and the one Telegram asked for. */
  function Delay(p: Params, item: Item, retryAfter: Option<Time>): Time
    requires item.attempts < |p.schedule|
  {
    var scheduled := p.schedule[item.attempts];
    if retryAfter.Some? && retryAfter.value > scheduled then retryAfter.value else scheduled
  }

  /** A cleanup is taken not to run while a row of one of its files expires. */
  ghost predicate OpEnabled(p: Params, s: Sys, op: Op) {
    s.up &&
    match op
    case Enqueue(_, id, born) => id !in s.ledger.accepted && born <= s.clock
    case Claim(_) => s.worker.Idle?
    case MarkSent => s.worker.Delivered?
    case MarkFailed => Final(p, s.worker)
    case MoveBack => s.worker.Deferred? || (s.worker.Claimed? && !Due(s.worker.item, s.clock))
    case UpdateAttempt(at) =>
      && s.worker.Refused? && s.worker.verdict.Recoverable? && s.worker.item.attempts < |p.schedule|
      && s.worker.since <= at <= s.clock
    case Requeue(_) => true
    case Cleanup(dir, expiry, _, purge) =>
      (dir == Sent || dir == Failed) && expiry <= purge && Unstraddled(s.disk, dir, expiry, purge)
  }

  ghost function OpSteps(p: Params, s: Sys, op: Op): seq<Micro>
    requires OpEnabled(p, s, op)
  {
    match op
    case Enqueue(sms, id, born) => EnqueueSteps(Cfg(p, s), s.disk, NewItem(Cfg(p, s), sms, id, born), s.clock)
    case Claim(skip) => ClaimSteps(s.disk, skip, s.clock)
    case MarkSent => MarkSentSteps(s.disk, s.worker.item, s.clock)
    case MarkFailed => MarkFailedSteps(s.disk, s.worker.item, !s.worker.verdict.Unexpected?, s.clock)
    case MoveBack => MoveBackSteps(s.disk, s.worker.item)
    case UpdateAttempt(at) => UpdateAttemptSteps(s.disk, s.worker.item, NextRetry(p, s, at), s.clock)
    case Requeue(cutoff) => RequeueFrom(s.disk, Listing(s.disk, Failed), cutoff, s.clock)
    case Cleanup(dir, expiry, age, purge) => CleanupStepsAt(s.disk, dir, expiry, age, purge)
  }

  ghost function NextRetry(p: Params, s: Sys, at: Time): Time
    requires OpEnabled(p, s, UpdateAttempt(at))
  {
    at + Delay(p, s.worker.item, s.worker.verdict.retryAfter)
  }

  /** What the ledger learns from the first `k` steps of an operation. */
  ghost function LedgerAfter(p: Params, s: Sys, op: Op, k: nat): Ledger
    requires OpEnabled(p, s, op) && k <= |OpSteps(p, s, op)|
  {
    var l := Notes(s.ledger, OpSteps(p, s, op)[..k]);
    match op
    case Enqueue(sms, id, born) =>
      var item := NewItem(Cfg(p, s), sms, id, born);
      if EnqueueAccepts(Cfg(p, s), s.disk, item.key) && k >= 1 then Accept(l, item) else l
    case MarkSent =>
      if k >= 1 then l.(finished := l.finished + {s.worker.item.id}) else l
    case MarkFailed =>
      if k >= 2 && !s.worker.verdict.Unexpected? then l.(condemned := l.condemned + {s.worker.item.id}) else l
    case UpdateAttempt(at) =>
      if k >= 1 then Reschedule(l, s.worker.item.id, NextRetry(p, s, at)) else l
    case _ => l
  }

  /** The accepted item that an enqueued message is, or is a duplicate of. */
  ghost function CoveredBy(p: Params, s: Sys, item: Item): Id {
    if item.key in s.disk.rows then s.disk.rows[item.key].itemId
    else match PendingDuplicate(Cfg(p, s), s.disk, item.key)
      case Some(dup) => dup.id
      case None => item.id
  }

  ghost function WorkerAfter(p: Params, s: Sys, op: Op): Worker
    requires OpEnabled(p, s, op)
  {
    match op
    case Claim(skip) =>
      (match ClaimResult(s.disk, skip)
       case Some(item) => Claimed(item)
       case None => Idle)
    case MarkSent => Idle
    case MarkFailed => Idle
    case MoveBack => Idle
    case UpdateAttempt(at) => Deferred(Attempted(s.worker.item, NextRetry(p, s, at), s.clock))
    case _ => s.worker
  }

  ghost function CoversAfter(p: Params, s: Sys, op: Op): set<Cover> {
    if op.Enqueue? then
      s.covers + {Cover(op.sms, op.born, s.window, CoveredBy(p, s, NewItem(Cfg(p, s), op.sms, op.id, op.born)))}
    else
      s.covers
  }

  ghost function Completed(p: Params, s: Sys, op: Op): Sys
    requires OpEnabled(p, s, op)
  {
    var ms := OpSteps(p, s, op);
    s.(disk := RunSteps(s.disk, ms), ledger := LedgerAfter(p, s, op, |ms|),
       worker := WorkerAfter(p, s, op), covers := CoversAfter(p, s, op))
  }

  /** The process is gone: only the disk and the past remain. */
  function Stopped(s: Sys): Sys {
    s.(up := false, worker := Idle, covers := {}, rereads := map[], begun := map[])
  }

  ghost predicate Enabled(p: Params, s: Sys, e: Event) {
    match e
    case Tick(_) => true
    case Boot(_) => !s.up
    case BootCrash(_) => !s.up
    case Crash => true
    case Do(op) => OpEnabled(p, s, op)
    case Die(op, _) => OpEnabled(p, s, op)
    case Deliver => s.up && s.worker.Claimed? && Due(s.worker.item, s.clock)
    case Refuse(_) => s.up && s.worker.Claimed? && Due(s.worker.item, s.clock)
    case DeleteSms(cover) => s.up && cover in s.covers
    case BeginRereads(path) => s.up && path !in s.rereads
    case EmptyReread(path) => s.up && path in s.rereads && s.rereads[path] < p.maxAttempts
    case EndRereads(path) => s.up && path in s.rereads
    case GiveUp(path) => s.up && path in s.rereads && s.rereads[path] == p.maxAttempts
    case Rot(slot, file) => slot in s.disk.files && !Valid(slot.id, file)
  }

  function BegunAt(s: Sys, path: string): nat {
    if path in s.begun then s.begun[path] else 0
  }

  function Min(a: nat, b: nat): nat {
    if a <= b then a else b
  }

  ghost function Next(p: Params, s: Sys, e: Event): Sys
    requires Enabled(p, s, e)
  {
    match e
    case Tick(dt) => s.(clock := s.clock + dt)
    case Boot(newWindow) =>
      s.(disk := RunSteps(s.disk, BootSteps(s.disk, s.clock)), window := newWindow, up := true, boots := s.boots + 1)
    case BootCrash(k) =>
      var ms := BootSteps(s.disk, s.clock);
      s.(disk := RunSteps(s.disk, ms[..Min(k, |ms|)]))
    case Crash => Stopped(s)
    case Do(op) => Completed(p, s, op)
    case Die(op, k) =>
      var ms := OpSteps(p, s, op);
      var n := Min(k, |ms|);
      Stopped(s.(disk := RunSteps(s.disk, ms[..n]), ledger := LedgerAfter(p, s, op, n)))
    case Deliver =>
      var id := s.worker.item.id;
      s.(worker := Delivered(s.worker.item),
         ledger := s.ledger.(sends := s.ledger.sends[id := Count(s.ledger.sends, id) + 1]),
         attempts := s.attempts + [Attempt(id, s.clock, DueOf(s.ledger, id))])
    case Refuse(verdict) =>
      var id := s.worker.item.id;
      s.(worker := Refused(s.worker.item, verdict, s.clock),
         attempts := s.attempts + [Attempt(id, s.clock, DueOf(s.ledger, id))])
    case DeleteSms(cover) =>
      s.(covers := s.covers - {cover}, removals := s.removals + [Covered(cover)])
    case BeginRereads(path) => s.(rereads := s.rereads[path := 0], begun := s.begun[path := |s.emptyReads|])
    case EmptyReread(path) =>
      s.(rereads := s.rereads[path := s.rereads[path] + 1], emptyReads := s.emptyReads + [path])
    case EndRereads(path) => s.(rereads := s.rereads - {path}, begun := s.begun - {path})
    case GiveUp(path) => s.(removals := s.removals + [GivenUp(path, BegunAt(s, path), |s.emptyReads|)])
    case Rot(slot, file) =>
      s.(disk := s.disk.(files := s.disk.files[slot := file]))
  }

  /** The events of `es` lead from `s` to `t`. */
  ghost predicate Run(p: Params, s: Sys, es: seq<Event>, t: Sys)
    decreases |es|
  {
    if es == [] then s == t else Enabled(p, s, es[0]) && Run(p, Next(p, s, es[0]), es[1..], t)
  }

  /** Some run from an empty state directory leads to `s`. */
  ghost predicate Reachable(p: Params, s: Sys) {
    exists clock, window, es :: Run(p, Initial(clock, window), es, s)
  }

  /* ---- The invariant ---- */

  /** The owner was accepted, and under the window in force at the enqueue it answers to the message's key. */
  ghost predicate CoverOk(p: Params, l: Ledger, c: Cover) {
    var cfg := Config(p.digest, c.window);
    c.owner in l.accepted && AnswersTo(cfg, l.accepted[c.owner], ContentKey(cfg, c.sms, c.born))
  }

  /** How often the path was read in vain, from read number `from` to the one before `until`. */
  ghost function EmptyBetween(emptyReads: seq<string>, from: nat, until: nat, path: string): nat
    requires from <= until <= |emptyReads|
  {
    multiset(emptyReads[from..until])[path]
  }

  /** Covered by an accepted item, or given up after as many empty reads, since its retries began, as the limit says. */
  ghost predicate RemovalOk(p: Params, l: Ledger, emptyReads: seq<string>, r: Removal) {
    match r
    case Covered(cover) => CoverOk(p, l, cover)
    case GivenUp(path, begun, seen) =>
      begun <= seen <= |emptyReads| && EmptyBetween(emptyReads, begun, seen, path) >= p.maxAttempts
  }

  ghost predicate RemovalsOk(p: Params, l: Ledger, emptyReads: seq<string>, removals: seq<Removal>) {
    forall i :: 0 <= i < |removals| ==> RemovalOk(p, l, emptyReads, removals[i])
  }

  /** The path was read in vain at least as often as counted, since its retries began. */
  ghost predicate CountOk(emptyReads: seq<string>, path: string, count: nat, begun: nat) {
    begun <= |emptyReads| && count <= EmptyBetween(emptyReads, begun, |emptyReads|, path)
  }

  ghost predicate RereadsOk(rereads: map<string, nat>, begun: map<string, nat>, emptyReads: seq<string>) {
    && begun.Keys == rereads.Keys
    && forall path :: path in rereads ==> CountOk(emptyReads, path, rereads[path], begun[path])
  }

  ghost predicate HistoryOk(p: Params, s: Sys) {
    && (forall c :: c in s.covers ==> CoverOk(p, s.ledger, c))
    && RemovalsOk(p, s.ledger, s.emptyReads, s.removals)
    && RereadsOk(s.rereads, s.begun, s.emptyReads)
    && (forall i :: 0 <= i < |s.attempts| ==> s.attempts[i].due.Some? ==> s.attempts[i].at >= s.attempts[i].due.value)
  }

  /** Everything the ledger mentions was accepted, and nobody was sent more often than there were epochs. */
  ghost predicate LedgerBounded(s: Sys) {
    && s.ledger.sends.Keys <= s.ledger.accepted.Keys
    && s.ledger.retries.Keys <= s.ledger.accepted.Keys
    && s.ledger.due.Keys <= s.ledger.accepted.Keys
    && s.ledger.finished <= s.ledger.accepted.Keys
    && s.ledger.condemned <= s.ledger.accepted.Keys
    && (forall id :: Count(s.ledger.sends, id) <= s.boots)
  }

  /** In a running epoch an item already sent in it is finished, or is the one the worker just delivered. */
  ghost predicate SentOnce(s: Sys) {
    forall id :: Count(s.ledger.sends, id) == s.boots ==>
      id in s.ledger.finished || (s.worker.Delivered? && s.worker.item.id == id)
  }

  ghost predicate WorkerOk(d: Disk, w: Worker, l: Ledger, now: Time) {
    if w.Idle? then ProcessingWithin(d, {})
    else
      && ProcessingWithin(d, {w.item.id})
      && HeldOk(d, w.item)
      && OnRecord(l, w.item)
      && w.item.firstSeen <= now
      && (w.Delivered? ==> Count(l.sends, w.item.id) >= 1)
  }

  ghost predicate Running(s: Sys) {
    Settled(s.disk, s.clock) && s.boots >= 1 && SentOnce(s) && WorkerOk(s.disk, s.worker, s.ledger, s.clock)
  }

  ghost predicate Inv(p: Params, s: Sys) {
    && Sound(s.disk, s.clock)
    && LedgerOk(s.disk, s.ledger, |p.schedule|)
    && LedgerBounded(s)
    && HistoryOk(p, s)
    && (if s.up then Running(s) else s.worker.Idle? && s.covers == {} && s.rereads == map[])
  }
}
