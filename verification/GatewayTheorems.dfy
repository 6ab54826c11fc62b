/** The invariant over whole runs, and the promises of the gateway that follow from it. */
module GatewayTheorems {
  import opened Prelude
  import opened Durable
  import opened QueueSpec
  import opened CrashSafety
  import opened Recovery
  import opened Retention
  import opened Bookkeeping
  import opened GatewaySystem
  import opened SystemSafety

  /* ---- Every event keeps the invariant ---- */

  lemma {:induction false} ReconcileUnlinksNothing(d: Disk, dir: Dir, status: Status, ids: seq<Id>, now: Time)
    ensures forall m :: m in ReconcileFrom(d, dir, status, ids, now) ==> m.Reconcile?
    decreases |ids|
  {
    if ids != [] {
      var s := Slot(dir, ids[0]);
      if Live(d, s) {
        ReconcileUnlinksNothing(Apply(d, Reconcile(ItemAt(d, s).key, ids[0], status, now)), dir, status, ids[1..], now);
      } else {
        ReconcileUnlinksNothing(d, dir, status, ids[1..], now);
      }
    }
  }

  lemma {:induction false} RecoverUnlinksNothing(ids: seq<Id>)
    ensures forall m :: m in RecoverFrom(ids) ==> m.Move?
    decreases |ids|
  {
    if ids != [] {
      RecoverUnlinksNothing(ids[1..]);
    }
  }

  lemma BootUnlinksNothing(d: Disk, l: Ledger, now: Time, k: nat)
    requires k <= |BootSteps(d, now)|
    ensures Notes(l, BootSteps(d, now)[..k]) == l
  {
    var a := ReconcileDirSteps(d, Pending, PENDING, now);
    var d1 := RunSteps(d, a);
    var d2 := RunSteps(d1, ReconcileDirSteps(d1, Sent, SENT, now));
    ReconcileUnlinksNothing(d, Pending, PENDING, Listing(d, Pending), now);
    ReconcileUnlinksNothing(d1, Sent, SENT, Listing(d1, Sent), now);
    ReconcileUnlinksNothing(d2, Failed, FAILED, Listing(d2, Failed), now);
    RecoverUnlinksNothing(Listing(RunSteps(d, InitializeSteps(d, now)), Processing));
    var ms := BootSteps(d, now);
    assert forall m :: m in ms ==> !m.Unlink?;
    assert forall m :: m in ms[..k] ==> m in ms;
    NothingUnlinked(l, ms[..k]);
  }

  /** A crash anywhere inside startup leaves a sound disk that agrees with the ledger. */
  lemma BootPoint(p: Params, s: Sys, k: nat)
    requires Inv(p, s) && k <= |BootSteps(s.disk, s.clock)|
    ensures var e := RunSteps(s.disk, BootSteps(s.disk, s.clock)[..k]);
      Sound(e, s.clock) && LedgerOk(e, s.ledger, |p.schedule|)
  {
    BootRestores(s.disk, s.clock);
    BootGentle(s.disk, s.ledger, s.clock);
    EveryCrashPointIsOnRecord(s.disk, s.ledger, |p.schedule|, BootSteps(s.disk, s.clock), k);
    BootUnlinksNothing(s.disk, s.ledger, s.clock, k);
  }

  lemma BootKeepsInv(p: Params, s: Sys, window: nat)
    requires Inv(p, s) && !s.up
    ensures Inv(p, Next(p, s, Boot(window)))
    ensures Quiescent(Next(p, s, Boot(window)).disk, s.clock)
  {
    var ms := BootSteps(s.disk, s.clock);
    BootRestores(s.disk, s.clock);
    BootPoint(p, s, |ms|);
    assert ms[..|ms|] == ms;
    var t := Next(p, s, Boot(window));
    assert SentOnce(t);
  }

  lemma TickKeepsInv(p: Params, s: Sys, dt: nat)
    requires Inv(p, s)
    ensures Inv(p, Next(p, s, Tick(dt)))
  {
    var t := Next(p, s, Tick(dt));
    assert Sound(t.disk, t.clock);
    if s.up {
      LaterIsSettled(s.disk, s.clock, t.clock);
    }
  }

  /** An attempt is only made when the item is due, and the item knows when that is. */
  lemma AttemptInHistory(p: Params, s: Sys, e: Event)
    requires Inv(p, s) && Enabled(p, s, e) && (e.Deliver? || e.Refuse?)
    ensures HistoryOk(p, Next(p, s, e))
  {
    assert OnRecord(s.ledger, s.worker.item);
    OldRemovalsStay(p, s, Next(p, s, e).ledger);
  }

  function WithSend(l: Ledger, id: Id): Ledger {
    l.(sends := l.sends[id := Count(l.sends, id) + 1])
  }

  lemma DeliveredWorker(d: Disk, item: Item, l: Ledger, now: Time)
    requires WorkerOk(d, Claimed(item), l, now)
    ensures WorkerOk(d, Delivered(item), WithSend(l, item.id), now)
  {
  }

  /** The first success of an epoch: before it the item had fewer sends than there were epochs. */
  lemma DeliverOncePerEpoch(p: Params, s: Sys)
    requires Inv(p, s) && Enabled(p, s, Deliver)
    ensures var t := Next(p, s, Deliver); LedgerBounded(t) && SentOnce(t)
  {
    var t := Next(p, s, Deliver);
    var id := s.worker.item.id;
    assert Slot(Processing, id) in s.disk.files && Slot(Processing, id).dir != Sent;
    assert id !in s.ledger.finished;
    assert Count(s.ledger.sends, id) < s.boots;
    forall x
      ensures Count(t.ledger.sends, x) <= t.boots
      ensures Count(t.ledger.sends, x) == t.boots ==> x in t.ledger.finished || x == id
    {
      assert x != id ==> Count(t.ledger.sends, x) == Count(s.ledger.sends, x);
    }
  }

  lemma DeliverKeepsInv(p: Params, s: Sys)
    requires Inv(p, s) && Enabled(p, s, Deliver)
    ensures Inv(p, Next(p, s, Deliver))
  {
    AttemptInHistory(p, s, Deliver);
    DeliverOncePerEpoch(p, s);
    DeliverKeepsDisk(p, s);
    DeliverKeepsLedger(p, s);
  }

  lemma DeliverKeepsDisk(p: Params, s: Sys)
    requires Inv(p, s) && Enabled(p, s, Deliver)
    ensures var t := Next(p, s, Deliver);
      && t.up && t.boots == s.boots && Sound(t.disk, t.clock) && Settled(t.disk, t.clock)
      && WorkerOk(t.disk, t.worker, t.ledger, t.clock)
  {
    DeliveredWorker(s.disk, s.worker.item, s.ledger, s.clock);
  }

  lemma DeliverKeepsLedger(p: Params, s: Sys)
    requires LedgerOk(s.disk, s.ledger, |p.schedule|) && Enabled(p, s, Deliver)
    ensures var t := Next(p, s, Deliver); LedgerOk(t.disk, t.ledger, |p.schedule|)
  {
    SendKeepsLedger(s.disk, s.ledger, |p.schedule|, s.worker.item.id);
  }

  lemma RefuseKeepsInv(p: Params, s: Sys, verdict: Verdict)
    requires Inv(p, s) && Enabled(p, s, Refuse(verdict))
    ensures Inv(p, Next(p, s, Refuse(verdict)))
  {
    AttemptInHistory(p, s, Refuse(verdict));
    assert SentOnce(Next(p, s, Refuse(verdict)));
  }

  lemma RotKeepsDisk(d: Disk, now: Time, slot: Slot, file: File)
    requires Sound(d, now) && slot in d.files && !Valid(slot.id, file)
    ensures var e := d.(files := d.files[slot := file]);
      Sound(e, now) && (Settled(d, now) ==> Settled(e, now)) && forall item :: HeldOk(d, item) ==> HeldOk(e, item)
  {
    var e := d.(files := d.files[slot := file]);
    assert e.files.Keys == d.files.Keys;
    assert forall t :: Live(e, t) ==> t != slot && Live(d, t) && ItemAt(e, t) == ItemAt(d, t);
    if Settled(d, now) {
      assert forall t :: Live(e, t) ==> InStep(d, t) && InStep(e, t);
    }
  }

  lemma RotKeepsInv(p: Params, s: Sys, slot: Slot, file: File)
    requires Inv(p, s) && Enabled(p, s, Rot(slot, file))
    ensures Inv(p, Next(p, s, Rot(slot, file)))
  {
    var e := s.disk.(files := s.disk.files[slot := file]);
    assert e.files.Keys == s.disk.files.Keys;
    RotKeepsDisk(s.disk, s.clock, slot, file);
    RotKeepsLedger(s.disk, s.ledger, |p.schedule|, slot, file);
    SameKeys(s.disk, e);
  }

  lemma CountGoesOn(emptyReads: seq<string>, path: string, other: string, count: nat, begun: nat)
    requires CountOk(emptyReads, other, count, begun)
    ensures CountOk(emptyReads + [path], other, if other == path then count + 1 else count, begun)
  {
    assert (emptyReads + [path])[begun..|emptyReads| + 1] == emptyReads[begun..|emptyReads|] + [path];
  }

  /** One more empty read, counted for its own path. */
  lemma OneMoreEmptyRead(rereads: map<string, nat>, begun: map<string, nat>, emptyReads: seq<string>, path: string)
    requires RereadsOk(rereads, begun, emptyReads) && path in rereads
    ensures RereadsOk(rereads[path := rereads[path] + 1], begun, emptyReads + [path])
  {
    var after := rereads[path := rereads[path] + 1];
    forall other | other in after ensures CountOk(emptyReads + [path], other, after[other], begun[other]) {
      CountGoesOn(emptyReads, path, other, rereads[other], begun[other]);
    }
  }

  lemma RereadsBegin(rereads: map<string, nat>, begun: map<string, nat>, emptyReads: seq<string>, path: string)
    requires RereadsOk(rereads, begun, emptyReads)
    ensures RereadsOk(rereads[path := 0], begun[path := |emptyReads|], emptyReads)
    ensures RereadsOk(rereads - {path}, begun - {path}, emptyReads)
  {
  }

  lemma RemovalGivenUp(p: Params, s: Sys, path: string)
    requires HistoryOk(p, s) && path in s.rereads && s.rereads[path] == p.maxAttempts
    ensures RemovalsOk(p, s.ledger, s.emptyReads, s.removals + [GivenUp(path, BegunAt(s, path), |s.emptyReads|)])
  {
    assert CountOk(s.emptyReads, path, s.rereads[path], s.begun[path]);
  }

  lemma RemovalsStay(p: Params, l: Ledger, emptyReads: seq<string>, more: seq<string>, removals: seq<Removal>)
    requires RemovalsOk(p, l, emptyReads, removals) && emptyReads <= more
    ensures RemovalsOk(p, l, more, removals)
  {
    forall i | 0 <= i < |removals| ensures RemovalOk(p, l, more, removals[i]) {
      assert RemovalOk(p, l, emptyReads, removals[i]);
      if removals[i].GivenUp? {
        assert more[removals[i].begun..removals[i].seen] == emptyReads[removals[i].begun..removals[i].seen];
      }
    }
  }

  /** The events that concern neither the disk nor an item. */
  predicate Books(e: Event) {
    e.DeleteSms? || e.BeginRereads? || e.EmptyReread? || e.EndRereads? || e.GiveUp?
  }

  lemma BooksStayInOrder(p: Params, s: Sys, e: Event)
    requires HistoryOk(p, s) && Enabled(p, s, e) && Books(e)
    ensures HistoryOk(p, Next(p, s, e))
  {
    match e
    case EmptyReread(path) =>
      OneMoreEmptyRead(s.rereads, s.begun, s.emptyReads, path);
      RemovalsStay(p, s.ledger, s.emptyReads, s.emptyReads + [path], s.removals);
    case BeginRereads(path) => RereadsBegin(s.rereads, s.begun, s.emptyReads, path);
    case EndRereads(path) => RereadsBegin(s.rereads, s.begun, s.emptyReads, path);
    case GiveUp(path) => RemovalGivenUp(p, s, path);
    case _ =>
  }

  lemma BookingKeepsInv(p: Params, s: Sys, e: Event)
    requires Inv(p, s) && Enabled(p, s, e) && Books(e)
    ensures Inv(p, Next(p, s, e))
  {
    BooksStayInOrder(p, s, e);
    SameButBooks(p, s, Next(p, s, e));
  }

  lemma SameButBooks(p: Params, s: Sys, t: Sys)
    requires Inv(p, s) && s.up && HistoryOk(p, t)
    requires t == s.(covers := t.covers, rereads := t.rereads, begun := t.begun,
                     emptyReads := t.emptyReads, removals := t.removals)
    ensures Inv(p, t)
  {
  }

  lemma CrashKeepsInv(p: Params, s: Sys)
    requires Inv(p, s)
    ensures Inv(p, Stopped(s))
  {
  }

  /** The events that take durable steps. */
  predicate Writes(e: Event) {
    e.Boot? || e.BootCrash? || e.Do? || e.Die?
  }

  lemma WritingKeepsInv(p: Params, s: Sys, e: Event)
    requires Inv(p, s) && Enabled(p, s, e) && Writes(e)
    ensures Inv(p, Next(p, s, e))
  {
    match e
    case Boot(window) => BootKeepsInv(p, s, window);
    case BootCrash(k) => BootPoint(p, s, Min(k, |BootSteps(s.disk, s.clock)|));
    case Do(op) => DoKeepsInv(p, s, op);
    case Die(op, k) => DieKeepsInv(p, s, op, k);
  }

  lemma NextKeepsInv(p: Params, s: Sys, e: Event)
    requires Inv(p, s) && Enabled(p, s, e)
    ensures Inv(p, Next(p, s, e))
  {
    if Writes(e) {
      WritingKeepsInv(p, s, e);
    } else if Books(e) {
      BookingKeepsInv(p, s, e);
    } else {
      match e
      case Tick(dt) => TickKeepsInv(p, s, dt);
      case Crash => CrashKeepsInv(p, s);
      case Deliver => DeliverKeepsInv(p, s);
      case Refuse(verdict) => RefuseKeepsInv(p, s, verdict);
      case Rot(slot, file) => RotKeepsInv(p, s, slot, file);
    }
  }

  lemma InitialInv(p: Params, clock: Time, window: nat)
    ensures Inv(p, Initial(clock, window))
  {
  }

  lemma {:induction false} RunKeepsInv(p: Params, s: Sys, es: seq<Event>, t: Sys)
    requires Inv(p, s) && Run(p, s, es, t)
    ensures Inv(p, t)
    decreases |es|
  {
    if es != [] {
      NextKeepsInv(p, s, es[0]);
      RunKeepsInv(p, Next(p, s, es[0]), es[1..], t);
    }
  }

  /** The invariant holds in every reachable state. */
  lemma ReachableInv(p: Params, s: Sys)
    requires Reachable(p, s)
    ensures Inv(p, s)
  {
    var clock, window, es :| Run(p, Initial(clock, window), es, s);
    InitialInv(p, clock, window);
    RunKeepsInv(p, Initial(clock, window), es, s);
  }

  /* ---- Crash recovery ---- */

  /** What the row of an item may say while its file is in a directory; only a pending one may lack it. */
  ghost predicate RowAgrees(d: Disk, dir: Dir, item: Item) {
    if item.key !in d.rows then dir == Pending
    else
      && d.rows[item.key].itemId == item.id
      && match dir
         case Pending => d.rows[item.key].status == PENDING || d.rows[item.key].status == PROCESSING
         case Processing => d.rows[item.key].status == PROCESSING
         case Sent => d.rows[item.key].status == SENT
         case Failed => d.rows[item.key].status == FAILED
  }

  /**
    Nothing is in `processing`, no name is in two directories, no two readable
    files have the same digest, and the row of each agrees with its directory.
   */
  ghost predicate Restored(d: Disk) {
    && (forall x :: Slot(Processing, x) !in d.files)
    && (forall a, b, x :: Slot(a, x) in d.files && Slot(b, x) in d.files ==> a == b)
    && (forall dir, x :: Readable(d, dir, x) ==> RowAgrees(d, dir, d.files[Slot(dir, x)].item))
    && (forall a, x, b, y :: SameDigest(d, a, x, b, y) ==> x == y)
  }

  predicate SameDigest(d: Disk, a: Dir, x: Id, b: Dir, y: Id) {
    Readable(d, a, x) && Readable(d, b, y) && d.files[Slot(a, x)].item.key == d.files[Slot(b, y)].item.key
  }

  /** The file parses, and bears its own id. */
  predicate Readable(d: Disk, dir: Dir, x: Id) {
    Slot(dir, x) in d.files && d.files[Slot(dir, x)].Doc? && d.files[Slot(dir, x)].item.id == x
  }

  lemma QuiescentIsRestored(d: Disk, now: Time)
    requires Quiescent(d, now)
    ensures Restored(d)
  {
    forall a, b, x | Slot(a, x) in d.files && Slot(b, x) in d.files ensures a == b {
      assert Slot(a, x) == Slot(b, x);
    }
    forall dir, x | Readable(d, dir, x) ensures RowAgrees(d, dir, d.files[Slot(dir, x)].item) {
      assert Live(d, Slot(dir, x)) && InStep(d, Slot(dir, x));
    }
    forall a, x, b, y | SameDigest(d, a, x, b, y) ensures x == y {
      assert Live(d, Slot(a, x)) && Live(d, Slot(b, y));
    }
  }

  /**
    Stop any operation after any of its durable steps, at any point of any run;
    startup then restores the whole invariant with `processing` empty.
   */
  lemma CrashRecovery(p: Params, s: Sys, op: Op, k: nat, window: nat)
    requires Reachable(p, s) && OpEnabled(p, s, op)
    ensures Enabled(p, s, Die(op, k)) && Enabled(p, Next(p, s, Die(op, k)), Boot(window))
    ensures k <= |OpSteps(p, s, op)| ==> Next(p, s, Die(op, k)).disk == RunSteps(s.disk, OpSteps(p, s, op)[..k])
    ensures var t := Next(p, Next(p, s, Die(op, k)), Boot(window));
      && t.up && t.worker.Idle?
      && t.disk == RunSteps(Next(p, s, Die(op, k)).disk, BootSteps(Next(p, s, Die(op, k)).disk, s.clock))
      && Quiescent(t.disk, s.clock) && Restored(t.disk)
  {
    ReachableInv(p, s);
    NextKeepsInv(p, s, Die(op, k));
    BootKeepsInv(p, Next(p, s, Die(op, k)), window);
    QuiescentIsRestored(Next(p, Next(p, s, Die(op, k)), Boot(window)).disk, s.clock);
  }

  /** The same when the process dies idle, or again and again inside startup itself. */
  lemma StartupRecovery(p: Params, s: Sys, k: nat, window: nat)
    requires Reachable(p, s) && !s.up
    ensures Enabled(p, s, Boot(window)) && Enabled(p, s, BootCrash(k))
    ensures !Next(p, s, BootCrash(k)).up && Enabled(p, Next(p, s, BootCrash(k)), Boot(window))
    ensures k <= |BootSteps(s.disk, s.clock)| ==>
      Next(p, s, BootCrash(k)).disk == RunSteps(s.disk, BootSteps(s.disk, s.clock)[..k])
    ensures Quiescent(Next(p, s, Boot(window)).disk, s.clock) && Restored(Next(p, s, Boot(window)).disk)
    ensures Quiescent(Next(p, Next(p, s, BootCrash(k)), Boot(window)).disk, s.clock)
    ensures Restored(Next(p, Next(p, s, BootCrash(k)), Boot(window)).disk)
  {
    ReachableInv(p, s);
    BootKeepsInv(p, s, window);
    NextKeepsInv(p, s, BootCrash(k));
    BootKeepsInv(p, Next(p, s, BootCrash(k)), window);
    QuiescentIsRestored(Next(p, s, Boot(window)).disk, s.clock);
    QuiescentIsRestored(Next(p, Next(p, s, BootCrash(k)), Boot(window)).disk, s.clock);
  }

  /* ---- Duplicate deliveries ---- */

  /**
    An item is sent successfully at most once per epoch: at most 1 + restarts
    times in all. A file in `sent` was sent at least once, and an item that
    reached `sent` is in no other directory ever after.
   */
  lemma DuplicateBound(p: Params, s: Sys, id: Id)
    requires Reachable(p, s)
    ensures Count(s.ledger.sends, id) <= s.boots
    ensures Slot(Sent, id) in s.disk.files ==> Count(s.ledger.sends, id) >= 1
    ensures id in s.ledger.finished ==> forall dir :: Slot(dir, id) in s.disk.files ==> dir == Sent
  {
    ReachableInv(p, s);
    forall dir | Slot(dir, id) in s.disk.files && id in s.ledger.finished ensures dir == Sent {
      assert Slot(dir, id).dir == Sent;
    }
  }

  /* ---- No loss ---- */

  /** An accepted item is in exactly one directory until a cleanup removes it, and then in none. */
  lemma NoLoss(p: Params, s: Sys, id: Id)
    requires Reachable(p, s) && id in s.ledger.accepted
    ensures id !in s.ledger.cleaned ==>
      exists dir :: Slot(dir, id) in s.disk.files && forall other :: Slot(other, id) in s.disk.files ==> other == dir
    ensures id in s.ledger.cleaned ==> !Named(s.disk, id)
  {
    ReachableInv(p, s);
    if id !in s.ledger.cleaned {
      assert Named(s.disk, id);
      var dir :| Slot(dir, id) in s.disk.files;
      forall other | Slot(other, id) in s.disk.files ensures other == dir {
        assert Slot(other, id) == Slot(dir, id);
      }
    } else {
      assert forall dir :: Slot(dir, id) in s.disk.files ==> Slot(dir, id).id !in s.ledger.cleaned;
    }
  }

  /**
    Every message deleted from the modem is covered by an accepted item that
    answers to its key, or was given up after as many empty reads, counted since
    its retries began, as the limit says.
   */
  lemma DeletedIsCovered(p: Params, s: Sys, i: nat)
    requires Reachable(p, s) && i < |s.removals|
    ensures match s.removals[i]
      case Covered(cover) => CoverOk(p, s.ledger, cover)
      case GivenUp(path, begun, seen) =>
        begun <= seen <= |s.emptyReads| && EmptyBetween(s.emptyReads, begun, seen, path) >= p.maxAttempts
  {
    ReachableInv(p, s);
  }

  lemma {:induction false} RemoveUnlinksOwnFiles(d: Disk, dir: Dir, ids: seq<Id>, m: Micro)
    requires m in RemoveFrom(d, dir, ids)
    ensures m.Unlink? && m.dir == dir && Slot(dir, m.id) in d.files
    decreases |ids|
  {
    var ms := RemoveFrom(d, dir, ids);
    if Slot(dir, ids[0]) in d.files {
      if m != ms[0] {
        RemoveUnlinksOwnFiles(Apply(d, Unlink(dir, ids[0])), dir, ids[1..], m);
      }
    } else {
      RemoveUnlinksOwnFiles(d, dir, ids[1..], m);
    }
  }

  lemma {:induction false} StraysUnlinkOwnFiles(d: Disk, dir: Dir, ids: seq<Id>, known: set<Id>, cutoff: Time, m: Micro)
    requires m in RemoveStraysFrom(d, dir, ids, known, cutoff)
    ensures m.Unlink? && m.dir == dir && Slot(dir, m.id) in d.files
    decreases |ids|
  {
    var ms := RemoveStraysFrom(d, dir, ids, known, cutoff);
    if Stray(d, Slot(dir, ids[0]), known, cutoff) {
      if m != ms[0] {
        StraysUnlinkOwnFiles(Apply(d, Unlink(dir, ids[0])), dir, ids[1..], known, cutoff, m);
      }
    } else {
      StraysUnlinkOwnFiles(d, dir, ids[1..], known, cutoff, m);
    }
  }

  lemma CleanupUnlinksOwnFiles(d: Disk, dir: Dir, expiry: Time, age: Time, purge: Time, m: Micro)
    requires m in CleanupStepsAt(d, dir, expiry, age, purge) && m.Unlink?
    ensures m.dir == dir && Slot(dir, m.id) in d.files
  {
    var ids := Sorted(ExpiredIds(d.rows, StatusOf(dir), expiry));
    var a := RemoveFrom(d, dir, ids);
    var d1 := RunSteps(d, a);
    RemoveExact(d, 0, dir, ids);
    if m in a {
      RemoveUnlinksOwnFiles(d, dir, ids, m);
    } else {
      StraysUnlinkOwnFiles(d1, dir, Listing(d1, dir), KnownIds(d.rows), age, m);
    }
  }

  lemma {:induction false} NotesComeFromUnlinks(l: Ledger, ms: seq<Micro>, id: Id)
    requires id in Notes(l, ms).cleaned && id !in l.cleaned
    ensures exists m :: m in ms && m.Unlink? && m.id == id
    decreases |ms|
  {
    if ms != [] {
      if id in Note(l, ms[0]).cleaned {
        assert ms[0] in ms;
      } else {
        NotesComeFromUnlinks(Note(l, ms[0]), ms[1..], id);
        var m :| m in ms[1..] && m.Unlink? && m.id == id;
        assert m in ms;
      }
    }
  }

  /** Only a cleanup removes an accepted item, and only from the directory it cleans. */
  lemma OnlyCleanupRemoves(p: Params, s: Sys, e: Event, id: Id)
    requires Reachable(p, s) && Enabled(p, s, e)
    requires id !in s.ledger.cleaned && id in Next(p, s, e).ledger.cleaned
    ensures e.Do? || e.Die?
    ensures e.op.Cleanup? && (e.op.dir == Sent || e.op.dir == Failed) && Slot(e.op.dir, id) in s.disk.files
  {
    ReachableInv(p, s);
    var op := e.op;
    var ms := OpSteps(p, s, op);
    var k := if e.Do? then |ms| else Min(e.k, |ms|);
    if op.Cleanup? {
      NotesComeFromUnlinks(s.ledger, ms[..k], id);
      var m :| m in ms[..k] && m.Unlink? && m.id == id;
      assert m in ms;
      CleanupUnlinksOwnFiles(s.disk, op.dir, op.expiry, op.age, op.purge, m);
    } else {
      OthersUnlinkNothing(p, s, op, k);
    }
  }

  lemma OthersUnlinkNothing(p: Params, s: Sys, op: Op, k: nat)
    requires Inv(p, s) && OpEnabled(p, s, op) && !op.Cleanup? && k <= |OpSteps(p, s, op)|
    ensures LedgerAfter(p, s, op, k).cleaned == s.ledger.cleaned
  {
    var ms := OpSteps(p, s, op);
    if op.Claim? {
      ClaimUnlinksNothing(s.disk, Listing(s.disk, Pending), op.skip, s.clock);
    } else if op.Requeue? {
      RequeueUnlinksNothing(s.disk, Listing(s.disk, Failed), op.cutoff, s.clock);
    }
    assert forall m :: m in ms[..k] ==> m in ms;
    NothingUnlinked(s.ledger, ms[..k]);
  }

  lemma {:induction false} ClaimUnlinksNothing(d: Disk, ids: seq<Id>, skip: set<Id>, now: Time)
    ensures forall m :: m in ClaimFrom(d, ids, skip, now) ==> !m.Unlink?
    decreases |ids|
  {
    if ids != [] {
      ClaimUnlinksNothing(d, ids[1..], skip, now);
      ClaimUnlinksNothing(RunSteps(d, QuarantineSteps(d, ids[0])), ids[1..], skip, now);
    }
  }

  lemma {:induction false} RequeueUnlinksNothing(d: Disk, ids: seq<Id>, cutoff: Time, now: Time)
    ensures forall m :: m in RequeueFrom(d, ids, cutoff, now) ==> !m.Unlink?
    decreases |ids|
  {
    if ids != [] {
      RequeueUnlinksNothing(d, ids[1..], cutoff, now);
      if Salvageable(d, ids[0], cutoff) {
        RequeueUnlinksNothing(RunSteps(d, SalvageSteps(d, ids[0], now)), ids[1..], cutoff, now);
      }
    }
  }

  /* ---- Retry budget ---- */

  /**
    At most one retry per entry of the schedule is ever scheduled for an item,
    across restarts and requeues, and no network attempt happens before the
    time its last scheduled retry set.
   */
  lemma RetryBudget(p: Params, s: Sys, id: Id)
    requires Reachable(p, s)
    ensures Count(s.ledger.retries, id) <= |p.schedule|
    ensures forall t :: Live(s.disk, t) && t.id == id ==> ItemAt(s.disk, t).attempts == Count(s.ledger.retries, id)
    ensures forall i :: 0 <= i < |s.attempts| && s.attempts[i].due.Some? ==> s.attempts[i].at >= s.attempts[i].due.value
  {
    ReachableInv(p, s);
    forall t | Live(s.disk, t) && t.id == id ensures ItemAt(s.disk, t).attempts == Count(s.ledger.retries, id) {
      assert OnRecord(s.ledger, ItemAt(s.disk, t));
    }
  }

  /**
    A scheduled retry waits, from the failure on, for the scheduled delay and
    for what Telegram asked, whichever is longer.
   */
  lemma RetryWaitsLongEnough(p: Params, s: Sys, at: Time)
    requires Reachable(p, s) && OpEnabled(p, s, UpdateAttempt(at))
    ensures var t := Next(p, s, Do(UpdateAttempt(at)));
      var item := s.worker.item;
      && Count(t.ledger.retries, item.id) == Count(s.ledger.retries, item.id) + 1
      && DueOf(t.ledger, item.id).Some?
      && DueOf(t.ledger, item.id).value >= s.worker.since + p.schedule[item.attempts]
      && (s.worker.verdict.retryAfter.Some? ==>
            DueOf(t.ledger, item.id).value >= s.worker.since + s.worker.verdict.retryAfter.value)
  {
    ReachableInv(p, s);
    NotesUnchanged(p, s, UpdateAttempt(at), |OpSteps(p, s, UpdateAttempt(at))|);
  }

  lemma CondemnedGrows(p: Params, s: Sys, e: Event)
    requires Inv(p, s) && Enabled(p, s, e)
    ensures s.ledger.condemned <= Next(p, s, e).ledger.condemned
  {
    if e.Do? || e.Die? {
      var ms := OpSteps(p, s, e.op);
      NotesOnly(s.ledger, ms[..if e.Do? then |ms| else Min(e.k, |ms|)]);
    }
  }

  lemma {:induction false} CondemnedGrowsOverRuns(p: Params, s: Sys, es: seq<Event>, t: Sys)
    requires Inv(p, s) && Run(p, s, es, t)
    ensures s.ledger.condemned <= t.ledger.condemned
    decreases |es|
  {
    if es != [] {
      CondemnedGrows(p, s, es[0]);
      NextKeepsInv(p, s, es[0]);
      CondemnedGrowsOverRuns(p, Next(p, s, es[0]), es[1..], t);
    }
  }

  /** An item that lies in `failed` flagged permanent is in no other directory at any later time. */
  lemma PermanentStaysFailed(p: Params, s: Sys, id: Id, es: seq<Event>, t: Sys)
    requires Reachable(p, s) && Run(p, s, es, t)
    requires Live(s.disk, Slot(Failed, id)) && ItemAt(s.disk, Slot(Failed, id)).permanent
    ensures forall dir :: Slot(dir, id) in t.disk.files ==> dir == Failed
  {
    ReachableInv(p, s);
    RunKeepsInv(p, s, es, t);
    CondemnedGrowsOverRuns(p, s, es, t);
    assert id in t.ledger.condemned;
    forall dir | Slot(dir, id) in t.disk.files ensures dir == Failed {
      assert Slot(dir, id).dir == Failed;
    }
  }

  /* ---- The worker's bookkeeping ---- */

  /**
    In a running epoch none of the calls the worker makes on the item it holds
    can fail: its file is in `processing` and its key has its row; nothing else
    is in `processing`; and a requeue pass never stops early.
   */
  lemma BookkeepingNeverFails(p: Params, s: Sys)
    requires Reachable(p, s) && s.up
    ensures !s.worker.Idle? ==>
      && Held(s.disk, s.worker.item)
      && s.worker.item.key in s.disk.rows
      && s.disk.rows[s.worker.item.key].itemId == s.worker.item.id
    ensures forall x :: Slot(Processing, x) in s.disk.files ==> !s.worker.Idle? && x == s.worker.item.id
    ensures forall cutoff :: RequeueOutcome(s.disk, Listing(s.disk, Failed), cutoff, s.clock, 0).Ok?
  {
    ReachableInv(p, s);
    forall x | Slot(Processing, x) in s.disk.files ensures !s.worker.Idle? && x == s.worker.item.id {
      assert Slot(Processing, x).id in (if s.worker.Idle? then {} else {s.worker.item.id});
    }
    forall cutoff ensures RequeueOutcome(s.disk, Listing(s.disk, Failed), cutoff, s.clock, 0).Ok? {
      RequeueListed(s.disk, Listing(s.disk, Failed), cutoff, s.clock);
    }
  }
}
