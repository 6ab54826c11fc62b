/**
  Every operation of the gateway, completed or cut off at any of its steps,
  keeps the system invariant.
 */
module SystemSafety {
  import opened Prelude
  import opened Durable
  import opened QueueSpec
  import opened CrashSafety
  import opened OperationSafety
  import opened Retention
  import opened Bookkeeping
  import opened GatewaySystem

  /* ---- What a crash inside an operation leaves ---- */

  /** The disk and the ledger after the first `k` steps of an operation. */
  ghost predicate PointOk(p: Params, s: Sys, op: Op, k: nat)
    requires OpEnabled(p, s, op) && k <= |OpSteps(p, s, op)|
  {
    && Sound(RunSteps(s.disk, OpSteps(p, s, op)[..k]), s.clock)
    && LedgerOk(RunSteps(s.disk, OpSteps(p, s, op)[..k]), LedgerAfter(p, s, op, k), |p.schedule|)
  }

  lemma IdsAreFresh(p: Params, s: Sys, id: Id)
    requires Inv(p, s) && id !in s.ledger.accepted
    ensures Unused(s.disk, id)
  {
    assert forall dir :: Slot(dir, id) in s.disk.files ==> Slot(dir, id).id in s.ledger.accepted;
  }

  lemma TruthfulNow(p: Params, s: Sys)
    requires Inv(p, s)
    ensures Truthful(s.disk, s.ledger)
  {
  }

  /** Every operation is safe on the disk: it is allowed step by step and ends settled. */
  lemma OpIsSafe(p: Params, s: Sys, op: Op)
    requires Inv(p, s) && OpEnabled(p, s, op)
    ensures OpSafe(s.disk, s.clock, OpSteps(p, s, op))
  {
    match op
    case Enqueue(sms, id, born) =>
      IdsAreFresh(p, s, id);
      EnqueueSafe(Cfg(p, s), s.disk, NewItem(Cfg(p, s), sms, id, born), s.clock);
    case Claim(skip) => ClaimSafe(s.disk, skip, s.clock);
    case MarkSent => MarkSentSafe(s.disk, s.worker.item, s.clock);
    case MarkFailed => MarkFailedSafe(s.disk, s.worker.item, !s.worker.verdict.Unexpected?, s.clock);
    case MoveBack => MoveBackSafe(s.disk, s.worker.item, s.clock);
    case UpdateAttempt(at) => UpdateAttemptSafe(s.disk, s.worker.item, NextRetry(p, s, at), s.clock);
    case Requeue(cutoff) => RequeueListed(s.disk, Listing(s.disk, Failed), cutoff, s.clock);
    case Cleanup(dir, expiry, age, purge) => CleanupSafeAt(s.disk, dir, expiry, age, purge, s.clock);
  }

  /** The operations whose steps the ledger takes no special note of. */
  predicate Plain(op: Op) {
    op.Claim? || op.MoveBack? || op.Requeue? || op.Cleanup?
  }

  lemma PlainOpsAreGentle(p: Params, s: Sys, op: Op)
    requires Inv(p, s) && OpEnabled(p, s, op) && Plain(op)
    ensures GentleRun(s.ledger, s.disk, OpSteps(p, s, op))
  {
    TruthfulNow(p, s);
    match op
    case Claim(skip) => ClaimGentle(s.disk, s.ledger, Listing(s.disk, Pending), skip, s.clock);
    case MoveBack =>
      var m := Move(s.worker.item.id, Processing, Pending);
      assert [m][1..] == [];
    case Requeue(cutoff) => RequeueGentle(s.disk, s.ledger, Listing(s.disk, Failed), cutoff, s.clock);
    case Cleanup(dir, expiry, age, purge) => CleanupGentle(s.disk, s.ledger, dir, expiry, age, purge);
  }

  lemma PlainPoint(p: Params, s: Sys, op: Op, k: nat)
    requires Inv(p, s) && OpEnabled(p, s, op) && Plain(op) && k <= |OpSteps(p, s, op)|
    ensures LedgerOk(RunSteps(s.disk, OpSteps(p, s, op)[..k]), LedgerAfter(p, s, op, k), |p.schedule|)
  {
    PlainOpsAreGentle(p, s, op);
    EveryCrashPointIsOnRecord(s.disk, s.ledger, |p.schedule|, OpSteps(p, s, op), k);
  }

  /** Nothing is unlinked outside cleanup. */
  lemma NotesUnchanged(p: Params, s: Sys, op: Op, k: nat)
    requires OpEnabled(p, s, op) && k <= |OpSteps(p, s, op)|
    requires op.Enqueue? || op.MarkSent? || op.MarkFailed? || op.UpdateAttempt?
    ensures Notes(s.ledger, OpSteps(p, s, op)[..k]) == s.ledger
  {
    var ms := OpSteps(p, s, op);
    forall m | m in ms[..k] ensures !m.Unlink? {
      assert m in ms;
    }
    NothingUnlinked(s.ledger, ms[..k]);
  }

  lemma PrefixOne(d: Disk, a: Micro, k: nat)
    requires k <= 1
    ensures RunSteps(d, [a][..k]) == if k == 0 then d else Apply(d, a)
  {
    RunOne(d, a);
    assert k == 1 ==> [a][..k] == [a];
  }

  lemma PrefixTwo(d: Disk, a: Micro, b: Micro, k: nat)
    requires k <= 2
    ensures RunSteps(d, [a, b][..k]) == if k == 0 then d else if k == 1 then Apply(d, a) else Apply(Apply(d, a), b)
  {
    RunTwo(d, a, b);
    PrefixOne(d, a, if k == 0 then 0 else 1);
    assert k <= 1 ==> [a, b][..k] == [a][..k];
    assert k == 2 ==> [a, b][..k] == [a, b];
  }

  lemma PrefixThree(d: Disk, a: Micro, b: Micro, c: Micro, k: nat)
    requires k <= 3
    ensures RunSteps(d, [a, b, c][..k]) ==
      if k == 0 then d else if k == 1 then Apply(d, a) else if k == 2 then Apply(Apply(d, a), b)
      else Apply(Apply(Apply(d, a), b), c)
  {
    RunThree(d, a, b, c);
    PrefixTwo(d, a, b, if k == 3 then 2 else k);
    assert k <= 2 ==> [a, b, c][..k] == [a, b][..k];
    assert k == 3 ==> [a, b, c][..k] == [a, b, c];
  }

  lemma EnqueuePoint(p: Params, s: Sys, op: Op, k: nat)
    requires Inv(p, s) && OpEnabled(p, s, op) && op.Enqueue? && k <= |OpSteps(p, s, op)|
    ensures LedgerOk(RunSteps(s.disk, OpSteps(p, s, op)[..k]), LedgerAfter(p, s, op, k), |p.schedule|)
  {
    var cfg := Cfg(p, s);
    var item := NewItem(cfg, op.sms, op.id, op.born);
    var ms := OpSteps(p, s, op);
    NotesUnchanged(p, s, op, k);
    PendingDuplicateMeaning(cfg, s.disk, item.key);
    if EnqueueAccepts(cfg, s.disk, item.key) {
      EnqueueLedger(s.disk, s.ledger, |p.schedule|, item, s.clock);
      PrefixTwo(s.disk, Write(Pending, item, s.clock), Insert(item.key, Row(item.id, s.clock, PENDING, s.clock)), k);
    } else if ms != [] {
      GentleKeepsLedger(s.disk, s.ledger, |p.schedule|, ms[0]);
      PrefixOne(s.disk, ms[0], k);
      assert ms == [ms[0]];
    }
  }

  lemma MarkSentPoint(p: Params, s: Sys, k: nat)
    requires Inv(p, s) && OpEnabled(p, s, MarkSent) && k <= |OpSteps(p, s, MarkSent)|
    ensures LedgerOk(RunSteps(s.disk, OpSteps(p, s, MarkSent)[..k]), LedgerAfter(p, s, MarkSent, k), |p.schedule|)
  {
    var item := s.worker.item;
    NotesUnchanged(p, s, MarkSent, k);
    MarkSentLedger(s.disk, s.ledger, |p.schedule|, item, s.clock);
    PrefixTwo(s.disk, Move(item.id, Processing, Sent), SetStatus(item.key, SENT, s.clock), k);
  }

  lemma MarkFailedPoint(p: Params, s: Sys, k: nat)
    requires Inv(p, s) && OpEnabled(p, s, MarkFailed) && k <= |OpSteps(p, s, MarkFailed)|
    ensures LedgerOk(RunSteps(s.disk, OpSteps(p, s, MarkFailed)[..k]), LedgerAfter(p, s, MarkFailed, k), |p.schedule|)
  {
    var item := s.worker.item;
    var permanent := !s.worker.verdict.Unexpected?;
    NotesUnchanged(p, s, MarkFailed, k);
    MarkFailedLedger(s.disk, s.ledger, |p.schedule|, item, permanent, s.clock);
    PrefixThree(s.disk, Write(Processing, item.(permanent := permanent), s.clock),
                Move(item.id, Processing, Failed), SetStatus(item.key, FAILED, s.clock), k);
  }

  lemma UpdateAttemptPoint(p: Params, s: Sys, op: Op, k: nat)
    requires Inv(p, s) && OpEnabled(p, s, op) && op.UpdateAttempt? && k <= |OpSteps(p, s, op)|
    ensures LedgerOk(RunSteps(s.disk, OpSteps(p, s, op)[..k]), LedgerAfter(p, s, op, k), |p.schedule|)
    ensures k == 1 ==>
      OnRecord(LedgerAfter(p, s, op, k), Attempted(s.worker.item, NextRetry(p, s, op.at), s.clock))
  {
    var ms := OpSteps(p, s, op);
    NotesUnchanged(p, s, op, k);
    if k >= 1 {
      var item := Attempted(s.worker.item, NextRetry(p, s, op.at), s.clock);
      var l := Reschedule(s.ledger, item.id, NextRetry(p, s, op.at));
      assert OnRecord(l, item);
      RewriteKeepsLedger(s.disk, s.ledger, l, |p.schedule|, item, s.clock);
      PrefixOne(s.disk, Write(Processing, item, s.clock), k);
    }
  }

  /** A crash at any step of any operation leaves a sound disk that agrees with the ledger. */
  lemma EveryOpPoint(p: Params, s: Sys, op: Op, k: nat)
    requires Inv(p, s) && OpEnabled(p, s, op) && k <= |OpSteps(p, s, op)|
    ensures PointOk(p, s, op, k)
  {
    OpIsSafe(p, s, op);
    EveryCrashPointIsSound(s.disk, s.clock, OpSteps(p, s, op), k);
    match op
    case Enqueue(_, _, _) => EnqueuePoint(p, s, op, k);
    case MarkSent => MarkSentPoint(p, s, k);
    case MarkFailed => MarkFailedPoint(p, s, k);
    case UpdateAttempt(_) => UpdateAttemptPoint(p, s, op, k);
    case _ => PlainPoint(p, s, op, k);
  }

  /* ---- Completed operations ---- */

  lemma LedgerAfterKeeps(p: Params, s: Sys, op: Op, k: nat)
    requires OpEnabled(p, s, op) && k <= |OpSteps(p, s, op)|
    ensures var l := LedgerAfter(p, s, op, k);
      && l.sends == s.ledger.sends && s.ledger.finished <= l.finished
      && (!op.Enqueue? ==> l.accepted == s.ledger.accepted)
      && (forall id :: id in s.ledger.accepted ==> id in l.accepted && l.accepted[id] == s.ledger.accepted[id])
      && (!op.UpdateAttempt? ==> l.retries == s.ledger.retries && l.due == s.ledger.due)
  {
    NotesOnly(s.ledger, OpSteps(p, s, op)[..k]);
  }

  lemma StillOnRecord(l: Ledger, m: Ledger)
    requires forall id :: id in l.accepted ==> id in m.accepted && m.accepted[id] == l.accepted[id]
    requires m.retries == l.retries && m.due == l.due
    ensures forall item :: OnRecord(l, item) ==> OnRecord(m, item)
  {
  }

  /** What the ledger learns concerns the item enqueued or the one the worker holds. */
  lemma LedgerAfterBounded(p: Params, s: Sys, op: Op, k: nat)
    requires LedgerBounded(s) && OpEnabled(p, s, op) && k <= |OpSteps(p, s, op)|
    requires !s.worker.Idle? ==> s.worker.item.id in s.ledger.accepted
    ensures LedgerBounded(s.(ledger := LedgerAfter(p, s, op, k)))
  {
    NotesOnly(s.ledger, OpSteps(p, s, op)[..k]);
  }

  /** Operations add to the past; they never rewrite it. */
  lemma LedgerAfterGrows(p: Params, s: Sys, op: Op, k: nat)
    requires Inv(p, s) && OpEnabled(p, s, op) && k <= |OpSteps(p, s, op)|
    ensures var l := LedgerAfter(p, s, op, k);
      && l.sends == s.ledger.sends
      && (forall id :: id in s.ledger.accepted ==> id in l.accepted && l.accepted[id] == s.ledger.accepted[id])
      && s.ledger.finished <= l.finished
      && LedgerBounded(s.(ledger := l))
      && (!op.UpdateAttempt? ==> forall item :: OnRecord(s.ledger, item) ==> OnRecord(l, item))
  {
    LedgerAfterKeeps(p, s, op, k);
    LedgerAfterBounded(p, s, op, k);
    if !op.UpdateAttempt? {
      StillOnRecord(s.ledger, LedgerAfter(p, s, op, k));
    }
  }

  lemma WorkerAfterOp(p: Params, s: Sys, op: Op)
    requires Inv(p, s) && OpEnabled(p, s, op)
    ensures var t := Completed(p, s, op); WorkerOk(t.disk, t.worker, t.ledger, t.clock)
  {
    if op.Enqueue? || op.Requeue? || op.Cleanup? {
      WorkerUndisturbed(p, s, op);
    } else if op.Claim? {
      WorkerClaims(p, s, op);
    } else {
      WorkerMovesOn(p, s, op);
    }
  }

  /** What producers and cleanups do leaves the worker's item alone. */
  lemma WorkerUndisturbed(p: Params, s: Sys, op: Op)
    requires Inv(p, s) && OpEnabled(p, s, op) && (op.Enqueue? || op.Requeue? || op.Cleanup?)
    ensures var t := Completed(p, s, op); WorkerOk(t.disk, t.worker, t.ledger, t.clock)
  {
    var t := Completed(p, s, op);
    LedgerAfterGrows(p, s, op, |OpSteps(p, s, op)|);
    BystanderSafe(p, s, op);
    WorkerStays(s.disk, t.disk, s.worker, s.ledger, t.ledger, s.clock);
  }

  lemma WorkerStays(d: Disk, e: Disk, w: Worker, l: Ledger, m: Ledger, now: Time)
    requires WorkerOk(d, w, l, now)
    requires forall h :: HeldOk(d, h) ==> HeldOk(e, h)
    requires forall x :: Slot(Processing, x) in d.files <==> Slot(Processing, x) in e.files
    requires m.sends == l.sends && forall item :: OnRecord(l, item) ==> OnRecord(m, item)
    ensures WorkerOk(e, w, m, now)
  {
    SameProcessing(d, e);
  }

  lemma BystanderSafe(p: Params, s: Sys, op: Op)
    requires Inv(p, s) && OpEnabled(p, s, op) && (op.Enqueue? || op.Requeue? || op.Cleanup?)
    ensures var e := RunSteps(s.disk, OpSteps(p, s, op));
      && (forall h :: HeldOk(s.disk, h) ==> HeldOk(e, h))
      && (forall x :: Slot(Processing, x) in s.disk.files <==> Slot(Processing, x) in e.files)
  {
    match op
    case Enqueue(sms, id, born) =>
      IdsAreFresh(p, s, id);
      EnqueueSafe(Cfg(p, s), s.disk, NewItem(Cfg(p, s), sms, id, born), s.clock);
    case Requeue(cutoff) => RequeueListed(s.disk, Listing(s.disk, Failed), cutoff, s.clock);
    case Cleanup(dir, expiry, age, purge) => CleanupSafeAt(s.disk, dir, expiry, age, purge, s.clock);
  }

  lemma WorkerClaims(p: Params, s: Sys, op: Op)
    requires Inv(p, s) && OpEnabled(p, s, op) && op.Claim?
    ensures var t := Completed(p, s, op); WorkerOk(t.disk, t.worker, t.ledger, t.clock)
  {
    LedgerAfterGrows(p, s, op, |OpSteps(p, s, op)|);
    ClaimSafe(s.disk, op.skip, s.clock);
    ClaimProcessing(s.disk, RunSteps(s.disk, OpSteps(p, s, op)), ClaimResult(s.disk, op.skip));
  }

  lemma WorkerMovesOn(p: Params, s: Sys, op: Op)
    requires Inv(p, s) && OpEnabled(p, s, op)
    requires op.MarkSent? || op.MarkFailed? || op.MoveBack? || op.UpdateAttempt?
    ensures var t := Completed(p, s, op); WorkerOk(t.disk, t.worker, t.ledger, t.clock)
  {
    if op.UpdateAttempt? {
      UpdateAttemptSafe(s.disk, s.worker.item, NextRetry(p, s, op.at), s.clock);
      UpdateAttemptPoint(p, s, op, 1);
      SameKeys(s.disk, RunSteps(s.disk, OpSteps(p, s, op)));
    } else {
      WorkerLetsGo(s.disk, s.worker.item, RunSteps(s.disk, OpSteps(p, s, op)), LetGoDir(op)) by {
        match op
        case MarkSent => MarkSentSafe(s.disk, s.worker.item, s.clock);
        case MarkFailed => MarkFailedSafe(s.disk, s.worker.item, !s.worker.verdict.Unexpected?, s.clock);
        case MoveBack => MoveBackSafe(s.disk, s.worker.item, s.clock);
      }
    }
  }

  function LetGoDir(op: Op): Dir {
    if op.MarkSent? then Sent else if op.MarkFailed? then Failed else Pending
  }

  lemma WorkerLetsGo(d: Disk, item: Item, e: Disk, dest: Dir)
    requires ProcessingWithin(d, {item.id}) && dest != Processing
    requires e.files.Keys == d.files.Keys - {Slot(Processing, item.id)} + {Slot(dest, item.id)}
    ensures ProcessingWithin(e, {})
  {
    assert forall s :: s in e.files && s.dir == Processing ==> s in d.files && s == Slot(Processing, s.id);
  }

  lemma SameKeys(d: Disk, e: Disk)
    requires e.files.Keys == d.files.Keys
    ensures forall ids :: ProcessingWithin(d, ids) ==> ProcessingWithin(e, ids)
  {
    assert forall s :: s in e.files ==> s in d.files;
  }

  lemma SameProcessing(d: Disk, e: Disk)
    requires forall x :: Slot(Processing, x) in d.files <==> Slot(Processing, x) in e.files
    ensures forall ids :: ProcessingWithin(d, ids) ==> ProcessingWithin(e, ids)
  {
    assert forall s :: s in e.files && s.dir == Processing ==> s == Slot(Processing, s.id);
  }

  lemma ClaimProcessing(d: Disk, e: Disk, claimed: Option<Item>)
    requires ProcessingWithin(d, {})
    requires forall x :: Slot(Processing, x) in e.files ==>
      Slot(Processing, x) in d.files || (claimed.Some? && claimed.value.id == x)
    ensures ProcessingWithin(e, if claimed.Some? then {claimed.value.id} else {})
  {
    assert forall s :: s in e.files && s.dir == Processing ==> s == Slot(Processing, s.id);
  }

  /** Whatever enqueue answers, the message is covered by an accepted item that answers to its key. */
  lemma EnqueueCovers(p: Params, s: Sys, op: Op)
    requires Inv(p, s) && OpEnabled(p, s, op) && op.Enqueue?
    ensures var item := NewItem(Cfg(p, s), op.sms, op.id, op.born);
      CoverOk(p, LedgerAfter(p, s, op, |OpSteps(p, s, op)|), Cover(op.sms, op.born, s.window, CoveredBy(p, s, item)))
  {
    var cfg := Cfg(p, s);
    var item := NewItem(cfg, op.sms, op.id, op.born);
    var l := LedgerAfter(p, s, op, |OpSteps(p, s, op)|);
    LedgerAfterGrows(p, s, op, |OpSteps(p, s, op)|);
    PendingDuplicateMeaning(cfg, s.disk, item.key);
    var owner := CoveredBy(p, s, item);
    assert owner in l.accepted && AnswersTo(Config(p.digest, s.window), l.accepted[owner], item.key) by {
      if item.key in s.disk.rows {
        assert RowOnRecord(s.ledger, item.key, owner);
      } else if PendingDuplicate(cfg, s.disk, item.key).Some? {
        var dup := PendingDuplicate(cfg, s.disk, item.key).value;
        assert OnRecord(s.ledger, ItemAt(s.disk, Slot(Pending, dup.id)));
      }
    }
  }

  lemma OldRemovalsStay(p: Params, s: Sys, m: Ledger)
    requires HistoryOk(p, s)
    requires forall id :: id in s.ledger.accepted ==> id in m.accepted && m.accepted[id] == s.ledger.accepted[id]
    ensures RemovalsOk(p, m, s.emptyReads, s.removals)
  {
  }

  lemma DoKeepsHistory(p: Params, s: Sys, op: Op)
    requires Inv(p, s) && OpEnabled(p, s, op)
    ensures HistoryOk(p, Completed(p, s, op))
  {
    var t := Completed(p, s, op);
    LedgerAfterGrows(p, s, op, |OpSteps(p, s, op)|);
    forall c | c in t.covers ensures CoverOk(p, t.ledger, c) {
      if c !in s.covers {
        EnqueueCovers(p, s, op);
      }
    }
    OldRemovalsStay(p, s, t.ledger);
  }

  /** No operation sends; the item just delivered is finished before the worker lets it go. */
  lemma DoKeepsSentOnce(p: Params, s: Sys, op: Op)
    requires Inv(p, s) && OpEnabled(p, s, op)
    ensures SentOnce(Completed(p, s, op))
  {
    var t := Completed(p, s, op);
    LedgerAfterGrows(p, s, op, |OpSteps(p, s, op)|);
    forall id | Count(t.ledger.sends, id) == t.boots
      ensures id in t.ledger.finished || (t.worker.Delivered? && t.worker.item.id == id)
    {
      assert id in s.ledger.finished || (s.worker.Delivered? && s.worker.item.id == id);
    }
  }

  lemma DoKeepsInv(p: Params, s: Sys, op: Op)
    requires Inv(p, s) && OpEnabled(p, s, op)
    ensures Inv(p, Completed(p, s, op))
  {
    var ms := OpSteps(p, s, op);
    OpIsSafe(p, s, op);
    EveryOpPoint(p, s, op, |ms|);
    assert ms[..|ms|] == ms;
    LedgerAfterGrows(p, s, op, |ms|);
    WorkerAfterOp(p, s, op);
    DoKeepsHistory(p, s, op);
    DoKeepsSentOnce(p, s, op);
  }

  lemma DieKeepsInv(p: Params, s: Sys, op: Op, k: nat)
    requires Inv(p, s) && OpEnabled(p, s, op)
    ensures Inv(p, Next(p, s, Die(op, k)))
  {
    var n := Min(k, |OpSteps(p, s, op)|);
    var t := Next(p, s, Die(op, k));
    EveryOpPoint(p, s, op, n);
    LedgerAfterGrows(p, s, op, n);
    OldRemovalsStay(p, s, t.ledger);
  }
}
