/**
  Messages that come twice. Rows are forgotten only when they expire in a
  cleanup or go with a quarantined file; the item of a message keeps it out as
  long as it was not cleaned away and its file is valid; a message without a
  timestamp is kept out exactly as long as its key stays the same.
 */
module Redelivery {
  import opened Prelude
  import opened Durable
  import opened QueueSpec
  import opened CrashSafety
  import opened OperationSafety
  import opened Bookkeeping
  import opened GatewaySystem
  import opened SystemSafety
  import opened GatewayTheorems
  import opened GatewayHistory

  /** The steps that can remove rows. */
  predicate Forgetful(m: Micro) {
    m.DeleteRowsOf? || m.Purge?
  }

  lemma {:induction false} RowsKept(d: Disk, ms: seq<Micro>)
    requires forall m :: m in ms ==> !Forgetful(m)
    ensures d.rows.Keys <= RunSteps(d, ms).rows.Keys
    decreases |ms|
  {
    if ms != [] {
      assert ms[0] in ms;
      assert forall m :: m in ms[1..] ==> m in ms;
      RowsKept(Apply(d, ms[0]), ms[1..]);
    }
  }

  lemma {:induction false} RequeueForgetsNothing(d: Disk, ids: seq<Id>, cutoff: Time, now: Time)
    ensures forall m :: m in RequeueFrom(d, ids, cutoff, now) ==> !Forgetful(m)
    decreases |ids|
  {
    if ids != [] {
      RequeueForgetsNothing(d, ids[1..], cutoff, now);
      if Salvageable(d, ids[0], cutoff) {
        RequeueForgetsNothing(RunSteps(d, SalvageSteps(d, ids[0], now)), ids[1..], cutoff, now);
      }
    }
  }

  lemma BootForgetsNothing(d: Disk, now: Time)
    ensures forall m :: m in BootSteps(d, now) ==> !Forgetful(m)
  {
    var a := ReconcileDirSteps(d, Pending, PENDING, now);
    var d1 := RunSteps(d, a);
    var d2 := RunSteps(d1, ReconcileDirSteps(d1, Sent, SENT, now));
    ReconcileUnlinksNothing(d, Pending, PENDING, Listing(d, Pending), now);
    ReconcileUnlinksNothing(d1, Sent, SENT, Listing(d1, Sent), now);
    ReconcileUnlinksNothing(d2, Failed, FAILED, Listing(d2, Failed), now);
    RecoverUnlinksNothing(Listing(RunSteps(d, InitializeSteps(d, now)), Processing));
  }

  lemma OpForgetsNothing(p: Params, s: Sys, op: Op)
    requires OpEnabled(p, s, op) && !op.Cleanup? && !op.Claim?
    ensures forall m :: m in OpSteps(p, s, op) ==> !Forgetful(m)
  {
    if op.Requeue? {
      RequeueForgetsNothing(s.disk, Listing(s.disk, Failed), op.cutoff, s.clock);
    }
  }

  lemma PrefixKeepsRows(d: Disk, ms: seq<Micro>, k: nat)
    requires k <= |ms| && forall m :: m in ms ==> !Forgetful(m)
    ensures d.rows.Keys <= RunSteps(d, ms[..k]).rows.Keys
  {
    assert forall m :: m in ms[..k] ==> m in ms;
    RowsKept(d, ms[..k]);
  }

  /* ---- what a cleanup forgets ---- */

  lemma {:induction false} RemovalsUnlink(d: Disk, dir: Dir, ids: seq<Id>)
    ensures forall m :: m in RemoveFrom(d, dir, ids) ==> m.Unlink?
    decreases |ids|
  {
    if ids != [] {
      RemovalsUnlink(Apply(d, Unlink(dir, ids[0])), dir, ids[1..]);
      RemovalsUnlink(d, dir, ids[1..]);
    }
  }

  lemma {:induction false} StrayRemovalsUnlink(d: Disk, dir: Dir, ids: seq<Id>, known: set<Id>, cutoff: Time)
    ensures forall m :: m in RemoveStraysFrom(d, dir, ids, known, cutoff) ==> m.Unlink?
    decreases |ids|
  {
    if ids != [] {
      StrayRemovalsUnlink(Apply(d, Unlink(dir, ids[0])), dir, ids[1..], known, cutoff);
      StrayRemovalsUnlink(d, dir, ids[1..], known, cutoff);
    }
  }

  /** Unlinks and then a purge, cut off anywhere. */
  lemma {:induction false} PurgeForgets(d: Disk, unlinks: seq<Micro>, last: Micro, k: nat, key: Key)
    requires last.Purge? && forall m :: m in unlinks ==> m.Unlink?
    requires k <= |unlinks| + 1 && key in d.rows
    requires key !in RunSteps(d, (unlinks + [last])[..k]).rows
    ensures Expired(d.rows[key], last.status, last.cutoff)
    decreases |unlinks|
  {
    var ms := (unlinks + [last])[..k];
    if ms != [] {
      if unlinks == [] {
        assert ms[1..] == [];
      } else {
        assert ms[0] == unlinks[0] && unlinks[0] in unlinks;
        assert ms[1..] == (unlinks[1..] + [last])[..k - 1];
        PurgeForgets(Apply(d, ms[0]), unlinks[1..], last, k - 1, key);
      }
    }
  }

  /** A cleanup, cut off anywhere, forgets only expired rows. */
  lemma CleanupForgets(d: Disk, dir: Dir, expiry: Time, age: Time, purge: Time, k: nat, key: Key)
    requires k <= |CleanupStepsAt(d, dir, expiry, age, purge)| && key in d.rows
    requires key !in RunSteps(d, CleanupStepsAt(d, dir, expiry, age, purge)[..k]).rows
    ensures Expired(d.rows[key], StatusOf(dir), purge)
  {
    var expired := Sorted(ExpiredIds(d.rows, StatusOf(dir), expiry));
    var a := RemoveFrom(d, dir, expired);
    var d1 := RunSteps(d, a);
    var b := RemoveStraysFrom(d1, dir, Listing(d1, dir), KnownIds(d.rows), age);
    RemovalsUnlink(d, dir, expired);
    StrayRemovalsUnlink(d1, dir, Listing(d1, dir), KnownIds(d.rows), age);
    PurgeForgets(d, a + b, Purge(StatusOf(dir), purge), k, key);
  }

  /* ---- what a claim forgets ---- */

  /** File `x` of `pending`, not valid and not skipped, went away, and the row is one its quarantine forgets. */
  ghost predicate QuarantinedWith(d: Disk, e: Disk, skip: set<Id>, x: Id, itemId: Id) {
    && x !in skip && Slot(Pending, x) in d.files && !Live(d, Slot(Pending, x))
    && Slot(Pending, x) !in e.files
    && Forgotten(d, x, itemId)
  }

  /** The steps that bring no file into `pending`. */
  predicate LeavesPending(m: Micro) {
    !m.Write? && (m.Move? ==> m.to != Pending)
  }

  lemma {:induction false} ClaimLeavesPending(d: Disk, ids: seq<Id>, skip: set<Id>, now: Time)
    ensures forall m :: m in ClaimFrom(d, ids, skip, now) ==> LeavesPending(m)
    decreases |ids|
  {
    if ids != [] {
      ClaimLeavesPending(d, ids[1..], skip, now);
      ClaimLeavesPending(RunSteps(d, QuarantineSteps(d, ids[0])), ids[1..], skip, now);
    }
  }

  lemma {:induction false} GoneFromPending(d: Disk, ms: seq<Micro>, id: Id)
    requires Slot(Pending, id) !in d.files && forall m :: m in ms ==> LeavesPending(m)
    ensures Slot(Pending, id) !in RunSteps(d, ms).files
    decreases |ms|
  {
    if ms != [] {
      assert ms[0] in ms;
      assert forall m :: m in ms[1..] ==> m in ms;
      GoneFromPending(Apply(d, ms[0]), ms[1..], id);
    }
  }

  /** One quarantine: the name goes from `pending` to `failed`, other files stay, rows only go. */
  lemma QuarantineEffect(d: Disk, id: Id)
    requires Slot(Pending, id) in d.files && !Live(d, Slot(Pending, id))
    ensures var e := RunSteps(d, QuarantineSteps(d, id));
      && e.files == MoveFile(d.files, id, Pending, Failed)
      && (forall x :: Named(e, x) <==> Named(d, x))
      && (forall k :: k in e.rows <==> k in d.rows && !Forgotten(d, id, d.rows[k].itemId))
      && (forall k :: k in e.rows ==> e.rows[k] == d.rows[k])
  {
    var ms := QuarantineSteps(d, id);
    var e := RunSteps(d, ms);
    QuarantineForgets(d, id);
    if |ms| == 3 {
      RunThree(d, ms[0], ms[1], ms[2]);
      assert ms == [ms[0], ms[1], ms[2]];
    } else {
      RunTwo(d, ms[0], ms[1]);
      assert ms == [ms[0], ms[1]];
    }
    forall x ensures Named(e, x) <==> Named(d, x) {
      assert Slot(Pending, id) in d.files && Slot(Failed, id) in e.files;
      assert forall dir :: Slot(dir, x) != Slot(Pending, id) && Slot(dir, x) in d.files ==> Slot(dir, x) in e.files;
      assert forall dir :: Slot(dir, x) != Slot(Failed, id) && Slot(dir, x) in e.files ==> Slot(dir, x) in d.files;
    }
  }

  /** A quarantine cut off anywhere. */
  lemma QuarantinePoint(d: Disk, id: Id, skip: set<Id>, k: nat, key: Key)
    requires Slot(Pending, id) in d.files && !Live(d, Slot(Pending, id)) && id !in skip
    requires k <= |QuarantineSteps(d, id)| && key in d.rows
    requires key !in RunSteps(d, QuarantineSteps(d, id)[..k]).rows
    ensures QuarantinedWith(d, RunSteps(d, QuarantineSteps(d, id)[..k]), skip, id, d.rows[key].itemId)
  {
    var ms := QuarantineSteps(d, id);
    if k == 2 {
      RunTwo(d, ms[0], ms[1]);
      assert ms[..k] == [ms[0], ms[1]];
    } else if k == |ms| {
      assert ms[..k] == ms;
      QuarantineEffect(d, id);
    }
  }

  /** A claim, cut off anywhere, forgets only rows of files it quarantined. */
  lemma {:induction false} ClaimForgets(d: Disk, ids: seq<Id>, skip: set<Id>, now: Time, k: nat, key: Key)
    returns (x: Id)
    requires Increasing(ids) && forall i :: i in ids ==> Slot(Pending, i) in d.files
    requires k <= |ClaimFrom(d, ids, skip, now)| && key in d.rows
    requires key !in RunSteps(d, ClaimFrom(d, ids, skip, now)[..k]).rows
    ensures x in ids
    ensures QuarantinedWith(d, RunSteps(d, ClaimFrom(d, ids, skip, now)[..k]), skip, x, d.rows[key].itemId)
    decreases |ids|
  {
    var all := ClaimFrom(d, ids, skip, now);
    if ids[0] in skip {
      x := ClaimForgets(d, ids[1..], skip, now, k, key);
    } else if Live(d, Slot(Pending, ids[0])) {
      PrefixKeepsRows(d, all, k);
    } else {
      assert ids[0] in ids;
      var ms := QuarantineSteps(d, ids[0]);
      if k <= |ms| {
        assert all[..k] == ms[..k];
        QuarantinePoint(d, ids[0], skip, k, key);
        x := ids[0];
      } else {
        x := ClaimForgetsLater(d, ids, skip, now, k, key);
      }
    }
  }

  /** The first file is quarantined, and the claim goes on. */
  lemma {:induction false} ClaimForgetsLater(d: Disk, ids: seq<Id>, skip: set<Id>, now: Time, k: nat, key: Key)
    returns (x: Id)
    requires Increasing(ids) && ids != [] && forall i :: i in ids ==> Slot(Pending, i) in d.files
    requires ids[0] !in skip && !Live(d, Slot(Pending, ids[0]))
    requires |QuarantineSteps(d, ids[0])| < k <= |ClaimFrom(d, ids, skip, now)| && key in d.rows
    requires key !in RunSteps(d, ClaimFrom(d, ids, skip, now)[..k]).rows
    ensures x in ids
    ensures QuarantinedWith(d, RunSteps(d, ClaimFrom(d, ids, skip, now)[..k]), skip, x, d.rows[key].itemId)
    decreases |ids|, 0
  {
    assert ids[0] in ids;
    var ms := QuarantineSteps(d, ids[0]);
    var e := RunSteps(d, ms);
    var rest := ClaimFrom(e, ids[1..], skip, now);
    var n := k - |ms|;
    assert ClaimFrom(d, ids, skip, now)[..k] == ms + rest[..n];
    RunStepsConcat(d, ms, rest[..n]);
    QuarantineEffect(d, ids[0]);
    if key in e.rows {
      assert forall i :: i in ids[1..] ==> i != ids[0] && Slot(Pending, i) in e.files;
      x := ClaimForgets(e, ids[1..], skip, now, n, key);
      assert e.files[Slot(Pending, x)] == d.files[Slot(Pending, x)];
    } else {
      x := ids[0];
      ClaimLeavesPending(e, ids[1..], skip, now);
      assert forall m :: m in rest[..n] ==> m in rest;
      GoneFromPending(e, rest[..n], x);
    }
  }

  /* ---- what a run forgets ---- */

  /** The event is a cleanup in which the row expired, or a claim that quarantined a file the row goes with. */
  ghost predicate Forgets(s: Sys, e: Event, t: Sys, row: Row) {
    (e.Do? || e.Die?) &&
    match e.op
    case Cleanup(dir, _, _, purge) => Expired(row, StatusOf(dir), purge)
    case Claim(skip) => exists x :: QuarantinedWith(s.disk, t.disk, skip, x, row.itemId)
    case _ => false
  }

  lemma OpForgetsOnly(p: Params, s: Sys, op: Op, k: nat, t: Sys, key: Key)
    requires OpEnabled(p, s, op) && k <= |OpSteps(p, s, op)|
    requires t.disk == RunSteps(s.disk, OpSteps(p, s, op)[..k])
    requires key in s.disk.rows && key !in t.disk.rows
    ensures Forgets(s, Do(op), t, s.disk.rows[key])
  {
    if op.Cleanup? {
      CleanupForgets(s.disk, op.dir, op.expiry, op.age, op.purge, k, key);
    } else if op.Claim? {
      var x := ClaimForgets(s.disk, Listing(s.disk, Pending), op.skip, s.clock, k, key);
    } else {
      OpForgetsNothing(p, s, op);
      PrefixKeepsRows(s.disk, OpSteps(p, s, op), k);
    }
  }

  /** Rows disappear when they expire in a cleanup or go with a quarantined file, and at no other time. */
  lemma RowsAreForgottenOnlyThere(p: Params, s: Sys, e: Event, key: Key)
    requires Enabled(p, s, e) && key in s.disk.rows && key !in Next(p, s, e).disk.rows
    ensures Forgets(s, e, Next(p, s, e), s.disk.rows[key])
  {
    match e
    case Boot(_) =>
      BootForgetsNothing(s.disk, s.clock);
      RowsKept(s.disk, BootSteps(s.disk, s.clock));
    case BootCrash(k) =>
      var ms := BootSteps(s.disk, s.clock);
      BootForgetsNothing(s.disk, s.clock);
      PrefixKeepsRows(s.disk, ms, Min(k, |ms|));
    case Do(op) =>
      var ms := OpSteps(p, s, op);
      assert ms[..|ms|] == ms;
      OpForgetsOnly(p, s, op, |ms|, Next(p, s, e), key);
    case Die(op, k) =>
      OpForgetsOnly(p, s, op, Min(k, |OpSteps(p, s, op)|), Next(p, s, e), key);
    case _ =>
  }

  /* ---- what is new ---- */

  /** The digest of a message under a window, with its own time or else the time it was first seen. */
  ghost function DigestOf(p: Params, sms: Sms, seen: Time, window: nat): Key {
    match sms.timestamp
    case Some(t) => p.digest(sms.number, sms.text, t, window)
    case None => p.digest(sms.number, sms.text, seen, window)
  }

  /** A readable file of `pending`, under its own name, holds a message with this digest. */
  ghost predicate PendingWith(p: Params, s: Sys, x: Id, key: Key) {
    && Slot(Pending, x) in s.disk.files
    && match s.disk.files[Slot(Pending, x)]
       case Doc(item, _) =>
         item.id == x && (item.key == key || DigestOf(p, item.sms, item.firstSeen, s.window) == key)
       case Junk(_) => false
  }

  /**
    A message is accepted if and only if its digest has no row and no readable
    pending file holds a message with it, under the stored digest or today's.
    What is stored is the message itself, with that digest and no attempts.
   */
  lemma AcceptedIffNew(p: Params, s: Sys, sms: Sms, id: Id, born: Time)
    requires Reachable(p, s) && OpEnabled(p, s, Enqueue(sms, id, born))
    ensures var key := DigestOf(p, sms, born, s.window);
      var t := Next(p, s, Do(Enqueue(sms, id, born)));
      if key !in s.disk.rows && forall x :: !PendingWith(p, s, x, key) then
        && t.disk.files ==
             s.disk.files[Slot(Pending, id) := Doc(Item(id, sms, born, key, 0, None, false, None), s.clock)]
        && t.disk.rows == s.disk.rows[key := Row(id, s.clock, PENDING, s.clock)]
      else t.disk.files == s.disk.files && Slot(Pending, id) !in t.disk.files
  {
    ReachableInv(p, s);
    IdsAreFresh(p, s, id);
    NewIff(p, s, DigestOf(p, sms, born, s.window));
    EnqueueStores(p, s, sms, id, born);
  }

  lemma EnqueueStores(p: Params, s: Sys, sms: Sms, id: Id, born: Time)
    requires OpEnabled(p, s, Enqueue(sms, id, born)) && Unused(s.disk, id)
    ensures var key := DigestOf(p, sms, born, s.window);
      var t := Next(p, s, Do(Enqueue(sms, id, born)));
      if EnqueueAccepts(Cfg(p, s), s.disk, key) then
        && t.disk.files ==
             s.disk.files[Slot(Pending, id) := Doc(Item(id, sms, born, key, 0, None, false, None), s.clock)]
        && t.disk.rows == s.disk.rows[key := Row(id, s.clock, PENDING, s.clock)]
      else t.disk.files == s.disk.files && Slot(Pending, id) !in t.disk.files
  {
    EnqueueKnows(Cfg(p, s), s.disk, NewItem(Cfg(p, s), sms, id, born), s.clock);
  }

  lemma NewIff(p: Params, s: Sys, key: Key)
    ensures EnqueueAccepts(Cfg(p, s), s.disk, key) <==>
      key !in s.disk.rows && forall x :: !PendingWith(p, s, x, key)
  {
    var cfg := Cfg(p, s);
    PendingDuplicateMeaning(cfg, s.disk, key);
    forall x ensures PendingWith(p, s, x, key) <==>
      Live(s.disk, Slot(Pending, x)) && AnswersTo(cfg, ItemAt(s.disk, Slot(Pending, x)), key)
    {
    }
    if PendingDuplicate(cfg, s.disk, key).Some? {
      assert PendingWith(p, s, PendingDuplicate(cfg, s.disk, key).value.id, key);
    }
  }

  /**
    So a message whose digest differs from those of all accepted items, as they
    were stored and as they would be today, is accepted.
   */
  lemma UnlikeAllIsAccepted(p: Params, s: Sys, sms: Sms, id: Id, born: Time)
    requires Reachable(p, s) && OpEnabled(p, s, Enqueue(sms, id, born))
    requires forall x :: x in s.ledger.accepted ==>
      var a := s.ledger.accepted[x];
      a.key != DigestOf(p, sms, born, s.window) &&
      DigestOf(p, a.sms, a.firstSeen, s.window) != DigestOf(p, sms, born, s.window)
    ensures var t := Next(p, s, Do(Enqueue(sms, id, born)));
      && Slot(Pending, id) !in s.disk.files && Slot(Pending, id) in t.disk.files
      && t.disk.files[Slot(Pending, id)].Doc? && t.disk.files[Slot(Pending, id)].item.sms == sms
  {
    var key := DigestOf(p, sms, born, s.window);
    ReachableInv(p, s);
    AcceptedIffNew(p, s, sms, id, born);
    IdsAreFresh(p, s, id);
    assert key in s.disk.rows ==> RowOnRecord(s.ledger, key, s.disk.rows[key].itemId);
    forall x ensures !PendingWith(p, s, x, key) {
      var slot := Slot(Pending, x);
      if slot in s.disk.files && Live(s.disk, slot) {
        assert OnRecord(s.ledger, ItemAt(s.disk, slot));
      }
    }
  }

  /** The stored digest of an accepted item is its digest under the window in force when it was accepted. */
  ghost predicate StoredDigest(p: Params, s: Sys, id: Id)
    requires id in s.ledger.accepted
  {
    var item := s.ledger.accepted[id];
    exists w: nat :: item.key == DigestOf(p, item.sms, item.firstSeen, w)
  }

  lemma StoredDigestNext(p: Params, s: Sys, e: Event)
    requires Enabled(p, s, e) && forall id :: id in s.ledger.accepted ==> StoredDigest(p, s, id)
    ensures forall id :: id in Next(p, s, e).ledger.accepted ==> StoredDigest(p, Next(p, s, e), id)
  {
    match e
    case Do(op) => StoredDigestAfter(p, s, op, |OpSteps(p, s, op)|, Next(p, s, e));
    case Die(op, k) => StoredDigestAfter(p, s, op, Min(k, |OpSteps(p, s, op)|), Next(p, s, e));
    case _ =>
      forall id | id in Next(p, s, e).ledger.accepted ensures StoredDigest(p, Next(p, s, e), id) {
        assert StoredDigest(p, s, id);
      }
  }

  lemma StoredDigestAfter(p: Params, s: Sys, op: Op, k: nat, t: Sys)
    requires OpEnabled(p, s, op) && k <= |OpSteps(p, s, op)| && t.ledger == LedgerAfter(p, s, op, k)
    requires forall id :: id in s.ledger.accepted ==> StoredDigest(p, s, id)
    ensures forall id :: id in t.ledger.accepted ==> StoredDigest(p, t, id)
  {
    LedgerAfterKeeps(p, s, op, k);
    NotesOnly(s.ledger, OpSteps(p, s, op)[..k]);
    forall id | id in t.ledger.accepted ensures StoredDigest(p, t, id) {
      if id in s.ledger.accepted {
        assert StoredDigest(p, s, id);
      } else {
        assert t.ledger.accepted[id] == NewItem(Cfg(p, s), op.sms, op.id, op.born);
        assert t.ledger.accepted[id].key == DigestOf(p, op.sms, op.born, s.window);
      }
    }
  }

  lemma {:induction false} StoredDigestsAfterRun(p: Params, s: Sys, es: seq<Event>, t: Sys)
    requires Run(p, s, es, t) && forall id :: id in s.ledger.accepted ==> StoredDigest(p, s, id)
    ensures forall id :: id in t.ledger.accepted ==> StoredDigest(p, t, id)
    decreases |es|
  {
    if es != [] {
      StoredDigestNext(p, s, es[0]);
      StoredDigestsAfterRun(p, Next(p, s, es[0]), es[1..], t);
    }
  }

  lemma StoredKeyIsDigest(p: Params, s: Sys, id: Id)
    requires Reachable(p, s) && id in s.ledger.accepted
    ensures StoredDigest(p, s, id)
  {
    var clock, window, es :| Run(p, Initial(clock, window), es, s);
    StoredDigestsAfterRun(p, Initial(clock, window), es, s);
  }

  /* ---- what keeps a message out ---- */

  /** The item was cleaned away, or its file is not valid any more. */
  ghost predicate Lost(s: Sys, id: Id) {
    id in s.ledger.cleaned || exists dir :: Slot(dir, id) in s.disk.files && !Live(s.disk, Slot(dir, id))
  }

  /**
    In any state of any run, a key that an accepted item answers to is taken for
    a new message only if the item was cleaned away, its file is not valid any
    more, or it was stored under another key and has left `pending`.
   */
  lemma AcceptedAgainMeansLost(p: Params, s: Sys, id: Id, key: Key)
    requires Reachable(p, s) && s.up && id in s.ledger.accepted
    requires AnswersTo(Cfg(p, s), s.ledger.accepted[id], key) && EnqueueAccepts(Cfg(p, s), s.disk, key)
    ensures Lost(s, id) || (s.ledger.accepted[id].key != key && Slot(Pending, id) !in s.disk.files)
  {
    ReachableInv(p, s);
    PendingDuplicateMeaning(Cfg(p, s), s.disk, key);
    if !Lost(s, id) {
      assert Named(s.disk, id);
      var dir :| Slot(dir, id) in s.disk.files;
      var slot := Slot(dir, id);
      assert Live(s.disk, slot) && InStep(s.disk, slot) && OnRecord(s.ledger, ItemAt(s.disk, slot));
      assert forall other :: Slot(other, id) in s.disk.files ==> Slot(other, id) == slot;
    }
  }

  lemma AcceptedStaysNext(p: Params, s: Sys, e: Event, id: Id)
    requires Inv(p, s) && Enabled(p, s, e) && id in s.ledger.accepted
    ensures var t := Next(p, s, e); id in t.ledger.accepted && t.ledger.accepted[id] == s.ledger.accepted[id]
  {
    match e
    case Do(op) => LedgerAfterGrows(p, s, op, |OpSteps(p, s, op)|);
    case Die(op, k) => LedgerAfterGrows(p, s, op, Min(k, |OpSteps(p, s, op)|));
    case _ =>
  }

  /** Accepted items stay on record. */
  lemma {:induction false} AcceptedStays(p: Params, s: Sys, es: seq<Event>, t: Sys, id: Id)
    requires Inv(p, s) && Run(p, s, es, t) && id in s.ledger.accepted
    ensures id in t.ledger.accepted && t.ledger.accepted[id] == s.ledger.accepted[id]
    decreases |es|
  {
    if es != [] {
      AcceptedStaysNext(p, s, es[0], id);
      NextKeepsInv(p, s, es[0]);
      AcceptedStays(p, Next(p, s, es[0]), es[1..], t, id);
    }
  }

  /** Two readings of one message, wherever the modem keeps it. */
  predicate SameContent(a: Sms, b: Sms) {
    a.number == b.number && a.text == b.text && a.timestamp == b.timestamp
  }

  /** The accepted item that stands for an enqueued message. */
  ghost function OwnerOf(p: Params, s: Sys, op: Op): Id
    requires op.Enqueue?
  {
    CoveredBy(p, s, NewItem(Cfg(p, s), op.sms, op.id, op.born))
  }

  /**
    A message that carries its own timestamp, enqueued and then, after any run,
    enqueued again under the same window, is not accepted a second time unless
    the item that stands for it was cleaned away, its file is not valid any
    more, or it was stored under another window's key and has left `pending`.
   */
  lemma AcceptedOnce(p: Params, s: Sys, first: Op, es: seq<Event>, t: Sys, again: Op)
    requires Reachable(p, s) && OpEnabled(p, s, first) && first.Enqueue? && first.sms.timestamp.Some?
    requires Run(p, Next(p, s, Do(first)), es, t) && t.window == s.window
    requires OpEnabled(p, t, again) && again.Enqueue? && SameContent(first.sms, again.sms)
    ensures var owner := OwnerOf(p, s, first);
      var key := ContentKey(Cfg(p, t), again.sms, again.born);
      && owner in t.ledger.accepted
      && (Lost(t, owner)
          || (t.ledger.accepted[owner].key != key && Slot(Pending, owner) !in t.disk.files)
          || (!EnqueueAccepts(Cfg(p, t), t.disk, key) && Next(p, t, Do(again)).disk.files == t.disk.files))
    ensures EnqueueAccepts(Cfg(p, s), s.disk, ContentKey(Cfg(p, s), first.sms, first.born)) ==>
      OwnerOf(p, s, first) == first.id && first.id in t.ledger.accepted &&
      t.ledger.accepted[first.id].key == ContentKey(Cfg(p, t), again.sms, again.born)
  {
    var owner := OwnerOf(p, s, first);
    var key := ContentKey(Cfg(p, t), again.sms, again.born);
    var u := Next(p, s, Do(first));
    ReachableInv(p, s);
    EnqueueCovers(p, s, first);
    NextKeepsInv(p, s, Do(first));
    AcceptedStays(p, u, es, t, owner);
    ReachableLater(p, s, [Do(first)] + es, t);
    if EnqueueAccepts(Cfg(p, t), t.disk, key) {
      AcceptedAgainMeansLost(p, t, owner, key);
    } else {
      EnqueueKnows(Cfg(p, t), t.disk, NewItem(Cfg(p, t), again.sms, again.id, again.born), t.clock);
    }
  }

  lemma {:induction false} ReachableLater(p: Params, s: Sys, es: seq<Event>, t: Sys)
    requires Reachable(p, s) && Run(p, s, es, t)
    ensures Reachable(p, t)
    decreases |es|
  {
    if es != [] {
      ReachableOnward(p, s, es[0]);
      ReachableLater(p, Next(p, s, es[0]), es[1..], t);
    }
  }

  /**
    A message without a timestamp takes its key from the moment it is read. Read
    again after it was accepted, it is accepted again if and only if its key
    came out different and was not known before either.
   */
  lemma UntimedAcceptedAgainIff(cfg: Config, d: Disk, sms: Sms, a: Id, b: Id, born: Time, again: Time, now: Time)
    requires sms.timestamp.None?
    requires EnqueueAccepts(cfg, d, ContentKey(cfg, sms, born)) && Unused(d, a)
    ensures var e := RunSteps(d, EnqueueSteps(cfg, d, NewItem(cfg, sms, a, born), now));
      var key := NewItem(cfg, sms, b, again).key;
      EnqueueAccepts(cfg, e, key) <==>
        cfg.digest(sms.number, sms.text, again, cfg.window) != cfg.digest(sms.number, sms.text, born, cfg.window) &&
        EnqueueAccepts(cfg, d, key)
  {
    var item, copy := NewItem(cfg, sms, a, born), NewItem(cfg, sms, b, again);
    var e := RunSteps(d, EnqueueSteps(cfg, d, item, now));
    EnqueueKnows(cfg, d, item, now);
    PendingDuplicateMeaning(cfg, d, copy.key);
    PendingDuplicateMeaning(cfg, e, copy.key);
    var s0 := Slot(Pending, a);
    assert Live(e, s0) && ItemAt(e, s0) == item;
    assert s0 !in d.files;
    assert forall s :: Live(e, s) <==> s == s0 || Live(d, s);
    if PendingDuplicate(cfg, d, copy.key).Some? {
      assert Live(e, Slot(Pending, PendingDuplicate(cfg, d, copy.key).value.id));
    }
  }
}
