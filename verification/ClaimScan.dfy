/**
  What claiming does beyond safety: it finds the first valid pending item that
  is not skipped, and otherwise only moves files that are not valid.
 */
module ClaimScan {
  import opened Prelude
  import opened Durable
  import opened QueueSpec
  import opened CrashSafety
  import opened OperationSafety

  /** From `d` to `e`, valid files stay put; a file that is not valid may go from `pending` to `failed`. */
  ghost predicate OnlyQuarantined(d: Disk, e: Disk) {
    && (forall s :: Live(e, s) <==> Live(d, s))
    && (forall s :: Live(d, s) ==> e.files[s] == d.files[s])
    && (forall s :: s in e.files ==>
          || (s in d.files && e.files[s] == d.files[s])
          || (s.dir == Failed && Slot(Pending, s.id) in d.files && e.files[s] == d.files[Slot(Pending, s.id)]))
    && (forall s :: s in d.files ==>
          || s in e.files
          || (s.dir == Pending && Slot(Failed, s.id) in e.files && e.files[Slot(Failed, s.id)] == d.files[s]))
    && (forall x :: Slot(Processing, x) in e.files <==> Slot(Processing, x) in d.files)
  }

  lemma NothingQuarantined(d: Disk, e: Disk)
    requires e.files == d.files
    ensures OnlyQuarantined(d, e)
  {
  }

  lemma QuarantinedTwice(d: Disk, e: Disk, f: Disk)
    requires OnlyQuarantined(d, e) && OnlyQuarantined(e, f)
    ensures OnlyQuarantined(d, f)
  {
    forall s | s in f.files
      ensures (s in d.files && f.files[s] == d.files[s])
           || (s.dir == Failed && Slot(Pending, s.id) in d.files && f.files[s] == d.files[Slot(Pending, s.id)])
    {
      if s in e.files && f.files[s] == e.files[s] {
      } else {
        assert Slot(Pending, s.id) in e.files;
      }
    }
    forall s | s in d.files && s !in f.files
      ensures s.dir == Pending && Slot(Failed, s.id) in f.files && f.files[Slot(Failed, s.id)] == d.files[s]
    {
      if s in e.files {
        assert s.dir == Pending;
        assert e.files[s] == d.files[s];
      } else {
        assert Slot(Failed, s.id) in e.files;
        assert Slot(Failed, s.id) in f.files;
      }
    }
  }

  lemma QuarantineOne(d: Disk, id: Id, now: Time)
    requires Settled(d, now) && Slot(Pending, id) in d.files && !Live(d, Slot(Pending, id))
    ensures OnlyQuarantined(d, RunSteps(d, QuarantineSteps(d, id)))
  {
    QuarantineSafe(d, id, now);
    var e := RunSteps(d, QuarantineSteps(d, id));
    assert forall s: Slot :: s.id != id ==> (s in e.files <==> s in d.files);
  }

  /** A claim is some quarantining, then one rename. */
  lemma {:induction false} ClaimFromEffect(d: Disk, ids: seq<Id>, skip: set<Id>, now: Time) returns (mid: Disk)
    requires Settled(d, now) && Increasing(ids)
    requires forall x :: x in ids ==> Slot(Pending, x) in d.files
    ensures OnlyQuarantined(d, mid)
    ensures var e := RunSteps(d, ClaimFrom(d, ids, skip, now));
      match ClaimResultFrom(d, ids, skip)
      case None => e.files == mid.files
      case Some(item) => e.files == MoveFile(mid.files, item.id, Pending, Processing)
    decreases |ids|
  {
    mid := d;
    NothingQuarantined(d, d);
    if ids != [] {
      assert ids[0] in ids;
      if ids[0] in skip {
        mid := ClaimFromEffect(d, ids[1..], skip, now);
      } else if Live(d, Slot(Pending, ids[0])) {
        TakeSafe(d, ItemAt(d, Slot(Pending, ids[0])), now);
      } else {
        var ms := QuarantineSteps(d, ids[0]);
        var e := RunSteps(d, ms);
        QuarantineSafe(d, ids[0], now);
        QuarantineOne(d, ids[0], now);
        assert forall x :: x in ids[1..] ==> x != ids[0];
        mid := ClaimFromEffect(e, ids[1..], skip, now);
        ScanUnchanged(d, e, ids[1..], skip);
        RunStepsConcat(d, ms, ClaimFrom(e, ids[1..], skip, now));
        QuarantinedTwice(d, e, mid);
      }
    }
  }

  /** The scan stops at the first valid file that is not skipped. */
  lemma {:induction false} ClaimResultIsFirst(d: Disk, ids: seq<Id>, skip: set<Id>)
    requires Increasing(ids)
    ensures match ClaimResultFrom(d, ids, skip)
      case None => forall x :: x in ids && Live(d, Slot(Pending, x)) ==> x in skip
      case Some(item) =>
        && item.id in ids && item.id !in skip
        && Live(d, Slot(Pending, item.id)) && ItemAt(d, Slot(Pending, item.id)) == item
        && (forall x :: x in ids && x < item.id && Live(d, Slot(Pending, x)) ==> x in skip)
    decreases |ids|
  {
    if ids != [] {
      ClaimResultIsFirst(d, ids[1..], skip);
      assert forall x :: x in ids <==> x == ids[0] || x in ids[1..];
      assert forall x :: x in ids[1..] ==> ids[0] < x;
    }
  }

  /**
    claim_next refines its one-line specification: it returns the least id
    among the valid pending items that are not skipped, and None only when
    every valid pending item is skipped.
   */
  lemma ClaimIsLeast(d: Disk, skip: set<Id>)
    ensures match ClaimResult(d, skip)
      case None => forall x :: Live(d, Slot(Pending, x)) ==> x in skip
      case Some(item) =>
        && item.id !in skip
        && Live(d, Slot(Pending, item.id)) && ItemAt(d, Slot(Pending, item.id)) == item
        && (forall x :: x < item.id && Live(d, Slot(Pending, x)) ==> x in skip)
  {
    ClaimResultIsFirst(d, Listing(d, Pending), skip);
  }

  lemma ClaimEffect(d: Disk, skip: set<Id>, now: Time) returns (mid: Disk)
    requires Settled(d, now)
    ensures OnlyQuarantined(d, mid)
    ensures var e := RunSteps(d, ClaimSteps(d, skip, now));
      match ClaimResult(d, skip)
      case None => e.files == mid.files
      case Some(item) => e.files == MoveFile(mid.files, item.id, Pending, Processing)
  {
    mid := ClaimFromEffect(d, Listing(d, Pending), skip, now);
  }

  /** Claiming an item and moving it back leaves nothing changed but the quarantine. */
  lemma ClaimThenBack(d: Disk, item: Item, mid: Disk, e: Disk, f: Disk)
    requires OnlyQuarantined(d, mid) && ProcessingWithin(d, {})
    requires Live(d, Slot(Pending, item.id))
    requires e.files == MoveFile(mid.files, item.id, Pending, Processing)
    requires f.files == MoveFile(e.files, item.id, Processing, Pending)
    ensures OnlyQuarantined(d, f)
  {
    assert Slot(Processing, item.id) !in mid.files;
    assert f.files == mid.files;
    NothingQuarantined(mid, f);
    QuarantinedTwice(d, mid, f);
  }
}
