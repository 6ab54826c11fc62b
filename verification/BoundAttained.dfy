/**
  The bound on duplicate deliveries is exact: a process that dies between the
  successful send and the rename to `sent` sends again after every restart.
 */
module BoundAttained {
  import opened Prelude
  import opened Durable
  import opened QueueSpec
  import opened Bookkeeping
  import opened GatewaySystem
  import opened GatewayHistory

  lemma ListingIs(d: Disk, dir: Dir, ids: seq<Id>)
    requires Increasing(ids) && forall x :: x in ids <==> Slot(dir, x) in d.files
    ensures Listing(d, dir) == ids
  {
    var all := set x | x in ids;
    assert IsSorted(Listing(d, dir), all) && IsSorted(ids, all);
    SortedIsUnique(Listing(d, dir), ids, all);
  }

  /** The disk with one item, in one directory, under one row. */
  function OneItem(dir: Dir, item: Item, mtime: Time, row: Row): Disk {
    Disk(map[Slot(dir, item.id) := Doc(item, mtime)], map[item.key := row])
  }

  /** One fresh item is on the disk; it was sent `n` times. */
  ghost predicate Alone(s: Sys, dir: Dir, item: Item, n: nat) {
    && item.nextRetry.None?
    && Count(s.ledger.sends, item.id) == n
    && exists mtime, row :: s.disk == OneItem(dir, item, mtime, row)
  }

  lemma OneItemListing(d: Disk, dir: Dir, item: Item, mtime: Time, row: Row)
    requires d == OneItem(dir, item, mtime, row)
    ensures forall other :: Listing(d, other) == if other == dir then [item.id] else []
  {
    forall other ensures Listing(d, other) == if other == dir then [item.id] else [] {
      ListingIs(d, other, if other == dir then [item.id] else []);
    }
  }

  /** Startup puts the item that was being delivered back into `pending`. */
  lemma RebootReturnsIt(d: Disk, item: Item, mtime: Time, row: Row, now: Time)
    requires d == OneItem(Processing, item, mtime, row)
    ensures RunSteps(d, BootSteps(d, now)) == OneItem(Pending, item, mtime, row)
  {
    OneItemListing(d, Processing, item, mtime, row);
    assert ReconcileDirSteps(d, Pending, PENDING, now) == [];
    assert ReconcileDirSteps(d, Sent, SENT, now) == [];
    assert ReconcileDirSteps(d, Failed, FAILED, now) == [];
    assert InitializeSteps(d, now) == [];
    var m := Move(item.id, Processing, Pending);
    assert RunSteps(d, []) == d;
    assert [item.id][1..] == [];
    assert RecoverFrom([item.id]) == [m] + RecoverFrom([]);
    assert BootSteps(d, now) == [m];
    RunOne(d, m);
  }

  /** A claim takes the only item. */
  lemma ClaimTakesIt(d: Disk, item: Item, mtime: Time, row: Row, now: Time)
    requires d == OneItem(Pending, item, mtime, row)
    ensures ClaimResult(d, {}) == Some(item)
    ensures RunSteps(d, ClaimSteps(d, {}, now)) == OneItem(Processing, item, mtime, Restamp(row, PROCESSING, now))
  {
    OneItemListing(d, Pending, item, mtime, row);
    assert Live(d, Slot(Pending, item.id)) && ItemAt(d, Slot(Pending, item.id)) == item;
    var move, stamp := Move(item.id, Pending, Processing), SetStatus(item.key, PROCESSING, now);
    assert ClaimSteps(d, {}, now) == [move, stamp];
    RunTwo(d, move, stamp);
  }

  /** Claim, send, die: one more success, and the item is left in `processing`. */
  lemma SendAndDie(p: Params, s: Sys, item: Item, n: nat) returns (t: Sys)
    requires Reachable(p, s) && s.up && s.worker.Idle? && Alone(s, Pending, item, n)
    ensures Reachable(p, t) && !t.up && t.worker.Idle? && t.boots == s.boots && Alone(t, Processing, item, n + 1)
  {
    var mtime, row :| s.disk == OneItem(Pending, item, mtime, row);
    ClaimTakesIt(s.disk, item, mtime, row, s.clock);
    NotesOnly(s.ledger, OpSteps(p, s, Claim({})));
    assert OpSteps(p, s, Claim({}))[..|OpSteps(p, s, Claim({}))|] == OpSteps(p, s, Claim({}));
    var claimed := Next(p, s, Do(Claim({})));
    ReachableOnward(p, s, Do(Claim({})));
    assert claimed.worker == Claimed(item);
    var sent := Next(p, claimed, Deliver);
    ReachableOnward(p, claimed, Deliver);
    ReachableOnward(p, sent, Crash);
    t := Next(p, sent, Crash);
  }

  /** The first startup, on an empty state directory. */
  lemma FirstBoot(p: Params) returns (s: Sys)
    ensures Reachable(p, s) && s.up && s.worker.Idle? && s.boots == 1
    ensures s.disk == EMPTY_DISK && s.clock == 0 && s.ledger.accepted == map[] && s.ledger.sends == map[]
  {
    var start := Initial(0, 1);
    assert Run(p, start, [], start);
    assert forall dir :: Slot(dir, 1) !in start.disk.files;
    forall dir ensures Listing(start.disk, dir) == [] {
      ListingIs(start.disk, dir, []);
    }
    assert BootSteps(start.disk, 0) == [];
    ReachableOnward(p, start, Boot(1));
    s := Next(p, start, Boot(1));
  }

  lemma FirstItem(p: Params) returns (s: Sys, item: Item)
    ensures Reachable(p, s) && s.up && s.worker.Idle? && s.boots == 1 && Alone(s, Pending, item, 0)
  {
    var up := FirstBoot(p);
    ListingIs(up.disk, Pending, []);
    var sms := Sms("path", "number", "text", None);
    var op := Enqueue(sms, 1, 0);
    item := NewItem(Cfg(p, up), sms, 1, 0);
    var row := Row(1, 0, PENDING, 0);
    var ms := OpSteps(p, up, op);
    assert ms == [Write(Pending, item, 0), Insert(item.key, row)];
    RunTwo(up.disk, ms[0], ms[1]);
    NotesOnly(up.ledger, ms);
    assert ms[..|ms|] == ms;
    s := Next(p, up, Do(op));
    ReachableOnward(p, up, Do(op));
    assert s.disk == OneItem(Pending, item, 0, row);
  }

  /** For every n there is a run with n epochs in which one item is sent n times. */
  lemma {:induction false} BoundIsAttained(p: Params, n: nat) returns (s: Sys, item: Item)
    requires n >= 1
    ensures Reachable(p, s) && !s.up && s.worker.Idle? && s.boots == n && Alone(s, Processing, item, n)
    ensures Count(s.ledger.sends, item.id) == s.boots
  {
    if n == 1 {
      s, item := FirstItem(p);
      s := SendAndDie(p, s, item, 0);
    } else {
      s, item := BoundIsAttained(p, n - 1);
      var mtime, row :| s.disk == OneItem(Processing, item, mtime, row);
      RebootReturnsIt(s.disk, item, mtime, row, s.clock);
      ReachableOnward(p, s, Boot(s.window));
      s := Next(p, s, Boot(s.window));
      assert s.disk == OneItem(Pending, item, mtime, row);
      s := SendAndDie(p, s, item, n - 1);
    }
  }
}
