/**
  Startup. From any sound disk, reconciliation followed by the return of
  `processing` to `pending` restores the full invariant, and a crash anywhere
  inside startup leaves a disk from which startup works again.
 */
module Recovery {
  import opened Durable
  import opened QueueSpec
  import opened CrashSafety

  /** The row of a valid file carries the status of the file's directory. */
  ghost predicate Agreed(d: Disk, s: Slot)
    requires Live(d, s)
  {
    ItemAt(d, s).key in d.rows && d.rows[ItemAt(d, s).key].status == StatusOf(s.dir)
  }

  lemma ReconcileOne(d: Disk, now: Time, s: Slot)
    requires Sound(d, now) && Live(d, s) && s.dir != Processing
    ensures var m := Reconcile(ItemAt(d, s).key, s.id, StatusOf(s.dir), now);
      && Allowed(d, now, m)
      && Sound(Apply(d, m), now)
      && Apply(d, m).files == d.files
      && Live(Apply(d, m), s) && Agreed(Apply(d, m), s)
      && (forall t :: Live(d, t) && Agreed(d, t) ==> Agreed(Apply(d, m), t))
  {
    var key := ItemAt(d, s).key;
    var m := Reconcile(key, s.id, StatusOf(s.dir), now);
    assert forall t :: Live(d, t) && ItemAt(d, t).key == key ==> t == s;
    assert forall t :: Live(d, t) && t.id == s.id ==> t == s;
    AllowedKeepsSound(d, now, m);
    SameFiles(d, Apply(d, m));
  }

  /** Reconciling a listing is safe at every step, touches no file, and makes every listed file agree. */
  lemma {:induction false} ReconcileFiles(d: Disk, now: Time, dir: Dir, ids: seq<Id>)
    requires Sound(d, now) && dir != Processing
    ensures var ms := ReconcileFrom(d, dir, StatusOf(dir), ids, now);
      var e := RunSteps(d, ms);
      && AllowedRun(d, now, ms)
      && Sound(e, now)
      && e.files == d.files
      && (forall x :: x in ids && Live(d, Slot(dir, x)) ==> Agreed(e, Slot(dir, x)))
      && (forall t :: Live(d, t) && Agreed(d, t) ==> Agreed(e, t))
    decreases |ids|
  {
    if ids != [] {
      var s := Slot(dir, ids[0]);
      if Live(d, s) {
        ReconcileOne(d, now, s);
        var m := Reconcile(ItemAt(d, s).key, ids[0], StatusOf(dir), now);
        ReconcileFiles(Apply(d, m), now, dir, ids[1..]);
        SameFiles(d, Apply(d, m));
        var ms := ReconcileFrom(d, dir, StatusOf(dir), ids, now);
        assert ms[0] == m && ms[1..] == ReconcileFrom(Apply(d, m), dir, StatusOf(dir), ids[1..], now);
      } else {
        ReconcileFiles(d, now, dir, ids[1..]);
      }
    }
  }

  /** Reconciling a whole directory. */
  lemma ReconcileDirectory(d: Disk, now: Time, dir: Dir)
    requires Sound(d, now) && dir != Processing
    ensures var ms := ReconcileDirSteps(d, dir, StatusOf(dir), now);
      var e := RunSteps(d, ms);
      && AllowedRun(d, now, ms)
      && Sound(e, now)
      && e.files == d.files
      && (forall t :: Live(d, t) && (t.dir == dir || Agreed(d, t)) ==> Agreed(e, t))
  {
    ReconcileFiles(d, now, dir, Listing(d, dir));
    forall t | Live(d, t) && t.dir == dir ensures t.id in Listing(d, dir) {
      assert Slot(dir, t.id) in d.files;
    }
  }

  /** After initialization every valid pending, sent and failed file has a row with its directory's status. */
  lemma InitializeAgrees(d: Disk, now: Time)
    requires Sound(d, now)
    ensures var ms := InitializeSteps(d, now);
      var e := RunSteps(d, ms);
      && AllowedRun(d, now, ms)
      && Sound(e, now)
      && e.files == d.files
      && (forall t :: Live(d, t) && t.dir != Processing ==> Agreed(e, t))
  {
    var a := ReconcileDirSteps(d, Pending, PENDING, now);
    var d1 := RunSteps(d, a);
    var b := ReconcileDirSteps(d1, Sent, SENT, now);
    var d2 := RunSteps(d1, b);
    var c := ReconcileDirSteps(d2, Failed, FAILED, now);
    ReconcileDirectory(d, now, Pending);
    ReconcileDirectory(d1, now, Sent);
    ReconcileDirectory(d2, now, Failed);
    SameFiles(d, d1);
    SameFiles(d1, d2);
    AllowedRunConcat(d1, now, b, c);
    RunStepsConcat(d1, b, c);
    AllowedRunConcat(d, now, a, b + c);
    RunStepsConcat(d, a, b + c);
  }

  /** Everything outside `processing` is in step; what is inside is still unfinished. */
  ghost predicate Recovering(d: Disk, now: Time) {
    Sound(d, now) && forall s :: Live(d, s) && s.dir != Processing ==> InStep(d, s)
  }

  lemma RecoverOne(d: Disk, now: Time, id: Id)
    requires Recovering(d, now) && Slot(Processing, id) in d.files
    ensures Recovering(Apply(d, Move(id, Processing, Pending)), now)
    ensures forall x :: Slot(Processing, x) in Apply(d, Move(id, Processing, Pending)).files <==>
      x != id && Slot(Processing, x) in d.files
  {
    MoveKeepsSound(d, now, id, Processing, Pending);
    MoveEffect(d, id, Processing, Pending);
  }

  lemma {:induction false} RecoverFiles(d: Disk, now: Time, ids: seq<Id>)
    requires Recovering(d, now) && Increasing(ids)
    requires forall x :: x in ids <==> Slot(Processing, x) in d.files
    ensures AllowedRun(d, now, RecoverFrom(ids))
    ensures Quiescent(RunSteps(d, RecoverFrom(ids)), now)
    decreases |ids|
  {
    if ids != [] {
      assert ids[0] in ids;
      var m := Move(ids[0], Processing, Pending);
      RecoverOne(d, now, ids[0]);
      assert forall x :: x in ids[1..] <==> x in ids && x != ids[0] by {
        forall x | x in ids && x != ids[0] ensures x in ids[1..] {
          var i :| 0 <= i < |ids| && ids[i] == x;
          assert ids[1..][i - 1] == x;
        }
      }
      RecoverFiles(Apply(d, m), now, ids[1..]);
      assert RecoverFrom(ids)[0] == m && RecoverFrom(ids)[1..] == RecoverFrom(ids[1..]);
    } else {
      assert forall s :: s in d.files && s.dir == Processing ==> s.id in ids;
    }
  }

  /**
    Crash recovery: from any sound disk startup restores the whole invariant
    with `processing` empty, and every point at which startup itself may be
    cut off is sound again.
   */
  lemma BootRestores(d: Disk, now: Time)
    requires Sound(d, now)
    ensures AllowedRun(d, now, BootSteps(d, now))
    ensures Quiescent(RunSteps(d, BootSteps(d, now)), now)
    ensures forall k :: 0 <= k <= |BootSteps(d, now)| ==> Sound(RunSteps(d, BootSteps(d, now)[..k]), now)
  {
    var a := InitializeSteps(d, now);
    var e := RunSteps(d, a);
    InitializeAgrees(d, now);
    SameFiles(d, e);
    assert Recovering(e, now);
    RecoverFiles(e, now, Listing(e, Processing));
    AllowedRunConcat(d, now, a, RecoverSteps(e));
    RunStepsConcat(d, a, RecoverSteps(e));
    forall k | 0 <= k <= |BootSteps(d, now)| ensures Sound(RunSteps(d, BootSteps(d, now)[..k]), now) {
      EveryCrashPointIsSound(d, now, BootSteps(d, now), k);
    }
  }

  /* ---- What startup does to the rows ---- */

  ghost predicate SameRow(a: map<Key, Row>, b: map<Key, Row>, k: Key) {
    (k in a <==> k in b) && (k in a ==> a[k] == b[k])
  }

  /** No listed valid file has this key. */
  ghost predicate Unlisted(d: Disk, dir: Dir, ids: seq<Id>, k: Key) {
    forall x :: x in ids && Live(d, Slot(dir, x)) ==> ItemAt(d, Slot(dir, x)).key != k
  }

  lemma {:induction false} ReconcileRows(d: Disk, now: Time, dir: Dir, ids: seq<Id>, k: Key)
    requires Sound(d, now) && dir != Processing && Increasing(ids)
    ensures var e := RunSteps(d, ReconcileFrom(d, dir, StatusOf(dir), ids, now));
      && (Unlisted(d, dir, ids, k) ==> SameRow(d.rows, e.rows, k))
      && (forall x :: x in ids && Live(d, Slot(dir, x)) && ItemAt(d, Slot(dir, x)).key == k ==>
            SameRow(e.rows, ReconcileRow(d.rows, k, x, StatusOf(dir), now), k))
    decreases |ids|
  {
    if ids != [] {
      var s := Slot(dir, ids[0]);
      var rest := ids[1..];
      assert forall x :: x in ids ==> x == ids[0] || x in rest;
      if !Live(d, s) {
        ReconcileRows(d, now, dir, rest, k);
      } else {
        var m := Reconcile(ItemAt(d, s).key, ids[0], StatusOf(dir), now);
        var d1 := Apply(d, m);
        ReconcileOne(d, now, s);
        SameFiles(d, d1);
        ReconcileRows(d1, now, dir, rest, k);
        var ms := ReconcileFrom(d, dir, StatusOf(dir), ids, now);
        assert ms[0] == m && ms[1..] == ReconcileFrom(d1, dir, StatusOf(dir), rest, now);
        if ItemAt(d, s).key == k {
          assert Unlisted(d1, dir, rest, k) by {
            assert forall x :: x in rest ==> x != ids[0];
          }
        } else {
          assert SameRow(d.rows, d1.rows, k);
        }
      }
    }
  }

  lemma ReconcileDirectoryRows(d: Disk, now: Time, dir: Dir, k: Key)
    requires Sound(d, now) && dir != Processing
    ensures var e := RunSteps(d, ReconcileDirSteps(d, dir, StatusOf(dir), now));
      && (KeyFree(d, dir, k) ==> SameRow(d.rows, e.rows, k))
      && (forall t :: Live(d, t) && t.dir == dir && ItemAt(d, t).key == k ==>
            SameRow(e.rows, ReconcileRow(d.rows, k, t.id, StatusOf(dir), now), k))
  {
    ReconcileRows(d, now, dir, Listing(d, dir), k);
    forall t | Live(d, t) && t.dir == dir ensures t == Slot(dir, t.id) && t.id in Listing(d, dir) {
      assert Slot(dir, t.id) in d.files;
    }
  }

  /** The three directories are reconciled one after the other, on the same files. */
  lemma InitializeStages(d: Disk, now: Time) returns (d1: Disk, d2: Disk)
    requires Sound(d, now)
    ensures Sound(d1, now) && Sound(d2, now) && d1.files == d.files && d2.files == d.files
    ensures d1 == RunSteps(d, ReconcileDirSteps(d, Pending, PENDING, now))
    ensures d2 == RunSteps(d1, ReconcileDirSteps(d1, Sent, SENT, now))
    ensures RunSteps(d, InitializeSteps(d, now)) == RunSteps(d2, ReconcileDirSteps(d2, Failed, FAILED, now))
  {
    var a := ReconcileDirSteps(d, Pending, PENDING, now);
    d1 := RunSteps(d, a);
    var b := ReconcileDirSteps(d1, Sent, SENT, now);
    d2 := RunSteps(d1, b);
    var c := ReconcileDirSteps(d2, Failed, FAILED, now);
    ReconcileDirectory(d, now, Pending);
    ReconcileDirectory(d1, now, Sent);
    RunStepsConcat(d1, b, c);
    RunStepsConcat(d, a, b + c);
  }

  /** No valid file of this directory has the key. */
  ghost predicate KeyFree(d: Disk, dir: Dir, k: Key) {
    forall t :: Live(d, t) && t.dir == dir ==> ItemAt(d, t).key != k
  }

  lemma SameKeyFree(d: Disk, e: Disk, dir: Dir, k: Key)
    requires e.files == d.files
    ensures KeyFree(d, dir, k) == KeyFree(e, dir, k)
  {
    SameFiles(d, e);
  }

  /** A row no valid pending, sent or failed file owns is untouched by initialization. */
  lemma InitializeOtherRow(d: Disk, now: Time, k: Key)
    requires Sound(d, now) && KeyFree(d, Pending, k) && KeyFree(d, Sent, k) && KeyFree(d, Failed, k)
    ensures SameRow(d.rows, RunSteps(d, InitializeSteps(d, now)).rows, k)
  {
    var d1, d2 := InitializeStages(d, now);
    SameKeyFree(d, d1, Sent, k);
    SameKeyFree(d, d2, Failed, k);
    ReconcileDirectoryRows(d, now, Pending, k);
    ReconcileDirectoryRows(d1, now, Sent, k);
    ReconcileDirectoryRows(d2, now, Failed, k);
  }

  /**
    The row of a valid pending, sent or failed file is created or restamped
    only when it is missing or its status differs, so a row that agreed keeps
    its timestamp.
   */
  lemma InitializeOwnRow(d: Disk, now: Time, t: Slot)
    requires Sound(d, now) && Live(d, t) && t.dir != Processing
    ensures var k := ItemAt(d, t).key;
      SameRow(RunSteps(d, InitializeSteps(d, now)).rows, ReconcileRow(d.rows, k, t.id, StatusOf(t.dir), now), k)
  {
    var k := ItemAt(d, t).key;
    var d1, d2 := InitializeStages(d, now);
    assert Live(d1, t) && Live(d2, t) && ItemAt(d1, t).key == k && ItemAt(d2, t).key == k;
    forall dir | dir != t.dir ensures KeyFree(d, dir, k) && KeyFree(d1, dir, k) && KeyFree(d2, dir, k) {
      SameKeyFree(d, d1, dir, k);
      SameKeyFree(d, d2, dir, k);
    }
    ReconcileDirectoryRows(d, now, Pending, k);
    ReconcileDirectoryRows(d1, now, Sent, k);
    ReconcileDirectoryRows(d2, now, Failed, k);
  }

  /* ---- Idempotence ---- */

  lemma {:induction false} ReconcileChangesNothing(d: Disk, now: Time, dir: Dir, ids: seq<Id>)
    requires forall t :: Live(d, t) && t.dir == dir ==> Agreed(d, t)
    ensures RunSteps(d, ReconcileFrom(d, dir, StatusOf(dir), ids, now)) == d
    decreases |ids|
  {
    if ids != [] {
      ReconcileChangesNothing(d, now, dir, ids[1..]);
      if Live(d, Slot(dir, ids[0])) {
        var m := Reconcile(ItemAt(d, Slot(dir, ids[0])).key, ids[0], StatusOf(dir), now);
        assert Agreed(d, Slot(dir, ids[0]));
        assert Apply(d, m) == d;
        var ms := ReconcileFrom(d, dir, StatusOf(dir), ids, now);
        assert ms[0] == m && ms[1..] == ReconcileFrom(d, dir, StatusOf(dir), ids[1..], now);
      }
    }
  }

  /** On a disk where statuses agree, initialization changes nothing. */
  lemma InitializeOnAgreedDisk(d: Disk, now: Time)
    requires forall t :: Live(d, t) && t.dir != Processing ==> Agreed(d, t)
    ensures RunSteps(d, InitializeSteps(d, now)) == d
  {
    var a := ReconcileDirSteps(d, Pending, PENDING, now);
    var b := ReconcileDirSteps(d, Sent, SENT, now);
    var c := ReconcileDirSteps(d, Failed, FAILED, now);
    ReconcileChangesNothing(d, now, Pending, Listing(d, Pending));
    ReconcileChangesNothing(d, now, Sent, Listing(d, Sent));
    ReconcileChangesNothing(d, now, Failed, Listing(d, Failed));
    RunStepsConcat(d, b, c);
    RunStepsConcat(d, a, b + c);
  }

  /** Reconciliation is idempotent: a second initialization, at any later time, changes nothing. */
  lemma InitializeIsIdempotent(d: Disk, now: Time, later: Time)
    requires Sound(d, now)
    ensures var e := RunSteps(d, InitializeSteps(d, now));
      RunSteps(e, InitializeSteps(e, later)) == e
  {
    InitializeAgrees(d, now);
    var e := RunSteps(d, InitializeSteps(d, now));
    SameFiles(d, e);
    InitializeOnAgreedDisk(e, later);
  }
}
