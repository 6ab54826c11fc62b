/**
  Every operation of a running gateway, started from a settled disk, passes
  only through sound disks and ends in a settled one, whatever the worker holds.
 */
module OperationSafety {
  import opened Prelude
  import opened Durable
  import opened QueueSpec
  import opened CrashSafety

  /** Fresh ids: no file and no row has used it. */
  ghost predicate Unused(d: Disk, id: Id) {
    !Named(d, id) && forall k :: k in d.rows ==> d.rows[k].itemId != id
  }

  /** Only these ids may be in `processing`. */
  ghost predicate ProcessingWithin(d: Disk, ids: set<Id>) {
    forall s :: s in d.files && s.dir == Processing ==> s.id in ids
  }

  /** What an operation must guarantee: permitted steps only, and a settled end. */
  ghost predicate OpSafe(d: Disk, now: Time, ms: seq<Micro>) {
    AllowedRun(d, now, ms) && Settled(RunSteps(d, ms), now)
  }

  lemma OpSafeConcat(d: Disk, now: Time, a: seq<Micro>, b: seq<Micro>)
    requires OpSafe(d, now, a) && OpSafe(RunSteps(d, a), now, b)
    ensures OpSafe(d, now, a + b) && RunSteps(d, a + b) == RunSteps(RunSteps(d, a), b)
  {
    AllowedRunConcat(d, now, a, b);
    RunStepsConcat(d, a, b);
  }

  lemma AllowedOne(d: Disk, now: Time, a: Micro)
    requires Allowed(d, now, a)
    ensures AllowedRun(d, now, [a]) && RunSteps(d, [a]) == Apply(d, a)
  {
    assert [a][1..] == [];
  }

  lemma AllowedTwo(d: Disk, now: Time, a: Micro, b: Micro)
    requires Allowed(d, now, a) && Allowed(Apply(d, a), now, b)
    ensures AllowedRun(d, now, [a, b]) && RunSteps(d, [a, b]) == Apply(Apply(d, a), b)
  {
    AllowedOne(Apply(d, a), now, b);
    assert [a, b][1..] == [b];
  }

  lemma AllowedThree(d: Disk, now: Time, a: Micro, b: Micro, c: Micro)
    requires Allowed(d, now, a) && Allowed(Apply(d, a), now, b) && Allowed(Apply(Apply(d, a), b), now, c)
    ensures AllowedRun(d, now, [a, b, c]) && RunSteps(d, [a, b, c]) == Apply(Apply(Apply(d, a), b), c)
  {
    AllowedTwo(Apply(d, a), now, b, c);
    assert [a, b, c][1..] == [b, c];
  }

  /* ---- enqueue ---- */

  lemma {:induction false} FindDuplicateMeaning(cfg: Config, d: Disk, ids: seq<Id>, key: Key)
    ensures match FindDuplicate(cfg, d, ids, key)
      case None =>
        forall x :: x in ids && Live(d, Slot(Pending, x)) ==> !AnswersTo(cfg, ItemAt(d, Slot(Pending, x)), key)
      case Some(dup) => dup.id in ids && Live(d, Slot(Pending, dup.id)) && ItemAt(d, Slot(Pending, dup.id)) == dup &&
                        AnswersTo(cfg, dup, key)
    decreases |ids|
  {
    if ids != [] {
      FindDuplicateMeaning(cfg, d, ids[1..], key);
      assert forall x :: x in ids ==> x == ids[0] || x in ids[1..];
    }
  }

  lemma PendingDuplicateMeaning(cfg: Config, d: Disk, key: Key)
    ensures match PendingDuplicate(cfg, d, key)
      case None => forall s :: Live(d, s) && s.dir == Pending ==> !AnswersTo(cfg, ItemAt(d, s), key)
      case Some(dup) =>
        Live(d, Slot(Pending, dup.id)) && ItemAt(d, Slot(Pending, dup.id)) == dup && AnswersTo(cfg, dup, key)
  {
    FindDuplicateMeaning(cfg, d, Listing(d, Pending), key);
    forall s | Live(d, s) && s.dir == Pending ensures s == Slot(Pending, s.id) && s.id in Listing(d, Pending) {
      assert Slot(Pending, s.id) in d.files;
    }
  }

  lemma EnqueueSafe(cfg: Config, d: Disk, item: Item, now: Time)
    requires Settled(d, now) && Unused(d, item.id) && item.firstSeen <= now
    ensures var ms := EnqueueSteps(cfg, d, item, now);
      && OpSafe(d, now, ms)
      && (forall h :: HeldOk(d, h) ==> HeldOk(RunSteps(d, ms), h))
      && (forall x :: Slot(Processing, x) in RunSteps(d, ms).files <==> Slot(Processing, x) in d.files)
  {
    PendingDuplicateMeaning(cfg, d, item.key);
    if item.key !in d.rows {
      match PendingDuplicate(cfg, d, item.key)
      case Some(dup) =>
        if dup.key == item.key {
          EnqueueRepairs(d, dup, now);
          AllowedOne(d, now, Insert(item.key, Row(dup.id, now, PENDING, now)));
        }
      case None =>
        assert forall s :: Live(d, s) ==> ItemAt(d, s).key != item.key;
        EnqueueAdds(d, item, now);
        AllowedTwo(d, now, Write(Pending, item, now), Insert(item.key, Row(item.id, now, PENDING, now)));
    }
  }

  lemma EnqueueRepairs(d: Disk, dup: Item, now: Time)
    requires Settled(d, now) && Live(d, Slot(Pending, dup.id)) && ItemAt(d, Slot(Pending, dup.id)) == dup
    requires dup.key !in d.rows
    ensures var m := Insert(dup.key, Row(dup.id, now, PENDING, now));
      && Allowed(d, now, m) && Settled(Apply(d, m), now) && Apply(d, m).files == d.files
      && (forall h :: HeldOk(d, h) ==> HeldOk(Apply(d, m), h))
  {
    var s := Slot(Pending, dup.id);
    var m := Insert(dup.key, Row(dup.id, now, PENDING, now));
    assert forall t :: Live(d, t) && (t.id == dup.id || ItemAt(d, t).key == dup.key) ==> t == s;
    AllowedKeepsSound(d, now, m);
    SameFiles(d, Apply(d, m));
    forall h | HeldOk(d, h) ensures HeldOk(Apply(d, m), h) {
      assert h.id != dup.id;
    }
  }

  lemma EnqueueAdds(d: Disk, item: Item, now: Time)
    requires Settled(d, now) && Unused(d, item.id) && item.firstSeen <= now
    requires item.key !in d.rows && forall s :: Live(d, s) ==> ItemAt(d, s).key != item.key
    ensures var w := Write(Pending, item, now);
      var i := Insert(item.key, Row(item.id, now, PENDING, now));
      var e := Apply(Apply(d, w), i);
      && Allowed(d, now, w) && Allowed(Apply(d, w), now, i) && Settled(e, now)
      && (forall h :: HeldOk(d, h) ==> HeldOk(e, h))
      && (forall x :: Slot(Processing, x) in e.files <==> Slot(Processing, x) in d.files)
  {
    var w := Write(Pending, item, now);
    var d1 := Apply(d, w);
    var i := Insert(item.key, Row(item.id, now, PENDING, now));
    EnqueueWrites(d, item, now);
    AllowedKeepsSound(d1, now, i);
    SameFiles(d1, Apply(d1, i));
    forall s | Live(d1, s) ensures InStep(Apply(d1, i), s) {
      assert s != Slot(Pending, item.id) ==> InStep(d, s);
    }
  }

  /** The first step: the file of a fresh item appears in `pending`. */
  lemma EnqueueWrites(d: Disk, item: Item, now: Time)
    requires Settled(d, now) && Unused(d, item.id) && item.firstSeen <= now
    requires item.key !in d.rows && forall s :: Live(d, s) ==> ItemAt(d, s).key != item.key
    ensures var w := Write(Pending, item, now);
      var e := Apply(d, w);
      && Allowed(d, now, w) && Sound(e, now)
      && (forall s :: s in d.files ==> s.id != item.id)
      && (forall s :: Live(e, s) <==> s == Slot(Pending, item.id) || Live(d, s))
      && (forall s :: Live(e, s) ==> ItemAt(e, s) == if s == Slot(Pending, item.id) then item else ItemAt(d, s))
  {
    forall s | s in d.files ensures s.id != item.id {
      assert Slot(s.dir, s.id) == s;
    }
    AllowedKeepsSound(d, now, Write(Pending, item, now));
  }

  /** After enqueue the message is known: its key has a row, or a valid pending file answers to it. */
  lemma EnqueueKnows(cfg: Config, d: Disk, item: Item, now: Time)
    ensures var e := RunSteps(d, EnqueueSteps(cfg, d, item, now));
      item.key in e.rows ||
      exists s :: Live(e, s) && s.dir == Pending && AnswersTo(cfg, ItemAt(e, s), item.key)
    ensures EnqueueAccepts(cfg, d, item.key) ==>
      var e := RunSteps(d, EnqueueSteps(cfg, d, item, now));
      && e.files == d.files[Slot(Pending, item.id) := Doc(item, now)]
      && e.rows == d.rows[item.key := Row(item.id, now, PENDING, now)]
    ensures !EnqueueAccepts(cfg, d, item.key) ==>
      RunSteps(d, EnqueueSteps(cfg, d, item, now)).files == d.files
  {
    PendingDuplicateMeaning(cfg, d, item.key);
    if item.key !in d.rows {
      match PendingDuplicate(cfg, d, item.key)
      case Some(dup) =>
        RunOne(d, Insert(item.key, Row(dup.id, now, PENDING, now)));
        assert Live(d, Slot(Pending, dup.id));
      case None =>
        RunTwo(d, Write(Pending, item, now), Insert(item.key, Row(item.id, now, PENDING, now)));
    }
  }

  /* ---- claim_next ---- */

  lemma QuarantineSafe(d: Disk, id: Id, now: Time)
    requires Settled(d, now) && Slot(Pending, id) in d.files && !Live(d, Slot(Pending, id))
    ensures var ms := QuarantineSteps(d, id);
      && OpSafe(d, now, ms)
      && RunSteps(d, ms).files == MoveFile(d.files, id, Pending, Failed)
      && (forall s :: Live(RunSteps(d, ms), s) <==> Live(d, s))
      && (forall s :: Live(d, s) ==> ItemAt(RunSteps(d, ms), s) == ItemAt(d, s))
      && (forall s :: Live(d, s) && ItemAt(d, s).key in d.rows ==>
            ItemAt(d, s).key in RunSteps(d, ms).rows &&
            RunSteps(d, ms).rows[ItemAt(d, s).key] == d.rows[ItemAt(d, s).key])
  {
    var ms := QuarantineSteps(d, id);
    var d1 := Apply(d, ms[0]);
    MoveEffect(d, id, Pending, Failed);
    assert forall s :: Live(d, s) ==> s.id != id;
    assert forall s :: Live(d1, s) <==> Live(d, s);
    MoveKeepsSound(d, now, id, Pending, Failed);
    assert Settled(d1, now);
    DeleteSafe(d1, id, now);
    var d2 := Apply(d1, ms[1]);
    if |ms| == 3 {
      var payload := d.files[Slot(Pending, id)].item.id;
      forall s | Live(d2, s) ensures s.id != payload {
        assert Live(d1, s) && Live(d, s) && Slot(s.dir, s.id) in d.files;
      }
      DeleteSafe(d2, payload, now);
      AllowedThree(d, now, ms[0], ms[1], ms[2]);
      assert ms == [ms[0], ms[1], ms[2]];
    } else {
      AllowedTwo(d, now, ms[0], ms[1]);
      assert ms == [ms[0], ms[1]];
    }
  }

  /**
    What a quarantine forgets: exactly the rows of the file's name and, when no
    file has the name it carries inside, the rows of that id, so that the
    message can be enqueued again.
   */
  lemma QuarantineForgets(d: Disk, id: Id)
    requires Slot(Pending, id) in d.files && !Live(d, Slot(Pending, id))
    ensures var e := RunSteps(d, QuarantineSteps(d, id));
      forall k :: k in e.rows <==> k in d.rows && !Forgotten(d, id, d.rows[k].itemId)
  {
    var ms := QuarantineSteps(d, id);
    var d1 := Apply(d, ms[0]);
    var d2 := Apply(d1, ms[1]);
    var file := d.files[Slot(Pending, id)];
    assert d1.rows == d.rows;
    RowsDeleted(d1, id);
    if file.Doc? && !Named(d, file.item.id) {
      assert ms == [ms[0], ms[1], ms[2]];
      RunThree(d, ms[0], ms[1], ms[2]);
      RowsDeleted(d2, file.item.id);
    } else {
      assert ms == [ms[0], ms[1]];
      RunTwo(d, ms[0], ms[1]);
      assert forall x :: Forgotten(d, id, x) <==> x == id;
    }
  }

  lemma RowsDeleted(d: Disk, id: Id)
    ensures var e := Apply(d, DeleteRowsOf(id));
      && (forall k :: k in e.rows <==> k in d.rows && d.rows[k].itemId != id)
      && (forall k :: k in e.rows ==> e.rows[k] == d.rows[k])
  {
  }

  ghost predicate Forgotten(d: Disk, id: Id, itemId: Id)
    requires Slot(Pending, id) in d.files
  {
    var file := d.files[Slot(Pending, id)];
    itemId == id || (file.Doc? && itemId == file.item.id && !Named(d, itemId))
  }

  /** Deleting the rows of an id that no valid file bears leaves every valid file's row alone. */
  lemma DeleteSafe(d: Disk, id: Id, now: Time)
    requires Settled(d, now) && forall s :: Live(d, s) ==> s.id != id
    ensures var m := DeleteRowsOf(id);
      && Allowed(d, now, m) && Settled(Apply(d, m), now)
      && Apply(d, m).files == d.files
      && (forall s :: Live(Apply(d, m), s) <==> Live(d, s))
      && (forall s :: Live(d, s) ==> ItemAt(Apply(d, m), s) == ItemAt(d, s))
      && (forall s :: Live(d, s) && ItemAt(d, s).key in d.rows ==>
            ItemAt(d, s).key in Apply(d, m).rows && Apply(d, m).rows[ItemAt(d, s).key] == d.rows[ItemAt(d, s).key])
  {
    AllowedKeepsSound(d, now, DeleteRowsOf(id));
    SameFiles(d, Apply(d, DeleteRowsOf(id)));
  }

  lemma TakeSafe(d: Disk, item: Item, now: Time)
    requires Settled(d, now) && Live(d, Slot(Pending, item.id)) && ItemAt(d, Slot(Pending, item.id)) == item
    ensures var ms := TakeSteps(d, item, now);
      var e := RunSteps(d, ms);
      && OpSafe(d, now, ms)
      && HeldOk(e, item)
      && e.files == MoveFile(d.files, item.id, Pending, Processing)
  {
    var move := Move(item.id, Pending, Processing);
    var stamp := SetStatus(item.key, PROCESSING, now);
    var d1 := Apply(d, move);
    TakeMoves(d, item, now);
    if item.key in d.rows {
      TakeStamps(d, d1, item, now);
      AllowedTwo(d, now, move, stamp);
      assert TakeSteps(d, item, now) == [move, stamp];
    } else {
      var insert := Insert(item.key, Row(item.id, now, PENDING, now));
      var d2 := Apply(d1, insert);
      AllowedKeepsSound(d1, now, insert);
      SameFiles(d1, d2);
      TakeStamps(d, d2, item, now);
      AllowedThree(d, now, move, insert, stamp);
      assert TakeSteps(d, item, now) == [move, insert, stamp];
    }
  }

  /** The first step of a claim. */
  lemma TakeMoves(d: Disk, item: Item, now: Time)
    requires Settled(d, now) && Live(d, Slot(Pending, item.id)) && ItemAt(d, Slot(Pending, item.id)) == item
    ensures var m := Move(item.id, Pending, Processing);
      var e := Apply(d, m);
      && Allowed(d, now, m) && Sound(e, now) && e.rows == d.rows
      && Live(e, Slot(Processing, item.id)) && ItemAt(e, Slot(Processing, item.id)) == item
      && (forall s :: Live(e, s) && s.id != item.id ==> Live(d, s) && ItemAt(d, s) == ItemAt(e, s))
      && (forall s :: Live(e, s) && (s.id == item.id || ItemAt(e, s).key == item.key) ==>
            s == Slot(Processing, item.id))
  {
    assert InStep(d, Slot(Pending, item.id));
    MoveEffect(d, item.id, Pending, Processing);
    MoveKeepsSound(d, now, item.id, Pending, Processing);
  }

  /** The last step of a claim, once the file is in `processing` and its row exists. */
  lemma TakeStamps(d: Disk, d1: Disk, item: Item, now: Time)
    requires Settled(d, now) && Sound(d1, now)
    requires Live(d1, Slot(Processing, item.id)) && ItemAt(d1, Slot(Processing, item.id)) == item
    requires item.key in d1.rows
    requires forall s :: Live(d1, s) && s.id != item.id ==> Live(d, s) && ItemAt(d, s) == ItemAt(d1, s)
    requires forall k :: k in d1.rows && k != item.key ==> k in d.rows && d1.rows[k] == d.rows[k]
    requires forall k :: k in d.rows ==> k in d1.rows
    ensures var m := SetStatus(item.key, PROCESSING, now);
      Allowed(d1, now, m) && Settled(Apply(d1, m), now) && HeldOk(Apply(d1, m), item)
  {
    var m := SetStatus(item.key, PROCESSING, now);
    var s1 := Slot(Processing, item.id);
    AllowedKeepsSound(d1, now, m);
    SameFiles(d1, Apply(d1, m));
    forall s | Live(d1, s) && s != s1 ensures InStep(Apply(d1, m), s) {
      assert s.id != item.id;
      assert ItemAt(d1, s).key != item.key;
      assert InStep(d, s);
    }
  }

  lemma {:induction false} ClaimFromSafe(d: Disk, ids: seq<Id>, skip: set<Id>, now: Time)
    requires Settled(d, now) && Increasing(ids)
    requires forall x :: x in ids ==> Slot(Pending, x) in d.files
    ensures var ms := ClaimFrom(d, ids, skip, now);
      var e := RunSteps(d, ms);
      && OpSafe(d, now, ms)
      && match ClaimResultFrom(d, ids, skip)
         case None => forall x :: Slot(Processing, x) in e.files <==> Slot(Processing, x) in d.files
         case Some(item) =>
           && HeldOk(e, item)
           && Live(d, Slot(Pending, item.id)) && ItemAt(d, Slot(Pending, item.id)) == item
           && (forall x :: Slot(Processing, x) in e.files <==> x == item.id || Slot(Processing, x) in d.files)
    decreases |ids|
  {
    if ids != [] {
      assert ids[0] in ids;
      if ids[0] in skip {
        ClaimFromSafe(d, ids[1..], skip, now);
      } else if Live(d, Slot(Pending, ids[0])) {
        TakeSafe(d, ItemAt(d, Slot(Pending, ids[0])), now);
      } else {
        var ms := QuarantineSteps(d, ids[0]);
        var e := RunSteps(d, ms);
        QuarantineSafe(d, ids[0], now);
        assert forall x :: x in ids[1..] ==> x != ids[0];
        ClaimFromSafe(e, ids[1..], skip, now);
        ScanUnchanged(d, e, ids[1..], skip);
        OpSafeConcat(d, now, ms, ClaimFrom(e, ids[1..], skip, now));
      }
    }
  }

  /** The scan depends only on the valid files. */
  lemma {:induction false} ScanUnchanged(d: Disk, e: Disk, ids: seq<Id>, skip: set<Id>)
    requires forall s :: Live(e, s) <==> Live(d, s)
    requires forall s :: Live(d, s) ==> ItemAt(e, s) == ItemAt(d, s)
    ensures ClaimResultFrom(e, ids, skip) == ClaimResultFrom(d, ids, skip)
    decreases |ids|
  {
    if ids != [] {
      ScanUnchanged(d, e, ids[1..], skip);
    }
  }

  lemma ClaimSafe(d: Disk, skip: set<Id>, now: Time)
    requires Settled(d, now)
    ensures var ms := ClaimSteps(d, skip, now);
      var e := RunSteps(d, ms);
      && OpSafe(d, now, ms)
      && match ClaimResult(d, skip)
         case None => forall x :: Slot(Processing, x) in e.files <==> Slot(Processing, x) in d.files
         case Some(item) =>
           && HeldOk(e, item)
           && Live(d, Slot(Pending, item.id)) && ItemAt(d, Slot(Pending, item.id)) == item
           && (forall x :: Slot(Processing, x) in e.files <==> x == item.id || Slot(Processing, x) in d.files)
  {
    ClaimFromSafe(d, Listing(d, Pending), skip, now);
  }

  /* ---- the worker's bookkeeping on the item it holds ---- */

  /** Moving the held file to its final directory and stamping its row. */
  lemma FinishSafe(d: Disk, item: Item, dest: Dir, now: Time)
    requires Settled(d, now) && HeldOk(d, item) && (dest == Sent || dest == Failed)
    ensures var move := Move(item.id, Processing, dest);
      var stamp := SetStatus(item.key, StatusOf(dest), now);
      var e := Apply(Apply(d, move), stamp);
      && Allowed(d, now, move) && Allowed(Apply(d, move), now, stamp)
      && Settled(e, now)
      && e.files == MoveFile(d.files, item.id, Processing, dest)
  {
    var move := Move(item.id, Processing, dest);
    var stamp := SetStatus(item.key, StatusOf(dest), now);
    var d1 := Apply(d, move);
    var s0 := Slot(Processing, item.id);
    assert Live(d, s0) ==> ItemAt(d, s0).key == item.key;
    MoveEffect(d, item.id, Processing, dest);
    MoveKeepsSound(d, now, item.id, Processing, dest);
    AllowedKeepsSound(d1, now, stamp);
    SameFiles(d1, Apply(d1, stamp));
    forall s | Live(d1, s) ensures InStep(Apply(d1, stamp), s) {
      if s.id != item.id {
        assert InStep(d, s);
      }
    }
  }

  lemma MarkSentSafe(d: Disk, item: Item, now: Time)
    requires Settled(d, now) && HeldOk(d, item)
    ensures var ms := MarkSentSteps(d, item, now);
      OpSafe(d, now, ms) &&
      RunSteps(d, ms).files.Keys == d.files.Keys - {Slot(Processing, item.id)} + {Slot(Sent, item.id)}
  {
    FinishSafe(d, item, Sent, now);
    AllowedTwo(d, now, Move(item.id, Processing, Sent), SetStatus(item.key, SENT, now));
  }

  /** Rewriting the held item in place, as an attempt or a failure flag is recorded. */
  lemma RewriteSafe(d: Disk, item: Item, updated: Item, now: Time)
    requires Settled(d, now) && HeldOk(d, item)
    requires updated.id == item.id && updated.key == item.key && updated.firstSeen == item.firstSeen <= now
    ensures var m := Write(Processing, updated, now);
      && Allowed(d, now, m) && Settled(Apply(d, m), now) && HeldOk(Apply(d, m), updated)
      && Apply(d, m).files.Keys == d.files.Keys
  {
    var m := Write(Processing, updated, now);
    var e := Apply(d, m);
    var s0 := Slot(Processing, item.id);
    AllowedKeepsSound(d, now, m);
    forall s | Live(e, s) ensures InStep(e, s) && (ItemAt(e, s).key == item.key ==> s.id == item.id) {
      if s != s0 {
        assert Live(d, s) && InStep(d, s);
      }
    }
  }

  lemma MarkFailedSafe(d: Disk, item: Item, permanent: bool, now: Time)
    requires Settled(d, now) && HeldOk(d, item) && item.firstSeen <= now
    ensures var ms := MarkFailedSteps(d, item, permanent, now);
      && OpSafe(d, now, ms)
      && RunSteps(d, ms).files.Keys == d.files.Keys - {Slot(Processing, item.id)} + {Slot(Failed, item.id)}
  {
    var updated := item.(permanent := permanent);
    RewriteSafe(d, item, updated, now);
    var d1 := Apply(d, Write(Processing, updated, now));
    FinishSafe(d1, updated, Failed, now);
    AllowedThree(d, now, Write(Processing, updated, now), Move(item.id, Processing, Failed),
                 SetStatus(item.key, FAILED, now));
  }

  lemma MoveBackSafe(d: Disk, item: Item, now: Time)
    requires Settled(d, now) && HeldOk(d, item)
    ensures var ms := MoveBackSteps(d, item);
      OpSafe(d, now, ms) &&
      RunSteps(d, ms).files.Keys == d.files.Keys - {Slot(Processing, item.id)} + {Slot(Pending, item.id)}
  {
    var move := Move(item.id, Processing, Pending);
    MoveEffect(d, item.id, Processing, Pending);
    MoveKeepsSound(d, now, item.id, Processing, Pending);
    AllowedOne(d, now, move);
    forall s | Live(Apply(d, move), s) ensures InStep(Apply(d, move), s) {
      assert InStep(d, if s.id == item.id then Slot(Processing, item.id) else s);
    }
  }

  lemma UpdateAttemptSafe(d: Disk, item: Item, next: Time, now: Time)
    requires Settled(d, now) && HeldOk(d, item) && item.firstSeen <= now
    ensures var ms := UpdateAttemptSteps(d, item, next, now);
      && OpSafe(d, now, ms)
      && HeldOk(RunSteps(d, ms), Attempted(item, next, now))
      && RunSteps(d, ms).files.Keys == d.files.Keys
  {
    RewriteSafe(d, item, Attempted(item, next, now), now);
    AllowedOne(d, now, Write(Processing, Attempted(item, next, now), now));
  }
}
