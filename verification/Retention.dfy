/**
  Requeue and cleanup: exactly which files and rows they touch, that they keep
  files and rows in agreement, and that they never work against each other.
 */
module Retention {
  import opened Prelude
  import opened Durable
  import opened QueueSpec
  import opened CrashSafety
  import opened OperationSafety

  /* ---- requeue_failed ---- */

  /** From `d` to `e`, exactly the salvageable files among `ids` went from `failed` to `pending`. */
  ghost predicate Requeued(d: Disk, e: Disk, ids: seq<Id>, cutoff: Time) {
    && (forall x :: Slot(Failed, x) in e.files <==>
          Slot(Failed, x) in d.files && !(x in ids && Salvageable(d, x, cutoff)))
    && (forall x :: Slot(Pending, x) in e.files <==>
          Slot(Pending, x) in d.files || (x in ids && Salvageable(d, x, cutoff)))
    && (forall x :: Slot(Processing, x) in e.files <==> Slot(Processing, x) in d.files)
    && (forall x :: Slot(Sent, x) in e.files <==> Slot(Sent, x) in d.files)
    && (forall s :: s in d.files && s in e.files ==> e.files[s] == d.files[s])
    && (forall x :: x in ids && Salvageable(d, x, cutoff) ==> e.files[Slot(Pending, x)] == d.files[Slot(Failed, x)])
  }

  lemma SalvageSafe(d: Disk, id: Id, now: Time)
    requires Settled(d, now) && Live(d, Slot(Failed, id))
    ensures var ms := SalvageSteps(d, id, now);
      var e := RunSteps(d, ms);
      && OpSafe(d, now, ms)
      && e.files == MoveFile(d.files, id, Failed, Pending)
      && (forall h :: HeldOk(d, h) ==> HeldOk(e, h))
      && ItemAt(d, Slot(Failed, id)).key in d.rows
  {
    var s0 := Slot(Failed, id);
    var item := ItemAt(d, s0);
    var move := Move(id, Failed, Pending);
    var stamp := SetStatus(item.key, PENDING, now);
    var d1 := Apply(d, move);
    assert InStep(d, s0);
    MoveEffect(d, id, Failed, Pending);
    MoveKeepsSound(d, now, id, Failed, Pending);
    AllowedKeepsSound(d1, now, stamp);
    SameFiles(d1, Apply(d1, stamp));
    AllowedTwo(d, now, move, stamp);
    forall s | Live(d1, s) ensures InStep(Apply(d1, stamp), s) {
      assert InStep(d, if s.id == id then s0 else s);
    }
    forall h | HeldOk(d, h) ensures HeldOk(Apply(d1, stamp), h) {
      assert h.id != id;
      assert h.key != item.key;
    }
  }

  lemma {:induction false} RequeueFilesSafe(d: Disk, ids: seq<Id>, cutoff: Time, now: Time)
    requires Settled(d, now) && Increasing(ids)
    ensures var ms := RequeueFrom(d, ids, cutoff, now);
      && OpSafe(d, now, ms)
      && Requeued(d, RunSteps(d, ms), ids, cutoff)
      && (forall h :: HeldOk(d, h) ==> HeldOk(RunSteps(d, ms), h))
    decreases |ids|
  {
    if ids != [] {
      if Salvageable(d, ids[0], cutoff) {
        var ms := SalvageSteps(d, ids[0], now);
        var e := RunSteps(d, ms);
        SalvageSafe(d, ids[0], now);
        RequeueFilesSafe(e, ids[1..], cutoff, now);
        var more := RequeueFrom(e, ids[1..], cutoff, now);
        OpSafeConcat(d, now, ms, more);
        RequeuedStep(d, e, RunSteps(e, more), ids, cutoff);
      } else {
        RequeueFilesSafe(d, ids[1..], cutoff, now);
        assert forall x :: x in ids <==> x == ids[0] || x in ids[1..];
      }
    }
  }

  /** The pass never meets a failed file without a row, and counts what it moves. */
  lemma {:induction false} RequeueCounts(d: Disk, ids: seq<Id>, cutoff: Time, now: Time, count: nat)
    requires Settled(d, now)
    ensures var ms := RequeueFrom(d, ids, cutoff, now);
      |ms| % 2 == 0 && RequeueOutcome(d, ids, cutoff, now, count) == Ok(count + |ms| / 2)
    decreases |ids|
  {
    if ids != [] {
      if Salvageable(d, ids[0], cutoff) {
        SalvageSafe(d, ids[0], now);
        RequeueCounts(RunSteps(d, SalvageSteps(d, ids[0], now)), ids[1..], cutoff, now, count + 1);
      } else {
        RequeueCounts(d, ids[1..], cutoff, now, count);
      }
    }
  }

  lemma RequeuedStep(d: Disk, e: Disk, f: Disk, ids: seq<Id>, cutoff: Time)
    requires ids != [] && Increasing(ids) && OneHome(d) && Salvageable(d, ids[0], cutoff)
    requires e.files == MoveFile(d.files, ids[0], Failed, Pending)
    requires Requeued(e, f, ids[1..], cutoff)
    ensures Requeued(d, f, ids, cutoff)
  {
    var id := ids[0];
    assert forall x :: x in ids <==> x == id || x in ids[1..];
    assert forall x :: x in ids[1..] ==> x != id;
    forall s: Slot | s.id != id
      ensures s in e.files <==> s in d.files
      ensures s in d.files ==> e.files[s] == d.files[s]
    {
    }
    assert forall x :: x != id ==> Salvageable(e, x, cutoff) == Salvageable(d, x, cutoff);
    assert Slot(Pending, id) !in d.files;
    assert e.files[Slot(Pending, id)] == d.files[Slot(Failed, id)];
  }

  /**
    What a requeue of the listed files amounts to: permitted steps, exactly the
    salvageable files moved, the held item left alone, and an answer that
    counts them, so that the pass never stops early.
   */
  ghost predicate RequeueOk(d: Disk, ids: seq<Id>, cutoff: Time, now: Time) {
    var ms := RequeueFrom(d, ids, cutoff, now);
    && OpSafe(d, now, ms)
    && Requeued(d, RunSteps(d, ms), ids, cutoff)
    && (forall h :: HeldOk(d, h) ==> HeldOk(RunSteps(d, ms), h))
    && RequeueOutcome(d, ids, cutoff, now, 0) == Ok(|ms| / 2)
  }

  lemma RequeueListed(d: Disk, ids: seq<Id>, cutoff: Time, now: Time)
    requires Settled(d, now) && Increasing(ids)
    ensures RequeueOk(d, ids, cutoff, now)
  {
    RequeueFilesSafe(d, ids, cutoff, now);
    RequeueCounts(d, ids, cutoff, now, 0);
  }

  /** On a settled disk requeue_failed never stops early and moves exactly the young, not permanent items. */
  lemma RequeueSafe(d: Disk, maxAgeDays: int, now: Time)
    requires Settled(d, now)
    ensures RequeueOk(d, Listing(d, Failed), Cutoff(now, maxAgeDays), now)
  {
    RequeueListed(d, Listing(d, Failed), Cutoff(now, maxAgeDays), now);
  }

  /* ---- cleanup ---- */

  lemma {:induction false} RemoveExact(d: Disk, now: Time, dir: Dir, ids: seq<Id>)
    ensures var ms := RemoveFrom(d, dir, ids);
      var e := RunSteps(d, ms);
      && AllowedRun(d, now, ms)
      && e.rows == d.rows
      && (forall s :: s in e.files <==> s in d.files && !(s.dir == dir && s.id in ids))
      && (forall s :: s in e.files ==> e.files[s] == d.files[s])
    decreases |ids|
  {
    if ids != [] {
      assert forall x :: x in ids <==> x == ids[0] || x in ids[1..];
      if Slot(dir, ids[0]) in d.files {
        var m := Unlink(dir, ids[0]);
        RemoveExact(Apply(d, m), now, dir, ids[1..]);
        var ms := RemoveFrom(d, dir, ids);
        assert ms[0] == m && ms[1..] == RemoveFrom(Apply(d, m), dir, ids[1..]);
      } else {
        RemoveExact(d, now, dir, ids[1..]);
      }
    }
  }

  lemma {:induction false} RemoveStraysExact(d: Disk, now: Time, dir: Dir, ids: seq<Id>, known: set<Id>, cutoff: Time)
    ensures var ms := RemoveStraysFrom(d, dir, ids, known, cutoff);
      var e := RunSteps(d, ms);
      && AllowedRun(d, now, ms)
      && e.rows == d.rows
      && (forall s :: s in e.files <==>
            s in d.files && !(s.dir == dir && s.id in ids && Stray(d, s, known, cutoff)))
      && (forall s :: s in e.files ==> e.files[s] == d.files[s])
    decreases |ids|
  {
    if ids != [] {
      assert forall x :: x in ids <==> x == ids[0] || x in ids[1..];
      var s0 := Slot(dir, ids[0]);
      if Stray(d, s0, known, cutoff) {
        var m := Unlink(dir, ids[0]);
        var d1 := Apply(d, m);
        RemoveStraysExact(d1, now, dir, ids[1..], known, cutoff);
        var ms := RemoveStraysFrom(d, dir, ids, known, cutoff);
        assert ms[0] == m && ms[1..] == RemoveStraysFrom(d1, dir, ids[1..], known, cutoff);
        assert forall s :: s != s0 ==> Stray(d1, s, known, cutoff) == Stray(d, s, known, cutoff);
      } else {
        RemoveStraysExact(d, now, dir, ids[1..], known, cutoff);
      }
    }
  }

  ghost predicate CleanedAway(d: Disk, s: Slot, dir: Dir, cutoff: Time) {
    CleanedAwayAt(d, s, dir, cutoff, cutoff)
  }

  ghost predicate CleanedAwayAt(d: Disk, s: Slot, dir: Dir, expiry: Time, age: Time) {
    s.dir == dir &&
    (s.id in ExpiredIds(d.rows, StatusOf(dir), expiry) || Stray(d, s, KnownIds(d.rows), age))
  }

  /**
    A cleanup of one directory: the files of rows expired at the first reading
    and the old files no row knows go, the rows expired at the last reading go,
    nothing else changes.
   */
  lemma CleanupExactAt(d: Disk, dir: Dir, expiry: Time, age: Time, purge: Time)
    ensures var e := RunSteps(d, CleanupStepsAt(d, dir, expiry, age, purge));
      && (forall s :: s in e.files <==> s in d.files && !CleanedAwayAt(d, s, dir, expiry, age))
      && (forall s :: s in e.files ==> e.files[s] == d.files[s])
      && e.rows == map k | k in d.rows && !Expired(d.rows[k], StatusOf(dir), purge) :: d.rows[k]
  {
    var expired := ExpiredIds(d.rows, StatusOf(dir), expiry);
    var known := KnownIds(d.rows);
    var a := RemoveFrom(d, dir, Sorted(expired));
    var d1 := RunSteps(d, a);
    var b := RemoveStraysFrom(d1, dir, Listing(d1, dir), known, age);
    var d2 := RunSteps(d1, b);
    var p := Purge(StatusOf(dir), purge);
    RemoveExact(d, 0, dir, Sorted(expired));
    RemoveStraysExact(d1, 0, dir, Listing(d1, dir), known, age);
    RunStepsConcat(d, a, b);
    RunStepsConcat(d, a + b, [p]);
    RunOne(d2, p);
    forall s ensures s in d2.files <==> s in d.files && !CleanedAwayAt(d, s, dir, expiry, age) {
      assert s.dir == dir ==> s == Slot(dir, s.id);
    }
  }

  lemma CleanupExact(d: Disk, dir: Dir, cutoff: Time)
    ensures var e := RunSteps(d, CleanupSteps(d, dir, cutoff));
      && (forall s :: s in e.files <==> s in d.files && !CleanedAway(d, s, dir, cutoff))
      && (forall s :: s in e.files ==> e.files[s] == d.files[s])
      && e.rows == map k | k in d.rows && !Expired(d.rows[k], StatusOf(dir), cutoff) :: d.rows[k]
  {
    CleanupExactAt(d, dir, cutoff, cutoff, cutoff);
  }

  /** A valid file in the cleaned directory goes exactly when its row is expired. */
  lemma CleanedAwayMeansExpired(d: Disk, s: Slot, cutoff: Time, now: Time)
    requires Settled(d, now) && Live(d, s) && (s.dir == Sent || s.dir == Failed)
    ensures ItemAt(d, s).key in d.rows
    ensures CleanedAway(d, s, s.dir, cutoff) <==> Expired(d.rows[ItemAt(d, s).key], StatusOf(s.dir), cutoff)
  {
    assert InStep(d, s);
    SurvivesUnlessExpired(d, s, cutoff, cutoff, now);
  }

  /* ---- three readings of the clock ---- */

  /** The row of a valid file of the directory expires between the first and the last reading. */
  ghost predicate Straddles(d: Disk, s: Slot, dir: Dir, expiry: Time, purge: Time) {
    && Live(d, s) && s.dir == dir && ItemAt(d, s).key in d.rows
    && expiry <= d.rows[ItemAt(d, s).key].lastStatusAt < purge
  }

  /** No row of a valid file of the directory expires between the two readings. */
  ghost predicate Unstraddled(d: Disk, dir: Dir, expiry: Time, purge: Time) {
    forall s :: !Straddles(d, s, dir, expiry, purge)
  }

  lemma OneReadingStraddlesNothing(d: Disk, dir: Dir, cutoff: Time)
    ensures Unstraddled(d, dir, cutoff, cutoff)
  {
  }

  /**
    Cleanup keeps files and rows in agreement as long as no row of a valid file
    expires while it runs: a valid file of the directory survives exactly when
    its row does, and everything stays settled.
   */
  lemma CleanupSafeAt(d: Disk, dir: Dir, expiry: Time, age: Time, purge: Time, now: Time)
    requires Settled(d, now) && (dir == Sent || dir == Failed) && Unstraddled(d, dir, expiry, purge)
    requires expiry <= purge
    ensures var ms := CleanupStepsAt(d, dir, expiry, age, purge);
      var e := RunSteps(d, ms);
      && OpSafe(d, now, ms)
      && (forall h :: HeldOk(d, h) ==> HeldOk(e, h))
      && (forall s :: Live(d, s) && s.dir == dir ==> (s in e.files <==> ItemAt(d, s).key in e.rows))
      && (forall s: Slot :: s.dir != dir ==> (s in e.files <==> s in d.files))
  {
    var e := RunSteps(d, CleanupStepsAt(d, dir, expiry, age, purge));
    CleanupExactAt(d, dir, expiry, age, purge);
    CleanupAllowedAt(d, dir, expiry, age, purge, now);
    forall s | Live(d, s) && s.dir == dir ensures s in e.files <==> ItemAt(d, s).key in e.rows {
      assert InStep(d, s) && !Straddles(d, s, dir, expiry, purge);
      SurvivesUnlessExpired(d, s, expiry, age, now);
    }
    forall s | Live(e, s) ensures InStep(e, s) {
      assert Live(d, s) && InStep(d, s) && ItemAt(e, s) == ItemAt(d, s);
    }
  }

  /** With one cutoff throughout nothing can expire in between. */
  lemma CleanupSafe(d: Disk, dir: Dir, cutoff: Time, now: Time)
    requires Settled(d, now) && (dir == Sent || dir == Failed)
    ensures var ms := CleanupSteps(d, dir, cutoff);
      var e := RunSteps(d, ms);
      && OpSafe(d, now, ms)
      && (forall h :: HeldOk(d, h) ==> HeldOk(e, h))
      && (forall s :: Live(d, s) && s.dir == dir ==> (s in e.files <==> ItemAt(d, s).key in e.rows))
      && (forall s: Slot :: s.dir != dir ==> (s in e.files <==> s in d.files))
  {
    OneReadingStraddlesNothing(d, dir, cutoff);
    CleanupSafeAt(d, dir, cutoff, cutoff, cutoff, now);
  }

  /** Once the files of the expired rows are gone, the purge is permitted. */
  lemma PurgeAllowed(d: Disk, e: Disk, dir: Dir, expiry: Time, purge: Time, now: Time)
    requires Settled(d, now) && Unstraddled(d, dir, expiry, purge) && e.rows == d.rows
    requires forall s :: s in e.files ==>
      s in d.files && e.files[s] == d.files[s] && !(s.dir == dir && s.id in ExpiredIds(d.rows, StatusOf(dir), expiry))
    ensures Allowed(e, now, Purge(StatusOf(dir), purge))
  {
    forall s | Live(e, s) && ItemAt(e, s).key in e.rows && Expired(e.rows[ItemAt(e, s).key], StatusOf(dir), purge)
      ensures s.dir != Sent && s.dir != Failed
    {
      assert Live(d, s) && InStep(d, s) && !Straddles(d, s, dir, expiry, purge);
      assert d.rows[ItemAt(d, s).key].itemId == s.id;
    }
  }

  lemma CleanupAllowedAt(d: Disk, dir: Dir, expiry: Time, age: Time, purge: Time, now: Time)
    requires Settled(d, now) && (dir == Sent || dir == Failed) && Unstraddled(d, dir, expiry, purge)
    ensures AllowedRun(d, now, CleanupStepsAt(d, dir, expiry, age, purge))
    ensures Sound(RunSteps(d, CleanupStepsAt(d, dir, expiry, age, purge)), now)
  {
    var ids := Sorted(ExpiredIds(d.rows, StatusOf(dir), expiry));
    var a := RemoveFrom(d, dir, ids);
    var d1 := RunSteps(d, a);
    var b := RemoveStraysFrom(d1, dir, Listing(d1, dir), KnownIds(d.rows), age);
    var d2 := RunSteps(d1, b);
    var p := Purge(StatusOf(dir), purge);
    var ms := CleanupStepsAt(d, dir, expiry, age, purge);
    RemoveExact(d, now, dir, ids);
    RemoveStraysExact(d1, now, dir, Listing(d1, dir), KnownIds(d.rows), age);
    AllowedRunConcat(d, now, a, b);
    RunStepsConcat(d, a, b);
    PurgeAllowed(d, d2, dir, expiry, purge, now);
    AllowedOne(d2, now, p);
    AllowedRunConcat(d, now, a + b, [p]);
    EveryCrashPointIsSound(d, now, ms, |ms|);
    assert ms[..|ms|] == ms;
  }

  /**
    With the clock read anew for the purge, files and rows stay in agreement if
    and only if no row of a valid file expires between the two readings. A row
    that does is purged while its file stays behind.
   */
  lemma CleanupAgreesIff(d: Disk, dir: Dir, expiry: Time, age: Time, purge: Time, now: Time)
    requires Settled(d, now) && (dir == Sent || dir == Failed)
    ensures var e := RunSteps(d, CleanupStepsAt(d, dir, expiry, age, purge));
      (forall s :: Live(e, s) ==> InStep(e, s)) <==> (forall s :: !Straddles(d, s, dir, expiry, purge))
  {
    var e := RunSteps(d, CleanupStepsAt(d, dir, expiry, age, purge));
    CleanupExactAt(d, dir, expiry, age, purge);
    forall s | Live(d, s) && s.dir == dir
      ensures ItemAt(d, s).key in d.rows
      ensures s in e.files <==> !(d.rows[ItemAt(d, s).key].lastStatusAt < expiry)
      ensures ItemAt(d, s).key in e.rows <==> !(d.rows[ItemAt(d, s).key].lastStatusAt < purge)
    {
      assert InStep(d, s);
      SurvivesUnlessExpired(d, s, expiry, age, now);
    }
    if forall s :: !Straddles(d, s, dir, expiry, purge) {
      forall s | Live(e, s) ensures InStep(e, s) {
        assert Live(d, s) && InStep(d, s) && ItemAt(e, s) == ItemAt(d, s);
        assert !Straddles(d, s, dir, expiry, purge);
      }
    }
    if s :| Straddles(d, s, dir, expiry, purge) {
      assert Live(e, s) && !InStep(e, s);
    }
  }

  lemma SurvivesUnlessExpired(d: Disk, s: Slot, expiry: Time, age: Time, now: Time)
    requires Settled(d, now) && Live(d, s) && (s.dir == Sent || s.dir == Failed)
    ensures ItemAt(d, s).key in d.rows
    ensures CleanedAwayAt(d, s, s.dir, expiry, age) <==> d.rows[ItemAt(d, s).key].lastStatusAt < expiry
  {
    var key := ItemAt(d, s).key;
    assert InStep(d, s);
    assert d.rows[key].itemId == s.id;
    assert s.id in KnownIds(d.rows);
    if s.id in ExpiredIds(d.rows, StatusOf(s.dir), expiry) {
      var k :| k in d.rows && Expired(d.rows[k], StatusOf(s.dir), expiry) && d.rows[k].itemId == s.id;
      assert k == key;
    }
  }

  /** A concrete disk on which it happens: a sent item stamped at 10, read at cutoffs 10 and 11. */
  lemma CleanupCanStrandAFile()
    ensures exists d: Disk, expiry: Time, purge: Time ::
      && expiry < purge && Settled(d, purge)
      && var e := RunSteps(d, CleanupStepsAt(d, Sent, expiry, expiry, purge));
         exists s :: Live(e, s) && s.dir == Sent && ItemAt(e, s).key !in e.rows
  {
    var item := Item(1, Sms("p", "n", "t", None), 0, 7, 0, None, false, None);
    var s := Slot(Sent, 1);
    var d := Disk(map[s := Doc(item, 0)], map[7 := Row(1, 0, SENT, 10)]);
    assert Live(d, s) && ItemAt(d, s) == item;
    assert forall t :: Live(d, t) ==> t == s;
    assert Sound(d, 11);
    assert Settled(d, 11);
    CleanupExactAt(d, Sent, 10, 10, 11);
    SurvivesUnlessExpired(d, s, 10, 10, 11);
    var e := RunSteps(d, CleanupStepsAt(d, Sent, 10, 10, 11));
    assert Live(e, s) && ItemAt(e, s).key !in e.rows;
  }

  /** The readings of the clock of one cleanup: for the expired rows, for the age of unknown files, for the purge. */
  datatype Readings = Readings(expiry: Time, age: Time, purge: Time)

  predicate Ordered(r: Readings, from: Time, until: Time) {
    from <= r.expiry <= r.age <= r.purge <= until
  }

  ghost function CleanupStepsBy(d: Disk, dir: Dir, days: int, r: Readings): seq<Micro> {
    CleanupStepsAt(d, dir, Cutoff(r.expiry, days), Cutoff(r.age, days), Cutoff(r.purge, days))
  }

  /* ---- in days ---- */

  /** Readable under its own name, not permanently failed, and first seen no more than so many days ago. */
  predicate Young(f: File, id: Id, days: int, now: Time) {
    f.Doc? && f.item.id == id && !f.item.permanent && f.item.firstSeen + days * 86_400_000_000 >= now
  }

  /** From `d` to `e` exactly the young files of `failed` went to `pending`, as they were. */
  ghost predicate RequeuesYoung(d: Disk, e: Disk, days: int, now: Time) {
    && (forall x :: Slot(Failed, x) in d.files ==>
          if Young(d.files[Slot(Failed, x)], x, days, now) then
            && Slot(Failed, x) !in e.files && Slot(Pending, x) in e.files
            && e.files[Slot(Pending, x)] == d.files[Slot(Failed, x)]
          else Slot(Failed, x) in e.files && e.files[Slot(Failed, x)] == d.files[Slot(Failed, x)])
    && (forall s :: s in d.files && s.dir != Failed ==> s in e.files && e.files[s] == d.files[s])
    && (forall s :: s in e.files && s !in d.files ==>
          s.dir == Pending && Slot(Failed, s.id) in d.files && Young(d.files[Slot(Failed, s.id)], s.id, days, now))
  }

  lemma SalvageableIsYoung(d: Disk, x: Id, days: int, now: Time)
    ensures Salvageable(d, x, Cutoff(now, days)) <==>
      Slot(Failed, x) in d.files && Young(d.files[Slot(Failed, x)], x, days, now)
  {
  }

  lemma RequeuedAreYoung(d: Disk, e: Disk, ids: seq<Id>, days: int, now: Time)
    requires Requeued(d, e, ids, Cutoff(now, days)) && OneHome(d)
    requires forall x :: x in ids <==> Slot(Failed, x) in d.files
    ensures RequeuesYoung(d, e, days, now)
  {
    forall x | Slot(Failed, x) in d.files
      ensures Salvageable(d, x, Cutoff(now, days)) <==> Young(d.files[Slot(Failed, x)], x, days, now)
    {
      SalvageableIsYoung(d, x, days, now);
    }
    forall s | s in e.files && s !in d.files
      ensures s.dir == Pending && Slot(Failed, s.id) in d.files && Young(d.files[Slot(Failed, s.id)], s.id, days, now)
    {
      assert s == Slot(s.dir, s.id);
      SalvageableIsYoung(d, s.id, days, now);
    }
    forall s | s in d.files && s.dir != Failed ensures s in e.files && e.files[s] == d.files[s] {
      assert s == Slot(s.dir, s.id);
    }
  }

  lemma RequeuesInDays(d: Disk, days: int, now: Time)
    requires Settled(d, now)
    ensures RequeuesYoung(d, RunSteps(d, RequeueSteps(d, days, now)), days, now)
  {
    RequeueSafe(d, days, now);
    RequeuedAreYoung(d, RunSteps(d, RequeueSteps(d, days, now)), Listing(d, Failed), days, now);
  }

  /** Stamped with this status longer than so many days ago. */
  predicate OutOfDate(r: Row, status: Status, days: int, now: Time) {
    r.status == status && r.lastStatusAt + days * 86_400_000_000 < now
  }

  /** Rows with this status stay if and only if they are not out of date; all others stay. */
  ghost predicate RowsPurged(d: Disk, e: Disk, status: Status, days: int, now: Time) {
    && (forall k :: k in e.rows <==> k in d.rows && !OutOfDate(d.rows[k], status, days, now))
    && (forall k :: k in e.rows ==> e.rows[k] == d.rows[k])
  }

  /** The file belongs to a row that is out of date, or is that old itself and no row knows it. */
  ghost predicate ToGo(d: Disk, s: Slot, status: Status, days: int, expiry: Time, age: Time)
    requires s in d.files
  {
    || (exists k :: k in d.rows && d.rows[k].itemId == s.id && OutOfDate(d.rows[k], status, days, expiry))
    || ((forall k :: k in d.rows ==> d.rows[k].itemId != s.id) && d.files[s].mtime + days * 86_400_000_000 < age)
  }

  /** A cleanup with a retention of so many days, and its three readings of the clock. */
  ghost predicate CleanedUp(d: Disk, e: Disk, dir: Dir, status: Status, days: int, r: Readings) {
    && RowsPurged(d, e, status, days, r.purge)
    && (forall s :: s in e.files <==>
          s in d.files && !(s.dir == dir && ToGo(d, s, status, days, r.expiry, r.age)))
    && (forall s :: s in e.files ==> e.files[s] == d.files[s])
  }

  lemma CleansInDays(d: Disk, dir: Dir, days: int, r: Readings)
    ensures CleanedUp(d, RunSteps(d, CleanupStepsBy(d, dir, days, r)), dir, StatusOf(dir), days, r)
  {
    var expiry, age, purge := Cutoff(r.expiry, days), Cutoff(r.age, days), Cutoff(r.purge, days);
    CleanupExactAt(d, dir, expiry, age, purge);
    forall s | s in d.files && s.dir == dir
      ensures CleanedAwayAt(d, s, dir, expiry, age) <==> ToGo(d, s, StatusOf(dir), days, r.expiry, r.age)
    {
    }
  }

  /** Where files and rows agree, a valid file stays if and only if its own row is not out of date. */
  lemma ValidFilesStayIff(d: Disk, e: Disk, s: Slot, days: int, r: Readings, now: Time)
    requires Settled(d, now) && Live(d, s) && (s.dir == Sent || s.dir == Failed)
    requires CleanedUp(d, e, s.dir, if s.dir == Sent then SENT else FAILED, days, r)
    ensures ItemAt(d, s).key in d.rows
    ensures s in e.files <==> d.rows[ItemAt(d, s).key].lastStatusAt + days * 86_400_000_000 >= r.expiry
  {
    var key := ItemAt(d, s).key;
    assert InStep(d, s);
    assert forall k :: k in d.rows ==> (d.rows[k].itemId == s.id <==> k == key);
    assert d.rows[key].itemId == s.id;
  }

  /* ---- the two together ---- */

  /**
    With equal retention, cleanup_failed removes no item requeue_failed would
    return to `pending` at the cleanup's first reading of the clock.
   */
  lemma CleanupSparesSalvageable(d: Disk, id: Id, expiry: Time, age: Time, purge: Time, now: Time)
    requires Settled(d, now) && Salvageable(d, id, expiry)
    ensures Slot(Failed, id) in RunSteps(d, CleanupStepsAt(d, Failed, expiry, age, purge)).files
  {
    var s := Slot(Failed, id);
    SurvivesUnlessExpired(d, s, expiry, age, now);
    CleanupExactAt(d, Failed, expiry, age, purge);
    assert ItemAt(d, s).firstSeen <= d.rows[ItemAt(d, s).key].lastStatusAt;
  }

  lemma LaterIsSettled(d: Disk, now: Time, later: Time)
    requires Settled(d, now) && now <= later
    ensures Settled(d, later)
  {
  }

  ghost predicate TidyBy(d: Disk, dir: Dir, days: int, r: Readings) {
    Unstraddled(d, dir, Cutoff(r.expiry, days), Cutoff(r.purge, days))
  }

  /** The disk after a requeue at t, then a cleanup of `sent`, then one of `failed`. */
  ghost function AfterPass(d: Disk, sentDays: int, failedDays: int, t: Time, sent: Readings, failed: Readings): Disk {
    var a := RunSteps(d, RequeueSteps(d, failedDays, t));
    var b := RunSteps(a, CleanupStepsBy(a, Sent, sentDays, sent));
    RunSteps(b, CleanupStepsBy(b, Failed, failedDays, failed))
  }

  /** No row of a valid file expired while a cleanup of the pass was at it. */
  ghost predicate TidyPass(d: Disk, sentDays: int, failedDays: int, t: Time, sent: Readings, failed: Readings) {
    var a := RunSteps(d, RequeueSteps(d, failedDays, t));
    var b := RunSteps(a, CleanupStepsBy(a, Sent, sentDays, sent));
    TidyBy(a, Sent, sentDays, sent) && TidyBy(b, Failed, failedDays, failed)
  }

  /**
    One pass of the cleanup scheduler: every item that requeue found salvageable
    ends in `pending`, and no file the failed cleanup removed was one that a
    requeue at its first reading would have saved.
   */
  lemma SchedulerPass(d: Disk, sentDays: nat, failedDays: nat, t: Time, sent: Readings, failed: Readings, now: Time)
    requires Settled(d, t) && Ordered(sent, t, failed.expiry) && Ordered(failed, sent.purge, now)
    requires TidyPass(d, sentDays, failedDays, t, sent, failed)
    ensures var a := RunSteps(d, RequeueSteps(d, failedDays, t));
      var b := RunSteps(a, CleanupStepsBy(a, Sent, sentDays, sent));
      var c := AfterPass(d, sentDays, failedDays, t, sent, failed);
      && Settled(c, now)
      && (forall x :: Salvageable(d, x, Cutoff(t, failedDays)) ==>
            Slot(Pending, x) in c.files && c.files[Slot(Pending, x)] == d.files[Slot(Failed, x)])
      && (forall x :: Slot(Failed, x) in b.files && Slot(Failed, x) !in c.files ==>
            !Salvageable(b, x, Cutoff(failed.expiry, failedDays)))
  {
    var a := RunSteps(d, RequeueSteps(d, failedDays, t));
    var b := RunSteps(a, CleanupStepsBy(a, Sent, sentDays, sent));
    PassRequeues(d, failedDays, t);
    LaterIsSettled(a, t, now);
    PassCleans(a, Sent, sentDays, sent, now);
    PassCleans(b, Failed, failedDays, failed, now);
  }

  lemma PassRequeues(d: Disk, days: int, now: Time)
    requires Settled(d, now)
    ensures var a := RunSteps(d, RequeueSteps(d, days, now));
      && Settled(a, now)
      && (forall x :: Salvageable(d, x, Cutoff(now, days)) ==>
            Slot(Pending, x) in a.files && a.files[Slot(Pending, x)] == d.files[Slot(Failed, x)])
  {
    RequeueSafe(d, days, now);
    forall x | Salvageable(d, x, Cutoff(now, days)) ensures x in Listing(d, Failed) {
      assert Slot(Failed, x) in d.files;
    }
  }

  lemma PassCleans(b: Disk, dir: Dir, days: int, r: Readings, now: Time)
    requires Settled(b, now) && (dir == Sent || dir == Failed) && r.expiry <= r.purge && TidyBy(b, dir, days, r)
    ensures var c := RunSteps(b, CleanupStepsBy(b, dir, days, r));
      && Settled(c, now)
      && (dir == Failed ==> forall x :: Slot(Failed, x) in b.files && Slot(Failed, x) !in c.files ==>
            !Salvageable(b, x, Cutoff(r.expiry, days)))
      && (forall x :: Slot(Pending, x) in b.files ==>
            Slot(Pending, x) in c.files && c.files[Slot(Pending, x)] == b.files[Slot(Pending, x)])
  {
    var expiry, age, purge := Cutoff(r.expiry, days), Cutoff(r.age, days), Cutoff(r.purge, days);
    CleanupSafeAt(b, dir, expiry, age, purge, now);
    CleanupExactAt(b, dir, expiry, age, purge);
    if dir == Failed {
      forall x | Salvageable(b, x, expiry)
        ensures Slot(Failed, x) in RunSteps(b, CleanupStepsBy(b, dir, days, r)).files
      {
        CleanupSparesSalvageable(b, x, expiry, age, purge, now);
      }
    }
  }
}
