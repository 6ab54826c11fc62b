/**
  The file-backed queue. Each method leaves exactly the micro-steps that the
  specification lists for the disk it started from, in that order.
 */
module FileQueue {
  import opened Prelude
  import opened Durable
  import opened QueueSpec
  import opened StateDirectory
  import opened Dedup
  import opened CrashSafety
  import opened Retention

  class Queue {
    const cfg: Config
    const dir: StateDir
    const store: DedupStore
    var ready: bool

    ghost predicate Valid()
      reads this, store, dir
    {
      store.dir == dir && dir.Valid() && (ready ==> store.connected)
    }

    /** Since the old state the disk took exactly the steps `ms`, in this order. */
    twostate predicate Did(ms: seq<Micro>)
      reads dir
    {
      dir.journal == old(dir.journal) + ms
    }

    /** The steps taken fix the state reached. */
    twostate lemma DidFixesState(ms: seq<Micro>)
      requires old(dir.Valid()) && dir.Valid() && Did(ms)
      ensures dir.State() == RunSteps(old(dir.State()), ms)
    {
      RunStepsConcat(dir.origin, old(dir.journal), ms);
    }

    /** A dedup window below one minute is rejected. */
    static method Open(cfg: Config, dir: StateDir) returns (r: Result<Queue>)
      requires dir.Valid()
      ensures r.Err? <==> cfg.window < 1
      ensures r.Err? ==> r.error == InvalidArgument
      ensures r.Ok? ==>
        var q := r.value;
        fresh(q) && fresh(q.store) && q.Valid() && !q.ready && q.cfg == cfg && q.dir == dir
    {
      if cfg.window < 1 { return Err(InvalidArgument); }
      var q := new Queue(cfg, dir);
      return Ok(q);
    }

    constructor (cfg: Config, dir: StateDir)
      requires dir.Valid()
      ensures Valid() && !ready && fresh(store)
      ensures this.cfg == cfg && this.dir == dir
    {
      this.cfg := cfg;
      this.dir := dir;
      store := new DedupStore(dir);
      ready := false;
    }

    /* ---- lifecycle ---- */

    method Initialize(now: Time)
      requires Valid()
      modifies this, store, dir
      ensures Valid() && ready
      ensures old(ready) ==> Did([])
      ensures !old(ready) ==> Did(InitializeSteps(old(dir.State()), now))
    {
      if ready { return; }
      store.Initialize();
      ReconcileDirs(now);
      ready := true;
    }

    method ReconcileDirs(now: Time)
      requires Valid() && store.connected
      modifies dir
      ensures Valid()
      ensures Did(InitializeSteps(old(dir.State()), now))
    {
      ReconcileDir(Pending, now);
      ghost var d, a := dir.State(), ReconcileDirSteps(old(dir.State()), Pending, PENDING, now);
      DidFixesState(a);
      ReconcileTerminalDirs(now);
      Regroup(old(dir.journal), a, ReconcileTerminalSteps(d, now));
    }

    method ReconcileTerminalDirs(now: Time)
      requires Valid() && store.connected
      modifies dir
      ensures Valid()
      ensures Did(ReconcileTerminalSteps(old(dir.State()), now))
    {
      ReconcileDir(Sent, now);
      ghost var d, a := dir.State(), ReconcileDirSteps(old(dir.State()), Sent, SENT, now);
      DidFixesState(a);
      ReconcileDir(Failed, now);
      Regroup(old(dir.journal), a, ReconcileDirSteps(d, Failed, FAILED, now));
    }

    method ReconcileDir(place: Dir, now: Time)
      requires Valid() && store.connected
      modifies dir
      ensures Valid()
      ensures Did(ReconcileDirSteps(old(dir.State()), place, StatusOf(place), now))
    {
      var ids := dir.ListItemsSorted(place);
      ReconcileFiles(place, ids, now);
    }

    method ReconcileFiles(place: Dir, ids: seq<Id>, now: Time)
      requires Valid() && store.connected
      modifies dir
      ensures Valid()
      ensures Did(ReconcileFrom(old(dir.State()), place, StatusOf(place), ids, now))
    {
      var i := 0;
      ghost var done: seq<Micro> := [];
      while i < |ids|
        invariant 0 <= i <= |ids|
        invariant Valid() && store.connected
        invariant dir.journal == old(dir.journal) + done
        invariant done + ReconcileFrom(dir.State(), place, StatusOf(place), ids[i..], now)
                  == ReconcileFrom(old(dir.State()), place, StatusOf(place), ids, now)
      {
        var s := Slot(place, ids[i]);
        assert ids[i..][1..] == ids[i + 1..];
        if Live(dir.State(), s) {
          var key := ItemAt(dir.State(), s).key;
          store.ReconcileStatus(key, ids[i], StatusOf(place), now);
          Regroup(done, [Reconcile(key, ids[i], StatusOf(place), now)],
                  ReconcileFrom(dir.State(), place, StatusOf(place), ids[i + 1..], now));
          done := done + [Reconcile(key, ids[i], StatusOf(place), now)];
        }
        i := i + 1;
      }
    }

    method Close()
      requires Valid()
      modifies this, store
      ensures Valid() && !ready
    {
      store.Close();
      ready := false;
    }

    /** Moves every file of `processing` back to `pending`. */
    method RecoverProcessing() returns (r: Result<nat>)
      requires Valid()
      modifies dir
      ensures Valid()
      ensures !ready ==> r == Err(NotInitialized) && Did([])
      ensures ready ==> r == Ok(|Ids(old(dir.State()), Processing)|) && Did(RecoverSteps(old(dir.State())))
    {
      if !ready { return Err(NotInitialized); }
      var ids := dir.ListItemsSorted(Processing);
      var count := MoveAllBack(ids);
      return Ok(count);
    }

    method MoveAllBack(ids: seq<Id>) returns (count: nat)
      requires Valid() && Increasing(ids)
      requires forall x :: x in ids ==> Slot(Processing, x) in dir.files
      modifies dir
      ensures Valid()
      ensures Did(RecoverFrom(ids)) && count == |ids|
    {
      count := 0;
      ghost var done: seq<Micro> := [];
      while count < |ids|
        invariant 0 <= count <= |ids|
        invariant Valid()
        invariant dir.journal == old(dir.journal) + done
        invariant done + RecoverFrom(ids[count..]) == RecoverFrom(ids)
        invariant AllThere(ids, count, Processing, dir.files)
      {
        assert ids[count..][1..] == ids[count + 1..];
        RestStays(ids, count, Processing, Pending, dir.files);
        var found := dir.AtomicMove(ids[count], Processing, Pending);
        assert found;
        Regroup(done, [Move(ids[count], Processing, Pending)], RecoverFrom(ids[count + 1..]));
        done := done + [Move(ids[count], Processing, Pending)];
        count := count + 1;
      }
    }

    /* ---- producer ---- */

    /** Returns the accepted item, or None for a duplicate. */
    method Enqueue(sms: Sms, id: Id, born: Time, now: Time) returns (r: Result<Option<Item>>)
      requires Valid()
      modifies dir
      ensures Valid()
      ensures !ready ==> r == Err(NotInitialized) && Did([])
      ensures ready ==>
        var item := NewItem(cfg, sms, id, born);
        && Did(EnqueueSteps(cfg, old(dir.State()), item, now))
        && r == Ok(if EnqueueAccepts(cfg, old(dir.State()), item.key) then Some(item) else None)
    {
      var item := NewItem(cfg, sms, id, born);
      if !ready { return Err(NotInitialized); }
      var seen := store.IsDuplicate(item.key);
      if seen.value { return Ok(None); }
      var duplicate := FindPendingDuplicate(item.key);
      if duplicate.Some? {
        if duplicate.value.key == item.key {
          var _ := store.RecordNew(item.key, duplicate.value.id, now);
        }
        return Ok(None);
      }
      dir.AtomicWriteJson(item, now);
      var recorded := store.RecordNew(item.key, item.id, now);
      assert recorded.Ok?;
      return Ok(Some(item));
    }

    method FindPendingDuplicate(key: Key) returns (dup: Option<Item>)
      ensures dup == PendingDuplicate(cfg, dir.State(), key)
    {
      var ids := dir.ListItemsSorted(Pending);
      dup := ScanForDuplicate(ids, key);
    }

    method ScanForDuplicate(ids: seq<Id>, key: Key) returns (dup: Option<Item>)
      ensures dup == FindDuplicate(cfg, dir.State(), ids, key)
    {
      for i := 0 to |ids|
        invariant FindDuplicate(cfg, dir.State(), ids[i..], key) == FindDuplicate(cfg, dir.State(), ids, key)
      {
        var s := Slot(Pending, ids[i]);
        assert ids[i..][1..] == ids[i + 1..];
        if Live(dir.State(), s) && AnswersTo(cfg, ItemAt(dir.State(), s), key) {
          return Some(ItemAt(dir.State(), s));
        }
      }
      return None;
    }

    /* ---- worker side ---- */

    /**
      Takes the first valid pending item that is not skipped, moving corrupt
      and misnamed files it meets on the way to `failed`.
     */
    method ClaimNext(skip: set<Id>, now: Time) returns (r: Result<Option<Item>>)
      requires Valid()
      modifies dir
      ensures Valid()
      ensures !ready ==> r == Err(NotInitialized) && Did([])
      ensures ready ==>
        && Did(ClaimSteps(old(dir.State()), skip, now))
        && r == Ok(ClaimResult(old(dir.State()), skip))
    {
      if !ready { return Err(NotInitialized); }
      var ids := dir.ListItemsSorted(Pending);
      var item := ClaimAmong(ids, skip, now);
      return Ok(item);
    }

    method ClaimAmong(ids: seq<Id>, skip: set<Id>, now: Time) returns (item: Option<Item>)
      requires Valid() && ready && Increasing(ids)
      requires forall x :: x in ids ==> Slot(Pending, x) in dir.files
      modifies dir
      ensures Valid()
      ensures Did(ClaimFrom(old(dir.State()), ids, skip, now))
      ensures item == ClaimResultFrom(old(dir.State()), ids, skip)
    {
      var i := 0;
      item := None;
      ghost var done: seq<Micro> := [];
      assert ids[0..] == ids;
      while i < |ids| && item.None?
        invariant 0 <= i <= |ids|
        invariant Valid() && (item.None? ==> AllThere(ids, i, Pending, dir.files))
        invariant Did(done)
        invariant ClaimIs(old(dir.State()), ids, skip, now, done, dir.State(), ids[i..], item)
      {
        ghost var d := dir.State();
        ghost var ms;
        item, ms := ClaimOrPass(ids, i, skip, now);
        ClaimGoesOn(old(dir.State()), ids, skip, now, done, d, ids[i..], ms, dir.State(), ids[i + 1..], item);
        done := done + ms;
        i := i + 1;
      }
      ClaimEnds(old(dir.State()), ids, skip, now, done, dir.State(), ids[i..], item);
    }

    /** Claims file number `i` of the listing, or passes on, quarantining a file that is not valid. */
    method ClaimOrPass(ids: seq<Id>, i: nat, skip: set<Id>, now: Time)
      returns (item: Option<Item>, ghost ms: seq<Micro>)
      requires Valid() && ready && Increasing(ids) && i < |ids| && AllThere(ids, i, Pending, dir.files)
      modifies dir
      ensures Valid() && Did(ms) && (item.None? ==> AllThere(ids, i + 1, Pending, dir.files))
      ensures ClaimIs(old(dir.State()), ids[i..], skip, now, ms, dir.State(), ids[i + 1..], item)
    {
      item, ms := None, [];
      assert ids[i..][1..] == ids[i + 1..];
      if ids[i] in skip { return; }
      if Live(dir.State(), Slot(Pending, ids[i])) {
        item := Some(ItemAt(dir.State(), Slot(Pending, ids[i])));
        ms := TakeSteps(dir.State(), item.value, now);
        Take(item.value, now);
        return;
      }
      ms := QuarantineSteps(dir.State(), ids[i]);
      RestStays(ids, i, Pending, Failed, dir.files);
      QuarantineResult(dir.State(), ids[i], ids[i + 1..], skip);
      Quarantine(ids[i]);
    }

    /** Claims one item, repairing a missing row. */
    method Take(item: Item, now: Time)
      requires Valid() && ready
      requires Slot(Pending, item.id) in dir.files
      modifies dir
      ensures Valid()
      ensures Did(TakeSteps(old(dir.State()), item, now))
    {
      var found := dir.AtomicMove(item.id, Pending, Processing);
      assert found;
      if item.key in dir.rows {
        var _ := store.UpdateStatus(item.key, PROCESSING, now);
      } else {
        var recorded := store.RecordNew(item.key, item.id, now);
        assert recorded.Ok?;
        var _ := store.UpdateStatus(item.key, PROCESSING, now);
      }
    }

    method Quarantine(id: Id)
      requires Valid() && ready
      requires Slot(Pending, id) in dir.files && !Live(dir.State(), Slot(Pending, id))
      modifies dir
      ensures Valid()
      ensures Did(QuarantineSteps(old(dir.State()), id))
      ensures dir.State() == RunSteps(old(dir.State()), QuarantineSteps(old(dir.State()), id))
    {
      ghost var d := dir.State();
      var file := dir.files[Slot(Pending, id)];
      var found := dir.AtomicMove(id, Pending, Failed);
      assert found;
      store.DeleteByItemId(id);
      if file.Doc? {
        NamedAfterMove(d, id, Pending, Failed, file.item.id);
        if !QueueFileExists(dir.State(), file.item.id) {
          store.DeleteByItemId(file.item.id);
        }
      }
      DidFixesState(QuarantineSteps(d, id));
    }

    /** An item that is not in `processing`, or whose key has no row, is reported. */
    method MarkSent(item: Item, now: Time) returns (r: Result<()>)
      requires Valid()
      modifies dir
      ensures Valid()
      ensures !ready ==> r == Err(NotInitialized) && Did([])
      ensures ready ==>
        && Did(MarkSentSteps(old(dir.State()), item, now))
        && r == (if Held(old(dir.State()), item) && item.key in old(dir.rows) then Ok(()) else Err(ItemNotFound))
    {
      if !ready { return Err(NotInitialized); }
      var found := dir.AtomicMove(item.id, Processing, Sent);
      if !found { return Err(ItemNotFound); }
      r := store.UpdateStatus(item.key, SENT, now);
    }

    method MarkFailed(item: Item, permanent: bool, now: Time) returns (r: Result<()>)
      requires Valid()
      modifies dir
      ensures Valid()
      ensures !ready ==> r == Err(NotInitialized) && Did([])
      ensures ready ==>
        && Did(MarkFailedSteps(old(dir.State()), item, permanent, now))
        && r == (if Held(old(dir.State()), item) && item.key in old(dir.rows) then Ok(()) else Err(ItemNotFound))
    {
      if !ready { return Err(NotInitialized); }
      var updated := item.(permanent := permanent);
      if Slot(Processing, item.id) !in dir.files { return Err(ItemNotFound); }
      dir.SaveItem(updated, Processing, now);
      var found := dir.AtomicMove(item.id, Processing, Failed);
      assert found;
      r := store.UpdateStatus(item.key, FAILED, now);
    }

    method MoveBackToPending(item: Item) returns (r: Result<()>)
      requires Valid()
      modifies dir
      ensures Valid()
      ensures !ready ==> r == Err(NotInitialized) && Did([])
      ensures ready ==>
        && Did(MoveBackSteps(old(dir.State()), item))
        && r == (if Held(old(dir.State()), item) then Ok(()) else Err(ItemNotFound))
    {
      if !ready { return Err(NotInitialized); }
      var found := dir.AtomicMove(item.id, Processing, Pending);
      return if found then Ok(()) else Err(ItemNotFound);
    }

    method UpdateAttempt(item: Item, next: Time, now: Time) returns (r: Result<Item>)
      requires Valid()
      modifies dir
      ensures Valid()
      ensures !ready ==> r == Err(NotInitialized) && Did([])
      ensures ready ==>
        && Did(UpdateAttemptSteps(old(dir.State()), item, next, now))
        && r == (if Held(old(dir.State()), item) then Ok(Attempted(item, next, now)) else Err(ItemNotFound))
    {
      var updated := Attempted(item, next, now);
      if !ready { return Err(NotInitialized); }
      if Slot(Processing, item.id) !in dir.files { return Err(ItemNotFound); }
      dir.SaveItem(updated, Processing, now);
      return Ok(updated);
    }

    /* ---- retention ---- */

    /** Returns young, not permanently failed items to `pending`. */
    method RequeueFailed(maxAgeDays: int, now: Time) returns (r: Result<nat>)
      requires Valid()
      modifies dir
      ensures Valid()
      ensures !ready ==> r == Err(NotInitialized) && Did([])
      ensures ready ==>
        var d := old(dir.State());
        && Did(RequeueSteps(d, maxAgeDays, now))
        && r == RequeueOutcome(d, Listing(d, Failed), Cutoff(now, maxAgeDays), now, 0)
      ensures ready && Settled(old(dir.State()), now) ==>
        r.Ok? && RequeuesYoung(old(dir.State()), dir.State(), maxAgeDays, now)
    {
      if !ready { return Err(NotInitialized); }
      ghost var d := dir.State();
      var ids := dir.ListItemsSorted(Failed);
      r := RequeueFiles(ids, Cutoff(now, maxAgeDays), now);
      DidFixesState(RequeueSteps(d, maxAgeDays, now));
      if Settled(d, now) {
        RequeueSafe(d, maxAgeDays, now);
        RequeuesInDays(d, maxAgeDays, now);
      }
    }

    method RequeueFiles(ids: seq<Id>, cutoff: Time, now: Time) returns (r: Result<nat>)
      requires Valid() && ready
      modifies dir
      ensures Valid()
      ensures Did(RequeueFrom(old(dir.State()), ids, cutoff, now))
      ensures r == RequeueOutcome(old(dir.State()), ids, cutoff, now, 0)
    {
      var i := 0;
      var count := 0;
      ghost var done: seq<Micro> := [];
      while i < |ids|
        invariant 0 <= i <= |ids|
        invariant Valid() && ready
        invariant dir.journal == old(dir.journal) + done
        invariant done + RequeueFrom(dir.State(), ids[i..], cutoff, now)
                  == RequeueFrom(old(dir.State()), ids, cutoff, now)
        invariant RequeueOutcome(dir.State(), ids[i..], cutoff, now, count)
                  == RequeueOutcome(old(dir.State()), ids, cutoff, now, 0)
      {
        var s := Slot(Failed, ids[i]);
        assert ids[i..][1..] == ids[i + 1..];
        if Live(dir.State(), s) {
          var item := ItemAt(dir.State(), s);
          if !item.permanent && item.firstSeen >= cutoff {
            ghost var d, ms := dir.State(), SalvageSteps(dir.State(), ids[i], now);
            assert Salvageable(d, ids[i], cutoff);
            var updated := Salvage(item, now);
            if updated.Err? { return Err(ItemNotFound); }
            Regroup(done, ms, RequeueFrom(dir.State(), ids[i + 1..], cutoff, now));
            done := done + ms;
            count := count + 1;
          }
        }
        i := i + 1;
      }
      return Ok(count);
    }

    /** Moves one failed item back and restamps its row; a missing row is reported after the move. */
    method Salvage(item: Item, now: Time) returns (r: Result<()>)
      requires Valid() && ready
      requires Live(dir.State(), Slot(Failed, item.id)) && ItemAt(dir.State(), Slot(Failed, item.id)) == item
      modifies dir
      ensures Valid()
      ensures Did(SalvageSteps(old(dir.State()), item.id, now))
      ensures dir.State() == RunSteps(old(dir.State()), SalvageSteps(old(dir.State()), item.id, now))
      ensures r == if item.key in old(dir.rows) then Ok(()) else Err(ItemNotFound)
    {
      var found := dir.AtomicMove(item.id, Failed, Pending);
      assert found;
      r := store.UpdateStatus(item.key, PENDING, now);
      DidFixesState(SalvageSteps(old(dir.State()), item.id, now));
    }

    method CleanupSent(maxAgeDays: int, t1: Time, t2: Time, t3: Time) returns (r: Result<nat>)
      requires Valid()
      modifies dir
      ensures Valid()
      ensures maxAgeDays < 0 ==> r == Err(InvalidArgument) && Did([])
      ensures maxAgeDays >= 0 && !ready ==> r == Err(NotInitialized) && Did([])
      ensures maxAgeDays >= 0 && ready ==>
        var ms := CleanupStepsAt(old(dir.State()), Sent,
                                 Cutoff(t1, maxAgeDays), Cutoff(t2, maxAgeDays), Cutoff(t3, maxAgeDays));
        Did(ms) && r == Ok(|ms| - 1)
      ensures maxAgeDays >= 0 && ready ==>
        CleanedUp(old(dir.State()), dir.State(), Sent, SENT, maxAgeDays, Readings(t1, t2, t3))
    {
      if maxAgeDays < 0 { return Err(InvalidArgument); }
      if !ready { return Err(NotInitialized); }
      ghost var d := dir.State();
      var count := CleanupDir(Sent, Cutoff(t1, maxAgeDays), Cutoff(t2, maxAgeDays), Cutoff(t3, maxAgeDays));
      DidFixesState(CleanupStepsBy(d, Sent, maxAgeDays, Readings(t1, t2, t3)));
      CleansInDays(d, Sent, maxAgeDays, Readings(t1, t2, t3));
      return Ok(count);
    }

    method CleanupFailed(maxAgeDays: int, t1: Time, t2: Time, t3: Time) returns (r: Result<nat>)
      requires Valid()
      modifies dir
      ensures Valid()
      ensures maxAgeDays < 0 ==> r == Err(InvalidArgument) && Did([])
      ensures maxAgeDays >= 0 && !ready ==> r == Err(NotInitialized) && Did([])
      ensures maxAgeDays >= 0 && ready ==>
        var ms := CleanupStepsAt(old(dir.State()), Failed,
                                 Cutoff(t1, maxAgeDays), Cutoff(t2, maxAgeDays), Cutoff(t3, maxAgeDays));
        Did(ms) && r == Ok(|ms| - 1)
      ensures maxAgeDays >= 0 && ready ==>
        CleanedUp(old(dir.State()), dir.State(), Failed, FAILED, maxAgeDays, Readings(t1, t2, t3))
    {
      if maxAgeDays < 0 { return Err(InvalidArgument); }
      if !ready { return Err(NotInitialized); }
      ghost var d := dir.State();
      var count := CleanupDir(Failed, Cutoff(t1, maxAgeDays), Cutoff(t2, maxAgeDays), Cutoff(t3, maxAgeDays));
      DidFixesState(CleanupStepsBy(d, Failed, maxAgeDays, Readings(t1, t2, t3)));
      CleansInDays(d, Failed, maxAgeDays, Readings(t1, t2, t3));
      return Ok(count);
    }

    /** The files of expired rows, then old files no row knows, then the expired rows. */
    method CleanupDir(place: Dir, expiry: Time, age: Time, purge: Time) returns (count: nat)
      requires Valid() && ready
      modifies dir
      ensures Valid()
      ensures Did(CleanupStepsAt(old(dir.State()), place, expiry, age, purge))
      ensures count == |CleanupStepsAt(old(dir.State()), place, expiry, age, purge)| - 1
    {
      var expired := store.ItemIdsOlderThan(StatusOf(place), expiry);
      var known := store.ItemIds();
      var files := RemoveItemFiles(place, expired);
      ghost var a := RemoveFrom(old(dir.State()), place, expired);
      DidFixesState(a);
      var ids := dir.ListItemsSorted(place);
      ghost var b := RemoveStraysFrom(dir.State(), place, ids, known, age);
      var strays := RemoveUnknownFiles(place, ids, known, age);
      store.PurgeOlderThan(StatusOf(place), purge);
      Regroup(old(dir.journal), a, b);
      Regroup(old(dir.journal), a + b, [Purge(StatusOf(place), purge)]);
      return files + strays;
    }

    method RemoveItemFiles(place: Dir, ids: seq<Id>) returns (count: nat)
      requires Valid()
      modifies dir
      ensures Valid()
      ensures Did(RemoveFrom(old(dir.State()), place, ids))
      ensures count == |RemoveFrom(old(dir.State()), place, ids)|
    {
      ghost var done: seq<Micro> := [];
      count := 0;
      var i := 0;
      while i < |ids|
        invariant 0 <= i <= |ids|
        invariant Valid()
        invariant dir.journal == old(dir.journal) + done
        invariant done + RemoveFrom(dir.State(), place, ids[i..]) == RemoveFrom(old(dir.State()), place, ids)
        invariant count == |done|
      {
        assert ids[i..][1..] == ids[i + 1..];
        if Slot(place, ids[i]) in dir.files {
          dir.Remove(place, ids[i]);
          Regroup(done, [Unlink(place, ids[i])], RemoveFrom(dir.State(), place, ids[i + 1..]));
          done := done + [Unlink(place, ids[i])];
          count := count + 1;
        }
        i := i + 1;
      }
    }

    method RemoveUnknownFiles(place: Dir, ids: seq<Id>, known: set<Id>, cutoff: Time) returns (count: nat)
      requires Valid()
      modifies dir
      ensures Valid()
      ensures Did(RemoveStraysFrom(old(dir.State()), place, ids, known, cutoff))
      ensures count == |RemoveStraysFrom(old(dir.State()), place, ids, known, cutoff)|
    {
      ghost var done: seq<Micro> := [];
      count := 0;
      var i := 0;
      while i < |ids|
        invariant 0 <= i <= |ids|
        invariant Valid()
        invariant dir.journal == old(dir.journal) + done
        invariant done + RemoveStraysFrom(dir.State(), place, ids[i..], known, cutoff)
                  == RemoveStraysFrom(old(dir.State()), place, ids, known, cutoff)
        invariant count == |done|
      {
        assert ids[i..][1..] == ids[i + 1..];
        if Stray(dir.State(), Slot(place, ids[i]), known, cutoff) {
          dir.Remove(place, ids[i]);
          Regroup(done, [Unlink(place, ids[i])], RemoveStraysFrom(dir.State(), place, ids[i + 1..], known, cutoff));
          done := done + [Unlink(place, ids[i])];
          count := count + 1;
        }
        i := i + 1;
      }
    }
  }

  /** The files listed from position `i` on are still in the directory. */
  ghost predicate AllThere(ids: seq<Id>, i: nat, place: Dir, files: map<Slot, File>) {
    forall j :: i <= j < |ids| ==> Slot(place, ids[j]) in files
  }

  lemma RestStays(ids: seq<Id>, i: nat, from: Dir, to: Dir, files: map<Slot, File>)
    requires Increasing(ids) && i < |ids| && AllThere(ids, i, from, files)
    ensures Slot(from, ids[i]) in files
    ensures AllThere(ids, i + 1, from, files) && AllThere(ids, i + 1, from, MoveFile(files, ids[i], from, to))
  {
    forall j | i + 1 <= j < |ids| ensures Slot(from, ids[j]) in MoveFile(files, ids[i], from, to) {
      assert ids[i] < ids[j];
    }
  }

  /**
    The claim from `d` over `ids` takes the steps `done` and answers `item`; as
    long as that is None, the rest of it is the claim from `e` over `rest`.
   */
  ghost predicate ClaimIs(d: Disk, ids: seq<Id>, skip: set<Id>, now: Time,
                          done: seq<Micro>, e: Disk, rest: seq<Id>, item: Option<Item>)
  {
    if item.Some? then ClaimFrom(d, ids, skip, now) == done && ClaimResultFrom(d, ids, skip) == item
    else
      && ClaimFrom(d, ids, skip, now) == done + ClaimFrom(e, rest, skip, now)
      && ClaimResultFrom(d, ids, skip) == ClaimResultFrom(e, rest, skip)
  }

  lemma ClaimGoesOn(d: Disk, ids: seq<Id>, skip: set<Id>, now: Time, done: seq<Micro>, e: Disk, rest: seq<Id>,
                    ms: seq<Micro>, f: Disk, last: seq<Id>, item: Option<Item>)
    requires ClaimIs(d, ids, skip, now, done, e, rest, None) && ClaimIs(e, rest, skip, now, ms, f, last, item)
    ensures ClaimIs(d, ids, skip, now, done + ms, f, last, item)
  {
  }

  lemma ClaimEnds(d: Disk, ids: seq<Id>, skip: set<Id>, now: Time,
                  done: seq<Micro>, e: Disk, rest: seq<Id>, item: Option<Item>)
    requires ClaimIs(d, ids, skip, now, done, e, rest, item) && (rest == [] || item.Some?)
    ensures ClaimFrom(d, ids, skip, now) == done && ClaimResultFrom(d, ids, skip) == item
  {
  }

  lemma Regroup(a: seq<Micro>, b: seq<Micro>, c: seq<Micro>)
    ensures (a + b) + c == a + (b + c)
  {
  }

  predicate QueueFileExists(d: Disk, id: Id) {
    Slot(Pending, id) in d.files || Slot(Processing, id) in d.files ||
    Slot(Sent, id) in d.files || Slot(Failed, id) in d.files
  }

  lemma QueueFileExistsIsNamed(d: Disk, id: Id)
    ensures QueueFileExists(d, id) <==> Named(d, id)
  {
    if Named(d, id) {
      var dir :| Slot(dir, id) in d.files;
      assert dir == Pending || dir == Processing || dir == Sent || dir == Failed;
    }
  }

  /** Renaming files never changes which names exist. */
  lemma NamedAfterMove(d: Disk, id: Id, from: Dir, to: Dir, other: Id)
    requires Slot(from, id) in d.files
    ensures Named(d, other) <==> QueueFileExists(Apply(d, Move(id, from, to)), other)
  {
    var d1 := Apply(d, Move(id, from, to));
    QueueFileExistsIsNamed(d1, other);
    if Named(d, other) {
      var dir :| Slot(dir, other) in d.files;
      assert Slot(if other == id && dir == from then to else dir, other) in d1.files;
    }
    if Named(d1, other) {
      var dir :| Slot(dir, other) in d1.files;
      assert Slot(if other == id && dir == to then from else dir, other) in d.files || Slot(dir, other) in d.files;
    }
  }

  /** Quarantining one file does not change what the scan finds further on. */
  lemma QuarantineResult(d: Disk, id: Id, rest: seq<Id>, skip: set<Id>)
    requires id !in rest
    ensures ClaimResultFrom(RunSteps(d, QuarantineSteps(d, id)), rest, skip) == ClaimResultFrom(d, rest, skip)
    ensures RunSteps(d, QuarantineSteps(d, id)).files == MoveFile(d.files, id, Pending, Failed)
  {
    QuarantineFiles(d, id);
    SameScan(d, RunSteps(d, QuarantineSteps(d, id)), rest, skip);
  }

  lemma QuarantineFiles(d: Disk, id: Id)
    ensures RunSteps(d, QuarantineSteps(d, id)).files == MoveFile(d.files, id, Pending, Failed)
  {
    var ms := QuarantineSteps(d, id);
    RunTwo(d, ms[0], ms[1]);
    if |ms| == 3 {
      RunThree(d, ms[0], ms[1], ms[2]);
      assert ms == [ms[0], ms[1], ms[2]];
    } else {
      assert ms == [ms[0], ms[1]];
    }
  }

  lemma {:induction false} SameScan(d: Disk, e: Disk, ids: seq<Id>, skip: set<Id>)
    requires forall x :: x in ids ==>
      (Slot(Pending, x) in d.files <==> Slot(Pending, x) in e.files) &&
      (Slot(Pending, x) in d.files ==> d.files[Slot(Pending, x)] == e.files[Slot(Pending, x)])
    ensures ClaimResultFrom(d, ids, skip) == ClaimResultFrom(e, ids, skip)
    decreases |ids|
  {
    if ids != [] {
      assert ids[0] in ids;
      SameScan(d, e, ids[1..], skip);
    }
  }
}
