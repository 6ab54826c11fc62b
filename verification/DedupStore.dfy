/** The table of seen messages, one row per content key. */
module Dedup {
  import opened Prelude
  import opened Durable
  import opened QueueSpec
  import opened StateDirectory

  class DedupStore {
    const dir: StateDir
    var connected: bool

    constructor (dir: StateDir)
      ensures this.dir == dir && !connected
    {
      this.dir := dir;
      connected := false;
    }

    method Initialize()
      modifies this
      ensures connected
    {
      connected := true;
    }

    method Close()
      modifies this
      ensures !connected
    {
      connected := false;
    }

    method IsDuplicate(key: Key) returns (r: Result<bool>)
      ensures r == if connected then Ok(key in dir.rows) else Err(NotInitialized)
    {
      if !connected { return Err(NotInitialized); }
      return Ok(key in dir.rows);
    }

    /** Inserts a PENDING row; a key that is already there is reported and left alone. */
    method RecordNew(key: Key, itemId: Id, now: Time) returns (r: Result<()>)
      requires dir.Valid()
      modifies dir
      ensures dir.Valid()
      ensures r == if !connected then Err(NotInitialized)
                   else if key in old(dir.rows) then Err(DuplicateMessage)
                   else Ok(())
      ensures r.Ok? ==>
        && dir.journal == old(dir.journal) + [Insert(key, Row(itemId, now, PENDING, now))]
        && dir.State() == Apply(old(dir.State()), Insert(key, Row(itemId, now, PENDING, now)))
        && dir.files == old(dir.files) && dir.rows == old(dir.rows)[key := Row(itemId, now, PENDING, now)]
      ensures r.Err? ==> dir.journal == old(dir.journal) && dir.State() == old(dir.State())
    {
      if !connected { return Err(NotInitialized); }
      if key in dir.rows { return Err(DuplicateMessage); }
      dir.Commit(dir.rows[key := Row(itemId, now, PENDING, now)], Insert(key, Row(itemId, now, PENDING, now)));
      return Ok(());
    }

    /** Commits the update, then reports a key that has no row. */
    method UpdateStatus(key: Key, status: Status, now: Time) returns (r: Result<()>)
      requires dir.Valid()
      modifies dir
      ensures dir.Valid()
      ensures r == if !connected then Err(NotInitialized)
                   else if key !in old(dir.rows) then Err(ItemNotFound)
                   else Ok(())
      ensures r != Err(NotInitialized) ==>
        && dir.journal == old(dir.journal) + [SetStatus(key, status, now)]
        && dir.State() == Apply(old(dir.State()), SetStatus(key, status, now))
      ensures r.Ok? ==>
        && dir.files == old(dir.files)
        && dir.rows == old(dir.rows)[key := old(dir.rows)[key].(status := status, lastStatusAt := now)]
      ensures r.Err? ==> dir.files == old(dir.files) && dir.rows == old(dir.rows)
      ensures r == Err(NotInitialized) ==> dir.journal == old(dir.journal) && dir.State() == old(dir.State())
    {
      if !connected { return Err(NotInitialized); }
      if key in dir.rows {
        dir.Commit(dir.rows[key := Restamp(dir.rows[key], status, now)], SetStatus(key, status, now));
        return Ok(());
      }
      dir.Commit(dir.rows, SetStatus(key, status, now));
      return Err(ItemNotFound);
    }

    /** Inserts the row, or sets its status when that differs; an agreeing row keeps its timestamp. */
    method ReconcileStatus(key: Key, itemId: Id, status: Status, now: Time)
      requires dir.Valid() && connected
      modifies dir
      ensures dir.Valid()
      ensures dir.journal == old(dir.journal) + [Reconcile(key, itemId, status, now)]
      ensures dir.State() == Apply(old(dir.State()), Reconcile(key, itemId, status, now))
      ensures dir.files == old(dir.files)
      ensures dir.rows ==
        if key !in old(dir.rows) then old(dir.rows)[key := Row(itemId, now, status, now)]
        else if old(dir.rows)[key].status == status then old(dir.rows)
        else old(dir.rows)[key := old(dir.rows)[key].(status := status, lastStatusAt := now)]
    {
      dir.Commit(ReconcileRow(dir.rows, key, itemId, status, now), Reconcile(key, itemId, status, now));
    }

    method DeleteByItemId(itemId: Id)
      requires dir.Valid() && connected
      modifies dir
      ensures dir.Valid()
      ensures dir.journal == old(dir.journal) + [DeleteRowsOf(itemId)]
      ensures dir.State() == Apply(old(dir.State()), DeleteRowsOf(itemId))
      ensures dir.files == old(dir.files)
      ensures forall k :: k in dir.rows <==> k in old(dir.rows) && old(dir.rows)[k].itemId != itemId
      ensures forall k :: k in dir.rows ==> dir.rows[k] == old(dir.rows)[k]
    {
      dir.Commit(map k | k in dir.rows && dir.rows[k].itemId != itemId :: dir.rows[k], DeleteRowsOf(itemId));
    }

    method ItemIdsOlderThan(status: Status, cutoff: Time) returns (ids: seq<Id>)
      requires connected
      ensures ids == Sorted(ExpiredIds(dir.rows, status, cutoff)) && Increasing(ids)
      ensures forall x :: x in ids <==>
        exists k :: k in dir.rows && dir.rows[k].itemId == x && dir.rows[k].status == status
                    && dir.rows[k].lastStatusAt < cutoff
    {
      var expired := ExpiredIds(dir.rows, status, cutoff);
      ids := Sort(expired);
      SortedIsUnique(ids, Sorted(expired), expired);
    }

    method ItemIds() returns (ids: set<Id>)
      requires connected
      ensures ids == KnownIds(dir.rows)
    {
      ids := KnownIds(dir.rows);
    }

    method PurgeOlderThan(status: Status, cutoff: Time)
      requires dir.Valid() && connected
      modifies dir
      ensures dir.Valid()
      ensures dir.journal == old(dir.journal) + [Purge(status, cutoff)]
      ensures dir.State() == Apply(old(dir.State()), Purge(status, cutoff))
      ensures dir.files == old(dir.files)
      ensures forall k :: k in dir.rows <==>
        k in old(dir.rows) && !(old(dir.rows)[k].status == status && old(dir.rows)[k].lastStatusAt < cutoff)
      ensures forall k :: k in dir.rows ==> dir.rows[k] == old(dir.rows)[k]
    {
      dir.Commit(map k | k in dir.rows && !Expired(dir.rows[k], status, cutoff) :: dir.rows[k], Purge(status, cutoff));
    }
  }
}
