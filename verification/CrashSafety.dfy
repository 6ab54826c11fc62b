/**
  The two-store invariant. `Sound` holds at every crash point, `Settled` between
  operations of a running gateway, `Quiescent` after startup. `Allowed` is what
  a micro-step must respect for `Sound` to survive it.
 */
module CrashSafety {
  import opened Durable

  ghost predicate OneHome(d: Disk) {
    forall s, t :: s in d.files && t in d.files && s.id == t.id ==> s == t
  }

  ghost predicate KeysDistinct(d: Disk) {
    forall s, t :: Live(d, s) && Live(d, t) && ItemAt(d, s).key == ItemAt(d, t).key ==> s == t
  }

  /** A row is a valid file's row by key exactly when it is by id. */
  ghost predicate RowsOwned(d: Disk) {
    forall s, k :: Live(d, s) && k in d.rows ==> (k == ItemAt(d, s).key <==> d.rows[k].itemId == s.id)
  }

  /** What crash points still guarantee about statuses. */
  ghost predicate RowsPresent(d: Disk) {
    forall s :: Live(d, s) ==>
      && (s.dir == Sent || s.dir == Failed ==> ItemAt(d, s).key in d.rows)
      && (s.dir == Processing && ItemAt(d, s).key in d.rows ==> Unfinished(d.rows[ItemAt(d, s).key].status))
  }

  predicate Unfinished(status: Status) {
    status == PENDING || status == PROCESSING
  }

  ghost predicate SeenBeforeStamped(d: Disk, now: Time) {
    forall s :: Live(d, s) ==>
      && ItemAt(d, s).firstSeen <= now
      && (ItemAt(d, s).key in d.rows ==> ItemAt(d, s).firstSeen <= d.rows[ItemAt(d, s).key].lastStatusAt)
  }

  ghost predicate Sound(d: Disk, now: Time) {
    OneHome(d) && KeysDistinct(d) && RowsOwned(d) && RowsPresent(d) && SeenBeforeStamped(d, now)
  }

  /** The statuses a row may have while its file is in a directory. */
  predicate Fits(dir: Dir, status: Status) {
    match dir
    case Pending => Unfinished(status)
    case Processing => status == PROCESSING
    case Sent => status == SENT
    case Failed => status == FAILED
  }

  ghost predicate InStep(d: Disk, s: Slot)
    requires Live(d, s)
  {
    && (s.dir != Pending ==> ItemAt(d, s).key in d.rows)
    && (ItemAt(d, s).key in d.rows ==> Fits(s.dir, d.rows[ItemAt(d, s).key].status))
  }

  ghost predicate Settled(d: Disk, now: Time) {
    Sound(d, now) && forall s :: Live(d, s) ==> InStep(d, s)
  }

  ghost predicate Quiescent(d: Disk, now: Time) {
    Settled(d, now) && forall s :: s in d.files ==> s.dir != Processing
  }

  /** An item the worker holds: its file may have rotted, its row and its key are still its own. */
  ghost predicate HeldOk(d: Disk, item: Item) {
    && Slot(Processing, item.id) in d.files
    && item.key in d.rows
    && d.rows[item.key].itemId == item.id
    && d.rows[item.key].status == PROCESSING
    && item.firstSeen <= d.rows[item.key].lastStatusAt
    && (forall k :: k in d.rows && d.rows[k].itemId == item.id ==> k == item.key)
    && (forall s :: Live(d, s) && ItemAt(d, s).key == item.key ==> s.id == item.id)
  }

  /* ---- What a micro-step must respect ---- */

  ghost predicate WriteAllowed(d: Disk, now: Time, dir: Dir, item: Item) {
    && item.firstSeen <= now
    && (forall s :: s in d.files && s.id == item.id ==> s == Slot(dir, item.id))
    && (forall s :: Live(d, s) && ItemAt(d, s).key == item.key ==> s.id == item.id)
    && (forall k :: k in d.rows ==> (k == item.key <==> d.rows[k].itemId == item.id))
    && (dir == Sent || dir == Failed ==> item.key in d.rows)
    && (item.key in d.rows ==>
          && item.firstSeen <= d.rows[item.key].lastStatusAt
          && (dir == Processing ==> Unfinished(d.rows[item.key].status)))
  }

  ghost predicate MoveAllowed(d: Disk, id: Id, from: Dir, to: Dir) {
    Live(d, Slot(from, id)) ==>
      var key := ItemAt(d, Slot(from, id)).key;
      && (to == Sent || to == Failed ==> key in d.rows)
      && (to == Processing && key in d.rows ==> Unfinished(d.rows[key].status))
  }

  /** Creating a row: it must be the row of the valid file with that key, and of no other file. */
  ghost predicate NewRowAllowed(d: Disk, key: Key, row: Row) {
    forall s :: Live(d, s) ==>
      && (ItemAt(d, s).key == key <==> s.id == row.itemId)
      && (ItemAt(d, s).key == key ==>
            ItemAt(d, s).firstSeen <= row.lastStatusAt && (s.dir == Processing ==> Unfinished(row.status)))
  }

  ghost predicate RestampAllowed(d: Disk, now: Time, key: Key, status: Status, at: Time) {
    && at == now
    && forall s :: Live(d, s) && ItemAt(d, s).key == key && s.dir == Processing ==> Unfinished(status)
  }

  ghost predicate Allowed(d: Disk, now: Time, m: Micro) {
    match m
    case Write(dir, item, _) => WriteAllowed(d, now, dir, item)
    case Move(id, from, to) => MoveAllowed(d, id, from, to)
    case Unlink(_, _) => true
    case Insert(key, row) => key !in d.rows && NewRowAllowed(d, key, row)
    case SetStatus(key, status, at) => RestampAllowed(d, now, key, status, at)
    case Reconcile(key, itemId, status, at) =>
      if key in d.rows then RestampAllowed(d, now, key, status, at)
      else NewRowAllowed(d, key, Row(itemId, at, status, at))
    case DeleteRowsOf(itemId) =>
      forall s :: Live(d, s) ==> s.id != itemId
    case Purge(status, cutoff) =>
      forall s :: Live(d, s) && ItemAt(d, s).key in d.rows && Expired(d.rows[ItemAt(d, s).key], status, cutoff) ==>
        s.dir != Sent && s.dir != Failed
  }

  lemma AllowedKeepsSound(d: Disk, now: Time, m: Micro)
    requires Sound(d, now) && Allowed(d, now, m)
    ensures Sound(Apply(d, m), now)
  {
    match m
    case Write(dir, item, at) => WriteKeepsSound(d, now, dir, item, at);
    case Move(id, from, to) => MoveKeepsSound(d, now, id, from, to);
    case Unlink(dir, id) => FewerFilesKeepSound(d, now, dir, id);
    case Insert(key, row) => NewRowKeepsSound(d, now, key, row);
    case SetStatus(key, status, at) =>
      if key in d.rows { RestampKeepsSound(d, now, key, status, at); }
    case Reconcile(key, itemId, status, at) =>
      if key !in d.rows {
        NewRowKeepsSound(d, now, key, Row(itemId, at, status, at));
      } else if d.rows[key].status != status {
        RestampKeepsSound(d, now, key, status, at);
      }
    case DeleteRowsOf(itemId) => DeleteRowsKeepsSound(d, now, itemId);
    case Purge(status, cutoff) => PurgeKeepsSound(d, now, status, cutoff);
  }

  lemma WriteKeepsSound(d: Disk, now: Time, dir: Dir, item: Item, at: Time)
    requires Sound(d, now) && WriteAllowed(d, now, dir, item)
    ensures Sound(Apply(d, Write(dir, item, at)), now)
  {
    var e := Apply(d, Write(dir, item, at));
    assert forall s :: s != Slot(dir, item.id) ==> (Live(e, s) <==> Live(d, s));
    assert forall s :: s != Slot(dir, item.id) && Live(d, s) ==> ItemAt(e, s) == ItemAt(d, s);
  }

  /** A rename takes one file along and leaves every other slot as it was. */
  lemma MoveEffect(d: Disk, id: Id, from: Dir, to: Dir)
    requires OneHome(d) && Slot(from, id) in d.files
    ensures var e := Apply(d, Move(id, from, to));
      && OneHome(e)
      && (forall s :: Live(e, s) <==> if s.id == id then s.dir == to && Live(d, Slot(from, id)) else Live(d, s))
      && (forall s :: Live(e, s) ==> e.files[s] == d.files[if s.id == id then Slot(from, id) else s])
  {
    var e := Apply(d, Move(id, from, to));
    assert forall s :: s in e.files <==> if s.id == id then s.dir == to else s in d.files;
  }

  lemma MoveKeepsSound(d: Disk, now: Time, id: Id, from: Dir, to: Dir)
    requires Sound(d, now) && MoveAllowed(d, id, from, to)
    ensures Sound(Apply(d, Move(id, from, to)), now)
  {
    if Slot(from, id) in d.files {
      MoveEffect(d, id, from, to);
    }
  }

  lemma FewerFilesKeepSound(d: Disk, now: Time, dir: Dir, id: Id)
    requires Sound(d, now)
    ensures Sound(Apply(d, Unlink(dir, id)), now)
  {
    var e := Apply(d, Unlink(dir, id));
    assert forall s :: Live(e, s) ==> Live(d, s) && ItemAt(e, s) == ItemAt(d, s);
  }

  lemma SameFiles(d: Disk, e: Disk)
    requires e.files == d.files
    ensures forall s :: Live(e, s) <==> Live(d, s)
    ensures forall s :: Live(d, s) ==> ItemAt(e, s) == ItemAt(d, s)
  {
  }

  lemma NewRowKeepsSound(d: Disk, now: Time, key: Key, row: Row)
    requires Sound(d, now) && key !in d.rows && NewRowAllowed(d, key, row)
    ensures Sound(d.(rows := d.rows[key := row]), now)
  {
    SameFiles(d, d.(rows := d.rows[key := row]));
  }

  lemma RestampKeepsSound(d: Disk, now: Time, key: Key, status: Status, at: Time)
    requires Sound(d, now) && key in d.rows && RestampAllowed(d, now, key, status, at)
    ensures Sound(d.(rows := d.rows[key := Restamp(d.rows[key], status, at)]), now)
  {
    SameFiles(d, d.(rows := d.rows[key := Restamp(d.rows[key], status, at)]));
  }

  lemma DeleteRowsKeepsSound(d: Disk, now: Time, itemId: Id)
    requires Sound(d, now) && Allowed(d, now, DeleteRowsOf(itemId))
    ensures Sound(Apply(d, DeleteRowsOf(itemId)), now)
  {
    SameFiles(d, Apply(d, DeleteRowsOf(itemId)));
  }

  lemma PurgeKeepsSound(d: Disk, now: Time, status: Status, cutoff: Time)
    requires Sound(d, now) && Allowed(d, now, Purge(status, cutoff))
    ensures Sound(Apply(d, Purge(status, cutoff)), now)
  {
    SameFiles(d, Apply(d, Purge(status, cutoff)));
  }

  /* ---- Runs of allowed steps ---- */

  ghost predicate AllowedRun(d: Disk, now: Time, ms: seq<Micro>)
    decreases |ms|
  {
    ms == [] || (Allowed(d, now, ms[0]) && AllowedRun(Apply(d, ms[0]), now, ms[1..]))
  }

  lemma {:induction false} AllowedRunConcat(d: Disk, now: Time, a: seq<Micro>, b: seq<Micro>)
    requires AllowedRun(d, now, a) && AllowedRun(RunSteps(d, a), now, b)
    ensures AllowedRun(d, now, a + b)
    decreases |a|
  {
    if a == [] {
      assert a + b == b;
    } else {
      assert (a + b)[1..] == a[1..] + b;
      AllowedRunConcat(Apply(d, a[0]), now, a[1..], b);
    }
  }

  /** Every crash point of an allowed run is sound. */
  lemma {:induction false} EveryCrashPointIsSound(d: Disk, now: Time, ms: seq<Micro>, k: nat)
    requires Sound(d, now) && AllowedRun(d, now, ms) && k <= |ms|
    ensures Sound(RunSteps(d, ms[..k]), now)
    decreases k
  {
    if k > 0 {
      AllowedKeepsSound(d, now, ms[0]);
      assert ms[..k][1..] == ms[1..][..k - 1];
      EveryCrashPointIsSound(Apply(d, ms[0]), now, ms[1..], k - 1);
    }
  }
}
