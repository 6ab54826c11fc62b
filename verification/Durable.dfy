/**
  The durable state of the gateway: the four queue directories and the
  deduplication table, and the atomic steps that change it.

  Every rename, replacing write, unlink and committed statement is one `Micro`.
  A process can die between any two of them, so an operation is described by
  the list of its micro-steps, and a crash leaves the effect of a prefix.
 */
module Durable {
  import opened Prelude

  /** File ids, numbered in the order in which a directory listing sorts them. */
  type Id = int

  /** Content hashes: two messages are duplicates when their keys are equal. */
  type Key = int

  /** Instants and durations, in microseconds. */
  type Time = int

  const DAY: Time := 86_400_000_000

  datatype Sms = Sms(path: string, number: string, text: string, timestamp: Option<Time>)

  datatype Item = Item(
    id: Id,
    sms: Sms,
    firstSeen: Time,
    key: Key,
    attempts: nat,
    lastAttempt: Option<Time>,
    permanent: bool,
    nextRetry: Option<Time>)

  /** A queue file: a well-formed item, under its own name or not, or bytes that do not parse. */
  datatype File = Doc(item: Item, mtime: Time) | Junk(mtime: Time)

  datatype Dir = Pending | Processing | Sent | Failed

  datatype Slot = Slot(dir: Dir, id: Id)

  datatype Status = PENDING | PROCESSING | SENT | FAILED

  datatype Row = Row(itemId: Id, firstSeen: Time, status: Status, lastStatusAt: Time)

  datatype Disk = Disk(files: map<Slot, File>, rows: map<Key, Row>)

  const EMPTY_DISK := Disk(map[], map[])

  /** A file is valid when it parses and carries the id it is named after. */
  predicate Valid(id: Id, f: File) {
    f.Doc? && f.item.id == id
  }

  predicate Live(d: Disk, s: Slot) {
    s in d.files && Valid(s.id, d.files[s])
  }

  function ItemAt(d: Disk, s: Slot): Item
    requires Live(d, s)
  {
    d.files[s].item
  }

  /** Some directory holds a file with this name. */
  predicate Named(d: Disk, id: Id) {
    exists dir :: Slot(dir, id) in d.files
  }

  datatype Micro =
    | Write(dir: Dir, item: Item, at: Time)
    | Move(id: Id, from: Dir, to: Dir)
    | Unlink(dir: Dir, id: Id)
    | Insert(key: Key, row: Row)
    | SetStatus(key: Key, status: Status, at: Time)
    | Reconcile(key: Key, itemId: Id, status: Status, at: Time)
    | DeleteRowsOf(itemId: Id)
    | Purge(status: Status, cutoff: Time)

  function MoveFile(files: map<Slot, File>, id: Id, from: Dir, to: Dir): map<Slot, File> {
    if Slot(from, id) in files then
      (files - {Slot(from, id)})[Slot(to, id) := files[Slot(from, id)]]
    else
      files
  }

  function Restamp(r: Row, status: Status, at: Time): Row {
    r.(status := status, lastStatusAt := at)
  }

  predicate Expired(r: Row, status: Status, cutoff: Time) {
    r.status == status && r.lastStatusAt < cutoff
  }

  function ReconcileRow(rows: map<Key, Row>, key: Key, itemId: Id, status: Status, at: Time): map<Key, Row> {
    if key !in rows then rows[key := Row(itemId, at, status, at)]
    else if rows[key].status != status then rows[key := Restamp(rows[key], status, at)]
    else rows
  }

  function Apply(d: Disk, m: Micro): Disk {
    match m
    case Write(dir, item, at) => d.(files := d.files[Slot(dir, item.id) := Doc(item, at)])
    case Move(id, from, to) => d.(files := MoveFile(d.files, id, from, to))
    case Unlink(dir, id) => d.(files := d.files - {Slot(dir, id)})
    case Insert(key, row) => d.(rows := d.rows[key := row])
    case SetStatus(key, status, at) =>
      if key in d.rows then d.(rows := d.rows[key := Restamp(d.rows[key], status, at)]) else d
    case Reconcile(key, itemId, status, at) =>
      d.(rows := ReconcileRow(d.rows, key, itemId, status, at))
    case DeleteRowsOf(itemId) =>
      d.(rows := map k | k in d.rows && d.rows[k].itemId != itemId :: d.rows[k])
    case Purge(status, cutoff) =>
      d.(rows := map k | k in d.rows && !Expired(d.rows[k], status, cutoff) :: d.rows[k])
  }

  function RunSteps(d: Disk, ms: seq<Micro>): Disk
    decreases |ms|
  {
    if ms == [] then d else RunSteps(Apply(d, ms[0]), ms[1..])
  }

  lemma {:induction false} RunStepsConcat(d: Disk, a: seq<Micro>, b: seq<Micro>)
    ensures RunSteps(d, a + b) == RunSteps(RunSteps(d, a), b)
    decreases |a|
  {
    if a == [] {
      assert a + b == b;
    } else {
      assert (a + b)[0] == a[0] && (a + b)[1..] == a[1..] + b;
      RunStepsConcat(Apply(d, a[0]), a[1..], b);
    }
  }

  lemma RunOne(d: Disk, a: Micro)
    ensures RunSteps(d, [a]) == Apply(d, a)
  {
    assert [a][1..] == [];
  }

  lemma RunTwo(d: Disk, a: Micro, b: Micro)
    ensures RunSteps(d, [a, b]) == Apply(Apply(d, a), b)
  {
    assert [a, b][1..] == [b];
    RunOne(Apply(d, a), b);
  }

  lemma RunThree(d: Disk, a: Micro, b: Micro, c: Micro)
    ensures RunSteps(d, [a, b, c]) == Apply(Apply(Apply(d, a), b), c)
  {
    assert [a, b, c][1..] == [b, c];
    RunTwo(Apply(d, a), b, c);
  }

  /* ---- Directory listings ---- */

  function Ids(d: Disk, dir: Dir): set<Id> {
    set s | s in d.files && s.dir == dir :: s.id
  }

  predicate IsLeast(ids: set<Id>, m: Id) {
    m in ids && forall x :: x in ids ==> m <= x
  }

  lemma {:induction false} LeastExists(ids: set<Id>)
    requires ids != {}
    ensures exists m :: IsLeast(ids, m)
    decreases |ids|
  {
    assert (forall x :: x !in ids) ==> ids == {};
    var y :| y in ids;
    var rest := ids - {y};
    if rest == {} {
      assert ids == {y};
      assert IsLeast(ids, y);
    } else {
      LeastExists(rest);
      var m :| IsLeast(rest, m);
      assert ids == rest + {y};
      assert IsLeast(ids, if m <= y then m else y);
    }
  }

  function Least(ids: set<Id>): (m: Id)
    requires ids != {}
    ensures IsLeast(ids, m)
  {
    LeastExists(ids);
    var m :| IsLeast(ids, m);
    m
  }

  /** Strictly increasing, hence without repetitions. */
  predicate Increasing(ids: seq<Id>) {
    forall i, j :: 0 <= i < j < |ids| ==> ids[i] < ids[j]
  }

  /** Every element of `ids` once, in order. */
  ghost predicate IsSorted(s: seq<Id>, ids: set<Id>) {
    Increasing(s) && forall x :: x in s <==> x in ids
  }

  /** Sorting, by taking out the least element. */
  function Sort(ids: set<Id>): (s: seq<Id>)
    ensures IsSorted(s, ids) && |s| == |ids|
    decreases |ids|
  {
    if ids == {} then []
    else
      var m := Least(ids);
      [m] + Sort(ids - {m})
  }

  lemma {:induction false} SortedIsUnique(s: seq<Id>, t: seq<Id>, ids: set<Id>)
    requires IsSorted(s, ids) && IsSorted(t, ids)
    ensures s == t
    decreases |s|
  {
    NoneSorted(s, ids);
    NoneSorted(t, ids);
    if ids != {} {
      assert s[0] in s && s[0] in t;
      assert t[0] in t && t[0] in s;
      assert s[0] == t[0];
      Rest(s, ids);
      Rest(t, ids);
      SortedIsUnique(s[1..], t[1..], ids - {s[0]});
      assert s == [s[0]] + s[1..] && t == [t[0]] + t[1..];
    }
  }

  lemma NoneSorted(s: seq<Id>, ids: set<Id>)
    requires IsSorted(s, ids)
    ensures s == [] <==> ids == {}
  {
    if s == [] {
      assert forall x :: x !in ids;
    } else {
      assert s[0] in s;
    }
  }

  lemma Rest(s: seq<Id>, ids: set<Id>)
    requires IsSorted(s, ids) && s != []
    ensures IsSorted(s[1..], ids - {s[0]})
  {
    forall x ensures x in s[1..] <==> x in ids - {s[0]} {
      if x in s && x != s[0] {
        var i :| 0 <= i < |s| && s[i] == x;
        assert s[1..][i - 1] == x;
      }
      assert x in s[1..] ==> x in s;
    }
  }

  /** The sorted sequence of a set, as a value without a computation behind it. */
  ghost function Sorted(ids: set<Id>): (s: seq<Id>)
    ensures IsSorted(s, ids)
  {
    assert IsSorted(Sort(ids), ids);
    var s :| IsSorted(s, ids);
    s
  }

  /** The listing of a directory: every name once, in order. */
  ghost function Listing(d: Disk, dir: Dir): (s: seq<Id>)
    ensures Increasing(s) && forall x :: x in s <==> Slot(dir, x) in d.files
  {
    assert forall x :: x in Ids(d, dir) <==> Slot(dir, x) in d.files;
    Sorted(Ids(d, dir))
  }
}
