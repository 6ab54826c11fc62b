/**
  What each queue operation does, as the list of durable micro-steps it takes
  from a given disk. Loops over a directory listing become recursion over the
  listing, with the disk advancing as the steps take effect.
 */
module QueueSpec {
  import opened Prelude
  import opened Durable

  /** The content hash is left uninterpreted; `window` is the deduplication window in force. */
  datatype Config = Config(digest: (string, string, Time, nat) -> Key, window: nat)

  function ContentKey(cfg: Config, sms: Sms, fallback: Time): Key {
    var instant := if sms.timestamp.Some? then sms.timestamp.value else fallback;
    cfg.digest(sms.number, sms.text, instant, cfg.window)
  }

  function NewItem(cfg: Config, sms: Sms, id: Id, born: Time): Item {
    Item(id, sms, born, ContentKey(cfg, sms, born), 0, None, false, None)
  }

  /** An item answers to the key it was stored with and to the key it would get today. */
  predicate AnswersTo(cfg: Config, item: Item, key: Key) {
    item.key == key || ContentKey(cfg, item.sms, item.firstSeen) == key
  }

  /* ---- enqueue ---- */

  ghost function FindDuplicate(cfg: Config, d: Disk, ids: seq<Id>, key: Key): Option<Item>
    decreases |ids|
  {
    if ids == [] then None
    else
      var s := Slot(Pending, ids[0]);
      if Live(d, s) && AnswersTo(cfg, ItemAt(d, s), key) then Some(ItemAt(d, s))
      else FindDuplicate(cfg, d, ids[1..], key)
  }

  ghost function PendingDuplicate(cfg: Config, d: Disk, key: Key): Option<Item> {
    FindDuplicate(cfg, d, Listing(d, Pending), key)
  }

  ghost function EnqueueSteps(cfg: Config, d: Disk, item: Item, now: Time): seq<Micro> {
    if item.key in d.rows then []
    else match PendingDuplicate(cfg, d, item.key)
      case Some(dup) =>
        if dup.key == item.key then [Insert(item.key, Row(dup.id, now, PENDING, now))] else []
      case None =>
        [Write(Pending, item, now), Insert(item.key, Row(item.id, now, PENDING, now))]
  }

  ghost predicate EnqueueAccepts(cfg: Config, d: Disk, key: Key) {
    key !in d.rows && PendingDuplicate(cfg, d, key).None?
  }

  /* ---- claim_next ---- */

  ghost function QuarantineSteps(d: Disk, id: Id): seq<Micro> {
    var s := Slot(Pending, id);
    [Move(id, Pending, Failed), DeleteRowsOf(id)] +
    if s in d.files && d.files[s].Doc? && !Named(d, d.files[s].item.id) then
      [DeleteRowsOf(d.files[s].item.id)]
    else
      []
  }

  ghost function TakeSteps(d: Disk, item: Item, now: Time): seq<Micro> {
    [Move(item.id, Pending, Processing)] +
    (if item.key in d.rows then [] else [Insert(item.key, Row(item.id, now, PENDING, now))]) +
    [SetStatus(item.key, PROCESSING, now)]
  }

  ghost function ClaimFrom(d: Disk, ids: seq<Id>, skip: set<Id>, now: Time): seq<Micro>
    decreases |ids|
  {
    if ids == [] then []
    else if ids[0] in skip then ClaimFrom(d, ids[1..], skip, now)
    else if Live(d, Slot(Pending, ids[0])) then TakeSteps(d, ItemAt(d, Slot(Pending, ids[0])), now)
    else
      var ms := QuarantineSteps(d, ids[0]);
      ms + ClaimFrom(RunSteps(d, ms), ids[1..], skip, now)
  }

  ghost function ClaimResultFrom(d: Disk, ids: seq<Id>, skip: set<Id>): Option<Item>
    decreases |ids|
  {
    if ids == [] then None
    else if ids[0] !in skip && Live(d, Slot(Pending, ids[0])) then Some(ItemAt(d, Slot(Pending, ids[0])))
    else ClaimResultFrom(d, ids[1..], skip)
  }

  ghost function ClaimSteps(d: Disk, skip: set<Id>, now: Time): seq<Micro> {
    ClaimFrom(d, Listing(d, Pending), skip, now)
  }

  /** The first valid pending item, in listing order, that is not skipped. */
  ghost function ClaimResult(d: Disk, skip: set<Id>): Option<Item> {
    ClaimResultFrom(d, Listing(d, Pending), skip)
  }

  /* ---- the worker's bookkeeping ---- */

  ghost predicate Held(d: Disk, item: Item) {
    Slot(Processing, item.id) in d.files
  }

  ghost function MarkSentSteps(d: Disk, item: Item, now: Time): seq<Micro> {
    if Held(d, item) then [Move(item.id, Processing, Sent), SetStatus(item.key, SENT, now)] else []
  }

  ghost function MarkFailedSteps(d: Disk, item: Item, permanent: bool, now: Time): seq<Micro> {
    if Held(d, item) then
      [Write(Processing, item.(permanent := permanent), now),
       Move(item.id, Processing, Failed),
       SetStatus(item.key, FAILED, now)]
    else []
  }

  ghost function MoveBackSteps(d: Disk, item: Item): seq<Micro> {
    if Held(d, item) then [Move(item.id, Processing, Pending)] else []
  }

  function Attempted(item: Item, next: Time, now: Time): Item {
    item.(attempts := item.attempts + 1, lastAttempt := Some(now), nextRetry := Some(next))
  }

  ghost function UpdateAttemptSteps(d: Disk, item: Item, next: Time, now: Time): seq<Micro> {
    if Held(d, item) then [Write(Processing, Attempted(item, next, now), now)] else []
  }

  /* ---- startup ---- */

  ghost function RecoverFrom(ids: seq<Id>): seq<Micro>
    decreases |ids|
  {
    if ids == [] then [] else [Move(ids[0], Processing, Pending)] + RecoverFrom(ids[1..])
  }

  ghost function RecoverSteps(d: Disk): seq<Micro> {
    RecoverFrom(Listing(d, Processing))
  }

  ghost function ReconcileFrom(d: Disk, dir: Dir, status: Status, ids: seq<Id>, now: Time): seq<Micro>
    decreases |ids|
  {
    if ids == [] then []
    else
      var s := Slot(dir, ids[0]);
      if Live(d, s) then
        var m := Reconcile(ItemAt(d, s).key, ids[0], status, now);
        [m] + ReconcileFrom(Apply(d, m), dir, status, ids[1..], now)
      else
        ReconcileFrom(d, dir, status, ids[1..], now)
  }

  ghost function ReconcileDirSteps(d: Disk, dir: Dir, status: Status, now: Time): seq<Micro> {
    ReconcileFrom(d, dir, status, Listing(d, dir), now)
  }

  ghost function ReconcileTerminalSteps(d: Disk, now: Time): seq<Micro> {
    var a := ReconcileDirSteps(d, Sent, SENT, now);
    a + ReconcileDirSteps(RunSteps(d, a), Failed, FAILED, now)
  }

  ghost function InitializeSteps(d: Disk, now: Time): seq<Micro> {
    var a := ReconcileDirSteps(d, Pending, PENDING, now);
    a + ReconcileTerminalSteps(RunSteps(d, a), now)
  }

  ghost function BootSteps(d: Disk, now: Time): seq<Micro> {
    var a := InitializeSteps(d, now);
    a + RecoverSteps(RunSteps(d, a))
  }

  /* ---- requeue_failed ---- */

  ghost predicate Salvageable(d: Disk, id: Id, cutoff: Time) {
    var s := Slot(Failed, id);
    Live(d, s) && !ItemAt(d, s).permanent && ItemAt(d, s).firstSeen >= cutoff
  }

  ghost function SalvageSteps(d: Disk, id: Id, now: Time): seq<Micro>
    requires Live(d, Slot(Failed, id))
  {
    [Move(id, Failed, Pending), SetStatus(ItemAt(d, Slot(Failed, id)).key, PENDING, now)]
  }

  /** A file whose key has no row stops the pass: the status update raises. */
  ghost function RequeueFrom(d: Disk, ids: seq<Id>, cutoff: Time, now: Time): seq<Micro>
    decreases |ids|
  {
    if ids == [] then []
    else if Salvageable(d, ids[0], cutoff) then
      var ms := SalvageSteps(d, ids[0], now);
      if ItemAt(d, Slot(Failed, ids[0])).key in d.rows then
        ms + RequeueFrom(RunSteps(d, ms), ids[1..], cutoff, now)
      else
        ms
    else
      RequeueFrom(d, ids[1..], cutoff, now)
  }

  ghost function RequeueOutcome(d: Disk, ids: seq<Id>, cutoff: Time, now: Time, count: nat): Result<nat>
    decreases |ids|
  {
    if ids == [] then Ok(count)
    else if Salvageable(d, ids[0], cutoff) then
      if ItemAt(d, Slot(Failed, ids[0])).key in d.rows then
        RequeueOutcome(RunSteps(d, SalvageSteps(d, ids[0], now)), ids[1..], cutoff, now, count + 1)
      else
        Err(ItemNotFound)
    else
      RequeueOutcome(d, ids[1..], cutoff, now, count)
  }

  function Cutoff(now: Time, maxAgeDays: int): Time {
    now - maxAgeDays * DAY
  }

  ghost function RequeueSteps(d: Disk, maxAgeDays: int, now: Time): seq<Micro> {
    RequeueFrom(d, Listing(d, Failed), Cutoff(now, maxAgeDays), now)
  }

  /* ---- cleanup_sent, cleanup_failed ---- */

  function StatusOf(dir: Dir): Status {
    match dir
    case Pending => PENDING
    case Processing => PROCESSING
    case Sent => SENT
    case Failed => FAILED
  }

  function ExpiredIds(rows: map<Key, Row>, status: Status, cutoff: Time): set<Id> {
    set k | k in rows && Expired(rows[k], status, cutoff) :: rows[k].itemId
  }

  function KnownIds(rows: map<Key, Row>): set<Id> {
    set k | k in rows :: rows[k].itemId
  }

  ghost function RemoveFrom(d: Disk, dir: Dir, ids: seq<Id>): seq<Micro>
    decreases |ids|
  {
    if ids == [] then []
    else if Slot(dir, ids[0]) in d.files then
      [Unlink(dir, ids[0])] + RemoveFrom(Apply(d, Unlink(dir, ids[0])), dir, ids[1..])
    else
      RemoveFrom(d, dir, ids[1..])
  }

  /** An old file that no row knows. */
  predicate Stray(d: Disk, s: Slot, known: set<Id>, cutoff: Time) {
    s in d.files && s.id !in known && d.files[s].mtime < cutoff
  }

  ghost function RemoveStraysFrom(d: Disk, dir: Dir, ids: seq<Id>, known: set<Id>, cutoff: Time): seq<Micro>
    decreases |ids|
  {
    if ids == [] then []
    else if Stray(d, Slot(dir, ids[0]), known, cutoff) then
      [Unlink(dir, ids[0])] + RemoveStraysFrom(Apply(d, Unlink(dir, ids[0])), dir, ids[1..], known, cutoff)
    else
      RemoveStraysFrom(d, dir, ids[1..], known, cutoff)
  }

  /**
    A cleanup reads the clock three times: for the expired rows, for the age of
    unknown files, and again for the purge.
   */
  ghost function CleanupStepsAt(d: Disk, dir: Dir, expiry: Time, age: Time, purge: Time): seq<Micro> {
    var a := RemoveFrom(d, dir, Sorted(ExpiredIds(d.rows, StatusOf(dir), expiry)));
    var d1 := RunSteps(d, a);
    var b := RemoveStraysFrom(d1, dir, Listing(d1, dir), KnownIds(d.rows), age);
    a + b + [Purge(StatusOf(dir), purge)]
  }

  /** The same with one cutoff throughout. */
  ghost function CleanupSteps(d: Disk, dir: Dir, cutoff: Time): seq<Micro> {
    CleanupStepsAt(d, dir, cutoff, cutoff, cutoff)
  }
}
