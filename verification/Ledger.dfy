/**
  What the past says about the disk. The ledger remembers every accepted item,
  every successful send and every scheduled retry; `LedgerOk` ties the files and
  rows to it and holds at every crash point.
 */
module Bookkeeping {
  import opened Prelude
  import opened Durable
  import opened QueueSpec
  import opened CrashSafety

  datatype Ledger = Ledger(
    accepted: map<Id, Item>,   // every item whose file was ever written to `pending`
    cleaned: set<Id>,          // files removed by a cleanup
    sends: map<Id, nat>,       // successful sends
    retries: map<Id, nat>,     // retries scheduled
    due: map<Id, Time>,        // earliest time of the next attempt
    finished: set<Id>,         // items that reached `sent`
    condemned: set<Id>)        // items that reached `failed` flagged permanent

  function Count(m: map<Id, nat>, id: Id): nat {
    if id in m then m[id] else 0
  }

  function DueOf(l: Ledger, id: Id): Option<Time> {
    if id in l.due then Some(l.due[id]) else None
  }

  /** The item is the accepted one, with the attempts and the due time the ledger has for it. */
  ghost predicate OnRecord(l: Ledger, item: Item) {
    && item.id in l.accepted
    && item.sms == l.accepted[item.id].sms
    && item.key == l.accepted[item.id].key
    && item.firstSeen == l.accepted[item.id].firstSeen
    && item.attempts == Count(l.retries, item.id)
    && item.nextRetry == DueOf(l, item.id)
  }

  /** A row belongs to an accepted item with that key. */
  ghost predicate RowOnRecord(l: Ledger, key: Key, itemId: Id) {
    itemId in l.accepted && l.accepted[itemId].key == key
  }

  /** An accepted item is in some directory until a cleanup removes it, and never comes back. */
  ghost predicate Accounted(d: Disk, l: Ledger) {
    && l.cleaned <= l.accepted.Keys
    && (forall s :: s in d.files ==> s.id in l.accepted && s.id !in l.cleaned)
    && (forall id :: id in l.accepted ==> id in l.cleaned || Named(d, id))
  }

  /** Valid files and rows are those of accepted items, within the retry budget. */
  ghost predicate RecordsTrue(d: Disk, l: Ledger, budget: nat) {
    && (forall s :: Live(d, s) ==> OnRecord(l, ItemAt(d, s)))
    && (forall k :: k in d.rows ==> RowOnRecord(l, k, d.rows[k].itemId))
    && (forall id :: id in l.retries ==> l.retries[id] <= budget)
  }

  /** A file in `sent` was sent; finished and condemned items stay where they ended. */
  ghost predicate PlacesTrue(d: Disk, l: Ledger) {
    && (forall s :: s in d.files && s.dir == Sent ==> Count(l.sends, s.id) >= 1)
    && (forall s :: s in d.files && s.id in l.finished ==> s.dir == Sent)
    && (forall s :: s in d.files && s.id in l.condemned ==>
          s.dir == Failed && (Live(d, s) ==> ItemAt(d, s).permanent))
  }

  /** Whatever lies in `failed` flagged permanent got there by a permanent failure. */
  ghost predicate FlagsTrue(d: Disk, l: Ledger) {
    forall s :: Live(d, s) && s.dir == Failed && ItemAt(d, s).permanent ==> s.id in l.condemned
  }

  ghost predicate LedgerOk(d: Disk, l: Ledger, budget: nat) {
    Accounted(d, l) && RecordsTrue(d, l, budget) && PlacesTrue(d, l) && FlagsTrue(d, l)
  }

  /** Steps that add no item: what they must respect for the ledger to stay true. */
  ghost predicate Gentle(l: Ledger, m: Micro) {
    match m
    case Write(_, _, _) => false
    case Move(id, from, to) =>
      && from != Sent
      && (to == Sent ==> Count(l.sends, id) >= 1)
      && (from == Failed && to != Failed ==> id !in l.condemned)
    case Insert(key, row) => RowOnRecord(l, key, row.itemId)
    case Reconcile(key, itemId, _, _) => RowOnRecord(l, key, itemId)
    case _ => true
  }

  function Note(l: Ledger, m: Micro): Ledger {
    if m.Unlink? then l.(cleaned := l.cleaned + {m.id}) else l
  }

  /** The ledger of a step that really happened: unlinking is only done to files that exist. */
  ghost predicate Genuine(d: Disk, m: Micro) {
    m.Unlink? ==> Slot(m.dir, m.id) in d.files
  }

  /** The step brings no item flagged permanent into `failed`. */
  ghost predicate Unflagged(d: Disk, m: Micro) {
    m.Move? && m.to == Failed && m.from != Failed && Live(d, Slot(m.from, m.id)) ==>
      !ItemAt(d, Slot(m.from, m.id)).permanent
  }

  lemma NamedAfter(d: Disk, m: Micro, id: Id)
    requires OneHome(d) && !m.Write?
    ensures Named(Apply(d, m), id) <==> Named(d, id) && !(m.Unlink? && m.id == id && Slot(m.dir, id) in d.files)
  {
    var e := Apply(d, m);
    if Named(d, id) {
      var dir :| Slot(dir, id) in d.files;
      if m.Move? && m.id == id && m.from == dir {
        assert Slot(m.to, id) in e.files;
      } else if m.Unlink? && m.id == id && m.dir == dir {
        assert forall x :: Slot(x, id) in d.files ==> Slot(x, id) == Slot(dir, id);
      } else {
        assert Slot(dir, id) in e.files;
      }
    }
    if Named(e, id) {
      var dir :| Slot(dir, id) in e.files;
      assert Slot(dir, id) in d.files || (m.Move? && m.id == id && Slot(m.from, id) in d.files);
    }
  }

  lemma GentleKeepsAccounted(d: Disk, l: Ledger, m: Micro)
    requires OneHome(d) && Accounted(d, l) && Gentle(l, m) && Genuine(d, m)
    ensures OneHome(Apply(d, m)) && Accounted(Apply(d, m), Note(l, m))
  {
    var e := Apply(d, m);
    if m.Move? && Slot(m.from, m.id) in d.files {
      MoveEffect(d, m.id, m.from, m.to);
    }
    forall id | id in l.accepted ensures id in Note(l, m).cleaned || Named(e, id) {
      NamedAfter(d, m, id);
    }
  }

  lemma GentleKeepsLedger(d: Disk, l: Ledger, budget: nat, m: Micro)
    requires OneHome(d) && LedgerOk(d, l, budget) && Gentle(l, m) && Genuine(d, m) && Unflagged(d, m)
    ensures OneHome(Apply(d, m)) && LedgerOk(Apply(d, m), Note(l, m), budget)
  {
    GentleKeepsAccounted(d, l, m);
    CleanedIrrelevant(l, Note(l, m).cleaned);
    GentleKeepsRecords(d, l, budget, m);
    GentleKeepsPlaces(d, l, m);
    GentleKeepsFlags(d, l, m);
  }

  lemma GentleKeepsFlags(d: Disk, l: Ledger, m: Micro)
    requires OneHome(d) && FlagsTrue(d, l) && !m.Write? && Unflagged(d, m)
    ensures FlagsTrue(Apply(d, m), l)
  {
    var e := Apply(d, m);
    GentleOrigin(d, m);
    assert forall s :: Live(e, s) ==>
      Live(d, if m.Move? && m.id == s.id && Slot(m.from, m.id) in d.files then Slot(m.from, m.id) else s);
  }

  /** Where each file of the new disk comes from. */
  lemma GentleOrigin(d: Disk, m: Micro)
    requires OneHome(d) && !m.Write?
    ensures forall s :: s in Apply(d, m).files ==>
      var from := if m.Move? && m.id == s.id && Slot(m.from, m.id) in d.files then Slot(m.from, m.id) else s;
      && from in d.files && Apply(d, m).files[s] == d.files[from]
      && (m.Move? && m.id == s.id && Slot(m.from, m.id) in d.files ==> s.dir == m.to)
  {
    if m.Move? && Slot(m.from, m.id) in d.files {
      MoveEffect(d, m.id, m.from, m.to);
    }
  }

  lemma GentleKeepsRecords(d: Disk, l: Ledger, budget: nat, m: Micro)
    requires OneHome(d) && RecordsTrue(d, l, budget) && Gentle(l, m)
    ensures RecordsTrue(Apply(d, m), l, budget)
  {
    var e := Apply(d, m);
    GentleOrigin(d, m);
    assert forall s :: Live(e, s) ==>
      Live(d, if m.Move? && m.id == s.id && Slot(m.from, m.id) in d.files then Slot(m.from, m.id) else s);
  }

  lemma GentleKeepsPlaces(d: Disk, l: Ledger, m: Micro)
    requires OneHome(d) && PlacesTrue(d, l) && Gentle(l, m)
    ensures PlacesTrue(Apply(d, m), l)
  {
    GentleOrigin(d, m);
  }

  lemma CleanedIrrelevant(l: Ledger, c: set<Id>)
    ensures forall item :: OnRecord(l.(cleaned := c), item) <==> OnRecord(l, item)
    ensures forall k, id :: RowOnRecord(l.(cleaned := c), k, id) <==> RowOnRecord(l, k, id)
  {
  }

  ghost predicate GentleRun(l: Ledger, d: Disk, ms: seq<Micro>)
    decreases |ms|
  {
    ms == [] ||
    (Gentle(l, ms[0]) && Genuine(d, ms[0]) && Unflagged(d, ms[0]) && GentleRun(l, Apply(d, ms[0]), ms[1..]))
  }

  lemma GentleTwo(l: Ledger, d: Disk, a: Micro, b: Micro)
    requires Gentle(l, a) && Genuine(d, a) && Unflagged(d, a)
    requires Gentle(l, b) && Genuine(Apply(d, a), b) && Unflagged(Apply(d, a), b)
    ensures GentleRun(l, d, [a, b])
  {
    assert [a, b][1..] == [b] && [b][1..] == [];
    assert GentleRun(l, Apply(d, a), [b]);
  }

  lemma GentleThree(l: Ledger, d: Disk, a: Micro, b: Micro, c: Micro)
    requires Gentle(l, a) && Genuine(d, a) && Unflagged(d, a)
    requires Gentle(l, b) && Genuine(Apply(d, a), b) && Unflagged(Apply(d, a), b)
    requires Gentle(l, c) && Genuine(Apply(Apply(d, a), b), c) && Unflagged(Apply(Apply(d, a), b), c)
    ensures GentleRun(l, d, [a, b, c])
  {
    assert [a, b, c][1..] == [b, c];
    GentleTwo(l, Apply(d, a), b, c);
  }

  function Notes(l: Ledger, ms: seq<Micro>): Ledger
    decreases |ms|
  {
    if ms == [] then l else Notes(Note(l, ms[0]), ms[1..])
  }

  lemma {:induction false} NotesOnly(l: Ledger, ms: seq<Micro>)
    ensures Notes(l, ms) == l.(cleaned := Notes(l, ms).cleaned)
    ensures l.cleaned <= Notes(l, ms).cleaned
    decreases |ms|
  {
    if ms != [] {
      NotesOnly(Note(l, ms[0]), ms[1..]);
    }
  }

  lemma {:induction false} GentleIgnoresCleaned(l: Ledger, c: set<Id>, d: Disk, ms: seq<Micro>)
    requires GentleRun(l, d, ms)
    ensures GentleRun(l.(cleaned := c), d, ms)
    decreases |ms|
  {
    if ms != [] {
      GentleIgnoresCleaned(l, c, Apply(d, ms[0]), ms[1..]);
    }
  }

  lemma {:induction false} GentleRunConcat(l: Ledger, d: Disk, a: seq<Micro>, b: seq<Micro>)
    requires GentleRun(l, d, a) && GentleRun(l, RunSteps(d, a), b)
    ensures GentleRun(l, d, a + b)
    decreases |a|
  {
    if a == [] {
      assert a + b == b;
    } else {
      assert (a + b)[1..] == a[1..] + b;
      GentleRunConcat(l, Apply(d, a[0]), a[1..], b);
    }
  }

  /** The ledger holds at every crash point of a gentle run. */
  lemma {:induction false} EveryCrashPointIsOnRecord(d: Disk, l: Ledger, budget: nat, ms: seq<Micro>, k: nat)
    requires OneHome(d) && LedgerOk(d, l, budget) && GentleRun(l, d, ms) && k <= |ms|
    ensures LedgerOk(RunSteps(d, ms[..k]), Notes(l, ms[..k]), budget)
    ensures OneHome(RunSteps(d, ms[..k]))
    decreases k
  {
    if k > 0 {
      var l1 := Note(l, ms[0]);
      GentleKeepsLedger(d, l, budget, ms[0]);
      assert ms[..k][1..] == ms[1..][..k - 1];
      GentleIgnoresCleaned(l, l1.cleaned, Apply(d, ms[0]), ms[1..]);
      EveryCrashPointIsOnRecord(Apply(d, ms[0]), l1, budget, ms[1..], k - 1);
    }
  }

  /* ---- The operations that only move, stamp and remove are gentle ---- */

  ghost predicate Truthful(d: Disk, l: Ledger) {
    && OneHome(d)
    && (forall s :: Live(d, s) ==> OnRecord(l, ItemAt(d, s)))
    && (forall s :: s in d.files && s.id in l.condemned && Live(d, s) ==> s.dir == Failed && ItemAt(d, s).permanent)
  }

  lemma StepKeepsTruthful(d: Disk, l: Ledger, m: Micro)
    requires Truthful(d, l) && !m.Write?
    requires m.Move? && Live(d, Slot(m.from, m.id)) ==> m.id !in l.condemned || m.to == m.from
    ensures Truthful(Apply(d, m), l)
  {
    var e := Apply(d, m);
    GentleOrigin(d, m);
    if m.Move? && Slot(m.from, m.id) in d.files {
      MoveEffect(d, m.id, m.from, m.to);
    }
    forall s | Live(e, s)
      ensures OnRecord(l, ItemAt(e, s))
      ensures s.id in l.condemned ==> s.dir == Failed && ItemAt(e, s).permanent
    {
      var from := if m.Move? && m.id == s.id && Slot(m.from, m.id) in d.files then Slot(m.from, m.id) else s;
      assert Live(d, from) && ItemAt(d, from) == ItemAt(e, s);
    }
  }

  lemma {:induction false} ReconcileGentle(d: Disk, l: Ledger, dir: Dir, ids: seq<Id>, now: Time)
    requires Truthful(d, l)
    ensures var ms := ReconcileFrom(d, dir, StatusOf(dir), ids, now);
      GentleRun(l, d, ms) && Truthful(RunSteps(d, ms), l)
    decreases |ids|
  {
    if ids != [] {
      var s := Slot(dir, ids[0]);
      if Live(d, s) {
        var m := Reconcile(ItemAt(d, s).key, ids[0], StatusOf(dir), now);
        assert OnRecord(l, ItemAt(d, s));
        StepKeepsTruthful(d, l, m);
        ReconcileGentle(Apply(d, m), l, dir, ids[1..], now);
        var ms := ReconcileFrom(d, dir, StatusOf(dir), ids, now);
        assert ms[0] == m && ms[1..] == ReconcileFrom(Apply(d, m), dir, StatusOf(dir), ids[1..], now);
      } else {
        ReconcileGentle(d, l, dir, ids[1..], now);
      }
    }
  }

  lemma {:induction false} RecoverGentle(d: Disk, l: Ledger, ids: seq<Id>)
    ensures GentleRun(l, d, RecoverFrom(ids))
    decreases |ids|
  {
    if ids != [] {
      var m := Move(ids[0], Processing, Pending);
      RecoverGentle(Apply(d, m), l, ids[1..]);
      assert RecoverFrom(ids)[0] == m && RecoverFrom(ids)[1..] == RecoverFrom(ids[1..]);
    }
  }

  lemma TerminalGentle(d: Disk, l: Ledger, now: Time)
    requires Truthful(d, l)
    ensures GentleRun(l, d, ReconcileTerminalSteps(d, now))
  {
    var b := ReconcileDirSteps(d, Sent, SENT, now);
    var e := RunSteps(d, b);
    ReconcileGentle(d, l, Sent, Listing(d, Sent), now);
    ReconcileGentle(e, l, Failed, Listing(e, Failed), now);
    GentleRunConcat(l, d, b, ReconcileDirSteps(e, Failed, FAILED, now));
  }

  lemma BootGentle(d: Disk, l: Ledger, now: Time)
    requires Truthful(d, l)
    ensures GentleRun(l, d, BootSteps(d, now))
  {
    var a := ReconcileDirSteps(d, Pending, PENDING, now);
    var d1 := RunSteps(d, a);
    ReconcileGentle(d, l, Pending, Listing(d, Pending), now);
    TerminalGentle(d1, l, now);
    GentleRunConcat(l, d, a, ReconcileTerminalSteps(d1, now));
    var e := RunSteps(d, InitializeSteps(d, now));
    RecoverGentle(e, l, Listing(e, Processing));
    GentleRunConcat(l, d, InitializeSteps(d, now), RecoverSteps(e));
  }

  lemma QuarantineGentle(d: Disk, l: Ledger, id: Id)
    requires Truthful(d, l) && !Live(d, Slot(Pending, id))
    ensures GentleRun(l, d, QuarantineSteps(d, id)) && Truthful(RunSteps(d, QuarantineSteps(d, id)), l)
  {
    var ms := QuarantineSteps(d, id);
    var d1 := Apply(d, ms[0]);
    var d2 := Apply(d1, ms[1]);
    StepKeepsTruthful(d, l, ms[0]);
    StepKeepsTruthful(d1, l, ms[1]);
    if |ms| == 3 {
      StepKeepsTruthful(d2, l, ms[2]);
      assert ms == [ms[0], ms[1], ms[2]];
      RunThree(d, ms[0], ms[1], ms[2]);
      GentleThree(l, d, ms[0], ms[1], ms[2]);
    } else {
      assert ms == [ms[0], ms[1]];
      RunTwo(d, ms[0], ms[1]);
      GentleTwo(l, d, ms[0], ms[1]);
    }
  }

  lemma TakeGentle(d: Disk, l: Ledger, item: Item, now: Time)
    requires Truthful(d, l) && Live(d, Slot(Pending, item.id)) && ItemAt(d, Slot(Pending, item.id)) == item
    ensures GentleRun(l, d, TakeSteps(d, item, now))
  {
    var ms := TakeSteps(d, item, now);
    assert OnRecord(l, item);
    if |ms| == 3 {
      GentleThree(l, d, ms[0], ms[1], ms[2]);
      assert ms == [ms[0], ms[1], ms[2]];
    } else {
      GentleTwo(l, d, ms[0], ms[1]);
      assert ms == [ms[0], ms[1]];
    }
  }

  lemma {:induction false} ClaimGentle(d: Disk, l: Ledger, ids: seq<Id>, skip: set<Id>, now: Time)
    requires Truthful(d, l)
    ensures GentleRun(l, d, ClaimFrom(d, ids, skip, now))
    decreases |ids|
  {
    if ids != [] {
      if ids[0] in skip {
        ClaimGentle(d, l, ids[1..], skip, now);
      } else if Live(d, Slot(Pending, ids[0])) {
        TakeGentle(d, l, ItemAt(d, Slot(Pending, ids[0])), now);
      } else {
        var ms := QuarantineSteps(d, ids[0]);
        QuarantineGentle(d, l, ids[0]);
        ClaimGentle(RunSteps(d, ms), l, ids[1..], skip, now);
        GentleRunConcat(l, d, ms, ClaimFrom(RunSteps(d, ms), ids[1..], skip, now));
      }
    }
  }

  lemma SalvageGentle(d: Disk, l: Ledger, id: Id, now: Time)
    requires Truthful(d, l) && Live(d, Slot(Failed, id)) && !ItemAt(d, Slot(Failed, id)).permanent
    ensures GentleRun(l, d, SalvageSteps(d, id, now)) && Truthful(RunSteps(d, SalvageSteps(d, id, now)), l)
  {
    var ms := SalvageSteps(d, id, now);
    StepKeepsTruthful(d, l, ms[0]);
    StepKeepsTruthful(Apply(d, ms[0]), l, ms[1]);
    RunTwo(d, ms[0], ms[1]);
    GentleTwo(l, d, ms[0], ms[1]);
  }

  lemma {:induction false} RequeueGentle(d: Disk, l: Ledger, ids: seq<Id>, cutoff: Time, now: Time)
    requires Truthful(d, l)
    ensures GentleRun(l, d, RequeueFrom(d, ids, cutoff, now))
    decreases |ids|
  {
    if ids != [] {
      if Salvageable(d, ids[0], cutoff) {
        var ms := SalvageSteps(d, ids[0], now);
        SalvageGentle(d, l, ids[0], now);
        if ItemAt(d, Slot(Failed, ids[0])).key in d.rows {
          RequeueGentle(RunSteps(d, ms), l, ids[1..], cutoff, now);
          GentleRunConcat(l, d, ms, RequeueFrom(RunSteps(d, ms), ids[1..], cutoff, now));
        }
      } else {
        RequeueGentle(d, l, ids[1..], cutoff, now);
      }
    }
  }

  lemma {:induction false} RemoveGentle(d: Disk, l: Ledger, dir: Dir, ids: seq<Id>)
    ensures GentleRun(l, d, RemoveFrom(d, dir, ids))
    decreases |ids|
  {
    if ids != [] {
      if Slot(dir, ids[0]) in d.files {
        var m := Unlink(dir, ids[0]);
        RemoveGentle(Apply(d, m), l, dir, ids[1..]);
        var ms := RemoveFrom(d, dir, ids);
        assert ms[0] == m && ms[1..] == RemoveFrom(Apply(d, m), dir, ids[1..]);
      } else {
        RemoveGentle(d, l, dir, ids[1..]);
      }
    }
  }

  lemma {:induction false} RemoveStraysGentle(d: Disk, l: Ledger, dir: Dir, ids: seq<Id>, known: set<Id>, cutoff: Time)
    ensures GentleRun(l, d, RemoveStraysFrom(d, dir, ids, known, cutoff))
    decreases |ids|
  {
    if ids != [] {
      if Stray(d, Slot(dir, ids[0]), known, cutoff) {
        var m := Unlink(dir, ids[0]);
        RemoveStraysGentle(Apply(d, m), l, dir, ids[1..], known, cutoff);
        var ms := RemoveStraysFrom(d, dir, ids, known, cutoff);
        assert ms[0] == m && ms[1..] == RemoveStraysFrom(Apply(d, m), dir, ids[1..], known, cutoff);
      } else {
        RemoveStraysGentle(d, l, dir, ids[1..], known, cutoff);
      }
    }
  }

  lemma CleanupGentle(d: Disk, l: Ledger, dir: Dir, expiry: Time, age: Time, purge: Time)
    ensures GentleRun(l, d, CleanupStepsAt(d, dir, expiry, age, purge))
  {
    var a := RemoveFrom(d, dir, Sorted(ExpiredIds(d.rows, StatusOf(dir), expiry)));
    var d1 := RunSteps(d, a);
    var b := RemoveStraysFrom(d1, dir, Listing(d1, dir), KnownIds(d.rows), age);
    RemoveGentle(d, l, dir, Sorted(ExpiredIds(d.rows, StatusOf(dir), expiry)));
    RemoveStraysGentle(d1, l, dir, Listing(d1, dir), KnownIds(d.rows), age);
    GentleRunConcat(l, d, a, b);
    GentleRunConcat(l, d, a + b, [Purge(StatusOf(dir), purge)]);
  }

  /* ---- The operations that write, or that the ledger remembers ---- */

  lemma {:induction false} NothingUnlinked(l: Ledger, ms: seq<Micro>)
    requires forall m :: m in ms ==> !m.Unlink?
    ensures Notes(l, ms) == l
    decreases |ms|
  {
    if ms != [] {
      assert ms[0] in ms;
      assert forall m :: m in ms[1..] ==> m in ms;
      NothingUnlinked(l, ms[1..]);
    }
  }

  function Accept(l: Ledger, item: Item): Ledger {
    l.(accepted := l.accepted[item.id := item])
  }

  /** A newly accepted item enters the ledger with its file. */
  lemma AcceptKeepsLedger(d: Disk, l: Ledger, budget: nat, item: Item, at: Time)
    requires OneHome(d) && LedgerOk(d, l, budget)
    requires item.id !in l.accepted && item.id !in l.cleaned && item.id !in l.finished && item.id !in l.condemned
    requires item.id !in l.retries && item.id !in l.due && item.attempts == 0 && item.nextRetry == None
    ensures var e := Apply(d, Write(Pending, item, at));
      OneHome(e) && LedgerOk(e, Accept(l, item), budget)
  {
    var e := Apply(d, Write(Pending, item, at));
    assert forall s :: s in d.files ==> s.id != item.id;
    WriteAccounted(d, l, item, Pending, at);
    assert RecordsTrue(e, Accept(l, item), budget) by {
      assert forall it: Item :: it.id != item.id && OnRecord(l, it) ==> OnRecord(Accept(l, item), it);
      WriteRecords(d, l, Accept(l, item), budget, item, Pending, at);
    }
    AcceptPlaces(d, l, item, at);
  }

  lemma AcceptPlaces(d: Disk, l: Ledger, item: Item, at: Time)
    requires PlacesTrue(d, l) && FlagsTrue(d, l) && item.id !in l.finished && item.id !in l.condemned
    ensures var e := Apply(d, Write(Pending, item, at));
      PlacesTrue(e, Accept(l, item)) && FlagsTrue(e, Accept(l, item))
  {
    var e := Apply(d, Write(Pending, item, at));
    forall s | s in e.files && s != Slot(Pending, item.id)
      ensures s in d.files && (Live(e, s) <==> Live(d, s)) && e.files[s] == d.files[s]
    {
    }
  }

  /** Writing the only file of an accepted, or newly accepted, item. */
  lemma WriteAccounted(d: Disk, l: Ledger, item: Item, dir: Dir, at: Time)
    requires Accounted(d, l) && item.id !in l.cleaned
    requires forall s :: s in d.files && s.id == item.id ==> s == Slot(dir, item.id)
    ensures Accounted(Apply(d, Write(dir, item, at)), Accept(l, item))
  {
    var e := Apply(d, Write(dir, item, at));
    assert Slot(dir, item.id) in e.files;
    forall id | id in l.accepted && id !in l.cleaned ensures Named(e, id) {
      NamedSurvives(d, e, id);
    }
  }

  lemma WriteRecords(d: Disk, l: Ledger, m: Ledger, budget: nat, item: Item, dir: Dir, at: Time)
    requires RecordsTrue(d, l, budget) && OnRecord(m, item)
    requires forall s :: s in d.files && s.id == item.id ==> s == Slot(dir, item.id)
    requires forall it: Item :: it.id != item.id && OnRecord(l, it) ==> OnRecord(m, it)
    requires forall k, id :: RowOnRecord(l, k, id) ==> RowOnRecord(m, k, id)
    requires forall id :: id in m.retries ==> m.retries[id] <= budget
    ensures RecordsTrue(Apply(d, Write(dir, item, at)), m, budget)
  {
    var e := Apply(d, Write(dir, item, at));
    assert forall s :: Live(e, s) ==> s == Slot(dir, item.id) || Live(d, s);
  }

  lemma NamedSurvives(d: Disk, e: Disk, id: Id)
    requires Named(d, id) && forall s :: s in d.files ==> s in e.files
    ensures Named(e, id)
  {
    var dir :| Slot(dir, id) in d.files;
    assert Slot(dir, id) in e.files;
  }

  function Reschedule(l: Ledger, id: Id, next: Time): Ledger {
    l.(retries := l.retries[id := Count(l.retries, id) + 1], due := l.due[id := next])
  }

  /** Rewriting the file of the held item as the ledger has it. */
  lemma RewriteKeepsLedger(d: Disk, l: Ledger, m: Ledger, budget: nat, item: Item, at: Time)
    requires OneHome(d) && LedgerOk(d, l, budget) && Slot(Processing, item.id) in d.files
    requires m == l.(retries := m.retries, due := m.due)
    requires forall id :: id != item.id ==> Count(m.retries, id) == Count(l.retries, id) && DueOf(m, id) == DueOf(l, id)
    requires OnRecord(m, item) && (forall id :: id in m.retries ==> m.retries[id] <= budget)
    ensures var e := Apply(d, Write(Processing, item, at));
      OneHome(e) && LedgerOk(e, m, budget)
  {
    var e := Apply(d, Write(Processing, item, at));
    var s0 := Slot(Processing, item.id);
    assert e.files.Keys == d.files.Keys;
    assert forall s :: s in e.files && s != s0 ==> s.id != item.id && e.files[s] == d.files[s];
    assert Accounted(e, m) by {
      forall id | id in m.accepted && id !in m.cleaned ensures Named(e, id) {
        NamedSurvives(d, e, id);
      }
    }
    assert forall it: Item :: it.id != item.id && OnRecord(l, it) ==> OnRecord(m, it);
    WriteRecords(d, l, m, budget, item, Processing, at);
  }

  /** An item found in `sent` may be remembered as finished. */
  lemma RememberFinished(d: Disk, l: Ledger, budget: nat, id: Id)
    requires OneHome(d) && LedgerOk(d, l, budget) && Slot(Sent, id) in d.files
    ensures LedgerOk(d, l.(finished := l.finished + {id}), budget)
  {
    var f := l.(finished := l.finished + {id});
    assert forall it :: OnRecord(l, it) ==> OnRecord(f, it);
    assert forall k, x :: RowOnRecord(l, k, x) ==> RowOnRecord(f, k, x);
    assert forall s :: s in d.files && s.id == id ==> s == Slot(Sent, id);
  }

  lemma SendKeepsLedger(d: Disk, l: Ledger, budget: nat, id: Id)
    requires LedgerOk(d, l, budget)
    ensures LedgerOk(d, l.(sends := l.sends[id := Count(l.sends, id) + 1]), budget)
  {
    var m := l.(sends := l.sends[id := Count(l.sends, id) + 1]);
    assert forall it :: OnRecord(l, it) ==> OnRecord(m, it);
    assert forall k, x :: RowOnRecord(l, k, x) ==> RowOnRecord(m, k, x);
  }

  /** A file that stops being valid where it is leaves the ledger true. */
  lemma RotKeepsLedger(d: Disk, l: Ledger, budget: nat, s: Slot, file: File)
    requires LedgerOk(d, l, budget) && s in d.files && !Valid(s.id, file)
    ensures LedgerOk(d.(files := d.files[s := file]), l, budget)
  {
    var e := d.(files := d.files[s := file]);
    assert e.files.Keys == d.files.Keys;
    assert forall t :: Live(e, t) ==> t != s && Live(d, t) && ItemAt(e, t) == ItemAt(d, t);
    forall id | id in l.accepted ensures id in l.cleaned || Named(e, id) {
      if id !in l.cleaned { NamedSurvives(d, e, id); }
    }
  }

  /** The three crash points of a delivery's end in `failed`. */
  lemma MarkFailedLedger(d: Disk, l: Ledger, budget: nat, item: Item, permanent: bool, now: Time)
    requires OneHome(d) && LedgerOk(d, l, budget) && Slot(Processing, item.id) in d.files && OnRecord(l, item)
    ensures var updated := item.(permanent := permanent);
      var l' := if permanent then l.(condemned := l.condemned + {item.id}) else l;
      var d1 := Apply(d, Write(Processing, updated, now));
      var d2 := Apply(d1, Move(item.id, Processing, Failed));
      var d3 := Apply(d2, SetStatus(item.key, FAILED, now));
      LedgerOk(d1, l, budget) && LedgerOk(d2, l', budget) && LedgerOk(d3, l', budget)
  {
    var updated := item.(permanent := permanent);
    var l' := if permanent then l.(condemned := l.condemned + {item.id}) else l;
    var d1 := Apply(d, Write(Processing, updated, now));
    var d2 := Apply(d1, Move(item.id, Processing, Failed));
    RewriteKeepsLedger(d, l, l, budget, updated, now);
    CondemnKeepsLedger(d1, l, budget, updated, permanent);
    GentleKeepsLedger(d2, l', budget, SetStatus(item.key, FAILED, now));
  }

  /** Moving the held item to `failed`; if it is flagged permanent, the ledger condemns it. */
  lemma CondemnKeepsLedger(d: Disk, l: Ledger, budget: nat, item: Item, permanent: bool)
    requires OneHome(d) && LedgerOk(d, l, budget) && item.permanent == permanent
    requires Live(d, Slot(Processing, item.id)) && ItemAt(d, Slot(Processing, item.id)) == item
    ensures var e := Apply(d, Move(item.id, Processing, Failed));
      && OneHome(e)
      && LedgerOk(e, if permanent then l.(condemned := l.condemned + {item.id}) else l, budget)
  {
    var move := Move(item.id, Processing, Failed);
    var e := Apply(d, move);
    if permanent {
      var l' := l.(condemned := l.condemned + {item.id});
      GentleKeepsAccounted(d, l, move);
      GentleKeepsRecords(d, l, budget, move);
      GentleKeepsPlaces(d, l, move);
      CondemnedIrrelevant(l, l'.condemned);
      CondemnPlaces(d, l, item);
    } else {
      GentleKeepsLedger(d, l, budget, move);
    }
  }

  lemma CondemnPlaces(d: Disk, l: Ledger, item: Item)
    requires OneHome(d) && PlacesTrue(d, l) && FlagsTrue(d, l) && item.permanent
    requires Live(d, Slot(Processing, item.id)) && ItemAt(d, Slot(Processing, item.id)) == item
    ensures var e := Apply(d, Move(item.id, Processing, Failed));
      var l' := l.(condemned := l.condemned + {item.id});
      PlacesTrue(e, l') && FlagsTrue(e, l')
  {
    var e := Apply(d, Move(item.id, Processing, Failed));
    MoveEffect(d, item.id, Processing, Failed);
    assert item.id !in l.finished;
    forall s | s in e.files && s.id != item.id
      ensures s in d.files && e.files[s] == d.files[s]
    {
    }
    assert forall s :: s in e.files && s.id == item.id ==> s == Slot(Failed, item.id);
    assert e.files[Slot(Failed, item.id)] == d.files[Slot(Processing, item.id)];
  }

  lemma CondemnedIrrelevant(l: Ledger, c: set<Id>)
    ensures forall item :: OnRecord(l.(condemned := c), item) <==> OnRecord(l, item)
    ensures forall k, id :: RowOnRecord(l.(condemned := c), k, id) <==> RowOnRecord(l, k, id)
  {
  }

  /** The two crash points of a successful delivery's end in `sent`. */
  lemma MarkSentLedger(d: Disk, l: Ledger, budget: nat, item: Item, now: Time)
    requires OneHome(d) && LedgerOk(d, l, budget) && Slot(Processing, item.id) in d.files
    requires Count(l.sends, item.id) >= 1
    ensures var l' := l.(finished := l.finished + {item.id});
      var d1 := Apply(d, Move(item.id, Processing, Sent));
      LedgerOk(d1, l', budget) && LedgerOk(Apply(d1, SetStatus(item.key, SENT, now)), l', budget)
  {
    var l' := l.(finished := l.finished + {item.id});
    var d1 := Apply(d, Move(item.id, Processing, Sent));
    GentleKeepsLedger(d, l, budget, Move(item.id, Processing, Sent));
    RememberFinished(d1, l, budget, item.id);
    GentleKeepsLedger(d1, l', budget, SetStatus(item.key, SENT, now));
  }

  /** The two crash points of accepting a new item. */
  lemma EnqueueLedger(d: Disk, l: Ledger, budget: nat, item: Item, now: Time)
    requires OneHome(d) && LedgerOk(d, l, budget)
    requires item.id !in l.accepted && item.id !in l.finished && item.id !in l.condemned
    requires item.id !in l.retries && item.id !in l.due && item.attempts == 0 && item.nextRetry == None
    ensures var d1 := Apply(d, Write(Pending, item, now));
      && LedgerOk(d1, Accept(l, item), budget)
      && LedgerOk(Apply(d1, Insert(item.key, Row(item.id, now, PENDING, now))), Accept(l, item), budget)
  {
    AcceptKeepsLedger(d, l, budget, item, now);
    GentleKeepsLedger(Apply(d, Write(Pending, item, now)), Accept(l, item), budget,
                      Insert(item.key, Row(item.id, now, PENDING, now)));
  }
}
