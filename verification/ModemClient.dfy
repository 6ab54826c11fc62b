/**
  The ModemManager client's bookkeeping of message subscriptions, while the
  modem's object path comes and goes and every D-Bus call may fail.
 */
module ModemManager {
  import opened Prelude
  import D = Durable
  import StateDirectory

  type Path = string

  /** The identity of a callback. */
  type CallbackKey = int

  datatype DBusError = UnknownObject | UnknownProperty | InterfaceMissing | OtherError

  datatype Failure =
    | Unavailable(cause: Option<DBusError>)
    | ModemNotFound
    | ReadFailed
    | MessageReadMissing
    | MessageReadSkipped
    | MessageDeleteFailed
    | RawDBusError(error: DBusError)

  predicate IsModemError(f: Failure) {
    !f.RawDBusError?
  }

  predicate Escapes(f: Option<Failure>) {
    f.Some? && f.value.RawDBusError?
  }

  /** The failures that mean the modem object is no longer where it was. */
  predicate IsStale(f: Failure) {
    f.Unavailable? && f.cause.Some? && (f.cause.value.UnknownObject? || f.cause.value.InterfaceMissing?)
  }

  datatype Answer<+T> = Got(value: T) | Raised(failure: Failure) {
    predicate IsFailure() {
      Raised?
    }

    function PropagateFailure<U>(): Answer<U>
      requires Raised?
    {
      Raised(failure)
    }

    function Extract(): T
      requires Got?
    {
      value
    }

    function Failed(): Option<Failure> {
      if Raised? then Some(failure) else None
    }
  }

  datatype Connection = NoBus | Bus(connected: bool)

  /** A handler that hears the messaging interface of `path` and hands message paths to `callback`. */
  datatype Handler = Handler(path: Path, callback: CallbackKey)

  type WatchKey = (Path, CallbackKey)

  /* ---- the subscription bookkeeping, as a value ---- */

  datatype Watch = Watch(path: Option<Path>, callbacks: seq<CallbackKey>, keys: set<WatchKey>, resubscribe: bool)

  predicate Subscribed(w: Watch, cb: CallbackKey) {
    w.path.Some? && (w.path.value, cb) in w.keys
  }

  predicate NeedsResubscribe(w: Watch) {
    w.callbacks != [] && (w.path.None? || exists cb | cb in w.callbacks :: (w.path.value, cb) !in w.keys)
  }

  /** Each confirmed callback is subscribed on the known path, unless a re-subscription is due anyway. */
  ghost predicate Safe(w: Watch, confirmed: set<CallbackKey>) {
    w.resubscribe || forall cb :: cb in confirmed ==> Subscribed(w, cb)
  }

  function AfterFind(w: Watch, found: Path): Watch {
    w.(path := Some(found))
  }

  /** After finding the modem at `found`, safety is about that path. */
  lemma SafeAfterFind(w: Watch, confirmed: set<CallbackKey>, found: Path)
    ensures Safe(AfterFind(w, found), confirmed) <==>
      w.resubscribe || forall cb :: cb in confirmed ==> (found, cb) in w.keys
  {
    var v := AfterFind(w, found);
    assert forall cb :: Subscribed(v, cb) <==> (found, cb) in w.keys;
  }

  /**
    find_modem is the one public call that can break safety: it replaces the
    path without looking at the subscriptions. Wherever the modem may turn up,
    it stays safe exactly when a re-subscription is due or no callback is
    confirmed, which a caller can tell beforehand.
   */
  lemma FindModemIsSafeIff(w: Watch, confirmed: set<CallbackKey>)
    ensures (forall found :: Safe(AfterFind(w, found), confirmed)) <==> w.resubscribe || confirmed == {}
  {
    forall found ensures w.resubscribe || confirmed == {} ==> Safe(AfterFind(w, found), confirmed) {
      SafeAfterFind(w, confirmed, found);
    }
    if !w.resubscribe && confirmed != {} {
      var found := SomeOtherPath(w.keys);
      SafeAfterFind(w, confirmed, found);
      assert (forall cb :: cb !in confirmed) ==> confirmed == {};
    }
  }

  /** There is always a path on which nothing is subscribed. */
  lemma SomeOtherPath(keys: set<WatchKey>) returns (path: Path)
    ensures forall cb: CallbackKey :: (path, cb) !in keys
  {
    var n := LongerThanAll(keys);
    path := seq(n, i => 'x');
    assert |path| == n;
    assert forall cb: CallbackKey :: (path, cb).0 == path;
  }

  lemma {:induction false} LongerThanAll(keys: set<WatchKey>) returns (n: nat)
    ensures forall k :: k in keys ==> |k.0| < n
    decreases |keys|
  {
    if keys == {} {
      n := 0;
    } else {
      assert (forall x :: x !in keys) ==> keys == {};
      var k :| k in keys;
      var m := LongerThanAll(keys - {k});
      n := if m > |k.0| then m else |k.0| + 1;
      assert forall x :: x in keys ==> x == k || x in keys - {k};
    }
  }

  /** Subscribing where it is needed and re-checking leaves nothing to wish for. */
  lemma RecheckedIsSafe(w: Watch, confirmed: set<CallbackKey>)
    requires forall cb :: cb in confirmed ==> cb in w.callbacks
    requires w.resubscribe <==> NeedsResubscribe(w)
    ensures Safe(w, confirmed)
  {
    if !w.resubscribe {
      forall cb | cb in confirmed ensures Subscribed(w, cb) {
        assert cb in w.callbacks;
      }
    }
  }

  /* ---- the outside world ---- */

  /** How the n-th call on the bus fails, if it does, and what the n-th listing of the modems shows. */
  datatype Script = Script(failure: nat -> Option<DBusError>, listing: nat -> seq<Path>)

  /** The bus and what is behind it; the script is arbitrary. */
  class SystemBus {
    const script: Script
    var calls: nat
    var shown: nat

    /** The listings of messages shown, and for each message asked about whether it is inbound. */
    ghost var inboxes: seq<seq<Path>>
    ghost var kinds: seq<Kind>

    constructor (script: Script)
      ensures this.script == script && calls == 0 && shown == 0 && inboxes == [] && kinds == []
    {
      this.script := script;
      calls, shown := 0, 0;
      inboxes, kinds := [], [];
    }

    /** No call since then failed. */
    twostate predicate Smooth()
      reads this
    {
      forall n :: old(calls) <= n < calls ==> script.failure(n).None?
    }

    /** Any call. */
    method Ask() returns (e: Option<DBusError>)
      modifies this`calls
      ensures e == script.failure(old(calls)) && calls == old(calls) + 1
      ensures Smooth() <==> e.None?
    {
      e := script.failure(calls);
      calls := calls + 1;
    }

    method ShowModems() returns (paths: seq<Path>)
      modifies this`shown
      ensures paths == script.listing(old(shown)) && shown == old(shown) + 1
    {
      paths := script.listing(shown);
      shown := shown + 1;
    }

    method ShowMessages() returns (paths: seq<Path>)
      modifies this`inboxes
      ensures inboxes == old(inboxes) + [paths]
    {
      paths := *;
      inboxes := inboxes + [paths];
    }

    method ShowKind(path: Path) returns (inbound: bool)
      modifies this`kinds
      ensures kinds == old(kinds) + [Kind(path, inbound)]
    {
      inbound := *;
      kinds := kinds + [Kind(path, inbound)];
    }
  }

  /** What a message turned out to be. */
  datatype Kind = Kind(path: Path, inbound: bool)

  /** The paths of the inbound ones, in order. */
  ghost function InboundPaths(kinds: seq<Kind>): seq<Path>
    decreases |kinds|
  {
    if kinds == [] then []
    else
      var last := kinds[|kinds| - 1];
      InboundPaths(kinds[..|kinds| - 1]) + if last.inbound then [last.path] else []
  }

  /** Each of the first `n` paths was asked about once, in order, and the messages are those of the inbound ones. */
  ghost predicate InboundRead(kinds: seq<Kind>, paths: seq<Path>, n: nat, messages: seq<D.Sms>) {
    && |kinds| == n <= |paths|
    && (forall i :: 0 <= i < n ==> kinds[i].path == paths[i])
    && |messages| == |InboundPaths(kinds)|
    && (forall i :: 0 <= i < |messages| ==> messages[i].path == InboundPaths(kinds)[i])
  }

  lemma OneMoreInbound(kinds: seq<Kind>, paths: seq<Path>, n: nat, messages: seq<D.Sms>, message: Option<D.Sms>)
    requires InboundRead(kinds, paths, n, messages) && n < |paths|
    requires message.Some? ==> message.value.path == paths[n]
    ensures InboundRead(kinds + [Kind(paths[n], message.Some?)], paths, n + 1,
                        messages + if message.Some? then [message.value] else [])
  {
    assert (kinds + [Kind(paths[n], message.Some?)])[..n] == kinds;
  }

  /** A bus on which no call fails. */
  ghost predicate Calm(script: Script) {
    forall n :: script.failure(n).None?
  }

  method SomeText() returns (text: string) {
    text := *;
  }

  datatype Sleep = Sleep(at: real, duration: real)

  /** Seconds of a clock that never runs backwards; a sleep takes at least as long as asked. */
  class MonotonicClock {
    var now: real
    ghost var sleeps: seq<Sleep>

    constructor (start: real)
      ensures now == start && sleeps == []
    {
      now := start;
      sleeps := [];
    }

    method Read() returns (t: real)
      modifies this`now
      ensures t == now >= old(now)
    {
      Pass(0.0);
      t := now;
    }

    method AsyncSleep(duration: real)
      requires duration >= 0.0
      modifies this
      ensures now >= old(now) + duration
      ensures sleeps == old(sleeps) + [Sleep(old(now), duration)]
    {
      sleeps := sleeps + [Sleep(now, duration)];
      Pass(duration);
    }

    method Pass(atLeast: real)
      requires atLeast >= 0.0
      modifies this`now
      ensures now >= old(now) + atLeast
    {
      var extra: real := *;
      now := now + atLeast + if extra > 0.0 then extra else 0.0;
    }
  }

  /* ---- waiting for a modem that was reset ---- */

  const RESET_REAPPEAR_POLL_INTERVAL := 2.0

  datatype ResetPoll = Reappeared(path: Path) | NotYet | Escaped(failure: Failure)

  function FirstOther(paths: seq<Path>, path: Path): (r: Option<Path>)
    ensures r.None? <==> forall p :: p in paths ==> p == path
    ensures r.Some? ==> exists i | 0 <= i < |paths| ::
      paths[i] == r.value != path && forall j :: 0 <= j < i ==> paths[j] == path
  {
    if paths == [] then None
    else if paths[0] != path then assert paths[0] in paths; Some(paths[0])
    else
      assert forall p :: p in paths <==> p == paths[0] || p in paths[1..];
      var rest := FirstOther(paths[1..], path);
      assert forall i :: 0 <= i < |paths| - 1 ==> paths[1..][i] == paths[i + 1];
      rest
  }

  /** The path a listing offers: another one than the reset one, or that one once it was missing. */
  function Offered(paths: seq<Path>, resetPath: Path, disappeared: bool): Option<Path> {
    var other := FirstOther(paths, resetPath);
    if other.Some? then other
    else if resetPath in paths && disappeared then Some(resetPath)
    else None
  }

  /** No listing numbered `from` or later, and before `until`, offered a path. */
  ghost predicate NothingOffered(listings: seq<seq<Path>>, from: nat, until: nat, resetPath: Path)
    requires until <= |listings|
  {
    forall j :: from <= j < until ==>
      && (forall p :: p in listings[j] ==> p == resetPath)
      && (resetPath in listings[j] ==> !SeenMissing(listings[..j], from, resetPath))
  }

  /** Nothing was offered so far, and the reset path was missing at some time exactly if `disappeared`. */
  ghost predicate StillWaiting(listings: seq<seq<Path>>, from: nat, resetPath: Path, disappeared: bool) {
    NothingOffered(listings, from, |listings|, resetPath) && (disappeared <==> SeenMissing(listings, from, resetPath))
  }

  /** The last listing is the first to offer a path, which is `path`. */
  ghost predicate JustOffered(listings: seq<seq<Path>>, from: nat, resetPath: Path, path: Path) {
    && |listings| > from
    && NothingOffered(listings, from, |listings| - 1, resetPath)
    && Offered(listings[|listings| - 1], resetPath, SeenMissing(listings[..|listings| - 1], from, resetPath)) ==
         Some(path)
  }

  lemma OneMoreListing(listings: seq<seq<Path>>, from: nat, seen: seq<Path>, resetPath: Path, disappeared: bool)
    requires from <= |listings| && StillWaiting(listings, from, resetPath, disappeared)
    ensures match Offered(seen, resetPath, disappeared)
      case Some(path) => JustOffered(listings + [seen], from, resetPath, path)
      case None => StillWaiting(listings + [seen], from, resetPath, disappeared || resetPath !in seen)
  {
    var more := listings + [seen];
    assert more[..|listings|] == listings && more[|listings|] == seen;
    assert forall j :: from <= j < |listings| ==> more[j] == listings[j] && more[..j] == listings[..j];
    assert SeenMissing(more, from, resetPath) <==> disappeared || resetPath !in seen;
  }

  /** Some listing numbered `from` or later showed the path, and one between `from` and it did not. */
  ghost predicate SeenAgain(listings: seq<seq<Path>>, from: nat, path: Path) {
    exists i, j :: from <= i < j < |listings| && path !in listings[i] && path in listings[j]
  }

  /** Some listing numbered `from` or later did not show the path. */
  ghost predicate SeenMissing(listings: seq<seq<Path>>, from: nat, path: Path) {
    exists i :: from <= i < |listings| && path !in listings[i]
  }

  ghost predicate SeenListed(listings: seq<seq<Path>>, from: nat, path: Path) {
    exists i :: from <= i < |listings| && path in listings[i]
  }

  /** Once per poll, and twice more per callback. */
  function Most(polls: nat, callbacks: nat): nat {
    polls * (1 + 2 * callbacks)
  }

  lemma MostGrows(polls: nat, callbacks: nat)
    ensures Most(polls + 1, callbacks) == Most(polls, callbacks) + 1 + 2 * callbacks
  {
  }

  /** A pause of at most the interval, not meant to last beyond the deadline. */
  predicate Punctual(s: Sleep, startedAt: real, timeout: real) {
    0.0 < s.duration <= 2.0 && startedAt <= s.at && s.at + s.duration <= startedAt + timeout
  }

  /* ---- what happened to the messages ---- */

  /** A read of a message: its text is still missing, or it is complete, or something came in between. */
  datatype Reading = Reading(path: Path, answer: Answer<Option<D.Sms>>)

  /** A deletion asked for, when the disk's journal had `written` steps and `seen` reads had been made. */
  datatype Deletion = Deletion(path: Path, written: nat, seen: nat)

  /** Every read, every listing of the messages, every deletion asked for. */
  datatype ModemLog = ModemLog(readings: seq<Reading>, inboxes: seq<seq<Path>>, deletions: seq<Deletion>)

  const EMPTY_LOG := ModemLog([], [], [])

  /** How often the message was read without text. */
  ghost function EmptyReads(readings: seq<Reading>, path: Path): nat
    decreases |readings|
  {
    if readings == [] then 0
    else
      var last := readings[|readings| - 1];
      EmptyReads(readings[..|readings| - 1], path) + if last == Reading(path, Got(None)) then 1 else 0
  }

  lemma OneMoreReading(readings: seq<Reading>, last: Reading, path: Path)
    ensures EmptyReads(readings + [last], path) ==
      EmptyReads(readings, path) + if last == Reading(path, Got(None)) then 1 else 0
  {
    assert (readings + [last])[..|readings|] == readings;
  }

  datatype Request = EnableModem | ResetModem

  /* ---- the client ---- */

  class ModemManagerClient {
    var bus: Connection
    var modemPath: Option<Path>
    var addedCallbacks: seq<CallbackKey>
    var addedWatchKeys: set<WatchKey>
    var addedWatchHandlers: map<WatchKey, Handler>
    var resubscribeRequired: bool
    const clock: MonotonicClock
    const resetReappearTimeout: real

    const system: SystemBus

    /** The disk by whose journal deletions are dated. */
    ghost const store: StateDirectory.StateDir

    /** The callbacks whose WatchAdded returned normally, the listings seen, and how often one was asked for. */
    ghost var confirmed: set<CallbackKey>
    ghost var listings: seq<seq<Path>>
    ghost var queries: nat

    /** How many subscriptions failed with an error that is not the client's own. */
    ghost var escapes: nat

    /** What the modem was asked to do, and the messages read, listed and deleted. */
    ghost var requests: seq<Request>
    ghost var log: ModemLog

    function State(): Watch
      reads this
    {
      Watch(modemPath, addedCallbacks, addedWatchKeys, resubscribeRequired)
    }

    /** Keys and handlers have equal domains, and each handler listens where its key says. */
    ghost predicate Consistent()
      reads this
    {
      && addedWatchHandlers.Keys == addedWatchKeys
      && (forall k :: k in addedWatchHandlers ==> addedWatchHandlers[k] == Handler(k.0, k.1))
      && (forall cb :: cb in confirmed ==> cb in addedCallbacks)
    }

    ghost predicate Valid()
      reads this
    {
      Consistent() && Safe(State(), confirmed)
    }

    predicate Needs()
      reads this
    {
      NeedsResubscribe(State())
    }

    /** What no call below `connect` and `disconnect` touches. */
    twostate predicate Kept()
      reads this
    {
      && bus == old(bus) && addedCallbacks == old(addedCallbacks) && confirmed == old(confirmed)
      && log == old(log) && requests == old(requests) && old(listings) <= listings && old(queries) <= queries
    }

    /** A call that did not find a modem saw an empty listing. */
    twostate predicate Explained(failure: Option<Failure>)
      reads this
    {
      && old(listings) <= listings
      && (failure == Some(ModemNotFound) ==> exists i :: |old(listings)| <= i < |listings| && listings[i] == [])
    }

    /** There is a bus, and no call on it failed. */
    twostate predicate Smooth()
      reads this, system
    {
      bus.Bus? && system.Smooth()
    }

    /** Call number `n` reaches the object, and the next one finds that its interface is no longer there. */
    predicate StaleAt(n: nat)
      reads this
    {
      && bus.Bus? && system.script.failure(n).None?
      && (system.script.failure(n + 1) == Some(UnknownObject) || system.script.failure(n + 1) == Some(InterfaceMissing))
    }

    /** Everything was let go of because the path changed. */
    ghost predicate Cleared()
      reads this
    {
      addedWatchKeys == {} && resubscribeRequired == (addedCallbacks != [])
    }

    constructor (system: SystemBus, clock: MonotonicClock, resetReappearTimeout: real,
                 ghost store: StateDirectory.StateDir)
      ensures Valid() && State() == Watch(None, [], {}, false) && bus == NoBus
      ensures confirmed == {} && log == EMPTY_LOG
      ensures this.system == system && this.clock == clock && this.resetReappearTimeout == resetReappearTimeout
      ensures this.store == store
    {
      this.system := system;
      this.clock := clock;
      this.resetReappearTimeout := resetReappearTimeout;
      this.store := store;
      bus := NoBus;
      modemPath := None;
      addedCallbacks := [];
      addedWatchKeys := {};
      addedWatchHandlers := map[];
      resubscribeRequired := false;
      confirmed := {};
      listings := [];
      queries := 0;
      requests := [];
      escapes := 0;
      log := EMPTY_LOG;
    }

    /* ---- finding the modem ---- */

    method ListModemPaths() returns (r: Answer<seq<Path>>)
      modifies this`listings, this`queries, system`calls, system`shown
      ensures Explained(r.Failed()) && r != Raised(ModemNotFound) && queries == old(queries) + 1 && !Escapes(r.Failed())
      ensures if r.Got? then bus.Bus? && listings == old(listings) + [r.value] else listings == old(listings)
      ensures system.calls >= old(system.calls) && (Smooth() <==> r.Got?)
      ensures Calm(system.script) && bus.Bus? ==>
        r == Got(system.script.listing(old(system.shown))) && system.shown == old(system.shown) + 1
    {
      queries := queries + 1;
      if bus.NoBus? { return Raised(Unavailable(None)); }
      var e := system.Ask();
      if e.Some? { return Raised(Unavailable(e)); }
      var paths := system.ShowModems();
      listings := listings + [paths];
      return Got(paths);
    }

    /**
      Takes the first path listed, whatever path was known before. A client on
      which subscriptions are safe stays that way if the known path is found
      again, and wherever the modem turns up only under the condition of
      FindModemIsSafeIff.
     */
    method FindModem() returns (r: Answer<Path>)
      modifies this`modemPath, this`listings, this`queries, system`calls, system`shown
      ensures Explained(r.Failed()) && queries == old(queries) + 1 && !Escapes(r.Failed())
      ensures system.calls >= old(system.calls)
      ensures r.Got? ==>
        && State() == AfterFind(old(State()), r.value) && |listings| > |old(listings)|
        && listings[|old(listings)|] != [] && r.value == listings[|old(listings)|][0]
      ensures r.Raised? ==> modemPath == old(modemPath)
      ensures old(Valid()) && r.Got? ==>
        (Valid() <==> old(resubscribeRequired) || forall cb :: cb in confirmed ==> (r.value, cb) in addedWatchKeys)
      ensures old(Valid()) && (r.Got? ==> old(modemPath) == Some(r.value)) ==> Valid()
      ensures Calm(system.script) && bus.Bus? && system.script.listing(old(system.shown)) != [] ==>
        r == Got(system.script.listing(old(system.shown))[0]) && system.shown == old(system.shown) + 1
    {
      ghost var w := State();
      var paths :- ListModemPaths();
      if paths == [] {
        assert listings[|old(listings)|] == [];
        return Raised(ModemNotFound);
      }
      SafeAfterFind(w, confirmed, paths[0]);
      modemPath := Some(paths[0]);
      return Got(paths[0]);
    }

    /* ---- dropping subscriptions ---- */

    method UnsubscribeAllAddedWatchers()
      modifies this`addedWatchKeys, this`addedWatchHandlers, system`calls
      ensures addedWatchKeys == {} && addedWatchHandlers == map[]
      ensures system.shown == old(system.shown) && system.calls >= old(system.calls)
    {
      while addedWatchHandlers.Keys != {}
        invariant system.shown == old(system.shown) && system.calls >= old(system.calls)
        decreases |addedWatchHandlers|
      {
        assert (forall x :: x !in addedWatchHandlers.Keys) ==> addedWatchHandlers.Keys == {};
        var k :| k in addedWatchHandlers.Keys;
        UnsubscribeAddedWatcher(k);
      }
      addedWatchKeys := {};
    }

    method UnsubscribeAddedWatcher(k: WatchKey)
      modifies this`addedWatchKeys, this`addedWatchHandlers, system`calls
      ensures system.shown == old(system.shown) && system.calls >= old(system.calls)
      ensures addedWatchKeys == old(addedWatchKeys) - {k}
      ensures addedWatchHandlers == old(addedWatchHandlers) - {k}
      ensures k in old(addedWatchHandlers) ==> |addedWatchHandlers| < |old(addedWatchHandlers)|
    {
      addedWatchKeys := addedWatchKeys - {k};
      if k in addedWatchHandlers {
        var _ := system.Ask();
        assert (addedWatchHandlers - {k}).Keys == addedWatchHandlers.Keys - {k};
        addedWatchHandlers := addedWatchHandlers - {k};
      }
      assert k !in old(addedWatchHandlers) ==> old(addedWatchHandlers) - {k} == old(addedWatchHandlers);
    }

    method PrepareForPathChange()
      requires Consistent()
      modifies this`addedWatchKeys, this`addedWatchHandlers, this`resubscribeRequired, system`calls
      ensures Valid() && Cleared() && system.calls >= old(system.calls)
    {
      UnsubscribeAllAddedWatchers();
      resubscribeRequired := addedCallbacks != [];
    }

    /* ---- subscribing ---- */

    /**
      Re-establishes every subscription on `path`, letting go of the old ones
      first. Unless the modem had to be looked for again meanwhile, nothing is
      left to do after a normal return.
     */
    method ResubscribeAddedWatchers(path: Path) returns (r: Answer<()>)
      requires Consistent()
      modifies this, system`calls, system`shown
      ensures Valid() && Kept() && Explained(r.Failed()) && system.calls >= old(system.calls)
      ensures r.Got? ==> resubscribeRequired == Needs()
      ensures r.Got? && listings == old(listings) && old(modemPath) == Some(path) ==> !resubscribeRequired
      ensures r.Raised? ==> resubscribeRequired
      decreases 1, 1
    {
      UnsubscribeAllAddedWatchers();
      r := SubscribeMissingAddedWatchers(path);
    }

    method SubscribeMissingAddedWatchers(path: Path) returns (r: Answer<()>)
      requires Consistent()
      modifies this, system`calls, system`shown
      ensures escapes == old(escapes) + if Escapes(r.Failed()) then 1 else 0
      ensures Valid() && Kept() && Explained(r.Failed()) && system.calls >= old(system.calls)
      ensures r.Got? ==> resubscribeRequired == Needs()
      ensures r.Got? && listings == old(listings) && old(modemPath) == Some(path) ==> !resubscribeRequired
      ensures r.Raised? ==> resubscribeRequired
      ensures Smooth() ==> r.Got? && listings == old(listings) && modemPath == old(modemPath)
      ensures queries <= old(queries) + 2 * |addedCallbacks|
      decreases 1, 0
    {
      resubscribeRequired := addedCallbacks != [];
      var i := 0;
      while i < |addedCallbacks|
        invariant 0 <= i <= |addedCallbacks|
        invariant Consistent() && Kept()
        invariant resubscribeRequired == (addedCallbacks != [])
        invariant queries <= old(queries) + 2 * i && system.calls >= old(system.calls)
        invariant Smooth() ==> listings == old(listings)
        invariant escapes == old(escapes)
        invariant listings == old(listings) ==>
          modemPath == old(modemPath) && forall j :: 0 <= j < i ==> (path, addedCallbacks[j]) in addedWatchKeys
      {
        var subscribed := SubscribeAddedWatch(path, addedCallbacks[i], false);
        if subscribed.Raised? { return Raised(subscribed.failure); }
        i := i + 1;
      }
      resubscribeRequired := Needs();
      RecheckedIsSafe(State(), confirmed);
      return Got(());
    }

    /**
      Subscribes one callback. Without `resubscribe` a re-subscription is under
      way and stays due. With it, when the path given is the known one or the
      subscriptions were just re-checked, the callback ends up subscribed on
      the known path or a re-subscription is due.
     */
    method SubscribeAddedWatch(path: Path, cb: CallbackKey, resubscribe: bool) returns (r: Answer<()>)
      requires Valid() && cb in addedCallbacks
      requires !resubscribe ==> resubscribeRequired
      modifies this, system`calls, system`shown
      ensures !resubscribe ==> escapes == old(escapes) + if Escapes(r.Failed()) then 1 else 0
      ensures Valid() && Kept() && Explained(r.Failed()) && system.calls >= old(system.calls)
      ensures Smooth() && !resubscribe ==> r.Got? && listings == old(listings)
      ensures !resubscribe ==> resubscribeRequired
      ensures r.Got? && (old(modemPath) == Some(path) || old(resubscribeRequired) == old(Needs())) ==>
        resubscribeRequired || Subscribed(State(), cb)
      ensures r.Got? && !resubscribe && listings == old(listings) ==>
        && modemPath == old(modemPath) && resubscribeRequired == old(resubscribeRequired)
        && addedWatchKeys == old(addedWatchKeys) + {(path, cb)}
      ensures !resubscribe ==> queries <= old(queries) + 2
      ensures Smooth() && resubscribe && !old(resubscribeRequired) ==>
        && r.Got? && system.shown == old(system.shown)
        && State() == old(State()).(keys := old(addedWatchKeys) + {(path, cb)})
      decreases if resubscribe then 1 else 0, 3
    {
      var key := (path, cb);
      if key !in addedWatchKeys {
        var actual :- GetMessagingInterface(path, resubscribe);
        key := (actual, cb);
        if key !in addedWatchKeys {
          r := Hook(key);
          return;
        }
      }
      return Got(());
    }

    /** Asks the bus for the signals of one path; a failure is passed on as it is. */
    method Hook(key: WatchKey) returns (r: Answer<()>)
      requires Valid() && key !in addedWatchKeys
      modifies this`addedWatchKeys, this`addedWatchHandlers, this`escapes, system`calls
      ensures Valid() && system.calls == old(system.calls) + 1 && (system.Smooth() <==> r.Got?)
      ensures if r.Got? then State() == old(State()).(keys := old(addedWatchKeys) + {key}) && escapes == old(escapes)
              else State() == old(State()) && escapes == old(escapes) + 1 && r.failure.RawDBusError?
    {
      var e := system.Ask();
      if e.Some? {
        escapes := escapes + 1;
        return Raised(RawDBusError(e.value));
      }
      addedWatchKeys := addedWatchKeys + {key};
      addedWatchHandlers := addedWatchHandlers[key := Handler(key.0, key.1)];
      return Got(());
    }

    /* ---- reaching objects ---- */

    /**
      Looks an object up. When it is the cached modem and D-Bus no longer knows
      it, all subscriptions are dropped and the modem is looked for again.
     */
    method GetProxyObject(path: Path, refreshCachedModem: bool) returns (r: Answer<Path>)
      requires Valid()
      modifies this, system`calls, system`shown
      ensures escapes == old(escapes) && !Escapes(r.Failed())
      ensures Valid() && Kept() && Explained(r.Failed()) && system.calls >= old(system.calls)
      ensures !refreshCachedModem ==> State() == old(State()) && (r.Got? ==> r.value == path)
      ensures r.Got? ==>
        || (State() == old(State()) && r.value == path)
        || (Cleared() && modemPath == Some(r.value))
      ensures State() == old(State()) || Cleared()
      ensures r.Got? && listings == old(listings) ==> State() == old(State()) && r.value == path
      ensures queries <= old(queries) + if refreshCachedModem then 1 else 0
      ensures bus.Bus? && system.script.failure(old(system.calls)) != None ==>
        if system.script.failure(old(system.calls)) == Some(UnknownObject) && refreshCachedModem
           && old(modemPath) == Some(path)
        then Cleared() && queries == old(queries) + 1
        else State() == old(State()) && r == Raised(Unavailable(system.script.failure(old(system.calls))))
      ensures bus.Bus? && system.script.failure(old(system.calls)) == None ==>
        r == Got(path) && State() == old(State()) && queries == old(queries) && system.calls == old(system.calls) + 1
      ensures Smooth() ==>
        && r == Got(path) && State() == old(State())
        && listings == old(listings) && system.shown == old(system.shown)
    {
      if bus.NoBus? { return Raised(Unavailable(None)); }
      var e := system.Ask();
      if e.None? { return Got(path); }
      if refreshCachedModem && modemPath == Some(path) && e.value.UnknownObject? {
        r := FindModemAgain();
        return;
      }
      return Raised(Unavailable(e));
    }

    /** Lets go of every subscription, and reaches the modem where it is now. */
    method FindModemAgain() returns (r: Answer<Path>)
      requires Valid()
      modifies this, system`calls, system`shown
      ensures escapes == old(escapes) && !Escapes(r.Failed())
      ensures Valid() && Kept() && Explained(r.Failed()) && Cleared() && system.calls >= old(system.calls)
      ensures r.Got? ==> modemPath == Some(r.value) && |listings| > |old(listings)|
      ensures queries == old(queries) + 1
    {
      PrepareForPathChange();
      modemPath := None;
      var refreshed :- FindModem();
      var again := system.Ask();
      if again.Some? { return Raised(Unavailable(again)); }
      return Got(refreshed);
    }

    method GetProxyInterface() returns (r: Answer<()>)
      modifies system`calls
      ensures r.Raised? ==> r.failure.Unavailable?
      ensures (system.Smooth() <==> r.Got?) && system.calls == old(system.calls) + 1
      ensures r.Raised? ==> r.failure == Unavailable(system.script.failure(old(system.calls)))
      ensures system.shown == old(system.shown)
    {
      var e := system.Ask();
      if e.Some? { return Raised(Unavailable(e)); }
      return Got(());
    }

    /** The messaging interface of the modem, following the modem to a new path if need be. */
    method GetMessagingInterface(path: Path, resubscribe: bool) returns (r: Answer<Path>)
      requires Valid()
      requires !resubscribe ==> resubscribeRequired && addedCallbacks != []
      modifies this, system`calls, system`shown
      ensures !resubscribe ==> escapes == old(escapes) && !Escapes(r.Failed())
      ensures Valid() && Kept() && Explained(r.Failed()) && system.calls >= old(system.calls)
      ensures !resubscribe ==> resubscribeRequired
      ensures r.Got? && resubscribe ==>
        || (State() == old(State()) && r.value == path)
        || resubscribeRequired == Needs()
      ensures r.Got? && !resubscribe && listings == old(listings) ==> State() == old(State()) && r.value == path
      ensures !resubscribe ==> queries <= old(queries) + 2
      ensures StaleAt(old(system.calls)) && old(modemPath) == Some(path) ==>
        queries > old(queries) && (!resubscribe ==> Cleared())
      ensures Smooth() && (!resubscribe || !old(resubscribeRequired)) ==>
        && r == Got(path) && State() == old(State())
        && listings == old(listings) && system.shown == old(system.shown)
      decreases if resubscribe then 1 else 0, 2
    {
      var actual :- GetProxyObject(path, true);
      var interface := GetProxyInterface();
      if interface.Raised? {
        if !IsStale(interface.failure) || modemPath != Some(actual) {
          return Raised(interface.failure);
        }
        r := FollowModem();
        if r.Got? && resubscribe {
          var _ :- ResubscribeAddedWatchers(r.value);
        }
        return r;
      }
      if (actual != path || resubscribeRequired) && resubscribe {
        var _ :- ResubscribeAddedWatchers(actual);
      }
      return Got(actual);
    }

    /** The cached path went stale: drop the subscriptions, find the modem and reach its interface again. */
    method FollowModem() returns (r: Answer<Path>)
      requires Valid()
      modifies this, system`calls, system`shown
      ensures escapes == old(escapes) && !Escapes(r.Failed())
      ensures Valid() && Kept() && Explained(r.Failed()) && Cleared() && system.calls >= old(system.calls)
      ensures r.Got? ==> |listings| > |old(listings)|
      ensures queries == old(queries) + 1
    {
      PrepareForPathChange();
      modemPath := None;
      var actual :- FindModem();
      actual :- GetProxyObject(actual, false);
      var _ :- GetProxyInterface();
      return Got(actual);
    }

    /** The known modem path, looked for if unknown; a due re-subscription is made first. */
    method EnsureModemPath() returns (r: Answer<Path>)
      requires Valid()
      modifies this, system`calls, system`shown
      ensures Valid() && Kept() && Explained(r.Failed())
      ensures r.Got? ==> modemPath == Some(r.value) || resubscribeRequired == Needs()
      ensures Calm(system.script) && bus.Bus? && old(modemPath).None? && !old(resubscribeRequired)
              && system.script.listing(old(system.shown)) != [] ==>
        var found := system.script.listing(old(system.shown))[0];
        r == Got(found) && State() == AfterFind(old(State()), found) && system.shown == old(system.shown) + 1
    {
      if modemPath.None? {
        assert forall cb :: cb in confirmed ==> !Subscribed(State(), cb);
        var _ :- FindModem();
      }
      var path := modemPath.value;
      if resubscribeRequired {
        var _ :- SubscribeMissingAddedWatchers(path);
      }
      return Got(path);
    }

    /** A modem interface, following the modem to a new path if need be. */
    method GetModemInterfaces() returns (r: Answer<Path>)
      requires Valid()
      modifies this, system`calls, system`shown
      ensures Valid() && Kept() && Explained(r.Failed())
    {
      var path :- EnsureModemPath();
      var actual :- GetProxyObject(path, true);
      actual :- GetModemInterfacesFromProxy(actual);
      if actual != path || resubscribeRequired {
        var _ :- ResubscribeAddedWatchers(actual);
      }
      return Got(actual);
    }

    method GetModemInterfacesFromProxy(path: Path) returns (r: Answer<Path>)
      requires Valid()
      modifies this, system`calls, system`shown
      ensures Valid() && Kept() && Explained(r.Failed())
      ensures old(modemPath) == Some(path)
              && (system.script.failure(old(system.calls)) == Some(UnknownObject)
                  || system.script.failure(old(system.calls)) == Some(InterfaceMissing)) ==>
        queries == old(queries) + 1 && Cleared()
    {
      var interface := GetProxyInterface();
      if interface.Raised? {
        if !IsStale(interface.failure) || modemPath != Some(path) {
          return Raised(interface.failure);
        }
        r := FollowModem();
        return;
      }
      return Got(path);
    }

    /* ---- connecting ---- */

    /** Opens or re-opens the bus and makes every subscription that is missing, also after a stray FindModem. */
    method Connect() returns (r: Answer<()>)
      requires Consistent()
      modifies this, system`calls, system`shown
      ensures Consistent() && addedCallbacks == old(addedCallbacks) && confirmed == old(confirmed)
      ensures log == old(log)
      ensures old(Valid()) || r.Got? ==> Valid()
      ensures r.Got? ==> resubscribeRequired == Needs() && bus == Bus(true)
      ensures Calm(system.script) && addedCallbacks == [] && !old(resubscribeRequired) ==>
        r.Got? && bus.Bus? && system.shown == old(system.shown) && (old(bus).NoBus? ==> State() == old(State()))
    {
      if bus.Bus? && bus.connected {
        r := ResubscribeAfterReconnect();
        return;
      }
      if bus.Bus? {
        bus := NoBus;
        modemPath := None;
        addedWatchKeys := {};
        addedWatchHandlers := map[];
        resubscribeRequired := addedCallbacks != [];
      }
      var e := system.Ask();
      if e.Some? { return Raised(Unavailable(e)); }
      bus := Bus(true);
      r := ResubscribeAfterReconnect();
    }

    /** Notices missing subscriptions and makes them. */
    method ResubscribeAfterReconnect() returns (r: Answer<()>)
      requires Consistent()
      modifies this, system`calls, system`shown
      ensures Valid() && Kept()
      ensures r.Got? ==> resubscribeRequired == Needs()
      ensures addedCallbacks == [] && !old(resubscribeRequired) ==>
        r.Got? && State() == old(State()) && system.shown == old(system.shown)
    {
      if Needs() {
        resubscribeRequired := true;
      } else {
        RecheckedIsSafe(State().(resubscribe := false), confirmed);
      }
      if resubscribeRequired {
        var path :- FindModem();
        var _ :- SubscribeMissingAddedWatchers(path);
      }
      return Got(());
    }

    method Disconnect()
      requires Consistent()
      modifies this, system`calls, system`shown
      ensures Consistent() && (old(Valid()) ==> Valid())
      ensures log == old(log) && bus.NoBus?
      ensures old(bus).Bus? ==> bus == NoBus && addedCallbacks == [] && confirmed == {} && addedWatchKeys == {}
    {
      if bus.NoBus? { return; }
      UnsubscribeAllAddedWatchers();
      bus := NoBus;
      modemPath := None;
      addedCallbacks := [];
      confirmed := {};
      resubscribeRequired := false;
    }

    /** The connection is lost without anyone telling the client. */
    method LoseConnection()
      requires Consistent()
      modifies this`bus
      ensures Consistent() && (old(Valid()) ==> Valid()) && log == old(log)
    {
      if bus.Bus? { bus := Bus(false); }
    }

    /* ---- reset ---- */

    /** Resets the modem, lets go of its path and, with callbacks to serve, waits for it to come back. */
    method Reset() returns (r: Answer<()>)
      requires Valid()
      modifies this, clock, system`calls, system`shown
      ensures Valid() && confirmed == old(confirmed) && addedCallbacks == old(addedCallbacks) && log == old(log)
      ensures requests == old(requests) || requests == old(requests) + [ResetModem]
      ensures r.Got? ==> requests != old(requests)
      ensures r.Got? && addedCallbacks == [] ==> modemPath.None? && addedWatchKeys == {} && !resubscribeRequired
      ensures r.Got? && addedCallbacks != [] ==> resubscribeRequired || !Needs()
    {
      var path :- GetModemInterfaces();
      requests := requests + [ResetModem];
      assert |requests| == |old(requests)| + 1;
      var e := system.Ask();
      if e.Some? { return Raised(Unavailable(e)); }
      r := AfterReset(path);
    }

    /** The modem was reset: its path is void, and with callbacks to serve it is waited for. */
    method AfterReset(path: Path) returns (r: Answer<()>)
      requires Valid()
      modifies this, clock, system`calls, system`shown
      ensures Valid() && Kept()
      ensures r.Got? && addedCallbacks == [] ==> modemPath.None? && addedWatchKeys == {} && !resubscribeRequired
      ensures r.Got? && addedCallbacks != [] ==> resubscribeRequired || !Needs()
    {
      modemPath := None;
      UnsubscribeAllAddedWatchers();
      resubscribeRequired := addedCallbacks != [];
      if resubscribeRequired {
        var reappeared, _, _ := WaitForResetReappear(path);
        if reappeared.Raised? { return Raised(reappeared.failure); }
      }
      return Got(());
    }

    /**
      Polls until the modem is back or the time is up. Between two polls lies a
      pause, no pause reaches beyond the deadline, and each poll asks for the
      modems once, and twice more per callback at most, so that the timeout
      bounds how often the bus is asked. The path chosen is a new one, unless
      the old one was missing from a listing before the one it was taken from.
      As long as no call on the bus fails, every poll sees a listing, the first
      path offered is taken, and the time is up only if none ever was.
     */
    method WaitForResetReappear(resetPath: Path)
      returns (r: Answer<Option<Path>>, ghost startedAt: real, ghost polls: nat)
      requires Valid() && resubscribeRequired
      modifies this, clock, system`calls, system`shown
      ensures escapes == old(escapes) + if r.Raised? then 1 else 0
      ensures Valid() && Kept()
      ensures polls > 0 ==> 2.0 * (polls - 1) as real < resetReappearTimeout
      ensures polls <= queries - old(queries) <= Most(polls, |addedCallbacks|)
      ensures polls - 1 <= |clock.sleeps| - |old(clock.sleeps)| <= polls
      ensures startedAt >= old(clock.now) && old(clock.sleeps) <= clock.sleeps
      ensures forall i :: |old(clock.sleeps)| <= i < |clock.sleeps| ==>
        Punctual(clock.sleeps[i], startedAt, resetReappearTimeout)
      ensures r.Got? && r.value.Some? && r.value.value == resetPath ==>
        SeenAgain(listings, |old(listings)|, resetPath)
      ensures r.Got? && r.value.Some? ==>
        SeenListed(listings, |old(listings)|, r.value.value) && resubscribeRequired == Needs()
      ensures r.Got? && r.value.None? ==> resubscribeRequired && clock.now >= startedAt + resetReappearTimeout
      ensures r.Raised? ==> resubscribeRequired && r.failure.RawDBusError?
      ensures Smooth() ==> r.Got? && |listings| == |old(listings)| + polls
      ensures Smooth() && r.value.None? ==> NothingOffered(listings, |old(listings)|, |listings|, resetPath)
      ensures Smooth() && r.value.Some? ==>
        && JustOffered(listings, |old(listings)|, resetPath, r.value.value)
        && modemPath == r.value && !resubscribeRequired
    {
      var started := clock.Read();
      startedAt := started;
      polls := 0;
      ghost var from := |listings|;
      ghost var most := resetReappearTimeout.Floor + 1;
      var disappeared := false;
      var now := clock.Read();
      while now - started < resetReappearTimeout
        invariant Valid() && Kept() && resubscribeRequired && escapes == old(escapes)
        invariant clock.now >= now >= started == startedAt
        invariant old(clock.sleeps) <= clock.sleeps && |clock.sleeps| == |old(clock.sleeps)| + polls
        invariant polls <= queries - old(queries) <= Most(polls, |addedCallbacks|)
        invariant forall i :: |old(clock.sleeps)| <= i < |clock.sleeps| ==>
          Punctual(clock.sleeps[i], startedAt, resetReappearTimeout)
        invariant disappeared ==> SeenMissing(listings, from, resetPath)
        invariant polls > 0 ==> RESET_REAPPEAR_POLL_INTERVAL * (polls - 1) as real < resetReappearTimeout
        invariant || now - started >= RESET_REAPPEAR_POLL_INTERVAL * polls as real
                  || now - started >= resetReappearTimeout
        invariant system.calls >= old(system.calls)
        invariant Smooth() ==> |listings| == from + polls && StillWaiting(listings, from, resetPath, disappeared)
        decreases most - polls
      {
        MostGrows(polls, |addedCallbacks|);
        polls := polls + 1;
        var poll: ResetPoll;
        poll, disappeared := PollNext(resetPath, disappeared, from);
        if poll.Reappeared? { return Got(Some(poll.path)), startedAt, polls; }
        if poll.Escaped? { return Raised(poll.failure), startedAt, polls; }
        var over;
        over, now := Pause(started);
        if over { break; }
      }
      return Got(None), startedAt, polls;
    }

    /** Sleeps until the next poll, but not beyond the deadline; once that has passed it is over. */
    method Pause(started: real) returns (over: bool, now: real)
      modifies clock
      ensures clock.now >= now >= old(clock.now)
      ensures over ==> clock.sleeps == old(clock.sleeps) && clock.now >= started + resetReappearTimeout
      ensures !over ==>
        && |clock.sleeps| == |old(clock.sleeps)| + 1 && old(clock.sleeps) <= clock.sleeps
        && var last := clock.sleeps[|old(clock.sleeps)|];
           && 0.0 < last.duration <= RESET_REAPPEAR_POLL_INTERVAL && old(clock.now) <= last.at
           && last.at + last.duration <= started + resetReappearTimeout
      ensures !over ==>
        now >= old(clock.now) + RESET_REAPPEAR_POLL_INTERVAL || now >= started + resetReappearTimeout
    {
      now := clock.Read();
      var remaining := resetReappearTimeout - (now - started);
      if remaining <= 0.0 { return true, now; }
      clock.AsyncSleep(if remaining < RESET_REAPPEAR_POLL_INTERVAL then remaining else RESET_REAPPEAR_POLL_INTERVAL);
      now := clock.Read();
      return false, now;
    }

    /** One poll more. */
    method PollNext(resetPath: Path, disappeared: bool, ghost from: nat) returns (poll: ResetPoll, missing: bool)
      requires Valid() && resubscribeRequired && from <= |listings|
      requires disappeared ==> SeenMissing(listings, from, resetPath)
      modifies this, system`calls, system`shown
      ensures escapes == old(escapes) + if poll.Escaped? then 1 else 0
      ensures Valid() && Kept()
      ensures missing ==> SeenMissing(listings, from, resetPath)
      ensures if poll.Reappeared? then resubscribeRequired == Needs() else resubscribeRequired
      ensures poll.Reappeared? ==> SeenListed(listings, from, poll.path)
      ensures poll.Reappeared? && poll.path == resetPath ==> SeenAgain(listings, from, resetPath)
      ensures old(queries) + 1 <= queries <= old(queries) + 1 + 2 * |addedCallbacks|
      ensures poll.Escaped? ==> poll.failure.RawDBusError?
      ensures system.calls >= old(system.calls)
      ensures Smooth() ==> |listings| == |old(listings)| + 1 && !poll.Escaped?
      ensures Smooth() && old(StillWaiting(listings, from, resetPath, disappeared)) ==>
        && (poll.NotYet? ==> StillWaiting(listings, from, resetPath, missing))
        && (poll.Reappeared? ==>
              && JustOffered(listings, from, resetPath, poll.path)
              && modemPath == Some(poll.path) && !resubscribeRequired)
    {
      poll, missing := PollAfterReset(resetPath, disappeared, from);
      if Smooth() && old(StillWaiting(listings, from, resetPath, disappeared)) {
        ghost var before := old(listings);
        assert listings == before + [listings[|before|]];
        OneMoreListing(before, from, listings[|before|], resetPath, disappeared);
      }
    }

    /**
      One look at the modem paths; a path that is offered is taken and
      subscribed on, unless a call on the bus fails meanwhile.
     */
    method PollAfterReset(resetPath: Path, disappeared: bool, ghost from: nat) returns (poll: ResetPoll, missing: bool)
      requires Valid() && resubscribeRequired && from <= |listings|
      requires disappeared ==> SeenMissing(listings, from, resetPath)
      modifies this, system`calls, system`shown
      ensures escapes == old(escapes) + if poll.Escaped? then 1 else 0
      ensures Valid() && Kept()
      ensures missing ==> SeenMissing(listings, from, resetPath)
      ensures if poll.Reappeared? then resubscribeRequired == Needs() else resubscribeRequired
      ensures poll.Reappeared? ==> SeenListed(listings, from, poll.path)
      ensures poll.Reappeared? && poll.path == resetPath ==> SeenAgain(listings, from, resetPath)
      ensures poll.Reappeared? ==>
        |listings| > |old(listings)| && Offered(listings[|old(listings)|], resetPath, disappeared) == Some(poll.path)
      ensures Smooth() ==>
        && |listings| == |old(listings)| + 1
        && var seen := listings[|old(listings)|];
           && poll == (match Offered(seen, resetPath, disappeared)
                       case Some(path) => Reappeared(path)
                       case None => NotYet)
           && (poll.Reappeared? ==> modemPath == Some(poll.path) && !resubscribeRequired)
           && (poll.NotYet? ==> modemPath.None? && missing == (disappeared || resetPath !in seen))
      ensures system.calls >= old(system.calls)
      ensures old(queries) + 1 <= queries <= old(queries) + 1 + 2 * |addedCallbacks|
      ensures poll.Escaped? ==> poll.failure.RawDBusError?
    {
      missing := disappeared;
      var listed := ListModemPaths();
      if listed.Raised? { return NotYet, missing; }
      var other := FirstOther(listed.value, resetPath);
      var path := resetPath;
      if other.Some? {
        path := other.value;
      } else if resetPath in listed.value {
        if !disappeared {
          modemPath := None;
          return NotYet, missing;
        }
      } else {
        assert listings[|listings| - 1] == listed.value;
        modemPath := None;
        return NotYet, true;
      }
      assert listings[|listings| - 1] == listed.value;
      assert SeenListed(listings, from, path);
      assert path == resetPath ==> SeenAgain(listings, from, path);
      modemPath := Some(path);
      var subscribed := SubscribeMissingAddedWatchers(path);
      if subscribed.Raised? {
        if !IsModemError(subscribed.failure) { return Escaped(subscribed.failure), missing; }
        return NotYet, missing || subscribed.failure == ModemNotFound;
      }
      return Reappeared(path), missing;
    }

    /* ---- operations ---- */

    /** After a normal return the callback counts as confirmed. */
    method WatchAdded(cb: CallbackKey) returns (r: Answer<()>)
      requires Valid()
      modifies this, system`calls, system`shown
      ensures Valid()
      ensures confirmed == if r.Got? then old(confirmed) + {cb} else old(confirmed)
      ensures log == old(log)
      ensures Calm(system.script) && old(bus).Bus? && old(modemPath).None? && !old(resubscribeRequired)
              && old(addedCallbacks) == [] && system.script.listing(old(system.shown)) != [] ==>
        var found := system.script.listing(old(system.shown))[0];
        && r.Got? && bus == old(bus) && system.shown == old(system.shown) + 1
        && State() == Watch(Some(found), [cb], old(addedWatchKeys) + {(found, cb)}, false)
    {
      if cb !in addedCallbacks {
        addedCallbacks := addedCallbacks + [cb];
      }
      var path :- EnsureModemPath();
      r := SubscribeAddedWatch(path, cb, true);
      if r.Got? {
        confirmed := confirmed + {cb};
      }
    }

    /** Every read of a modem property: signal, registration, state, operator, the whole record. */
    method ReadModem() returns (r: Answer<()>)
      requires Valid()
      modifies this, system`calls, system`shown
      ensures Valid() && Kept()
    {
      var _ :- GetModemInterfaces();
      var e := system.Ask();
      return if e.Some? then Raised(ReadFailed) else Got(());
    }

    method Enable() returns (r: Answer<()>)
      requires Valid()
      modifies this, system`calls, system`shown
      ensures Valid() && confirmed == old(confirmed) && log == old(log)
      ensures requests == old(requests) || requests == old(requests) + [EnableModem]
      ensures r.Got? ==> requests != old(requests)
    {
      var _ :- GetModemInterfaces();
      requests := requests + [EnableModem];
      assert |requests| == |old(requests)| + 1;
      var e := system.Ask();
      return if e.Some? then Raised(Unavailable(e)) else Got(());
    }

    /** The paths of the messages the modem holds. */
    method ListSmsPaths() returns (r: Answer<seq<Path>>)
      requires Valid()
      modifies this, system
      ensures Valid() && bus == old(bus) && confirmed == old(confirmed)
      ensures log == if r.Got? then old(log).(inboxes := old(log).inboxes + [r.value]) else old(log)
      ensures r.Got? ==> system.inboxes == old(system.inboxes) + [r.value]
    {
      var path :- EnsureModemPath();
      var _ :- GetMessagingInterface(path, true);
      var e := system.Ask();
      if e.Some? { return Raised(ReadFailed); }
      var paths := system.ShowMessages();
      log := log.(inboxes := log.inboxes + [paths]);
      return Got(paths);
    }

    /**
      The inbound messages the modem holds: it lists them once, asks about each,
      and reads the inbound ones. The first failure ends the reading.
     */
    method ListMessages() returns (r: Answer<seq<D.Sms>>)
      requires Valid()
      modifies this, system
      ensures Valid() && Kept()
      ensures r.Got? ==>
        && |system.inboxes| == |old(system.inboxes)| + 1 && |system.kinds| >= |old(system.kinds)|
        && var paths := system.inboxes[|old(system.inboxes)|];
           InboundRead(system.kinds[|old(system.kinds)|..], paths, |paths|, r.value)
    {
      var path :- EnsureModemPath();
      var _ :- GetMessagingInterface(path, true);
      var e := system.Ask();
      if e.Some? { return Raised(ReadFailed); }
      var paths := system.ShowMessages();
      r := ReadInbound(paths);
    }

    /** Asks about each message, and reads the inbound ones. */
    method ReadInbound(paths: seq<Path>) returns (r: Answer<seq<D.Sms>>)
      requires Valid()
      modifies this, system`calls, system`shown, system`kinds
      ensures Valid() && Kept()
      ensures r.Got? ==>
        && |system.kinds| >= |old(system.kinds)|
        && InboundRead(system.kinds[|old(system.kinds)|..], paths, |paths|, r.value)
    {
      var messages: seq<D.Sms> := [];
      ghost var kinds: seq<Kind> := [];
      for i := 0 to |paths|
        invariant Valid() && Kept()
        invariant system.kinds == old(system.kinds) + kinds
        invariant InboundRead(kinds, paths, i, messages)
      {
        var message :- ReadIfInbound(paths[i]);
        OneMoreInbound(kinds, paths, i, messages, message);
        kinds := kinds + [Kind(paths[i], message.Some?)];
        if message.Some? {
          messages := messages + [message.value];
        }
      }
      assert system.kinds[|old(system.kinds)|..] == kinds;
      return Got(messages);
    }

    /** One message, None if it is outgoing. */
    method ReadIfInbound(sms: Path) returns (r: Answer<Option<D.Sms>>)
      requires Valid()
      modifies this, system`calls, system`shown, system`kinds
      ensures Valid() && Kept()
      ensures r.Got? ==> system.kinds == old(system.kinds) + [Kind(sms, r.value.Some?)]
      ensures r.Got? && r.value.Some? ==> r.value.value.path == sms
    {
      var _ :- GetProxyObject(sms, false);
      var _ :- GetProxyInterface();
      var inbound :- ReadPduType(sms);
      if !inbound { return Got(None); }
      var text :- ReadText();
      var message :- ReadRest(sms, text);
      return Got(Some(message));
    }

    /** Whether a message is inbound. */
    method ReadPduType(sms: Path) returns (r: Answer<bool>)
      modifies system`calls, system`kinds
      ensures r.Raised? ==> r.failure == ReadFailed && system.kinds == old(system.kinds)
      ensures r.Got? ==> system.kinds == old(system.kinds) + [Kind(sms, r.value)]
      ensures system.calls == old(system.calls) + 1 && (system.Smooth() <==> r.Got?)
    {
      var e := system.Ask();
      if e.Some? { return Raised(ReadFailed); }
      var inbound := system.ShowKind(sms);
      return Got(inbound);
    }

    method ReadText() returns (r: Answer<string>)
      modifies system`calls
      ensures system.calls == old(system.calls) + 1 && (system.Smooth() <==> r.Got?)
      ensures r.Raised? ==> r.failure == ReadFailed
    {
      var e := system.Ask();
      if e.Some? { return Raised(ReadFailed); }
      var text := SomeText();
      return Got(text);
    }

    /** Number and timestamp, beside the text; a missing timestamp property is no failure. */
    method ReadRest(sms: Path, text: string) returns (r: Answer<D.Sms>)
      modifies system`calls
      ensures system.calls >= old(system.calls) && (system.Smooth() ==> r.Got?)
      ensures r.Got? ==> r.value.path == sms && r.value.text == text
      ensures r.Raised? ==> r.failure == ReadFailed || r.failure.Unavailable?
    {
      var number :- ReadText();
      var timestamp: Option<D.Time> := *;
      var e := system.Ask();
      if e.Some? {
        if !e.value.UnknownProperty? { return Raised(Unavailable(e)); }
        timestamp := None;
      }
      return Got(D.Sms(sms, number, text, timestamp));
    }

    /** Asks the modem to delete a message; the request may get through and still be refused. */
    method DeleteMessage(sms: Path) returns (r: Answer<()>)
      requires Valid()
      modifies this, system`calls, system`shown
      ensures Valid() && bus == old(bus) && confirmed == old(confirmed)
      ensures
        || log == old(log)
        || log == old(log).(deletions := old(log).deletions +
             [Deletion(sms, |store.journal|, |old(log).readings|)])
      ensures r.Got? ==> log != old(log)
    {
      var path :- EnsureModemPath();
      var _ :- GetMessagingInterface(path, true);
      log := log.(deletions := log.deletions + [Deletion(sms, |store.journal|, |log.readings|)]);
      assert |log.deletions| == |old(log).deletions| + 1;
      var e := system.Ask();
      return if e.Some? then Raised(MessageDeleteFailed) else Got(());
    }

    /**
      One message by its path, None while its text is empty; subscriptions are
      not involved. A message that is gone is reported as missing, one that is
      not inbound as skipped.
     */
    method ReadMessage(sms: Path) returns (r: Answer<Option<D.Sms>>)
      requires Valid()
      modifies this`log, system`calls, system`kinds
      ensures Valid()
      ensures log == old(log).(readings := old(log).readings + [Reading(sms, r)])
      ensures ReadIs(sms, r)
      ensures r.Got? && r.value.Some? ==> r.value.value.path == sms
    {
      r := ReadOnce(sms);
      log := log.(readings := log.readings + [Reading(sms, r)]);
    }

    /** What a read comes to, by the calls on the bus and the kind of the message. */
    twostate predicate ReadIs(sms: Path, new r: Answer<Option<D.Sms>>)
      reads this, system
    {
      var first, second := system.script.failure(old(system.calls)), system.script.failure(old(system.calls) + 1);
      if bus.NoBus? then r == Raised(Unavailable(None)) && system.kinds == old(system.kinds)
      else if first == Some(UnknownObject) || (first == None && second == Some(UnknownObject)) then
        r == Raised(MessageReadMissing)
      else if first != None then r == Raised(Unavailable(first))
      else if second != None then r == Raised(Unavailable(second))
      else if system.kinds == old(system.kinds) + [Kind(sms, false)] then r == Raised(MessageReadSkipped)
      else if system.kinds == old(system.kinds) + [Kind(sms, true)] then
        && (r.Got? && r.value.Some? ==> r.value.value.path == sms && r.value.value.text != "")
        && (r.Raised? ==> r.failure == ReadFailed || r.failure.Unavailable?)
        && (system.Smooth() ==> r.Got?)
      else r == Raised(ReadFailed) && system.kinds == old(system.kinds)
    }

    method ReadOnce(sms: Path) returns (r: Answer<Option<D.Sms>>)
      modifies system`calls, system`kinds
      ensures ReadIs(sms, r)
    {
      assert |system.kinds + [Kind(sms, true)]| == |system.kinds| + 1;
      assert (system.kinds + [Kind(sms, true)])[|system.kinds|] != (system.kinds + [Kind(sms, false)])[|system.kinds|];
      var gone := ReachMessage();
      if gone.Some? { return Raised(AsMessageFailure(gone.value)); }
      var inbound :- ReadPduType(sms);
      if !inbound { return Raised(MessageReadSkipped); }
      var text :- ReadText();
      if text == "" { return Got(None); }
      var message :- ReadRest(sms, text);
      return Got(Some(message));
    }

    /** The object of a message and its interface. */
    method ReachMessage() returns (failure: Option<Failure>)
      modifies system`calls
      ensures bus.NoBus? ==> failure == Some(Unavailable(None))
      ensures bus.Bus? ==>
        var first, second := system.script.failure(old(system.calls)), system.script.failure(old(system.calls) + 1);
        && failure == (if first != None then Some(Unavailable(first))
                       else if second != None then Some(Unavailable(second)) else None)
        && system.calls == old(system.calls) + if first != None then 1 else 2
    {
      if bus.NoBus? { return Some(Unavailable(None)); }
      var e := system.Ask();
      if e.Some? { return Some(Unavailable(e)); }
      var interface := GetProxyInterface();
      return interface.Failed();
    }

    /** One call after another, whatever each of them comes to. */
    method Session(calls: seq<ClientCall>)
      requires Valid()
      modifies this, clock, system
      ensures Valid()
    {
      for i := 0 to |calls|
        invariant Valid()
      {
        Perform(calls[i]);
      }
    }

    method Perform(call: ClientCall)
      requires Valid()
      modifies this, clock, system
      ensures Valid()
    {
      match call
      case ConnectCall => var _ := Connect();
      case DisconnectCall => Disconnect();
      case WatchAddedCall(cb) => var _ := WatchAdded(cb);
      case ReadModemCall => var _ := ReadModem();
      case EnableCall => var _ := Enable();
      case ResetCall => var _ := Reset();
      case ListSmsPathsCall => var _ := ListSmsPaths();
      case ListMessagesCall => var _ := ListMessages();
      case ReadMessageCall(sms) => var _ := ReadMessage(sms);
      case DeleteMessageCall(sms) => var _ := DeleteMessage(sms);
      case ConnectionLoss => LoseConnection();
    }
  }

  /**
    A client on a bus without any failure: it watches for messages, then the
    modem re-enumerates and someone calls find_modem. The callback is left on
    the old path, and nothing says that it must be subscribed again.
   */
  method FindModemStrandsACallback(clock: MonotonicClock, timeout: real, ghost store: StateDirectory.StateDir)
    returns (client: ModemManagerClient)
    ensures fresh(client) && client.Consistent() && client.confirmed == {1}
    ensures !client.Valid() && client.Needs() && !client.resubscribeRequired
  {
    var system := new SystemBus(Script(n => None, n => if n == 0 then ["Modem/0"] else ["Modem/1"]));
    client := new ModemManagerClient(system, clock, timeout, store);
    var connected := client.Connect();
    var watched := client.WatchAdded(1);
    assert client.State() == Watch(Some("Modem/0"), [1], {("Modem/0", 1)}, false);
    var found := client.FindModem();
    assert found == Got("Modem/1") && "Modem/1" != "Modem/0";
    assert 1 in client.addedCallbacks && ("Modem/1", 1) !in client.addedWatchKeys;
    assert !Subscribed(client.State(), 1) && 1 in client.confirmed;
  }

  /** The public calls other than find_modem, and the loss of the bus. */
  datatype ClientCall =
    | ConnectCall | DisconnectCall | WatchAddedCall(cb: CallbackKey) | ReadModemCall | EnableCall | ResetCall
    | ListSmsPathsCall | ListMessagesCall | ReadMessageCall(sms: Path) | DeleteMessageCall(sms: Path) | ConnectionLoss

  /** A message object that is gone is reported as missing. */
  function AsMessageFailure(f: Failure): Failure {
    if f == Unavailable(Some(UnknownObject)) then MessageReadMissing else f
  }
}
