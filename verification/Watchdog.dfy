/**
  The modem watchdog: counters over the poll history decide when the modem is
  enabled or reset, and cooldowns keep enable attempts apart.
 */
module ModemWatch {
  import opened Prelude
  import opened Durable
  import opened Clocks

  datatype Registration =
    | UNKNOWN | IDLE | SEARCHING | DENIED | HOME | ROAMING | HOME_SMS_ONLY | ROAMING_SMS_ONLY
    | EMERGENCY_ONLY | HOME_CSFB_NOT_PREFERRED | ROAMING_CSFB_NOT_PREFERRED | ATTACHED_RLOS

  const MINUTE: Time := 60_000_000
  const ENABLE_RECOVERABLE_MODEM_STATES: set<string> := {"disabled", "locked", "failed"}
  const INVALID_TRANSITION_FRAGMENT := "Invalid transition"

  datatype Reading = Reading(percent: nat, recent: bool, registration: Registration, modemState: string)

  /** One poll of the past: a read of the modem failed, or all went through and the watchdog acted or not. */
  datatype Poll = Unread | Read(reading: Reading, at: Time, triggered: bool)

  datatype EnableAttempt = EnableAttempt(at: Time, frozen: bool)

  /** A call of the modem client: it returns, raises an error of its own, or lets another exception escape. */
  datatype Call<+T> = Done(value: T) | Refused(text: string) | Escaped

  /** What the modem would answer in one poll, should it be asked. */
  datatype Answers = Answers(reading: Call<Reading>, enable: Call<()>, reset: Call<()>)

  datatype Action = Nothing | EnableDeferred | EnableTried(attempt: EnableAttempt) | ResetTried

  predicate BadRegistration(r: Registration) {
    r == DENIED || r == SEARCHING || r == UNKNOWN
  }

  predicate Frozen(enable: Call<()>) {
    enable.Refused? && IsInvalidTransition(enable.text)
  }

  /** The error of the call speaks of an invalid transition somewhere. */
  predicate ReportsFreeze(enable: Call<()>) {
    enable.Refused? && exists i | 0 <= i <= |enable.text| :: FreezeAt(enable.text, i)
  }

  predicate FreezeAt(text: string, i: nat) {
    i + 18 <= |text| && text[i..i + 18] == "Invalid transition"
  }

  lemma FrozenIsReported(enable: Call<()>)
    ensures Frozen(enable) <==> ReportsFreeze(enable)
  {
    if enable.Refused? {
      var text := enable.text;
      forall i: nat | i <= |text| ensures INVALID_TRANSITION_FRAGMENT <= text[i..] <==> FreezeAt(text, i) {
        assert |INVALID_TRANSITION_FRAGMENT| == 18;
        assert i + 18 <= |text| ==> text[i..][..18] == text[i..i + 18];
      }
    }
  }

  /** An exception that nobody catches ends the watchdog. */
  predicate Ends(a: Answers, action: Action) {
    a.reading.Escaped? || (action.EnableTried? && a.enable.Escaped?) || (action.ResetTried? && a.reset.Escaped?)
  }

  predicate IsInvalidTransition(error: string) {
    exists i | 0 <= i <= |error| :: INVALID_TRANSITION_FRAGMENT <= error[i..]
  }

  /* ---- reading the poll history ---- */

  predicate ZeroPoll(p: Poll) { p.Read? && p.reading.recent && p.reading.percent == 0 }

  predicate SignalPoll(p: Poll) { p.Read? && p.reading.recent && p.reading.percent != 0 }

  predicate BadPoll(p: Poll) {
    p.Read? && (p.reading.registration.DENIED? || p.reading.registration.SEARCHING? || p.reading.registration.UNKNOWN?)
  }

  predicate GoodPoll(p: Poll) { p.Read? && !BadPoll(p) }

  predicate Triggered(p: Poll) { p.Read? && p.triggered }

  /** A recent reading without signal, among the polls numbered from `from` up to but not including `until`. */
  ghost function ZeroesIn(h: seq<Poll>, from: nat, until: nat): set<nat>
    requires until <= |h|
  {
    set i: nat | from <= i < until && ZeroPoll(h[i])
  }

  /** Polls from `c` on saw no signal and no trigger; the one before, if any, saw one of the two. */
  ghost predicate SignalCut(h: seq<Poll>, c: nat) {
    && c <= |h|
    && (c > 0 ==> SignalPoll(h[c - 1]) || Triggered(h[c - 1]))
    && (forall i :: c <= i < |h| ==> !SignalPoll(h[i]) && !Triggered(h[i]))
  }

  /** The same for good registration. */
  ghost predicate StretchCut(h: seq<Poll>, c: nat) {
    && c <= |h|
    && (c > 0 ==> GoodPoll(h[c - 1]) || Triggered(h[c - 1]))
    && (forall i :: c <= i < |h| ==> !GoodPoll(h[i]) && !Triggered(h[i]))
  }

  lemma CutsAreUnique(h: seq<Poll>, a: nat, b: nat)
    ensures SignalCut(h, a) && SignalCut(h, b) ==> a == b
    ensures StretchCut(h, a) && StretchCut(h, b) ==> a == b
  {
    assert a < b <= |h| ==> a <= b - 1 < |h|;
    assert b < a <= |h| ==> b <= a - 1 < |h|;
  }

  /** `since` is the time of the first bad poll of the current unbroken bad stretch, None outside of one. */
  ghost predicate IsBadSince(h: seq<Poll>, c: nat, since: Option<Time>)
    requires c <= |h|
  {
    match since
    case None => forall i :: c <= i < |h| ==> !BadPoll(h[i])
    case Some(t) =>
      exists f: nat :: FirstBad(h, c, f) && h[f].at == t
  }

  ghost predicate FirstBad(h: seq<Poll>, c: nat, f: nat) {
    c <= f < |h| && BadPoll(h[f]) && forall i :: c <= i < f ==> !BadPoll(h[i])
  }

  ghost predicate ZeroesTallied(h: seq<Poll>, n: nat) {
    exists c: nat :: SignalCut(h, c) && n == |ZeroesIn(h, c, |h|)|
  }

  ghost predicate StretchTallied(h: seq<Poll>, since: Option<Time>) {
    exists c: nat :: StretchCut(h, c) && IsBadSince(h, c, since)
  }

  /* ---- when a trigger is due ---- */

  /** Since the last signal or trigger before poll `j`, enough recent readings without signal, `j` included. */
  ghost predicate ZeroEarned(h: seq<Poll>, j: nat, threshold: int)
    requires j < |h|
  {
    exists c: nat :: c <= j + 1 && NoSignal(h, c, j) && |ZeroesIn(h, c, j + 1)| >= threshold
  }

  ghost predicate NoSignal(h: seq<Poll>, c: nat, j: nat)
    requires j < |h|
  {
    forall i :: c <= i <= j ==> !SignalPoll(h[i]) && (i < j ==> !Triggered(h[i]))
  }

  /** An unbroken, untriggered stretch of bad polls reaches from some poll to `j` and lasts `span`. */
  ghost predicate BadEarned(h: seq<Poll>, j: nat, span: Time)
    requires j < |h|
  {
    exists c: nat :: c <= j && BadStretch(h, c, j) && h[j].at - h[c].at >= span
  }

  ghost predicate BadStretch(h: seq<Poll>, c: nat, j: nat)
    requires c <= j < |h|
  {
    && BadPoll(h[c]) && BadPoll(h[j])
    && forall i :: c <= i <= j ==> !GoodPoll(h[i]) && (i < j ==> !Triggered(h[i]))
  }

  /** Every poll that went through triggered exactly when one of the two thresholds was earned. */
  ghost predicate Decided(h: seq<Poll>, threshold: int, span: Time) {
    forall j: nat :: j < |h| && h[j].Read? ==>
      (h[j].triggered <==> ZeroEarned(h, j, threshold) || BadEarned(h, j, span))
  }

  ghost predicate InOrder(h: seq<Poll>, now: Time) {
    && (forall i, j :: 0 <= i < j < |h| && h[i].Read? && h[j].Read? ==> h[i].at <= h[j].at)
    && (forall i :: 0 <= i < |h| && h[i].Read? ==> h[i].at <= now)
  }

  /* ---- cooldowns ---- */

  ghost predicate Spaced(enables: seq<EnableAttempt>, cooldown: Time, frozenCooldown: Time) {
    forall i :: 0 <= i < |enables| - 1 ==>
      enables[i + 1].at >= enables[i].at + CooldownAfter(enables[i], cooldown, frozenCooldown)
  }

  function CooldownAfter(a: EnableAttempt, cooldown: Time, frozenCooldown: Time): Time {
    if a.frozen then frozenCooldown else cooldown
  }

  class ModemWatchdog {
    const clock: Clock
    const signalZeroThreshold: int
    const badStateMinutes: int
    const enableCooldown: Time
    const enableFrozenCooldown: Time
    var consecutiveZeroSignalPolls: nat
    var badStateSince: Option<Time>
    var lastEnableAttemptAt: Option<Time>

    ghost var polls: seq<Poll>
    ghost var enables: seq<EnableAttempt>

    /** The counters are what the history says, and history is what the thresholds say. */
    ghost predicate Valid()
      reads this, clock
    {
      CountersOk() && HistoryOk()
    }

    function Span(): Time
    {
      badStateMinutes * MINUTE
    }

    ghost predicate CountersOk()
      reads this
    {
      ZeroesTallied(polls, consecutiveZeroSignalPolls) && StretchTallied(polls, badStateSince)
    }

    ghost predicate EnablesOk()
      reads this
    {
      && Spaced(enables, enableCooldown, enableFrozenCooldown)
      && (lastEnableAttemptAt.None? <==> enables == [])
      && (enables != [] ==> lastEnableAttemptAt.value + enableCooldown == NextEnable())
    }

    /** The earliest time of the next enable attempt. */
    ghost function NextEnable(): Time
      requires enables != []
      reads this
    {
      var last := enables[|enables| - 1];
      last.at + CooldownAfter(last, enableCooldown, enableFrozenCooldown)
    }

    constructor (clock: Clock, signalZeroThreshold: int, badStateMinutes: int,
                 enableCooldown: Time, enableFrozenCooldown: Time)
      ensures Valid() && polls == [] && enables == []
      ensures this.clock == clock
      ensures this.signalZeroThreshold == signalZeroThreshold && this.badStateMinutes == badStateMinutes
      ensures this.enableCooldown == enableCooldown && this.enableFrozenCooldown == enableFrozenCooldown
    {
      this.clock := clock;
      this.signalZeroThreshold := signalZeroThreshold;
      this.badStateMinutes := badStateMinutes;
      this.enableCooldown := enableCooldown;
      this.enableFrozenCooldown := enableFrozenCooldown;
      consecutiveZeroSignalPolls := 0;
      badStateSince := None;
      lastEnableAttemptAt := None;
      polls := [];
      enables := [];
      new;
      assert SignalCut(polls, 0) && ZeroesIn(polls, 0, 0) == {};
      assert StretchCut(polls, 0) && IsBadSince(polls, 0, None);
    }

    /** What holds even when an exception has ended the watchdog. */
    ghost predicate HistoryOk()
      reads this, clock
    {
      && EnablesOk() && InOrder(polls, clock.now)
      && Decided(polls, signalZeroThreshold, badStateMinutes * 60_000_000)
    }

    /** Polls until an exception escapes or the watchdog is stopped. */
    method Run(polling: seq<Answers>) returns (escaped: bool)
      requires Valid()
      modifies this, clock
      ensures HistoryOk() && old(polls) <= polls && old(enables) <= enables
      ensures !escaped ==> Valid()
      ensures RecordOf(polling, polls[|old(polls)|..])
      ensures !escaped ==> |polls| == |old(polls)| + |polling|
      ensures ActsRightly(polls, signalZeroThreshold, badStateMinutes)
    {
      escaped := false;
      var i := 0;
      while i < |polling| && !escaped
        invariant 0 <= i <= |polling|
        invariant HistoryOk() && old(polls) <= polls && old(enables) <= enables
        invariant !escaped ==> Valid()
        invariant RecordOf(polling[..i], polls[|old(polls)|..])
        invariant !escaped ==> |polls| == |old(polls)| + i
      {
        ghost var before := polls;
        var _, out := PollOnce(polling[i]);
        escaped := out;
        RecordGrows(polling, i, before, polls, |old(polls)|);
        i := i + 1;
      }
      HistoryDecides(polls, signalZeroThreshold, badStateMinutes);
    }

    /**
      One poll. A failed read of the modem leaves everything as it was. A
      trigger starts the counting anew, whatever came of it, except that an
      exception that escapes leaves the counters where they were and ends the
      watchdog.
     */
    method PollOnce(a: Answers) returns (action: Action, escaped: bool)
      requires Valid()
      modifies this, clock
      ensures HistoryOk() && (!escaped ==> Valid()) && (escaped <==> Ends(a, action))
      ensures old(polls) <= polls && clock.now >= old(clock.now)
      ensures |polls| <= |old(polls)| + 1
      ensures !a.reading.Done? ==>
        && action == Nothing && polls == old(polls) + (if a.reading.Refused? then [Unread] else [])
        && consecutiveZeroSignalPolls == old(consecutiveZeroSignalPolls) && badStateSince == old(badStateSince)
      ensures a.reading.Done? ==>
        && |polls| == |old(polls)| + 1
        && var poll := polls[|old(polls)|];
           && poll.Read? && poll.reading == a.reading.value && (poll.triggered <==> action != Nothing)
           && old(clock.now) <= poll.at <= clock.now
           && (action != Nothing ==>
                 && consecutiveZeroSignalPolls ==
                      (if escaped then ZeroCounter(old(consecutiveZeroSignalPolls), poll.reading) else 0)
                 && badStateSince == (if escaped then BadSince(old(badStateSince), poll.reading, poll.at) else None))
      ensures action != Nothing ==>
        (action.ResetTried? <==> a.reading.value.modemState !in {"disabled", "locked", "failed"})
      ensures action.EnableTried? ==>
        enables == old(enables) + [action.attempt] && (action.attempt.frozen <==> ReportsFreeze(a.enable))
      ensures !action.EnableTried? ==> enables == old(enables)
      ensures action.EnableDeferred? ==> enables != [] && old(clock.now) < NextEnable()
    {
      if a.reading.Escaped? {
        return Nothing, true;
      }
      if a.reading.Refused? {
        SkipUnread();
        return Nothing, false;
      }
      var triggered := Tally(a.reading.value);
      if !triggered {
        return Nothing, false;
      }
      ghost var at := clock.now;
      action, escaped := Act(a.reading.value.modemState, a.enable, a.reset);
      OrderedLater(polls, at, clock.now);
    }

    /** A poll that could not be read leaves the counters alone. */
    method SkipUnread()
      requires Valid()
      modifies this`polls
      ensures Valid() && polls == old(polls) + [Unread]
    {
      UnreadKeepsTallies(polls, consecutiveZeroSignalPolls, badStateSince);
      UnreadKeepsOrder(polls, clock.now);
      DecidedAfter(polls, Unread, signalZeroThreshold, Span());
      polls := polls + [Unread];
    }

    /** Enables or resets the modem, and starts counting anew unless an exception escapes. */
    method Act(modemState: string, enable: Call<()>, reset: Call<()>) returns (action: Action, escaped: bool)
      requires EnablesOk()
      modifies this`consecutiveZeroSignalPolls, this`badStateSince, this`lastEnableAttemptAt, this`enables, clock
      ensures EnablesOk() && clock.now >= old(clock.now)
      ensures escaped <==> (action.EnableTried? && enable.Escaped?) || (action.ResetTried? && reset.Escaped?)
      ensures if escaped then
          consecutiveZeroSignalPolls == old(consecutiveZeroSignalPolls) && badStateSince == old(badStateSince)
        else consecutiveZeroSignalPolls == 0 && badStateSince == None
      ensures action != Nothing && (action.ResetTried? <==> modemState !in {"disabled", "locked", "failed"})
      ensures action.EnableTried? ==>
        enables == old(enables) + [action.attempt] && (action.attempt.frozen <==> ReportsFreeze(enable))
      ensures !action.EnableTried? ==> enables == old(enables)
      ensures action.EnableDeferred? ==> enables != [] && old(clock.now) < NextEnable()
    {
      if modemState in ENABLE_RECOVERABLE_MODEM_STATES {
        action := TryEnable(enable);
        escaped := action.EnableTried? && enable.Escaped?;
      } else {
        action := ResetTried;
        escaped := reset.Escaped?;
      }
      if escaped { return; }
      consecutiveZeroSignalPolls := 0;
      badStateSince := None;
    }

    /** Updates the counters for a poll that was read, and decides whether to act. */
    method Tally(reading: Reading) returns (triggered: bool)
      requires Valid()
      modifies this`consecutiveZeroSignalPolls, this`badStateSince, this`polls, clock
      ensures clock.now >= old(clock.now)
      ensures polls == old(polls) + [Read(reading, clock.now, triggered)]
      ensures InOrder(polls, clock.now) && Decided(polls, signalZeroThreshold, badStateMinutes * 60_000_000)
      ensures ZeroesTallied(polls, if triggered then 0 else consecutiveZeroSignalPolls)
      ensures StretchTallied(polls, if triggered then None else badStateSince)
      ensures consecutiveZeroSignalPolls == ZeroCounter(old(consecutiveZeroSignalPolls), reading)
      ensures badStateSince == BadSince(old(badStateSince), reading, clock.now)
    {
      ghost var n, since := consecutiveZeroSignalPolls, badStateSince;
      if !reading.recent {
        // a stale reading says nothing about the signal
      } else if reading.percent == 0 {
        consecutiveZeroSignalPolls := consecutiveZeroSignalPolls + 1;
      } else {
        consecutiveZeroSignalPolls := 0;
      }
      var now := clock.Read();
      if BadRegistration(reading.registration) {
        if badStateSince == None {
          badStateSince := Some(now);
        }
      } else {
        badStateSince := None;
      }
      var zeroSignalTriggered := consecutiveZeroSignalPolls >= signalZeroThreshold;
      var badStateTriggered := badStateSince.Some? && now - badStateSince.value >= Span();
      triggered := zeroSignalTriggered || badStateTriggered;
      AfterRead(polls, Read(reading, now, triggered), n, since, signalZeroThreshold, Span());
      polls := polls + [Read(reading, now, triggered)];
    }

    /** Tries to enable the modem unless the last attempt is too recent. */
    method TryEnable(enable: Call<()>) returns (action: Action)
      requires EnablesOk()
      modifies this`lastEnableAttemptAt, this`enables, clock
      ensures EnablesOk() && clock.now >= old(clock.now)
      ensures action.EnableDeferred? || action.EnableTried?
      ensures action.EnableDeferred? <==> old(enables) != [] && clock.now < old(NextEnable())
      ensures action.EnableDeferred? ==> enables == old(enables)
      ensures action.EnableTried? ==>
        && enables == old(enables) + [action.attempt]
        && action.attempt == EnableAttempt(clock.now, ReportsFreeze(enable))
    {
      var now := clock.Read();
      if EnableCooldownRemaining(now) > 0 { return EnableDeferred; }
      lastEnableAttemptAt := Some(now);
      var frozen := Frozen(enable);
      FrozenIsReported(enable);
      if frozen {
        DeferNextEnableAttempt(now, enableFrozenCooldown);
      }
      var attempt := EnableAttempt(now, frozen);
      enables := enables + [attempt];
      return EnableTried(attempt);
    }

    function EnableCooldownRemaining(now: Time): Time
      reads this
    {
      if lastEnableAttemptAt.None? then 0 else lastEnableAttemptAt.value + enableCooldown - now
    }

    method DeferNextEnableAttempt(now: Time, cooldown: Time)
      modifies this`lastEnableAttemptAt
      ensures lastEnableAttemptAt == Some(now + cooldown - enableCooldown)
    {
      lastEnableAttemptAt := Some(now + cooldown - enableCooldown);
    }
  }

  /* ---- one more poll ---- */

  lemma EarnedStays(h: seq<Poll>, p: Poll, j: nat, threshold: int, span: Time)
    requires j < |h|
    ensures ZeroEarned(h + [p], j, threshold) <==> ZeroEarned(h, j, threshold)
    ensures BadEarned(h + [p], j, span) <==> BadEarned(h, j, span)
  {
    var g := h + [p];
    assert forall i :: 0 <= i <= j ==> g[i] == h[i];
    forall c: nat | c <= j + 1
      ensures NoSignal(g, c, j) <==> NoSignal(h, c, j)
      ensures ZeroesIn(g, c, j + 1) == ZeroesIn(h, c, j + 1)
      ensures c <= j ==> (BadStretch(g, c, j) <==> BadStretch(h, c, j))
    {
    }
  }

  lemma DecidedAfter(h: seq<Poll>, p: Poll, threshold: int, span: Time)
    requires Decided(h, threshold, span)
    requires p.Read? ==> (p.triggered <==> ZeroEarned(h + [p], |h|, threshold) || BadEarned(h + [p], |h|, span))
    ensures Decided(h + [p], threshold, span)
  {
    forall j: nat | j < |h| && h[j].Read?
      ensures h[j].triggered <==> ZeroEarned(h + [p], j, threshold) || BadEarned(h + [p], j, span)
    {
      EarnedStays(h, p, j, threshold, span);
    }
  }

  lemma UnreadKeepsTallies(h: seq<Poll>, n: nat, since: Option<Time>)
    requires ZeroesTallied(h, n) && StretchTallied(h, since)
    ensures ZeroesTallied(h + [Unread], n) && StretchTallied(h + [Unread], since)
  {
    UnreadKeepsZeroes(h, n);
    var b: nat :| StretchCut(h, b) && IsBadSince(h, b, since);
    assert StretchCut(h + [Unread], b);
    SameStart(h, Unread, b, since);
  }

  lemma UnreadKeepsOrder(h: seq<Poll>, now: Time)
    requires InOrder(h, now)
    ensures InOrder(h + [Unread], now)
  {
  }

  lemma UnreadKeepsZeroes(h: seq<Poll>, n: nat)
    requires ZeroesTallied(h, n)
    ensures ZeroesTallied(h + [Unread], n)
  {
    var c: nat :| SignalCut(h, c) && n == |ZeroesIn(h, c, |h|)|;
    ZeroesGrow(h, Unread, c);
    assert SignalCut(h + [Unread], c);
  }

  lemma OrderedLater(h: seq<Poll>, now: Time, later: Time)
    requires InOrder(h, now) && now <= later
    ensures InOrder(h, later)
  {
  }

  /** Unless it is the first bad poll, one more poll leaves the start of the stretch alone. */
  lemma SameStart(h: seq<Poll>, p: Poll, c: nat, since: Option<Time>)
    requires c <= |h| && IsBadSince(h, c, since) && (since.Some? || !BadPoll(p))
    ensures IsBadSince(h + [p], c, since)
  {
    if since.Some? {
      var f: nat :| FirstBad(h, c, f) && h[f].at == since.value;
      assert FirstBad(h + [p], c, f);
    }
  }

  /** The counters after a poll that was read, and the decision they lead to, are what the history says. */
  lemma AfterRead(h: seq<Poll>, p: Poll, n: nat, since: Option<Time>, threshold: int, span: Time)
    requires p.Read? && InOrder(h, p.at) && Decided(h, threshold, span)
    requires ZeroesTallied(h, n) && StretchTallied(h, since)
    requires p.triggered <==>
      || ZeroCounter(n, p.reading) >= threshold
      || (BadSince(since, p.reading, p.at).Some? && p.at - BadSince(since, p.reading, p.at).value >= span)
    ensures var g := h + [p];
      && InOrder(g, p.at) && Decided(g, threshold, span)
      && ZeroesTallied(g, if p.triggered then 0 else ZeroCounter(n, p.reading))
      && StretchTallied(g, if p.triggered then None else BadSince(since, p.reading, p.at))
  {
    SignalAfter(h, p, n, threshold);
    StretchDecides(h, p, since, span);
    StretchAfter(h, p, since);
    DecidedAfter(h, p, threshold, span);
  }

  function ZeroCounter(n: nat, r: Reading): nat {
    if !r.recent then n else if r.percent == 0 then n + 1 else 0
  }

  lemma ZeroesGrow(h: seq<Poll>, p: Poll, c: nat)
    requires c <= |h|
    ensures |ZeroesIn(h + [p], c, |h| + 1)| == |ZeroesIn(h, c, |h|)| + if ZeroPoll(p) then 1 else 0
  {
    var old_, new_ := ZeroesIn(h, c, |h|), ZeroesIn(h + [p], c, |h| + 1);
    assert new_ == if ZeroPoll(p) then old_ + {|h|} else old_;
  }

  /** The counter after a poll that was read decides the zero-signal trigger. */
  lemma SignalAfter(h: seq<Poll>, p: Poll, n: nat, threshold: int)
    requires p.Read? && ZeroesTallied(h, n)
    ensures ZeroEarned(h + [p], |h|, threshold) <==> ZeroCounter(n, p.reading) >= threshold
    ensures ZeroesTallied(h + [p], if p.triggered then 0 else ZeroCounter(n, p.reading))
  {
    var g := h + [p];
    var c: nat :| SignalCut(h, c) && n == |ZeroesIn(h, c, |h|)|;
    ZeroesGrow(h, p, c);
    assert ZeroesIn(g, |h| + 1, |h| + 1) == {};
    assert NoSignal(g, if SignalPoll(p) then |h| + 1 else c, |h|);
    assert c > 0 ==> g[c - 1] == h[c - 1];
    forall b: nat | b <= |h| + 1 && NoSignal(g, b, |h|)
      ensures |ZeroesIn(g, b, |h| + 1)| <= ZeroCounter(n, p.reading)
    {
      if SignalPoll(p) {
        assert g[|h|] == p;
        assert b == |h| + 1;
      } else {
        SubsetIsSmaller(ZeroesIn(g, b, |h| + 1), ZeroesIn(g, c, |h| + 1));
      }
    }
    assert SignalCut(g, if SignalPoll(p) || p.triggered then |h| + 1 else c);
  }

  lemma {:induction false} SubsetIsSmaller(a: set<nat>, b: set<nat>)
    requires a <= b
    ensures |a| <= |b|
  {
    assert b == a + (b - a);
  }

  function BadSince(since: Option<Time>, r: Reading, at: Time): Option<Time> {
    if !BadRegistration(r.registration) then None else if since.Some? then since else Some(at)
  }

  /** The start of the bad stretch decides the bad-state trigger. */
  lemma StretchDecides(h: seq<Poll>, p: Poll, since: Option<Time>, span: Time)
    requires p.Read? && InOrder(h, p.at) && StretchTallied(h, since)
    ensures var next := BadSince(since, p.reading, p.at);
      BadEarned(h + [p], |h|, span) <==> next.Some? && p.at - next.value >= span
  {
    var g := h + [p];
    var c: nat :| StretchCut(h, c) && IsBadSince(h, c, since);
    var next := BadSince(since, p.reading, p.at);
    assert g[|h|] == p;
    assert c > 0 ==> g[c - 1] == h[c - 1];
    if BadPoll(p) {
      var f := FirstBadOf(h, p, c, since);
      assert BadStretch(g, f, |h|);
      forall b: nat | b <= |h| && BadStretch(g, b, |h|) ensures g[b].at >= next.value {
        assert c <= b;
        assert f <= b;
      }
    } else {
      assert forall b: nat :: b <= |h| ==> !BadStretch(g, b, |h|);
    }
  }

  /** The first bad poll of a stretch that ends with `p`. */
  lemma FirstBadOf(h: seq<Poll>, p: Poll, c: nat, since: Option<Time>) returns (f: nat)
    requires c <= |h| && IsBadSince(h, c, since) && BadPoll(p)
    ensures FirstBad(h + [p], c, f)
    ensures (h + [p])[f].at == BadSince(since, p.reading, p.at).value
  {
    if since.Some? {
      f :| FirstBad(h, c, f) && h[f].at == since.value;
    } else {
      f := |h|;
    }
  }

  lemma StretchAfter(h: seq<Poll>, p: Poll, since: Option<Time>)
    requires p.Read? && StretchTallied(h, since)
    ensures StretchTallied(h + [p], if p.triggered then None else BadSince(since, p.reading, p.at))
  {
    var g := h + [p];
    var c: nat :| StretchCut(h, c) && IsBadSince(h, c, since);
    if GoodPoll(p) || p.triggered {
      assert StretchCut(g, |h| + 1) && IsBadSince(g, |h| + 1, None);
    } else {
      assert StretchCut(g, c);
      var f := FirstBadOf(h, p, c, since);
    }
  }

  /* ---- what the history promises ---- */

  /**
    Every trigger needs a full new threshold: counting only the polls after an
    earlier trigger, there are enough recent zero readings, or a bad stretch
    that lasted long enough.
   */
  lemma TriggersAreEarnedAnew(h: seq<Poll>, threshold: int, span: Time, i: nat, j: nat)
    requires Decided(h, threshold, span) && i < j < |h| && Triggered(h[i]) && Triggered(h[j])
    ensures |ZeroesIn(h, i + 1, j + 1)| >= threshold
         || exists c: nat :: i < c <= j && BadStretch(h, c, j) && h[j].at - h[c].at >= span
  {
    if ZeroEarned(h, j, threshold) {
      var c: nat :| c <= j + 1 && NoSignal(h, c, j) && |ZeroesIn(h, c, j + 1)| >= threshold;
      assert c > i;
      SubsetIsSmaller(ZeroesIn(h, c, j + 1), ZeroesIn(h, i + 1, j + 1));
    } else {
      var c: nat :| c <= j && BadStretch(h, c, j) && h[j].at - h[c].at >= span;
      assert c > i;
    }
  }

  /** What was read in each poll, in order; a poll that an exception cut short may be missing at the end. */
  ghost predicate RecordOf(polling: seq<Answers>, polls: seq<Poll>) {
    |polls| <= |polling| && forall i :: 0 <= i < |polls| ==> Records(polling[i], polls[i])
  }

  predicate Records(a: Answers, p: Poll) {
    if p.Read? then a.reading == Done(p.reading) else a.reading.Refused?
  }

  /** Registered, with a recent reading of some signal. */
  predicate Healthy(p: Poll) {
    p.Read? && p.reading.recent && p.reading.percent > 0 &&
    !p.reading.registration.DENIED? && !p.reading.registration.SEARCHING? && !p.reading.registration.UNKNOWN?
  }

  /** Denied, searching or unknown from poll `i` to poll `j`, for that many minutes, and nothing was done before `j`. */
  ghost predicate StuckFor(h: seq<Poll>, i: nat, j: nat, minutes: int)
    requires i <= j < |h|
  {
    && h[i].Read? && h[j].Read? && h[j].at - h[i].at >= minutes * 60_000_000
    && forall k :: i <= k <= j && h[k].Read? ==>
         && (h[k].reading.registration.DENIED? || h[k].reading.registration.SEARCHING?
             || h[k].reading.registration.UNKNOWN?)
         && (k < j ==> !h[k].triggered)
  }

  /** Recent readings without signal from poll `i` to poll `j`, and nothing was done before `j`. */
  ghost predicate SilentFrom(h: seq<Poll>, i: nat, j: nat)
    requires i <= j < |h|
  {
    forall k :: i <= k <= j ==>
      h[k].Read? && h[k].reading.recent && h[k].reading.percent == 0 && (k < j ==> !h[k].triggered)
  }

  lemma RecordGrows(polling: seq<Answers>, i: nat, before: seq<Poll>, after: seq<Poll>, from: nat)
    requires i < |polling| && from <= |before| && before <= after && |after| <= |before| + 1
    requires RecordOf(polling[..i], before[from..])
    requires |after| > |before| ==> |before| == from + i && Records(polling[i], after[|before|])
    ensures RecordOf(polling[..i + 1], after[from..])
  {
    if |after| > |before| {
      assert after[from..] == before[from..] + [after[|before|]];
    } else {
      assert after == before;
    }
  }

  /**
    A modem that is registered and has signal is never touched; one that stays
    unregistered, or without signal, for long enough is acted upon.
   */
  ghost predicate ActsRightly(h: seq<Poll>, threshold: int, minutes: int) {
    && (threshold > 0 ==> forall i :: 0 <= i < |h| && Healthy(h[i]) ==> !Triggered(h[i]))
    && (forall i, j :: 0 <= i <= j < |h| && StuckFor(h, i, j, minutes) ==> Triggered(h[j]))
    && (forall i, j :: 0 <= i <= j < |h| && SilentFrom(h, i, j) && j + 1 - i >= threshold ==> Triggered(h[j]))
  }

  /** What the thresholds decide is right. */
  lemma HistoryDecides(h: seq<Poll>, threshold: int, minutes: int)
    requires Decided(h, threshold, minutes * 60_000_000)
    ensures ActsRightly(h, threshold, minutes)
  {
    if threshold > 0 {
      forall i | 0 <= i < |h| && Healthy(h[i]) ensures !Triggered(h[i]) {
        HealthyEarnsNothing(h, i, threshold, minutes * 60_000_000);
      }
    }
    forall i, j | 0 <= i <= j < |h| && StuckFor(h, i, j, minutes) ensures Triggered(h[j]) {
      assert BadStretch(h, i, j);
    }
    forall i, j | 0 <= i <= j < |h| && SilentFrom(h, i, j) && j + 1 - i >= threshold ensures Triggered(h[j]) {
      AllZeroes(h, i, j + 1);
      assert NoSignal(h, i, j);
    }
  }

  lemma HealthyEarnsNothing(h: seq<Poll>, j: nat, threshold: int, span: Time)
    requires j < |h| && Healthy(h[j]) && threshold > 0
    ensures !ZeroEarned(h, j, threshold) && !BadEarned(h, j, span)
  {
    forall c: nat | c <= j + 1 && NoSignal(h, c, j) ensures ZeroesIn(h, c, j + 1) == {} {
      assert c == j + 1;
    }
  }

  lemma {:induction false} AllZeroes(h: seq<Poll>, i: nat, n: nat)
    requires i <= n <= |h| && forall k :: i <= k < n ==> ZeroPoll(h[k])
    ensures |ZeroesIn(h, i, n)| == n - i
    decreases n
  {
    if i < n {
      AllZeroes(h, i, n - 1);
      assert ZeroesIn(h, i, n) == ZeroesIn(h, i, n - 1) + {n - 1};
    } else {
      assert ZeroesIn(h, i, n) == {};
    }
  }

  /** Any two enable attempts, consecutive or not, are at least the first one's cooldown apart. */
  lemma {:induction false} EnablesKeepTheirDistance(enables: seq<EnableAttempt>, cooldown: Time, frozenCooldown: Time,
                                                    i: nat, j: nat)
    requires Spaced(enables, cooldown, frozenCooldown) && i < j < |enables|
    requires cooldown >= 0 && frozenCooldown >= 0
    ensures enables[j].at >= enables[i].at + CooldownAfter(enables[i], cooldown, frozenCooldown)
    decreases j
  {
    if i + 1 < j {
      EnablesKeepTheirDistance(enables, cooldown, frozenCooldown, i, j - 1);
      assert enables[j - 1 + 1].at >= enables[j - 1].at + CooldownAfter(enables[j - 1], cooldown, frozenCooldown);
    }
  }
}
