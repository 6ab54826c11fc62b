/**
  Sending one message: a bounded loop over attempts, against a server whose
  reply to each attempt is arbitrary.
 */
module TelegramSending {
  import opened Prelude

  /** Durations in microseconds. */
  type Duration = int

  const SECOND: Duration := 1_000_000
  const MAX_RETRY_DELAY: Duration := 30 * SECOND
  const RETRYABLE_HTTP_STATUS := 500

  /** The parts of a JSON object body the client looks at. */
  datatype Payload = Payload(ok: bool, retryAfter: Option<Duration>)

  /** What one POST comes to; a body that is not a JSON object is None. */
  datatype Reply = TransportFailure | Response(status: int, payload: Option<Payload>)

  datatype Failure = AuthError | RateLimited(retryAfter: Duration) | TransportError | ApiError

  datatype Sending = Delivered | Failed(error: Failure)

  function RetryAfter(payload: Option<Payload>): Duration {
    if payload.Some? && payload.value.retryAfter.Some? && payload.value.retryAfter.value > 0 then
      payload.value.retryAfter.value
    else SECOND
  }

  function HandleReply(reply: Reply): Sending {
    match reply
    case TransportFailure => Failed(TransportError)
    case Response(status, payload) =>
      if status == 200 then
        match payload
        case None => Failed(TransportError)
        case Some(body) => if body.ok then Delivered else Failed(ApiError)
      else if status == 401 then Failed(AuthError)
      else if status == 429 then Failed(RateLimited(RetryAfter(payload)))
      else if status >= RETRYABLE_HTTP_STATUS then Failed(TransportError)
      else Failed(ApiError)
  }

  predicate Retryable(reply: Reply) {
    var s := HandleReply(reply);
    s.Failed? && (s.error.RateLimited? || s.error.TransportError?)
  }

  function Power2(n: nat): nat {
    if n == 0 then 1 else 2 * Power2(n - 1)
  }

  function RetryDelay(attempt: nat): Duration
    requires attempt >= 1
  {
    var d := Power2(attempt - 1) * SECOND;
    if d < MAX_RETRY_DELAY then d else MAX_RETRY_DELAY
  }

  function DelayAfter(reply: Reply, attempt: nat): Duration
    requires attempt >= 1 && Retryable(reply)
  {
    match HandleReply(reply).error
    case RateLimited(after) => after
    case _ => RetryDelay(attempt)
  }

  /* ---- what the replies mean ---- */

  /** HTTP 200 with a JSON body that says ok. */
  predicate Accepted(reply: Reply) {
    reply.Response? && reply.status == 200 && reply.payload.Some? && reply.payload.value.ok
  }

  /** No answer, a server error, or an answer that cannot be read. */
  predicate Unanswered(reply: Reply) {
    reply.TransportFailure? || reply.status >= 500 || (reply.status == 200 && reply.payload.None?)
  }

  /** The failures that may pass. */
  predicate Transient(reply: Reply) {
    Unanswered(reply) || reply.status == 429
  }

  /** How long a rate limit asks to wait: what its body says, if that is positive, or else a second. */
  predicate AsksToWait(reply: Reply, wait: Duration) {
    && reply.Response? && reply.status == 429
    && match reply.payload
       case Some(Payload(_, Some(v))) => wait == if v > 0 then v else 1_000_000
       case _ => wait == 1_000_000
  }

  /** The pause after attempt number `attempt`: as asked, or 1, 2, 4, 8, 16 and from then on 30 seconds. */
  predicate PauseFits(reply: Reply, attempt: nat, pause: Duration)
    requires attempt >= 1
  {
    if reply.Response? && reply.status == 429 then AsksToWait(reply, pause)
    else pause == if attempt <= 5 then [1, 2, 4, 8, 16][attempt - 1] * 1_000_000 else 30_000_000
  }

  /** What a call comes to whose last reply is this one. */
  predicate ComesTo(reply: Reply, r: Sending) {
    && (r == Delivered <==> Accepted(reply))
    && (r == Failed(TransportError) <==> Unanswered(reply))
    && (r == Failed(AuthError) <==> reply.Response? && reply.status == 401)
    && (r.Failed? && r.error.RateLimited? <==> reply.Response? && reply.status == 429)
    && (r.Failed? && r.error.RateLimited? ==> AsksToWait(reply, r.error.retryAfter))
  }

  /** Attempt `last` is the one that ends the call. */
  ghost predicate StopsAt(server: nat -> Reply, maxRetries: nat, last: nat) {
    && 1 <= last <= maxRetries
    && (forall n :: 1 <= n < last ==> Transient(server(n)))
    && (last == maxRetries || !Transient(server(last)))
  }

  lemma RetryableIsTransient(reply: Reply)
    ensures Retryable(reply) <==> Transient(reply)
    ensures ComesTo(reply, HandleReply(reply))
  {
  }

  class TelegramClient {
    const maxRetries: nat
    var open: bool
    ghost var sleeps: seq<Duration>
    ghost var requests: nat

    ghost predicate Valid()
      reads this
    {
      maxRetries >= 1
    }

    /** Empty credentials and a retry count below one are rejected. */
    static method Create(botToken: string, chatId: string, maxRetries: int) returns (r: Result<TelegramClient>)
      ensures r.Err? <==> botToken == "" || chatId == "" || maxRetries < 1
      ensures r.Err? ==> r.error == InvalidArgument
      ensures r.Ok? ==>
        fresh(r.value) && r.value.Valid() && r.value.maxRetries == maxRetries && !r.value.open && r.value.sleeps == []
    {
      if botToken == "" || chatId == "" || maxRetries < 1 { return Err(InvalidArgument); }
      var client := new TelegramClient(maxRetries);
      return Ok(client);
    }

    constructor (maxRetries: nat)
      requires maxRetries >= 1
      ensures Valid() && this.maxRetries == maxRetries && !open && sleeps == [] && requests == 0
    {
      this.maxRetries := maxRetries;
      open := false;
      sleeps := [];
      requests := 0;
    }

    method Enter()
      modifies this`open
      ensures open
    {
      open := true;
    }

    method Exit()
      modifies this`open
      ensures !open
    {
      open := false;
    }

    /**
      Attempt n is answered by `server(n)`. Returns after the first attempt
      whose reply is not transient, or after the last allowed one, with one
      pause between two attempts.
     */
    method SendMessage(server: nat -> Reply) returns (r: Sending)
      requires Valid()
      modifies this`sleeps, this`requests
      ensures !open ==> r == Failed(TransportError) && requests == old(requests) && sleeps == old(sleeps)
      ensures open ==> exists last: nat ::
        && StopsAt(server, maxRetries, last)
        && ComesTo(server(last), r)
        && requests == old(requests) + last
        && Paused(server, last, old(sleeps), sleeps)
    {
      if !open { return Failed(TransportError); }
      var attempt := 1;
      while attempt <= maxRetries
        invariant 1 <= attempt <= maxRetries
        invariant forall n :: 1 <= n < attempt ==> Transient(server(n))
        invariant requests == old(requests) + attempt - 1
        invariant Paused(server, attempt, old(sleeps), sleeps)
      {
        var reply := server(attempt);
        requests := requests + 1;
        r := HandleReply(reply);
        RetryableIsTransient(reply);
        if !Retryable(reply) || attempt >= maxRetries {
          assert StopsAt(server, maxRetries, attempt);
          return;
        }
        PauseIsRight(reply, attempt);
        sleeps := sleeps + [DelayAfter(reply, attempt)];
        attempt := attempt + 1;
      }
    }
  }

  /** One pause, as the reply asks, between any two of the attempts up to number `last`. */
  ghost predicate Paused(server: nat -> Reply, last: nat, before: seq<Duration>, after: seq<Duration>)
    requires last >= 1
  {
    && before <= after && |after| == |before| + last - 1
    && forall i :: 1 <= i < last ==> PauseFits(server(i), i, after[|before| + i - 1])
  }

  lemma StopIsUnique(server: nat -> Reply, maxRetries: nat, a: nat, b: nat)
    requires StopsAt(server, maxRetries, a) && StopsAt(server, maxRetries, b)
    ensures a == b
  {
    assert a < b ==> Transient(server(a));
    assert b < a ==> Transient(server(b));
  }

  /**
    A call returns normally if and only if some attempt within the limit was
    accepted and every earlier one could be tried again; so the message really
    was accepted whenever the caller goes on to mark it sent.
   */
  lemma SentIffSomeAttemptAccepted(server: nat -> Reply, maxRetries: nat, last: nat, r: Sending)
    requires StopsAt(server, maxRetries, last) && ComesTo(server(last), r)
    ensures r == Delivered <==>
      exists n :: 1 <= n <= maxRetries && Accepted(server(n)) && forall m :: 1 <= m < n ==> Transient(server(m))
  {
    if n :| 1 <= n <= maxRetries && Accepted(server(n)) && forall m :: 1 <= m < n ==> Transient(server(m)) {
      assert StopsAt(server, maxRetries, n);
      StopIsUnique(server, maxRetries, n, last);
    }
  }

  /** Back-off takes 1, 2, 4, 8 and 16 seconds, then 30 whatever the attempt. */
  lemma RetryDelayShape(attempt: nat)
    requires attempt >= 1
    ensures RetryDelay(attempt) == if attempt <= 5 then [1, 2, 4, 8, 16][attempt - 1] * 1_000_000 else 30_000_000
  {
    assert Power2(1) == 2 && Power2(2) == 4 && Power2(3) == 8 && Power2(4) == 16;
    if attempt >= 6 {
      Power2AtLeast(attempt - 1);
    }
  }

  lemma {:induction false} Power2AtLeast(n: nat)
    requires n >= 5
    ensures Power2(n) >= 32
  {
    if n == 5 {
      assert Power2(5) == 2 * Power2(4) && Power2(4) == 2 * Power2(3) && Power2(3) == 8;
    } else {
      Power2AtLeast(n - 1);
    }
  }

  /** After a rate limit the pause is what Telegram asked for, otherwise the back-off. */
  lemma PauseIsRight(reply: Reply, attempt: nat)
    requires attempt >= 1 && Retryable(reply)
    ensures PauseFits(reply, attempt, DelayAfter(reply, attempt))
  {
    RetryDelayShape(attempt);
  }

  /**
    Over a whole call: after the reply to attempt `i` asked to wait a positive
    time, the next attempt followed after exactly that time, and a call that
    ended with such a reply passes it on.
   */
  lemma PausesRespectRateLimit(server: nat -> Reply, last: nat, before: seq<Duration>, after: seq<Duration>, r: Sending,
                               i: nat, p: Payload, v: Duration)
    requires 1 <= i <= last && Paused(server, last, before, after) && ComesTo(server(last), r)
    requires server(i) == Response(429, Some(p)) && p.retryAfter == Some(v) && v > 0
    ensures if i < last then after[|before| + i - 1] == v else r == Failed(RateLimited(v))
  {
    assert i < last ==> PauseFits(server(i), i, after[|before| + i - 1]);
  }
}
