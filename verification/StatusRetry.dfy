/**
  Asking whether a command was cancelled: up to three attempts within a budget and within
  the command's lease (agent/src/client.ts:155-248, agent/src/transport.ts:58-72).
  Times are whole milliseconds; code between two reads of the clock takes no time, and a
  sleep ends when it is due.
 */
module StatusRetry {
  import opened SourcePaths

  const BUDGET := 15000
  const ATTEMPT := 5000

  datatype Code =
    | RateLimited | Unavailable | Timeout | NetworkFailed
    | AuthorizationRejected | LeaseUnavailable | ResponseInvalid | Unexpected

  const RETRYABLE := {RateLimited, Unavailable, Timeout, NetworkFailed}

  /** When a lease ends, if its text is a date at all. */
  type Deadline = Option<int>

  /** The lease field of a reply: absent, falsy, or a value that is text or not. */
  datatype LeaseField = Absent | Falsy | Value(text: bool, deadline: Deadline)

  datatype Response =
    | Status(cancelled: bool, lease: LeaseField)
    | Malformed
    | Http(status: int)
    | TransportTimeout | TransportNetwork | TransportInvalid
    | Refused

  /** What the server would answer to one attempt, and after how long. */
  datatype Reply = Reply(duration: nat, response: Response)

  datatype Result = Cancelled(cancelled: bool) | Error(code: Code)

  /** One attempt that was made. */
  datatype Attempt = Attempt(started: int, ended: int, result: Result)

  /** The attempts made, how the call ended and when, and the lease known afterwards. */
  datatype Outcome = Outcome(trace: seq<Attempt>, result: Result, ended: int, lease: Option<Deadline>)

  function Min(a: int, b: int): int { if a <= b then a else b }

  function Max(a: int, b: int): int { if a <= b then b else a }

  /** The transport gives up when its own timer or the caller's runs out. */
  function Post(reply: Reply, own: int, timeout: int, now: int): (Response, int) {
    var limit := Max(1, Min(own, timeout));
    if reply.duration < limit then (reply.response, now + reply.duration) else (TransportTimeout, now + limit)
  }

  function HttpCode(status: int): Code {
    if status == 429 then RateLimited
    else if 500 <= status <= 599 then Unavailable
    else if status in {401, 403} then AuthorizationRejected
    else if status in {404, 409, 410} then LeaseUnavailable
    else ResponseInvalid
  }

  /** A reply that does not cancel must not carry a lease that is over or unreadable. */
  predicate LeaseAccepted(cancelled: bool, lease: LeaseField, now: int) {
    cancelled || lease.Absent? || (lease.Value? && lease.text && lease.deadline.Some? && lease.deadline.value > now)
  }

  function Judged(response: Response, now: int): (result: Result)
    ensures result.Cancelled? ==> response.Status?
  {
    match response
    case Status(cancelled, lease) =>
      if LeaseAccepted(cancelled, lease, now) then Cancelled(cancelled) else Error(LeaseUnavailable)
    case Malformed => Error(ResponseInvalid)
    case Http(status) => Error(HttpCode(status))
    case TransportTimeout => Error(Timeout)
    case TransportNetwork => Error(NetworkFailed)
    case TransportInvalid => Error(ResponseInvalid)
    case Refused => Error(Unexpected)
  }

  /** The lease an accepted reply leaves: its own, or a minute from the start of the second
      in which the request went out. */
  function Renewed(lease: LeaseField, started: int): Deadline {
    if lease.Value? then lease.deadline else Some(started - started % 1000 + 60000)
  }

  function Delay(attempt: nat): int { if attempt == 0 then 250 else 750 }

  predicate LeaseOver(lease: Option<Deadline>, now: int) {
    lease.Some? && (lease.value.None? || lease.value.value <= now)
  }

  /** What is left of the lease, or of `other` where that is less or no lease is known. */
  function Within(lease: Option<Deadline>, other: int): int {
    if lease.Some? && lease.value.Some? then Min(other, lease.value.value) else other
  }

  /** One round: no attempt at all, or one and when to start the next, if there is one. */
  datatype Round = NotMade(code: Code) | Made(made: Attempt, lease: Option<Deadline>, next: Option<int>)

  function Once(lease: Option<Deadline>, budget: int, own: int, reply: Reply, attempt: nat, now: int): Round {
    if LeaseOver(lease, now) then NotMade(LeaseUnavailable)
    else
      var timeout := Within(lease, Min(now + ATTEMPT, budget)) - now;
      if timeout <= 0 then NotMade(Timeout)
      else
        var (response, ended) := Post(reply, own, timeout, now);
        var result := Judged(response, ended);
        var made := Attempt(now, ended, result);
        if result.Cancelled? then Made(made, Some(Renewed(response.lease, now)), None)
        else if attempt >= 2 || result.code !in RETRYABLE || ended + Delay(attempt) >= Within(lease, budget) then
          Made(made, lease, None)
        else Made(made, lease, Some(ended + Delay(attempt)))
  }

  /** The call from the given attempt on. */
  function Asked(
    lease: Option<Deadline>, budget: int, own: int, replies: seq<Reply>, attempt: nat, now: int): Outcome
    requires attempt < 3 && |replies| == 3
    decreases 3 - attempt
  {
    match Once(lease, budget, own, replies[attempt], attempt, now)
    case NotMade(code) => Outcome([], Error(code), now, lease)
    case Made(made, after, next) =>
      if next.None? || attempt == 2 then Outcome([made], made.result, made.ended, after)
      else
        var rest := Asked(lease, budget, own, replies, attempt + 1, next.value);
        Outcome([made] + rest.trace, rest.result, rest.ended, rest.lease)
  }

  /** What is still to come completes what was done. */
  predicate Continues(trace: seq<Attempt>, rest: Outcome, whole: Outcome) {
    whole == Outcome(trace + rest.trace, rest.result, rest.ended, rest.lease)
  }

  lemma NothingDone(whole: Outcome)
    ensures Continues([], whole, whole)
  {
    assert [] + whole.trace == whole.trace;
  }

  /** What one round adds to the call. */
  lemma RoundAdds(
    trace: seq<Attempt>, whole: Outcome,
    lease: Option<Deadline>, budget: int, own: int, replies: seq<Reply>, attempt: nat, now: int)
    requires attempt < 3 && |replies| == 3
    requires Continues(trace, Asked(lease, budget, own, replies, attempt, now), whole)
    ensures match Once(lease, budget, own, replies[attempt], attempt, now)
            case NotMade(code) => whole == Outcome(trace, Error(code), now, lease)
            case Made(made, after, next) =>
              if next.None? || attempt == 2 then whole == Outcome(trace + [made], made.result, made.ended, after)
              else Continues(trace + [made], Asked(lease, budget, own, replies, attempt + 1, next.value), whole)
  {
    hide Once;
    var round := Once(lease, budget, own, replies[attempt], attempt, now);
    if round.Made? && round.next.Some? && attempt < 2 {
      var rest := Asked(lease, budget, own, replies, attempt + 1, round.next.value);
      assert trace + ([round.made] + rest.trace) == trace + [round.made] + rest.trace;
    }
  }

  class Client {
    var leaseDeadlines: map<string, Deadline>

    constructor ()
      ensures leaseDeadlines == map[]
    {
      leaseDeadlines := map[];
    }

    function Lease(command: string): Option<Deadline>
      reads this
    {
      if command in leaseDeadlines then Some(leaseDeadlines[command]) else None
    }

    /** readCommandStatus: its loop always returns, so the error after it is never raised. */
    method ReadCommandStatus(command: string, own: int, replies: seq<Reply>, start: int) returns (outcome: Outcome)
      requires |replies| == 3
      modifies this
      ensures outcome == Asked(old(Lease(command)), start + BUDGET, own, replies, 0, start)
      ensures leaseDeadlines
           == if outcome.result.Cancelled? && outcome.lease.Some?
              then old(leaseDeadlines)[command := outcome.lease.value] else old(leaseDeadlines)
    {
      hide Judged, Renewed, Post, Asked, Continues;
      var budget := start + BUDGET;
      var now := start;
      var trace: seq<Attempt> := [];
      ghost var whole := Asked(Lease(command), budget, own, replies, 0, start);
      assert Continues(trace, whole, whole) by { NothingDone(whole); }
      for attempt := 0 to 3
        invariant attempt <= 2
        invariant leaseDeadlines == old(leaseDeadlines)
        invariant Continues(trace, Asked(Lease(command), budget, own, replies, attempt, now), whole)
      {
        var lease := Lease(command);
        RoundAdds(trace, whole, lease, budget, own, replies, attempt, now);
        if lease.Some? && (lease.value.None? || lease.value.value <= now) {
          return Outcome(trace, Error(LeaseUnavailable), now, lease);
        }
        var timeout := Min(ATTEMPT, budget - now);
        if lease.Some? {
          timeout := Min(timeout, lease.value.value - now);
        }
        if timeout <= 0 {
          return Outcome(trace, Error(Timeout), now, lease);
        }
        var started := now;
        var (response, ended) := Post(replies[attempt], own, timeout, now);
        now := ended;
        var result := Judged(response, now);
        trace := trace + [Attempt(started, ended, result)];
        if result.Cancelled? {
          leaseDeadlines := leaseDeadlines[command := Renewed(response.lease, started)];
          return Outcome(trace, result, now, Some(leaseDeadlines[command]));
        }
        if attempt == 2 || result.code !in RETRYABLE {
          return Outcome(trace, result, now, lease);
        }
        var delay := Delay(attempt);
        if now + delay >= (if lease.Some? then Min(budget, lease.value.value) else budget) {
          return Outcome(trace, result, now, lease);
        }
        now := now + delay;
      }
      assert false;
    }
  }

  /** An attempt begins and ends inside the lease and takes at most five seconds. */
  predicate Inside(lease: Option<Deadline>, made: Attempt) {
    && made.started <= made.ended <= made.started + ATTEMPT
    && (lease.Some? ==> lease.value.Some? && made.started < lease.value.value && made.ended <= lease.value.value)
  }

  /** What a further attempt needs: a failure that may be retried, an attempt left, and a
      start inside budget and lease. */
  predicate MayRetry(lease: Option<Deadline>, budget: int, attempt: nat, made: Attempt) {
    && made.result.Error? && made.result.code in RETRYABLE && attempt < 2
    && made.ended + Delay(attempt) < Within(lease, budget)
  }

  /** One round, whatever the server does. */
  lemma OnceIsSound(lease: Option<Deadline>, budget: int, own: int, reply: Reply, attempt: nat, now: int)
    ensures match Once(lease, budget, own, reply, attempt, now)
            case NotMade(code) =>
              if LeaseOver(lease, now) then code == LeaseUnavailable else code == Timeout && budget <= now
            case Made(made, after, next) =>
              && Inside(lease, made) && made.started == now <= made.ended <= budget && now < budget
              && (next.Some? <==> MayRetry(lease, budget, attempt, made))
              && (next.Some? ==> next.value == made.ended + Delay(attempt) < Within(lease, budget))
              && (made.result.Error? ==> after == lease)
  {
    hide Judged, Renewed;
  }

  /** The call from any attempt on stays inside budget and lease. */
  lemma {:induction false} StaysInside(
    lease: Option<Deadline>, budget: int, own: int, replies: seq<Reply>, attempt: nat, now: int)
    requires attempt < 3 && |replies| == 3 && now <= budget
    requires lease.Some? && lease.value.Some? ==> now <= lease.value.value
    ensures var outcome := Asked(lease, budget, own, replies, attempt, now);
            && |outcome.trace| <= 3 - attempt && now <= outcome.ended <= budget
            && (forall made <- outcome.trace :: Inside(lease, made))
            && (lease.Some? && lease.value.Some? ==> outcome.ended <= lease.value.value)
    decreases 3 - attempt
  {
    hide Once;
    OnceIsSound(lease, budget, own, replies[attempt], attempt, now);
    var round := Once(lease, budget, own, replies[attempt], attempt, now);
    if round.Made? && round.next.Some? {
      StaysInside(lease, budget, own, replies, attempt + 1, round.next.value);
    }
  }

  /** A whole call makes at most three attempts, is over within its budget, and neither
      starts nor waits for an attempt beyond the lease. */
  lemma CallIsBounded(lease: Option<Deadline>, own: int, replies: seq<Reply>, start: int)
    requires |replies| == 3
    ensures var outcome := Asked(lease, start + BUDGET, own, replies, 0, start);
            && |outcome.trace| <= 3 && start <= outcome.ended <= start + BUDGET
            && (forall made <- outcome.trace :: Inside(lease, made))
            && (lease.Some? && lease.value.Some? ==> outcome.ended <= Max(start, lease.value.value))
            && (LeaseOver(lease, start) <==> outcome.trace == [])
            && (LeaseOver(lease, start) ==> outcome.result == Error(LeaseUnavailable) && outcome.lease == lease)
  {
    hide Once;
    OnceIsSound(lease, start + BUDGET, own, replies[0], 0, start);
    if !LeaseOver(lease, start) {
      StaysInside(lease, start + BUDGET, own, replies, 0, start);
    }
  }

  /** It retries exactly when it may, after the fixed delay, and the call ends as its last
      attempt did. */
  lemma {:induction false} RetriesExactlyWhenItMay(
    lease: Option<Deadline>, budget: int, own: int, replies: seq<Reply>, attempt: nat, now: int)
    requires attempt < 3 && |replies| == 3 && now < Within(lease, budget) && !LeaseOver(lease, now)
    ensures var outcome := Asked(lease, budget, own, replies, attempt, now);
            var last := |outcome.trace| - 1;
            && outcome.trace != [] && outcome.trace[0].started == now
            && (forall i :: 0 <= i <= last ==>
                  (MayRetry(lease, budget, attempt + i, outcome.trace[i]) <==> i < last))
            && (forall i :: 0 <= i < last ==>
                  outcome.trace[i + 1].started == outcome.trace[i].ended + Delay(attempt + i))
            && outcome.result == outcome.trace[last].result && outcome.ended == outcome.trace[last].ended
    decreases 3 - attempt
  {
    hide Once, MayRetry, Inside;
    OnceIsSound(lease, budget, own, replies[attempt], attempt, now);
    var round := Once(lease, budget, own, replies[attempt], attempt, now);
    var outcome := Asked(lease, budget, own, replies, attempt, now);
    if round.next.Some? {
      LastIsNotRetried(lease, budget, attempt, round.made);
      RetriesExactlyWhenItMay(lease, budget, own, replies, attempt + 1, round.next.value);
      var rest := Asked(lease, budget, own, replies, attempt + 1, round.next.value);
      assert outcome.trace == [round.made] + rest.trace;
      forall i | 0 <= i < |outcome.trace|
        ensures MayRetry(lease, budget, attempt + i, outcome.trace[i]) <==> i < |outcome.trace| - 1
      {
        if i > 0 {
          assert outcome.trace[i] == rest.trace[i - 1];
          assert attempt + i == attempt + 1 + (i - 1);
        }
      }
    }
  }

  lemma LastIsNotRetried(lease: Option<Deadline>, budget: int, attempt: nat, made: Attempt)
    ensures MayRetry(lease, budget, attempt, made) ==> attempt < 2
  {
  }

  // ---- in terms of what the server answered ----

  /** How long an attempt waits: never longer than five seconds, budget and lease allow, nor
      than the transport itself; at least a millisecond. */
  function Patience(lease: Option<Deadline>, budget: int, own: int, now: int): int {
    Max(1, Min(own, Within(lease, Min(now + ATTEMPT, budget)) - now))
  }

  predicate InTime(lease: Option<Deadline>, budget: int, own: int, reply: Reply, now: int) {
    reply.duration < Patience(lease, budget, own, now)
  }

  /** A status that cancels, or one whose lease field is absent or a date still to come. */
  predicate Acceptable(response: Response, ended: int) {
    && response.Status?
    && (response.cancelled || response.lease.Absent?
        || (response.lease.Value? && response.lease.text && response.lease.deadline.Some?
            && ended < response.lease.deadline.value))
  }

  /** What tells nothing about the command: too many requests, a server error, or no answer. */
  predicate Transient(inTime: bool, response: Response) {
    || !inTime || response.TransportTimeout? || response.TransportNetwork?
    || (response.Http? && (response.status == 429 || 500 <= response.status < 600))
  }

  /** The lease an accepted status leaves: the one it names, else a minute from the start of
      the second in which it was asked for. */
  predicate Leaves(response: Response, started: int, lease: Option<Deadline>)
    requires response.Status?
  {
    match response.lease
    case Value(_, deadline) => lease == Some(deadline)
    case _ =>
      && lease.Some? && lease.value.Some? && lease.value.value % 1000 == 0
      && started - 1000 < lease.value.value - 60000 <= started
  }

  /** The error an answer that is not accepted is reported as. */
  predicate Reported(inTime: bool, response: Response, code: Code) {
    match code
    case RateLimited => inTime && response == Http(429)
    case Unavailable => inTime && response.Http? && 500 <= response.status < 600
    case Timeout => !inTime || response.TransportTimeout?
    case NetworkFailed => inTime && response.TransportNetwork?
    case AuthorizationRejected => inTime && (response == Http(401) || response == Http(403))
    case LeaseUnavailable =>
      inTime && (response.Status? || response == Http(404) || response == Http(409) || response == Http(410))
    case ResponseInvalid =>
      inTime && (response.Malformed? || response.TransportInvalid?
                 || (response.Http? && response.status !in {401, 403, 404, 409, 410, 429}
                     && !(500 <= response.status < 600)))
    case Unexpected => inTime && response.Refused?
  }

  /** What one attempt makes of the server's answer. */
  lemma AttemptAnswers(lease: Option<Deadline>, budget: int, own: int, reply: Reply, attempt: nat, now: int)
    requires Once(lease, budget, own, reply, attempt, now).Made?
    ensures var round := Once(lease, budget, own, reply, attempt, now);
            var inTime := InTime(lease, budget, own, reply, now);
            && round.made.started == now
            && round.made.ended == now + (if inTime then reply.duration else Patience(lease, budget, own, now))
            && (round.made.result.Cancelled? <==> inTime && Acceptable(reply.response, round.made.ended))
            && (round.made.result.Cancelled? ==>
                  round.made.result.cancelled == reply.response.cancelled && Leaves(reply.response, now, round.lease))
            && (round.made.result.Error? ==>
                  && Reported(inTime, reply.response, round.made.result.code) && round.lease == lease
                  && (round.made.result.code in RETRYABLE <==> Transient(inTime, reply.response)))
  {
  }

  /** One answer, for the i-th attempt that was made. */
  predicate Answered(lease: Option<Deadline>, budget: int, own: int, reply: Reply, made: Attempt) {
    var inTime := InTime(lease, budget, own, reply, made.started);
    && made.ended == made.started + (if inTime then reply.duration else Patience(lease, budget, own, made.started))
    && (made.result.Cancelled? <==> inTime && Acceptable(reply.response, made.ended))
    && (made.result.Cancelled? ==> made.result.cancelled == reply.response.cancelled)
    && (made.result.Error? ==> Reported(inTime, reply.response, made.result.code))
  }

  /** Another attempt, a quarter or three quarters of a second later. */
  predicate AsksAgain(
    lease: Option<Deadline>, budget: int, own: int, reply: Reply, made: Attempt, attempt: nat)
  {
    var next := made.ended + if attempt == 0 then 250 else 750;
    && attempt < 2 && Transient(InTime(lease, budget, own, reply, made.started), reply.response)
    && next < budget && (lease.Some? && lease.value.Some? ==> next < lease.value.value)
  }

  lemma OnceAnswers(lease: Option<Deadline>, budget: int, own: int, reply: Reply, attempt: nat, now: int)
    requires Once(lease, budget, own, reply, attempt, now).Made?
    ensures var round := Once(lease, budget, own, reply, attempt, now);
            && round.made.started == now && Answered(lease, budget, own, reply, round.made)
            && (round.next.Some? <==> AsksAgain(lease, budget, own, reply, round.made, attempt))
            && (round.next.Some? ==> round.next.value == round.made.ended + if attempt == 0 then 250 else 750)
            && (round.made.result.Cancelled? ==> Leaves(reply.response, now, round.lease) && round.next.None?)
            && (round.made.result.Error? ==> round.lease == lease)
  {
    AttemptAnswers(lease, budget, own, reply, attempt, now);
    hide Post, Judged, Reported, Acceptable, Leaves, Renewed, Patience;
  }

  /** A whole call, told by the server's answers alone: each attempt ends as it was
      answered, another one follows exactly when it may, and the call ends as its last attempt
      did, with the lease that the accepted answer left or the one known before. */
  ghost predicate Followed(
    lease: Option<Deadline>, budget: int, own: int, replies: seq<Reply>, attempt: nat, now: int, outcome: Outcome)
    requires |replies| == 3
  {
    var last := |outcome.trace| - 1;
    && 0 <= last < 3 - attempt && outcome.trace[0].started == now
    && (forall i :: 0 <= i <= last ==>
          && Answered(lease, budget, own, replies[attempt + i], outcome.trace[i])
          && (AsksAgain(lease, budget, own, replies[attempt + i], outcome.trace[i], attempt + i) <==> i < last))
    && (forall i :: 0 <= i < last ==>
          outcome.trace[i + 1].started == outcome.trace[i].ended + if attempt + i == 0 then 250 else 750)
    && outcome.result == outcome.trace[last].result && outcome.ended == outcome.trace[last].ended
    && (if outcome.result.Cancelled?
        then replies[attempt + last].response.Status?
             && Leaves(replies[attempt + last].response, outcome.trace[last].started, outcome.lease)
        else outcome.lease == lease)
  }

  lemma OneIsFollowed(
    lease: Option<Deadline>, budget: int, own: int, replies: seq<Reply>, attempt: nat, made: Attempt,
    after: Option<Deadline>)
    requires attempt < 3 && |replies| == 3 && Answered(lease, budget, own, replies[attempt], made)
    requires !AsksAgain(lease, budget, own, replies[attempt], made, attempt)
    requires if made.result.Cancelled? then Leaves(replies[attempt].response, made.started, after) else after == lease
    ensures Followed(lease, budget, own, replies, attempt, made.started,
                     Outcome([made], made.result, made.ended, after))
  {
    assert made.result.Cancelled? ==> replies[attempt].response.Status?;
    hide Answered, AsksAgain, Leaves;
  }

  lemma MoreAreFollowed(
    lease: Option<Deadline>, budget: int, own: int, replies: seq<Reply>, attempt: nat, made: Attempt, rest: Outcome)
    requires attempt < 2 && |replies| == 3 && Answered(lease, budget, own, replies[attempt], made)
    requires AsksAgain(lease, budget, own, replies[attempt], made, attempt)
    requires Followed(lease, budget, own, replies, attempt + 1, made.ended + if attempt == 0 then 250 else 750, rest)
    ensures Followed(lease, budget, own, replies, attempt, made.started,
                     Outcome([made] + rest.trace, rest.result, rest.ended, rest.lease))
  {
    hide Answered, AsksAgain, Leaves;
    var trace := [made] + rest.trace;
    assert forall i :: 1 <= i < |trace| ==> trace[i] == rest.trace[i - 1] && attempt + i == attempt + 1 + (i - 1);
  }

  lemma {:induction false} CallFollowsAnswers(
    lease: Option<Deadline>, budget: int, own: int, replies: seq<Reply>, attempt: nat, now: int)
    requires attempt < 3 && |replies| == 3 && now < Within(lease, budget) && !LeaseOver(lease, now)
    ensures Followed(lease, budget, own, replies, attempt, now, Asked(lease, budget, own, replies, attempt, now))
    decreases 3 - attempt
  {
    OnceIsSound(lease, budget, own, replies[attempt], attempt, now);
    var round := Once(lease, budget, own, replies[attempt], attempt, now);
    assert round.Made? by { hide Judged, Post; }
    OnceAnswers(lease, budget, own, replies[attempt], attempt, now);
    assert AsksAgain(lease, budget, own, replies[attempt], round.made, attempt) ==> attempt < 2;
    hide Once, Inside, MayRetry, Leaves, Followed, Answered, AsksAgain;
    if round.next.Some? {
      CallFollowsAnswers(lease, budget, own, replies, attempt + 1, round.next.value);
      MoreAreFollowed(lease, budget, own, replies, attempt, round.made,
                      Asked(lease, budget, own, replies, attempt + 1, round.next.value));
    } else {
      OneIsFollowed(lease, budget, own, replies, attempt, round.made, round.lease);
    }
  }
}
