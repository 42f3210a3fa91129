// Agent requests that may be sent again (internal/coordinator/agent.go over
// internal/base/transport/transport.go): the transport's transient retry, the lost-response resend,
// and the turn wait.
//
// An oracle answers the n-th send; the clock advances by what a send takes and by at least each
// completed sleep.
module Agent {
  import opened Common
  import opened Pace

  const MAX_ATTEMPTS := 3
  const RESEND_BUDGET := 30 * SECOND
  const MAX_TURN_HOLD := 25 * SECOND
  const WAIT_POLL_FLOOR := SECOND

  datatype Method = GET | HEAD | DELETE | POST | PUT | PATCH

  datatype Request = Request(verb: Method, path: string, body: string, key: Option<string>,
                             retryOnTransient: bool, streamed: bool)

  // Cancelled: the caller's context ended; not a transport fault.
  datatype Answer =
    | Response(status: int, retryAfter: nat)
    | Connection | Timeout | Cancelled

  datatype Send = Send(answer: Answer, took: nat, sleepCut: bool, backoff: nat)

  // ---------------------------------------------------------------- the transport

  predicate IdempotentMethod(verb: Method) { verb.GET? || verb.HEAD? || verb.DELETE? }

  // The send budget: the transient budget for a request that may be repeated, else one send.
  function RetryAttempts(r: Request, maxAttempts: int): (n: nat)
    ensures 1 <= n <= Max(1, maxAttempts)
    ensures n > 1 ==> !r.streamed && (r.verb == POST || r.verb == PUT || r.verb == PATCH ==> r.retryOnTransient)
    ensures n < maxAttempts ==> r.streamed || (!r.retryOnTransient && !IdempotentMethod(r.verb))
  {
    if maxAttempts > 1 && !r.streamed && (IdempotentMethod(r.verb) || r.retryOnTransient) then maxAttempts else 1
  }

  predicate TransientFault(a: Answer) { a.Connection? || a.Timeout? }

  // Worth another send: a transient fault, or a status the request asks to have sent again.
  predicate Again(a: Answer, retryStatus: int -> bool) {
    TransientFault(a) || (a.Response? && retryStatus(a.status))
  }

  // What n sends from `base` on take, with the backoff after each.
  function Busy(sends: nat -> Send, base: nat, n: nat): int {
    if n == 0 then 0 else Busy(sends, base, n - 1) + sends(base + n - 1).took + sends(base + n - 1).backoff
  }

  // DoRaw from send `base` on: the last answer, after resending on those only.
  method DoRaw(r: Request, retryStatus: int -> bool, maxAttempts: int, base: nat, sends: nat -> Send)
    returns (answer: Answer, sent: seq<Request>, took: nat)
    ensures 1 <= |sent| <= RetryAttempts(r, maxAttempts) && forall i | 0 <= i < |sent| :: sent[i] == r
    ensures answer == sends(base + |sent| - 1).answer
    ensures forall i | base <= i < base + |sent| - 1 :: Again(sends(i).answer, retryStatus) && !sends(i).sleepCut
    ensures took <= Busy(sends, base, |sent| - 1) + sends(base + |sent| - 1).took
    ensures |sent| < RetryAttempts(r, maxAttempts) ==>
      !Again(answer, retryStatus) || sends(base + |sent| - 1).sleepCut
  {
    var attempts := RetryAttempts(r, maxAttempts);
    sent, took := [], 0;
    while true
      invariant |sent| < attempts && forall i | 0 <= i < |sent| :: sent[i] == r
      invariant forall i | base <= i < base + |sent| :: Again(sends(i).answer, retryStatus) && !sends(i).sleepCut
      invariant took <= Busy(sends, base, |sent|)
      decreases attempts - |sent|
    {
      var s := sends(base + |sent|);
      sent := sent + [r];
      took := took + s.took;
      answer := s.answer;
      if !Again(answer, retryStatus) || |sent| >= attempts { return; }
      if s.sleepCut { return; }
      took := took + s.backoff;
    }
  }

  // ---------------------------------------------------------------- resending lost responses

  predicate GatewayStatus(status: int) { status == 408 || status == 502 || status == 503 || status == 504 }

  // Whether the Computer might have acted although the caller saw no answer from it.
  predicate LostResponse(a: Answer) {
    a.Connection? || a.Timeout? || (a.Response? && GatewayStatus(a.status))
  }

  predicate Succeeds(a: Answer) { a.Response? && 200 <= a.status < 300 }

  // Doubles with each attempt, within limits, and waits longer if the answer asks for it.
  function RetryDelay(attempt: nat, a: Answer): int
    requires attempt >= 1
  {
    var grown :=
      if attempt == 1 then SECOND else if attempt == 2 then 2 * SECOND
      else if attempt == 3 then 4 * SECOND else 8 * SECOND;
    Max(Min(grown, 5 * SECOND), if a.Response? then a.retryAfter else 0)
  }

  // The least time the first n waits take.
  function DelaySum(n: nat): int {
    if n == 0 then 0 else DelaySum(n - 1) + RetryDelay(n, Cancelled)
  }

  lemma EighthWaitIsTooLate()
    ensures DelaySum(7) == 27 * SECOND && DelaySum(8) == 32 * SECOND
  {
    assert DelaySum(1) == SECOND;
    assert DelaySum(2) == 3 * SECOND;
    assert DelaySum(3) == 7 * SECOND;
    assert DelaySum(4) == 12 * SECOND;
    assert DelaySum(5) == 17 * SECOND;
    assert DelaySum(6) == 22 * SECOND;
  }

  lemma LeastDelay(issued: nat, a: Answer)
    requires issued >= 1
    ensures RetryDelay(issued, a) >= SECOND
  {
  }

  // A wait is never shorter than the answer asks for, grows from one attempt to the next while it has not
  // reached five seconds, and is no longer than either asks.
  lemma DelayExactly(attempt: nat, a: Answer)
    requires attempt >= 1
    ensures a.Response? ==> RetryDelay(attempt, a) >= a.retryAfter
    ensures RetryDelay(attempt, a) <= Max(5 * SECOND, if a.Response? then a.retryAfter else 0)
    ensures RetryDelay(attempt + 1, Cancelled) == Min(2 * RetryDelay(attempt, Cancelled), 5 * SECOND)
    ensures RetryDelay(1, Cancelled) == SECOND
  {
  }

  // The longest a wait after this answer can be.
  function LongestDelay(a: Answer): int { Max(5 * SECOND, if a.Response? then a.retryAfter else 0) }

  // The most time the first n sends can take, with the backoff and a wait after each.
  function MostBy(sends: nat -> Send, n: nat): int {
    if n == 0 then 0
    else MostBy(sends, n - 1) + sends(n - 1).took + sends(n - 1).backoff + LongestDelay(sends(n - 1).answer)
  }

  lemma {:induction false} MostCoversBusy(sends: nat -> Send, base: nat, n: nat)
    ensures MostBy(sends, base) + Busy(sends, base, n) <= MostBy(sends, base + n)
  {
    if n > 0 { MostCoversBusy(sends, base, n - 1); }
  }

  lemma DelayFits(issued: nat, a: Answer)
    requires issued >= 1
    ensures 0 < RetryDelay(issued, a) <= LongestDelay(a)
  {
  }

  lemma MostOne(sends: nat -> Send, n: nat)
    ensures MostBy(sends, n + 1) == MostBy(sends, n) + sends(n).took + sends(n).backoff + LongestDelay(sends(n).answer)
    ensures MostBy(sends, 0) == 0
  {
  }

  // postAgentTurn. `issued` counts its requests, `sent` is everything that reached the wire, `planned`
  // when each resend was due, measured from the first.
  method PostAgentTurn(path: string, body: string, key: Option<string>, resend: bool, sends: nat -> Send)
    returns (answer: Answer, issued: nat, sent: seq<Request>, planned: seq<int>, elapsed: int)
    ensures 1 <= issued <= 8 && issued <= |sent| <= MAX_ATTEMPTS * issued
    ensures forall i | 0 <= i < |sent| :: sent[i] == Request(POST, path, body, key, resend, false)
    // A request that must not be repeated reaches the wire exactly once.
    ensures !resend ==> issued == 1 && |sent| == 1
    ensures |planned| == issued - 1 && forall i | 0 <= i < |planned| :: 0 < planned[i] <= RESEND_BUDGET
    ensures answer == sends(|sent| - 1).answer
    // Only a lost response is ever sent again, so at most the last answer came from a Computer that answered.
    ensures forall i | 0 <= i < |sent| - 1 :: LostResponse(sends(i).answer) && !sends(i).sleepCut
    // Conversely another request follows, unless none may, the wait would pass the budget, or it is cut.
    ensures Succeeds(answer) || !resend || !LostResponse(answer) || sends(|sent| - 1).sleepCut
         || elapsed + RetryDelay(issued, answer) > RESEND_BUDGET
    ensures elapsed <= MostBy(sends, |sent| - 1) + sends(|sent| - 1).took
  {
    hide DelaySum, RetryDelay, MostBy, LongestDelay, Busy;
    MostOne(sends, 0);
    var r := Request(POST, path, body, key, resend, false);
    var now := 0;
    NoDelay();
    issued, sent, planned := 0, [], [];
    while true
      invariant issued <= 7 && issued <= |sent| <= MAX_ATTEMPTS * issued && |planned| == issued
      invariant forall i | 0 <= i < |sent| :: sent[i] == r && LostResponse(sends(i).answer) && !sends(i).sleepCut
      invariant forall i | 0 <= i < |planned| :: 0 < planned[i] <= RESEND_BUDGET
      invariant issued > 0 ==> resend
      invariant now >= DelaySum(issued) && now >= 0 && now <= MostBy(sends, |sent|)
      decreases 8 - issued
    {
      var more, took;
      answer, more, took := DoRaw(r, (_: int) => false, MAX_ATTEMPTS, |sent|, sends);
      MostCoversBusy(sends, |sent|, |more| - 1);
      sent := sent + more;
      MostOne(sends, |sent| - 1);
      issued := issued + 1;
      now := now + took;
      elapsed := now;
      DelayFits(issued, answer);
      if Succeeds(answer) || !resend || !LostResponse(answer) { return; }
      var wait := RetryDelay(issued, answer);
      if now + wait > RESEND_BUDGET { return; }
      BudgetCovers(issued, now, answer);
      if sends(|sent| - 1).sleepCut { return; }
      planned := planned + [now + wait];
      now := now + wait + sends(|sent| - 1).backoff;
    }
  }

  lemma NoDelay()
    ensures DelaySum(0) == 0
  {
  }

  // A wait that fits the budget is at most the seventh.
  lemma BudgetCovers(issued: nat, now: int, a: Answer)
    requires 1 <= issued <= 8 && now >= DelaySum(issued - 1) && now >= 0 && now + RetryDelay(issued, a) <= RESEND_BUDGET
    ensures issued <= 7 && now + RetryDelay(issued, a) >= DelaySum(issued) && RetryDelay(issued, a) > 0
  {
    EighthWaitIsTooLate();
  }

  // ---------------------------------------------------------------- waiting for a turn

  datatype TurnRead =
    | Turn(state: string)
    | ReadFails(answer: Answer, retryable: bool)
    | Malformed

  datatype Read = Read(result: TurnRead, took: nat, sleepCut: bool, overslept: nat)

  predicate Working(state: string) { state == "running" || state == "canceling" }

  predicate FitsHold(hold: nat, left: int) { hold * SECOND <= Max(left, 0) && hold * SECOND <= MAX_TURN_HOLD }

  // The whole seconds a read may be held: no more than the time left, nor than one request allows.
  function Hold(left: int): (hold: nat)
    ensures FitsHold(hold, left)
    ensures left >= SECOND ==> hold >= 1
  {
    if left <= 0 then 0 else Min(left, MAX_TURN_HOLD) / SECOND
  }

  // The time the wait itself may use: a caller's deadline keeps a second back for the last read.
  function WaitTimeout(timeout: int, untilDeadline: Option<int>): int {
    if untilDeadline.None? then timeout else Max(Min(timeout, untilDeadline.value - SECOND), 0)
  }

  // The most time the first n reads can take, with a pause after each.
  function MostReading(replies: nat -> Read, n: nat): int {
    if n == 0 then 0
    else
      var read := replies(n - 1);
      MostReading(replies, n - 1) + read.took + read.overslept +
      match read.result
      case ReadFails(answer, _) => LongestDelay(answer)
      case _ => WAIT_POLL_FLOOR
  }

  // Why a wait ends without a turn: the last read was malformed, or failed in a way not worth repeating or
  // with no time left, or a pause was cut.
  predicate WaitFails(read: Read, timeUp: bool) {
    match read.result
    case Malformed => true
    case ReadFails(answer, retryable) => !(LostResponse(answer) || retryable) || timeUp || read.sleepCut
    case Turn(_) => false
  }

  // A read after which the wait goes on: the turn is at work, or the read failed in a way worth repeating;
  // and no pause after it was cut, unless the read was held for all it asked.
  predicate ReadsOn(read: Read, hold: nat) {
    match read.result
    case Malformed => false
    case ReadFails(answer, retryable) => (LostResponse(answer) || retryable) && !read.sleepCut
    case Turn(state) => Working(state) && (read.sleepCut ==> 0 < hold * SECOND <= read.took)
  }

  // Each read asked to be held as long as the time left allowed.
  ghost predicate HoldsFit(asked: seq<(nat, int)>) {
    forall i | 0 <= i < |asked| :: FitsHold(asked[i].0, asked[i].1) && asked[i].0 == Hold(asked[i].1)
  }

  ghost predicate AllReadOn(replies: nat -> Read, asked: seq<(nat, int)>, n: int) {
    n <= |asked| && forall i | 0 <= i < n :: ReadsOn(replies(i), asked[i].0)
  }

  lemma NothingAsked(replies: nat -> Read)
    ensures HoldsFit([]) && AllReadOn(replies, [], 0) && MostReading(replies, 0) == 0
  {
  }

  // One more read, and what it takes to go on after it.
  lemma AskedOne(replies: nat -> Read, asked: seq<(nat, int)>, left: int)
    requires HoldsFit(asked) && AllReadOn(replies, asked, |asked|)
    ensures var more, read := asked + [(Hold(left), left)], replies(|asked|);
      && HoldsFit(more) && AllReadOn(replies, more, |asked|)
      && (ReadsOn(read, Hold(left)) ==> AllReadOn(replies, more, |more|))
      && MostReading(replies, |more|) == MostReading(replies, |asked|) + read.took + read.overslept +
           match read.result
           case ReadFails(answer, _) => LongestDelay(answer)
           case _ => WAIT_POLL_FLOOR
  {
    hide ReadsOn, Hold;
  }

  datatype Waited = Returned(state: string) | Errored | Interrupted

  // AgentWait. `asked` is the hold each read asked for and the time left when it did.
  method AgentWait(timeout: int, untilDeadline: Option<int>, replies: nat -> Read)
    returns (w: Waited, asked: seq<(nat, int)>, elapsed: int)
    ensures var t := WaitTimeout(timeout, untilDeadline);
      && 1 <= |asked| <= Ceiling(t, SECOND) + 1
      && (w.Returned? ==> replies(|asked| - 1).result == Turn(w.state))
      // A turn still at work is returned only once the timeout has passed.
      && (w.Returned? && Working(w.state) ==> elapsed >= t)
      && elapsed <= MostReading(replies, |asked| - 1) + replies(|asked| - 1).took
      && (w.Errored? ==> WaitFails(replies(|asked| - 1), elapsed >= t))
      && (w.Interrupted? ==> replies(|asked| - 1).sleepCut)
    ensures HoldsFit(asked)
    ensures asked[0].1 == WaitTimeout(timeout, untilDeadline)
    ensures AllReadOn(replies, asked, |asked| - 1)
  {
    hide Ceiling, Paced, RetryDelay, LongestDelay, HoldsFit, AllReadOn, MostReading, Hold;
    NothingAsked(replies);
    var t := WaitTimeout(timeout, untilDeadline);
    elapsed, asked := 0, [];
    var failures := 0;
    Unhurried(SECOND, t);
    while true
      invariant elapsed <= MostReading(replies, |asked|)
      invariant elapsed >= 0 && Paced(|asked|, SECOND, elapsed, t) && |asked| <= Ceiling(t, SECOND) && failures >= 0
      invariant HoldsFit(asked) && AllReadOn(replies, asked, |asked|)
      invariant if asked == [] then elapsed == 0 else asked[0].1 == t
      decreases Ceiling(t, SECOND) - |asked|
    {
      var left := t - elapsed;
      var hold := Hold(left);
      var read := replies(|asked|);
      ghost var idle := |asked|;
      AskedOne(replies, asked, left);
      asked := asked + [(hold, left)];
      var rest := 0;
      match read.result {
        case Malformed =>
          elapsed := elapsed + read.took;
          return Errored, asked, elapsed;
        case ReadFails(answer, retryable) =>
          elapsed := elapsed + read.took;
          if !(LostResponse(answer) || retryable) || elapsed >= t { return Errored, asked, elapsed; }
          failures := failures + 1;
          DelayFits(failures, answer);
          LeastDelay(failures, answer);
          rest := Min(RetryDelay(failures, answer), t - elapsed);
          if read.sleepCut { return Errored, asked, elapsed; }
          rest := rest + read.overslept;
        case Turn(state) =>
          elapsed := elapsed + read.took;
          failures := 0;
          if !Working(state) || elapsed >= t { return Returned(state), asked, elapsed; }
          if hold == 0 || read.took < hold * SECOND {
            rest := Min(WAIT_POLL_FLOOR, t - elapsed);
            if read.sleepCut { return Interrupted, asked, elapsed; }
            rest := rest + read.overslept;
          }
      }
      PacedStep(idle, SECOND, elapsed - read.took, t, read.took, rest);
      elapsed := elapsed + rest;
    }
  }
}
